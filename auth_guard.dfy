/** The allow/deny decisions of the `token_required` and `role_required`
    decorators of app/utils/auth.py. Verifying the JWT itself is left to a
    parameter: either it yielded an identity or it raised. */
module AuthGuard {
  import opened Base
  import opened Users

  /** The outcome of `verify_jwt_in_request()` and `get_jwt_identity()`. */
  datatype Token = Verified(identity: Uuid) | Invalid

  /** What a decorator decides: run the wrapped view as `user`, or answer
      with an error status. */
  datatype Decision = Allow(user: Uuid) | Deny(code: int)

  /** Whether `id` is a stored user whose `user_type` is one of `roles`. */
  predicate HasRole(users: map<Uuid, User>, id: Uuid, roles: set<string>)
  {
    id in users && UserType(users[id]) in roles
  }

  /** `role_required(*roles)`: a token that fails verification gives 401; a
      verified caller who is not a stored user of an allowed role gives 403. */
  function RoleRequired(users: map<Uuid, User>, token: Token, roles: set<string>): (d: Decision)
    ensures token.Invalid? ==> d == Deny(401)
    ensures token.Verified? && !HasRole(users, token.identity, roles) ==> d == Deny(403)
    ensures d.Allow? <==> token.Verified? && HasRole(users, token.identity, roles)
    ensures d.Allow? ==> d.user == token.identity
  {
    match token
    case Invalid => Deny(401)
    case Verified(id) => if HasRole(users, id, roles) then Allow(id) else Deny(403)
  }

  /** `token_required`: missing or inactive users are refused with 401, as is
      a token that fails verification. */
  function TokenRequired(users: map<Uuid, User>, token: Token): (d: Decision)
    ensures d.Deny? ==> d.code == 401
    ensures d.Allow? <==> token.Verified? && token.identity in users && users[token.identity].isActive
  {
    match token
    case Invalid => Deny(401)
    case Verified(id) => if id in users && users[id].isActive then Allow(id) else Deny(401)
  }

  /** A decorated view: the result of the view, or the decorator's error. */
  datatype Guarded<T> = Denied(code: int) | Ran(result: T)

  /** `decorated(*args)`: the wrapped view `view` runs only when the
      decision allows it, and then for the allowed user. */
  function Guard<T>(d: Decision, view: Uuid -> T): (r: Guarded<T>)
    ensures r.Ran? <==> d.Allow?
    ensures r.Denied? ==> r.code == d.code
  {
    match d
    case Deny(code) => Denied(code)
    case Allow(id) => Ran(view(id))
  }

  /** A view behind `role_required(*roles)` runs only for a verified, stored
      user of one of those roles, and then on that user's behalf. */
  lemma RoleGuardRunsOnlyForRoles<T>(users: map<Uuid, User>, token: Token, roles: set<string>, view: Uuid -> T)
    ensures Guard(RoleRequired(users, token, roles), view).Ran? ==>
      token.Verified? && HasRole(users, token.identity, roles)
      && Guard(RoleRequired(users, token, roles), view).result == view(token.identity)
    ensures Guard(RoleRequired(users, token, roles), view).Denied? ==>
      Guard(RoleRequired(users, token, roles), view).code in {401, 403}
  {
  }

  /** An admin passes `role_required('admin')` and nobody else does; in
      particular a partner or a donor is refused with 403. */
  lemma OnlyAdminsPassAdminGuard(users: map<Uuid, User>, id: Uuid)
    requires id in users
    ensures RoleRequired(users, Verified(id), {"admin"}).Allow? <==> users[id].profile.AdminProfile?
    ensures !users[id].profile.AdminProfile? ==> RoleRequired(users, Verified(id), {"admin"}) == Deny(403)
  {
  }
}
