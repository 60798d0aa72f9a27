/** The handlers of app/routes/auth.py: registration of donors and partners,
    login, and the profile and password updates of the signed-in user. The
    JWT itself is not modelled: a successful registration or login answers
    the id the token is issued for. */
module AuthRoutes {
  import opened Base
  import opened Users
  import opened OtherModel
  import opened Ledger
  import opened Database

  /** Whether some stored partner already carries registration number `r`
      (a NULL number never clashes). */
  predicate RegistrationTaken(users: map<Uuid, User>, r: Option<string>)
  {
    r.Some? && exists id :: id in users && RegistrationNumber(users[id]) == r
  }

  /** Inserting a user whose email and registration number are both new keeps
      the two unique constraints. */
  lemma AddUserKeepsUnique(users: map<Uuid, User>, id: Uuid, u: User)
    requires UniqueEmails(users) && UniqueRegistrationNumbers(users)
    requires id !in users && !EmailTaken(users, u.email) && !RegistrationTaken(users, RegistrationNumber(u))
    ensures UniqueEmails(users[id := u]) && UniqueRegistrationNumbers(users[id := u])
  {
    var users' := users[id := u];
    forall a, b | a in users' && b in users' && a != b
      ensures users'[a].email != users'[b].email
      ensures RegistrationNumber(users'[a]).Some? ==> RegistrationNumber(users'[a]) != RegistrationNumber(users'[b])
    {
      if a == id {
        assert b in users && users'[b] == users[b];
      } else if b == id {
        assert a in users && users'[a] == users[a];
      } else {
        assert users'[a] == users[a] && users'[b] == users[b];
      }
    }
  }

  /** The JSON body of `POST /api/auth/register/donor`. */
  datatype DonorForm = DonorForm(
    email: Option<string>, password: Option<string>, firstName: Option<string>,
    lastName: Option<string>, phone: Option<string>, isAnonymous: bool)

  /** `register_donor`. On success the new donor is stored under `newId`
      (`uuid.uuid4()`, passed in; an id already in use fails the insert). */
  method RegisterDonor(db: Store, form: DonorForm, salt: nat, newId: Uuid, now: Instant) returns (reply: Reply)
    requires db.Valid()
    modifies db
    ensures db.Valid()
    ensures !Given(form.email) || !Given(form.password) || !Given(form.firstName) ==> reply == Fail(400)
    ensures Given(form.email) && Given(form.password) && Given(form.firstName) ==>
      reply == (if EmailTaken(old(db.users), form.email.value) then Fail(400)
                else if newId in old(db.users) then Fail(500)
                else Ok(201))
    ensures !reply.success ==> unchanged(db)
    ensures reply.success ==>
      && db.users == old(db.users)[newId := NewDonor(form.email.value, form.password.value, salt, form.firstName,
                                                    form.lastName, form.phone, form.isAnonymous, now)]
      && db.campaigns == old(db.campaigns) && db.donations == old(db.donations)
      && db.transactions == old(db.transactions) && db.disbursements == old(db.disbursements)
      && db.fraudReports == old(db.fraudReports) && db.documents == old(db.documents)
  {
    if !Given(form.email) || !Given(form.password) || !Given(form.firstName) {
      return Fail(400);
    }
    if EmailTaken(db.users, form.email.value) {
      return Fail(400);
    }
    if newId in db.users {
      return Fail(500);
    }
    var u := NewDonor(form.email.value, form.password.value, salt, form.firstName, form.lastName, form.phone,
                      form.isAnonymous, now);
    AddUserKeepsUnique(db.users, newId, u);
    db.users := db.users[newId := u];
    reply := Ok(201);
  }

  /** The JSON body of `POST /api/auth/register/partner`. */
  datatype PartnerForm = PartnerForm(
    email: Option<string>, password: Option<string>, firstName: Option<string>,
    lastName: Option<string>, phone: Option<string>,
    organizationName: Option<string>, organizationType: Option<string>,
    registrationNumber: Option<string>, address: Option<string>, city: Option<string>,
    country: Option<string>, bankAccountNumber: Option<string>, bankName: Option<string>)

  /** The five fields `register_partner` requires to be truthy. */
  predicate PartnerFieldsGiven(form: PartnerForm)
  {
    Given(form.email) && Given(form.password) && Given(form.firstName)
    && Given(form.organizationName) && Given(form.organizationType)
  }

  /** The `partners` columns built from the form. */
  function Organization(form: PartnerForm): (p: Profile)
    requires form.organizationName.Some?
    ensures p.PartnerProfile? && p.organizationName == form.organizationName.value
    ensures p.registrationNumber == form.registrationNumber
    ensures p.bankAccountNumber == form.bankAccountNumber && p.bankName == form.bankName
  {
    PartnerProfile(form.organizationName.value, form.organizationType, form.registrationNumber,
                   form.address, form.city, form.country, form.bankAccountNumber, form.bankName)
  }

  /** `register_partner`. A registration number another partner already holds
      violates its unique constraint at commit. */
  method RegisterPartner(db: Store, form: PartnerForm, salt: nat, newId: Uuid, now: Instant) returns (reply: Reply)
    requires db.Valid()
    modifies db
    ensures db.Valid()
    ensures !PartnerFieldsGiven(form) ==> reply == Fail(400)
    ensures PartnerFieldsGiven(form) ==>
      reply == (if EmailTaken(old(db.users), form.email.value) then Fail(400)
                else if newId in old(db.users) || RegistrationTaken(old(db.users), form.registrationNumber) then Fail(500)
                else Ok(201))
    ensures !reply.success ==> unchanged(db)
    ensures reply.success ==>
      && db.users == old(db.users)[newId := NewPartner(form.email.value, form.password.value, salt, form.firstName,
                                                      form.lastName, form.phone, Organization(form), now)]
      && db.campaigns == old(db.campaigns) && db.donations == old(db.donations)
      && db.transactions == old(db.transactions) && db.disbursements == old(db.disbursements)
      && db.fraudReports == old(db.fraudReports) && db.documents == old(db.documents)
  {
    if !PartnerFieldsGiven(form) {
      return Fail(400);
    }
    if EmailTaken(db.users, form.email.value) {
      return Fail(400);
    }
    if newId in db.users || RegistrationTaken(db.users, form.registrationNumber) {
      return Fail(500);
    }
    var u := NewPartner(form.email.value, form.password.value, salt, form.firstName, form.lastName, form.phone,
                        Organization(form), now);
    AddUserKeepsUnique(db.users, newId, u);
    db.users := db.users[newId := u];
    reply := Ok(201);
  }

  /** `User.query.filter_by(email=e).first()`: some user with that email, if any. */
  ghost function FindByEmail(users: map<Uuid, User>, e: string): (r: Option<Uuid>)
    ensures r.Some? ==> r.value in users && users[r.value].email == e
    ensures r.None? <==> !EmailTaken(users, e)
  {
    if EmailTaken(users, e) then
      var id :| id in users && users[id].email == e;
      Some(id)
    else
      None
  }

  /** With unique emails the lookup finds exactly the user holding the email. */
  lemma FindByEmailExact(users: map<Uuid, User>, id: Uuid)
    requires UniqueEmails(users) && id in users
    ensures FindByEmail(users, users[id].email) == Some(id)
  {
    var r := FindByEmail(users, users[id].email);
    assert r.Some?;
    assert users[r.value].email == users[id].email;
  }

  /** How `login` ends. */
  datatype LoginOutcome = MissingCredentials | InvalidCredentials | AccountInactive | LoggedIn(id: Uuid)

  /** The status code of each outcome. */
  function LoginCode(o: LoginOutcome): (code: int)
    ensures code == 200 <==> o.LoggedIn?
    ensures code == 400 <==> o.MissingCredentials?
  {
    match o
    case MissingCredentials => 400
    case InvalidCredentials => 401
    case AccountInactive => 401
    case LoggedIn(_) => 200
  }

  /** `login`: missing fields first, then an unknown email or a wrong password
      alike, and only then the inactive account. */
  ghost function Login(users: map<Uuid, User>, email: Option<string>, password: Option<string>): (r: LoginOutcome)
    ensures r.LoggedIn? ==> r.id in users && users[r.id].isActive
    ensures r.AccountInactive? ==> Given(email) && EmailTaken(users, email.value)
  {
    if !Given(email) || !Given(password) then MissingCredentials
    else
      match FindByEmail(users, email.value)
      case None => InvalidCredentials
      case Some(id) =>
        if !CheckPassword(users[id], password.value) then InvalidCredentials
        else if !users[id].isActive then AccountInactive
        else LoggedIn(id)
  }

  /** A login succeeds exactly for an active user whose email and password
      were both sent. */
  lemma LoginSucceedsExactly(users: map<Uuid, User>, email: Option<string>, password: Option<string>, id: Uuid)
    requires UniqueEmails(users)
    ensures Login(users, email, password) == LoggedIn(id) <==>
      && Given(email) && Given(password)
      && id in users && users[id].email == email.value
      && CheckPassword(users[id], password.value) && users[id].isActive
  {
    if Given(email) && Given(password) && id in users && users[id].email == email.value {
      FindByEmailExact(users, id);
    }
  }

  /** "User account is inactive" is only ever answered to a caller who knew
      the password: it reveals nothing to someone guessing. */
  lemma InactiveOnlyWithPassword(users: map<Uuid, User>, email: Option<string>, password: Option<string>, id: Uuid)
    requires UniqueEmails(users)
    requires Login(users, email, password) == AccountInactive
    requires id in users && users[id].email == email.value
    ensures CheckPassword(users[id], password.value) && !users[id].isActive
  {
    FindByEmailExact(users, id);
  }

  /** A user stored by registration (active, with a fresh email and the
      password they chose) can log in with that email and password. */
  lemma RegisteredUserLogsIn(users: map<Uuid, User>, id: Uuid, u: User, password: string)
    requires UniqueEmails(users) && id !in users && !EmailTaken(users, u.email)
    requires u.email != "" && password != "" && u.isActive && CheckPassword(u, password)
    ensures Login(users[id := u], Some(u.email), Some(password)) == LoggedIn(id)
  {
    var users' := users[id := u];
    assert UniqueEmails(users') by {
      forall a, b | a in users' && b in users' && a != b
        ensures users'[a].email != users'[b].email
      {
        if a != id && b != id {
          assert users'[a] == users[a] && users'[b] == users[b];
        }
      }
    }
    LoginSucceedsExactly(users', Some(u.email), Some(password), id);
  }

  /** `update_profile`: only `@jwt_required`, so the identity's row is looked
      up here; each of the three fields is assigned when its key is present. */
  function UpdatedProfile(u: User, firstName: Patch<Option<string>>, lastName: Patch<Option<string>>,
                          phone: Patch<Option<string>>): (r: User)
    ensures r.firstName == Apply(firstName, u.firstName) && r.lastName == Apply(lastName, u.lastName)
    ensures r.phone == Apply(phone, u.phone)
    ensures r.email == u.email && r.passwordHash == u.passwordHash && r.profile == u.profile
    ensures r.isActive == u.isActive && r.isVerified == u.isVerified
    ensures r.createdAt == u.createdAt && r.updatedAt == u.updatedAt
  {
    u.(firstName := Apply(firstName, u.firstName), lastName := Apply(lastName, u.lastName),
       phone := Apply(phone, u.phone))
  }

  /** Sending the same profile update twice leaves the row as the first did. */
  lemma UpdatedProfileIdempotent(u: User, firstName: Patch<Option<string>>, lastName: Patch<Option<string>>,
                                 phone: Patch<Option<string>>)
    ensures UpdatedProfile(UpdatedProfile(u, firstName, lastName, phone), firstName, lastName, phone)
         == UpdatedProfile(u, firstName, lastName, phone)
  {
    var once := UpdatedProfile(u, firstName, lastName, phone);
    var twice := UpdatedProfile(once, firstName, lastName, phone);
    assert twice.firstName == once.firstName by { ApplyIdempotent(firstName, u.firstName); }
    assert twice.lastName == once.lastName by { ApplyIdempotent(lastName, u.lastName); }
    assert twice.phone == once.phone by { ApplyIdempotent(phone, u.phone); }
  }

  lemma ApplyIdempotent<T>(p: Patch<T>, v: T)
    ensures Apply(p, Apply(p, v)) == Apply(p, v)
  {
  }

  method UpdateProfile(db: Store, caller: Uuid, firstName: Patch<Option<string>>, lastName: Patch<Option<string>>,
                       phone: Patch<Option<string>>) returns (reply: Reply)
    requires db.Valid()
    modifies db
    ensures db.Valid()
    ensures reply == (if caller in old(db.users) then Ok(200) else Fail(404))
    ensures !reply.success ==> unchanged(db)
    ensures reply.success ==>
      && db.users == old(db.users)[caller := UpdatedProfile(old(db.users)[caller], firstName, lastName, phone)]
      && db.campaigns == old(db.campaigns) && db.donations == old(db.donations)
      && db.transactions == old(db.transactions) && db.disbursements == old(db.disbursements)
      && db.fraudReports == old(db.fraudReports) && db.documents == old(db.documents)
  {
    if caller !in db.users {
      return Fail(404);
    }
    var u := UpdatedProfile(db.users[caller], firstName, lastName, phone);
    UserUpdateKeepsUnique(db.users, caller, u);
    db.users := db.users[caller := u];
    reply := Ok(200);
  }

  /** `change_password`: 404 for an unknown identity, 400 unless both
      passwords are sent, 401 when the old one does not check. */
  method ChangePassword(db: Store, caller: Uuid, oldPassword: Option<string>, newPassword: Option<string>, salt: nat)
    returns (reply: Reply)
    requires db.Valid()
    modifies db
    ensures db.Valid()
    ensures caller !in old(db.users) ==> reply == Fail(404)
    ensures caller in old(db.users) ==>
      reply == (if !Given(oldPassword) || !Given(newPassword) then Fail(400)
                else if !CheckPassword(old(db.users)[caller], oldPassword.value) then Fail(401)
                else Ok(200))
    ensures !reply.success ==> unchanged(db)
    ensures reply.success ==>
      && db.users == old(db.users)[caller := SetPassword(old(db.users)[caller], newPassword.value, salt)]
      && db.campaigns == old(db.campaigns) && db.donations == old(db.donations)
      && db.transactions == old(db.transactions) && db.disbursements == old(db.disbursements)
      && db.fraudReports == old(db.fraudReports) && db.documents == old(db.documents)
  {
    if caller !in db.users {
      return Fail(404);
    }
    if !Given(oldPassword) || !Given(newPassword) {
      return Fail(400);
    }
    if !CheckPassword(db.users[caller], oldPassword.value) {
      return Fail(401);
    }
    var u := SetPassword(db.users[caller], newPassword.value, salt);
    UserUpdateKeepsUnique(db.users, caller, u);
    db.users := db.users[caller := u];
    reply := Ok(200);
  }

  /** After a password change an active user logs in with the new password,
      and the old one, when different, is refused as invalid credentials. */
  lemma ChangedPasswordLogsIn(users: map<Uuid, User>, id: Uuid, oldPassword: string, newPassword: string, salt: nat)
    requires UniqueEmails(users) && id in users && users[id].isActive && users[id].email != ""
    requires oldPassword != "" && newPassword != "" && oldPassword != newPassword
    ensures Login(users[id := SetPassword(users[id], newPassword, salt)], Some(users[id].email), Some(newPassword))
         == LoggedIn(id)
    ensures Login(users[id := SetPassword(users[id], newPassword, salt)], Some(users[id].email), Some(oldPassword))
         == InvalidCredentials
  {
    var u := SetPassword(users[id], newPassword, salt);
    var users' := users[id := u];
    SetThenCheck(users[id], newPassword, newPassword, salt);
    SetThenCheck(users[id], newPassword, oldPassword, salt);
    assert UniqueEmails(users') by {
      forall a, b | a in users' && b in users' && a != b
        ensures users'[a].email != users'[b].email
      {
        assert users'[a].email == users[a].email && users'[b].email == users[b].email;
      }
    }
    FindByEmailExact(users', id);
  }
}
