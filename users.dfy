/** The user records of app/models/user.py. The source's class hierarchy
    User <- Donor | Partner | Admin (joined-table inheritance, discriminated
    by `user_type`) is a record with a role-specific `Profile` variant. */
module Users {
  import opened Base

  /** A stored password hash. Werkzeug's hash is salted with a random salt;
      the model keeps the salt and, in place of the digest, what the digest
      is a function of, so that checking a password is decided by the
      password alone. */
  datatype PasswordHash = PasswordHash(salt: nat, digestOf: string)

  /** `generate_password_hash(password)` with the salt it drew. */
  function GeneratePasswordHash(password: string, salt: nat): PasswordHash
  {
    PasswordHash(salt, password)
  }

  /** `check_password_hash(pwhash, password)` */
  predicate CheckPasswordHash(h: PasswordHash, password: string)
  {
    h.digestOf == password
  }

  /** The columns of the `donors`, `partners` and `admins` tables. */
  datatype Profile =
    | DonorProfile(isAnonymous: bool, totalDonated: int)
    | PartnerProfile(
        organizationName: string,
        organizationType: Option<string>,
        registrationNumber: Option<string>,
        address: Option<string>,
        city: Option<string>,
        country: Option<string>,
        bankAccountNumber: Option<string>,
        bankName: Option<string>)
    | AdminProfile(role: Option<string>)

  /** A row of `users` joined with its role table. */
  datatype User = User(
    email: string,
    passwordHash: PasswordHash,
    firstName: Option<string>,
    lastName: Option<string>,
    phone: Option<string>,
    isActive: bool,
    isVerified: bool,
    createdAt: Instant,
    updatedAt: Instant,
    profile: Profile)

  /** The `user_type` discriminator column. */
  function UserType(u: User): (t: string)
    ensures t == "donor" <==> u.profile.DonorProfile?
    ensures t == "partner" <==> u.profile.PartnerProfile?
    ensures t == "admin" <==> u.profile.AdminProfile?
  {
    match u.profile
    case DonorProfile(_, _) => "donor"
    case PartnerProfile(_, _, _, _, _, _, _, _) => "partner"
    case AdminProfile(_) => "admin"
  }

  /** The role tag is always one of the three roles. */
  lemma UserTypeIsARole(u: User)
    ensures UserType(u) in {"donor", "partner", "admin"}
  {
  }

  /** `User.set_password(password)` */
  function SetPassword(u: User, password: string, salt: nat): (r: User)
    ensures r.passwordHash.salt == salt
    ensures r == u.(passwordHash := r.passwordHash)
  {
    u.(passwordHash := GeneratePasswordHash(password, salt))
  }

  /** `User.check_password(password)` */
  predicate CheckPassword(u: User, password: string)
  {
    CheckPasswordHash(u.passwordHash, password)
  }

  /** After `set_password(p)`, `check_password(q)` holds exactly for q == p,
      whatever salt was drawn. */
  lemma SetThenCheck(u: User, p: string, q: string, salt: nat)
    ensures CheckPassword(SetPassword(u, p, salt), q) <==> q == p
  {
  }

  /** A new Donor as `register_donor` builds it: active, unverified, nothing
      donated yet. */
  function NewDonor(email: string, password: string, salt: nat, firstName: Option<string>,
                    lastName: Option<string>, phone: Option<string>, isAnonymous: bool, now: Instant): (u: User)
    ensures u.isActive && !u.isVerified
    ensures UserType(u) == "donor" && u.profile.totalDonated == 0 && u.profile.isAnonymous == isAnonymous
    ensures u.email == email && CheckPassword(u, password)
  {
    User(email, GeneratePasswordHash(password, salt), firstName, lastName, phone,
         true, false, now, now, DonorProfile(isAnonymous, 0))
  }

  /** A new Partner as `register_partner` builds it: active and unverified. */
  function NewPartner(email: string, password: string, salt: nat, firstName: Option<string>,
                      lastName: Option<string>, phone: Option<string>, organization: Profile, now: Instant): (u: User)
    requires organization.PartnerProfile?
    ensures u.isActive && !u.isVerified
    ensures UserType(u) == "partner" && u.profile == organization
    ensures u.email == email && CheckPassword(u, password)
  {
    User(email, GeneratePasswordHash(password, salt), firstName, lastName, phone,
         true, false, now, now, organization)
  }

  /** What `User.to_dict()` exposes. */
  datatype UserView = UserView(
    id: Uuid, email: string, firstName: Option<string>, lastName: Option<string>,
    phone: Option<string>, userType: string, isActive: bool, isVerified: bool, createdAt: Instant)

  /** `User.to_dict()` */
  function ToDict(id: Uuid, u: User): (v: UserView)
    ensures v.id == id && v.email == u.email && v.userType == UserType(u)
    ensures v.isActive == u.isActive && v.isVerified == u.isVerified
    ensures v.firstName == u.firstName && v.lastName == u.lastName && v.phone == u.phone
    ensures v.createdAt == u.createdAt
  {
    UserView(id, u.email, u.firstName, u.lastName, u.phone, UserType(u), u.isActive, u.isVerified, u.createdAt)
  }

  /** `to_dict` never carries the password hash: users that differ only in
      their hash serialise identically. */
  lemma ToDictHidesPassword(id: Uuid, u: User, h: PasswordHash)
    ensures ToDict(id, u.(passwordHash := h)) == ToDict(id, u)
  {
  }
}
