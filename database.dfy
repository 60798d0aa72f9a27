/** The persisted tables the route handlers share (the SQLAlchemy session
    over PostgreSQL), as one mutable store. Each handler reads rows, checks
    its guards, assigns fields and commits; when anything fails it calls
    `db.session.rollback()`, so a handler either changes the store as a whole
    or not at all. */
module Database {
  import opened Base
  import opened Users
  import opened CampaignModel
  import opened OtherModel
  import opened Ledger

  /** What a handler answers: the HTTP status and the envelope's `success`. */
  datatype Reply = Reply(code: int, success: bool)

  function Ok(code: int): (r: Reply)
    ensures r.success && r.code == code
  {
    Reply(code, true)
  }

  function Fail(code: int): (r: Reply)
    ensures !r.success && r.code == code
  {
    Reply(code, false)
  }

  /** What a read-only handler answers: an error status, or its data with 200. */
  datatype Served<T> = Refused(code: int) | Served(data: T)

  /** `User.email` is unique. */
  ghost predicate UniqueEmails(users: map<Uuid, User>)
  {
    forall a, b :: a in users && b in users && a != b ==> users[a].email != users[b].email
  }

  function RegistrationNumber(u: User): Option<string>
  {
    if u.profile.PartnerProfile? then u.profile.registrationNumber else None
  }

  /** `Partner.registration_number` is unique (NULLs never clash). */
  ghost predicate UniqueRegistrationNumbers(users: map<Uuid, User>)
  {
    forall a, b :: a in users && b in users && a != b && RegistrationNumber(users[a]).Some? ==>
      RegistrationNumber(users[a]) != RegistrationNumber(users[b])
  }

  /** Foreign keys of the rows that hang off a campaign. */
  ghost predicate ChildrenHaveCampaigns(campaigns: map<Uuid, Campaign>, disbursements: map<Uuid, Disbursement>,
                                        reports: map<Uuid, FraudReport>, documents: map<Uuid, Document>)
  {
    && (forall id :: id in disbursements ==> disbursements[id].campaignId in campaigns)
    && (forall id :: id in reports ==> reports[id].campaignId in campaigns)
    && (forall id :: id in documents && documents[id].campaignId.Some? ==> documents[id].campaignId.value in campaigns)
  }

  /** `Store.Valid` on the contents of the tables. */
  ghost predicate TablesValid(users: map<Uuid, User>, campaigns: map<Uuid, Campaign>, donations: map<Uuid, Donation>,
                              txs: seq<Transaction>, disbursements: map<Uuid, Disbursement>,
                              reports: map<Uuid, FraudReport>, documents: map<Uuid, Document>)
  {
    && Consistent(campaigns, donations, txs)
    && ChildrenHaveCampaigns(campaigns, disbursements, reports, documents)
    && UniqueEmails(users)
    && UniqueRegistrationNumbers(users)
  }

  /** Changing a user's other columns, never the email or the registration
      number, keeps both unique. */
  lemma UserUpdateKeepsUnique(users: map<Uuid, User>, id: Uuid, u: User)
    requires UniqueEmails(users) && UniqueRegistrationNumbers(users)
    requires id in users && u.email == users[id].email && RegistrationNumber(u) == RegistrationNumber(users[id])
    ensures UniqueEmails(users[id := u]) && UniqueRegistrationNumbers(users[id := u])
  {
    var users' := users[id := u];
    forall a, b | a in users' && b in users' && a != b
      ensures users'[a].email != users'[b].email
      ensures RegistrationNumber(users'[a]).Some? ==> RegistrationNumber(users'[a]) != RegistrationNumber(users'[b])
    {
      assert users'[a].email == users[a].email && users'[b].email == users[b].email;
      assert RegistrationNumber(users'[a]) == RegistrationNumber(users[a]);
      assert RegistrationNumber(users'[b]) == RegistrationNumber(users[b]);
    }
  }

  /** Whether email `e` is already registered (`User.query.filter_by(email=e).first()`). */
  predicate EmailTaken(users: map<Uuid, User>, e: string)
  {
    exists id :: id in users && users[id].email == e
  }

  /** Whether inserting a transaction with reference `r` and primary key `id`
      violates a unique constraint. */
  predicate TransactionClash(txs: seq<Transaction>, r: string, id: Uuid)
  {
    ReferenceTaken(txs, r) || exists i :: 0 <= i < |txs| && txs[i].id == id
  }

  /** Whether some donation already carries payment intent `intentId`. */
  predicate IntentTaken(donations: map<Uuid, Donation>, intentId: string)
  {
    exists id :: id in donations && donations[id].transactionId == intentId
  }

  class Store {
    var users: map<Uuid, User>
    var campaigns: map<Uuid, Campaign>
    var donations: map<Uuid, Donation>
    /** Rows of `transactions` in insertion order; no handler deletes one. */
    var transactions: seq<Transaction>
    var disbursements: map<Uuid, Disbursement>
    var fraudReports: map<Uuid, FraudReport>
    var documents: map<Uuid, Document>

    /** The database's own constraints plus what the handlers keep between
        them; the ledger equation is part of `Consistent`. */
    ghost predicate Valid()
      reads this
    {
      TablesValid(users, campaigns, donations, transactions, disbursements, fraudReports, documents)
    }

    /** Freshly created tables (`db.create_all()`). */
    constructor ()
      ensures Valid()
      ensures users == map[] && campaigns == map[] && donations == map[] && transactions == []
      ensures disbursements == map[] && fraudReports == map[] && documents == map[]
    {
      users := map[];
      campaigns := map[];
      donations := map[];
      transactions := [];
      disbursements := map[];
      fraudReports := map[];
      documents := map[];
    }
  }
}
