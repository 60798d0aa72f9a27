/** The donor routes of app/routes/donor.py: taking a donation, confirming
    its payment (the only place where money reaches a campaign), and the two
    campaign listings whose selection and order are computed in Python or
    by a query filter. The payment gateway of app/utils/payment.py is not
    modelled; what it answers is a parameter. */
module DonorRoutes {
  import opened Base
  import opened Users
  import opened CampaignModel
  import opened OtherModel
  import opened Ledger
  import opened Database

  /** A payment intent as the gateway's create call returns it. */
  datatype Intent = Intent(id: string, clientSecret: string, currency: string)

  /** `create_payment_intent(...)`: an intent, or the gateway's error text. */
  datatype IntentResult = IntentCreated(intent: Intent) | IntentError(message: string)

  /** `verify_payment_intent(donation.transaction_id)`: the status and
      currency of the intent retrieved under that id, or an error text. */
  datatype Verification = Retrieved(status: string, currency: string) | VerifyFailed(message: string)

  predicate IsDonor(users: map<Uuid, User>, id: Uuid)
  {
    id in users && users[id].profile.DonorProfile?
  }

  /** The checks `create_donation` makes before it calls the gateway, in
      their order; None when every check passes. */
  function DonationPrecheck(users: map<Uuid, User>, campaigns: map<Uuid, Campaign>, caller: Uuid,
                            campaignId: Option<Uuid>, amount: Json): (r: Option<Reply>)
    ensures r.Some? ==> !r.value.success
  {
    if !IsDonor(users, caller) then Some(Fail(401))
    else if campaignId.None? || !Truthy(amount) then Some(Fail(400))
    else if campaignId.value !in campaigns then Some(Fail(404))
    else if Float(amount).None? then Some(Fail(500))
    else if Float(amount).value <= 0 then Some(Fail(400))
    else None
  }

  /** The gateway is reached exactly for a donor naming an existing campaign
      (approved or not) with a positive amount; a caller who is not a donor
      is refused before anything about the request is looked at. */
  lemma DonationPrecheckPasses(users: map<Uuid, User>, campaigns: map<Uuid, Campaign>, caller: Uuid,
                               campaignId: Option<Uuid>, amount: Json)
    ensures DonationPrecheck(users, campaigns, caller, campaignId, amount).None? <==>
      && IsDonor(users, caller)
      && campaignId.Some? && campaignId.value in campaigns
      && Truthy(amount) && Float(amount).Some? && Float(amount).value > 0
    ensures !IsDonor(users, caller) ==> DonationPrecheck(users, campaigns, caller, campaignId, amount) == Some(Fail(401))
    ensures IsDonor(users, caller) && campaignId.Some? && campaignId.value in campaigns && Float(amount) == Some(0) ==>
      DonationPrecheck(users, campaigns, caller, campaignId, amount) == Some(Fail(400))
  {
  }

  /** `create_donation`. Returns the reply and whether the gateway was
      called. Nothing is stored unless the reply is 201; then exactly one
      pending donation is added, tied to the new intent. */
  method CreateDonation(db: Store, caller: Uuid, campaignId: Option<Uuid>, amount: Json, isAnonymous: bool,
                        message: Option<string>, gateway: IntentResult, newId: Uuid, now: Instant)
    returns (reply: Reply, gatewayCalled: bool)
    requires db.Valid()
    modifies db
    ensures db.Valid()
    ensures gatewayCalled <==> DonationPrecheck(old(db.users), old(db.campaigns), caller, campaignId, amount).None?
    ensures !gatewayCalled ==> reply == DonationPrecheck(old(db.users), old(db.campaigns), caller, campaignId, amount).value
    ensures gatewayCalled && gateway.IntentError? ==> reply == Fail(400)
    ensures gatewayCalled && gateway.IntentCreated? ==>
      reply == (if newId in old(db.donations) || IntentTaken(old(db.donations), gateway.intent.id) then Fail(500) else Ok(201))
    ensures !reply.success ==> unchanged(db)
    ensures reply.success ==> gatewayCalled && gateway.IntentCreated? && campaignId.Some? && Float(amount).Some?
    ensures reply.success ==>
      && db.donations == old(db.donations)[newId := NewDonation(campaignId.value, caller, Float(amount).value,
                                                                isAnonymous, message, gateway.intent.id, now)]
      && db.users == old(db.users) && db.campaigns == old(db.campaigns) && db.transactions == old(db.transactions)
      && db.disbursements == old(db.disbursements) && db.fraudReports == old(db.fraudReports)
      && db.documents == old(db.documents)
  {
    var check := DonationPrecheck(db.users, db.campaigns, caller, campaignId, amount);
    if check.Some? {
      return check.value, false;
    }
    gatewayCalled := true;
    if gateway.IntentError? {
      return Fail(400), true;
    }
    if newId in db.donations || IntentTaken(db.donations, gateway.intent.id) {
      return Fail(500), true;
    }
    var d := NewDonation(campaignId.value, caller, Float(amount).value, isAnonymous, message, gateway.intent.id, now);
    NewDonationKeepsConsistent(db.campaigns, db.donations, db.transactions, newId, d);
    db.donations := db.donations[newId := d];
    reply := Ok(201);
  }

  /** The donor row after `total_donated += amount`. */
  function AddToTotal(u: User, amount: int): (r: User)
    requires u.profile.DonorProfile?
    ensures r.profile.DonorProfile? && r.profile.totalDonated == u.profile.totalDonated + amount
    ensures r.profile.isAnonymous == u.profile.isAnonymous && r.email == u.email && r.isActive == u.isActive
  {
    u.(profile := u.profile.(totalDonated := u.profile.totalDonated + amount))
  }

  /** The users table after a confirmation: the CONFIRMING user's total rises
      by the donation's amount when the donation is not anonymous and that
      user is a Donor; nobody else's record changes. */
  function CreditConfirmingUser(users: map<Uuid, User>, caller: Uuid, d: Donation): (r: map<Uuid, User>)
    requires caller in users
    ensures r.Keys == users.Keys
    ensures forall id :: id in users && id != caller ==> r[id] == users[id]
    ensures r[caller] != users[caller] ==> !d.isAnonymous && users[caller].profile.DonorProfile?
    ensures !d.isAnonymous && users[caller].profile.DonorProfile? ==>
      r[caller].profile.DonorProfile? && r[caller].profile.totalDonated == users[caller].profile.totalDonated + d.amount
    ensures r[caller].email == users[caller].email && RegistrationNumber(r[caller]) == RegistrationNumber(users[caller])
  {
    if !d.isAnonymous && users[caller].profile.DonorProfile? then users[caller := AddToTotal(users[caller], d.amount)]
    else users
  }

  /** The transaction row `confirm_donation` records for donation `id`. */
  function PaymentRecord(txId: Uuid, id: Uuid, d: Donation, currency: string, now: Instant): (t: Transaction)
    ensures t.donationId == id && t.status == TransactionStatus.Success
    ensures t.reference == d.transactionId && t.amount == d.amount
    ensures t.paymentMethod == Some("stripe") && t.processedAt == Some(now)
    ensures t.currency == Upper(currency)
  {
    Transaction(txId, id, Some("stripe"), d.transactionId, d.amount, Upper(currency), TransactionStatus.Success,
                None, now, Some(now))
  }

  /** A successful confirmation keeps every table constraint. */
  lemma ConfirmKeepsTables(users: map<Uuid, User>, campaigns: map<Uuid, Campaign>, donations: map<Uuid, Donation>,
                           txs: seq<Transaction>, disbursements: map<Uuid, Disbursement>,
                           reports: map<Uuid, FraudReport>, documents: map<Uuid, Document>,
                           caller: Uuid, id: Uuid, t: Transaction, now: Instant)
    requires TablesValid(users, campaigns, donations, txs, disbursements, reports, documents)
    requires caller in users && id in donations
    requires t.donationId == id && t.status == TransactionStatus.Success
    requires t.reference == donations[id].transactionId && t.amount == donations[id].amount
    requires !ReferenceTaken(txs, t.reference)
    ensures donations[id].campaignId in campaigns
    ensures TablesValid(CreditConfirmingUser(users, caller, donations[id]),
                        campaigns[donations[id].campaignId := Credit(campaigns[donations[id].campaignId], donations[id].amount)],
                        donations[id := MarkCompleted(donations[id], now)],
                        txs + [t], disbursements, reports, documents)
  {
    ConfirmKeepsConsistent(campaigns, donations, txs, id, t, now);
    if !donations[id].isAnonymous && users[caller].profile.DonorProfile? {
      UserUpdateKeepsUnique(users, caller, AddToTotal(users[caller], donations[id].amount));
    }
  }

  /** The writes of a confirmation that reaches its commit: the donation is
      completed, the payment recorded, the campaign and the confirming
      user's total credited. */
  method RecordPayment(db: Store, caller: Uuid, id: Uuid, t: Transaction, now: Instant)
    requires db.Valid()
    requires caller in db.users && id in db.donations
    requires t.donationId == id && t.status == TransactionStatus.Success
    requires t.reference == db.donations[id].transactionId && t.amount == db.donations[id].amount
    requires !ReferenceTaken(db.transactions, t.reference)
    modifies db
    ensures db.Valid()
    ensures FundsNeverDecrease(old(db.campaigns), db.campaigns)
    ensures
      var d := old(db.donations)[id];
      && d.campaignId in old(db.campaigns)
      && db.donations == old(db.donations)[id := MarkCompleted(d, now)]
      && db.campaigns == old(db.campaigns)[d.campaignId := Credit(old(db.campaigns)[d.campaignId], d.amount)]
      && db.transactions == old(db.transactions) + [t]
      && db.users == CreditConfirmingUser(old(db.users), caller, d)
      && db.disbursements == old(db.disbursements) && db.fraudReports == old(db.fraudReports)
      && db.documents == old(db.documents)
  {
    var d := db.donations[id];
    ConfirmKeepsTables(db.users, db.campaigns, db.donations, db.transactions, db.disbursements, db.fraudReports,
                       db.documents, caller, id, t, now);
    db.users, db.campaigns, db.donations, db.transactions :=
      CreditConfirmingUser(db.users, caller, d),
      db.campaigns[d.campaignId := Credit(db.campaigns[d.campaignId], d.amount)],
      db.donations[id := MarkCompleted(d, now)],
      db.transactions + [t];
  }

  /** `confirm_donation`. The donation's own status is not looked at: a
      second confirmation gets as far as the commit and fails there on the
      unique transaction reference (500, rolled back). A payment that has not
      succeeded leaves everything as it was, the donation still pending. */
  method ConfirmDonation(db: Store, caller: Uuid, donationId: Uuid, verification: Verification,
                         newTxId: Uuid, now: Instant)
    returns (reply: Reply)
    requires db.Valid()
    modifies db
    ensures db.Valid()
    ensures FundsNeverDecrease(old(db.campaigns), db.campaigns)
    ensures caller !in old(db.users) ==> reply == Fail(401)
    ensures caller in old(db.users) && donationId !in old(db.donations) ==> reply == Fail(404)
    ensures caller in old(db.users) && donationId in old(db.donations) ==>
      reply == (if verification.VerifyFailed? || verification.status != "succeeded" then Fail(400)
                else if TransactionClash(old(db.transactions), old(db.donations)[donationId].transactionId, newTxId)
                then Fail(500)
                else Ok(200))
    ensures !reply.success ==> unchanged(db)
    ensures reply.success ==> caller in old(db.users) && donationId in old(db.donations) && verification.Retrieved?
    ensures reply.success ==>
      var d := old(db.donations)[donationId];
      && d.status == DonationStatus.Pending
      && d.campaignId in old(db.campaigns)
      && db.donations == old(db.donations)[donationId := MarkCompleted(d, now)]
      && db.campaigns == old(db.campaigns)[d.campaignId := Credit(old(db.campaigns)[d.campaignId], d.amount)]
      && db.transactions == old(db.transactions) + [PaymentRecord(newTxId, donationId, d, verification.currency, now)]
      && db.users == CreditConfirmingUser(old(db.users), caller, d)
      && db.disbursements == old(db.disbursements) && db.fraudReports == old(db.fraudReports)
      && db.documents == old(db.documents)
  {
    if caller !in db.users {
      return Fail(401);
    }
    if donationId !in db.donations {
      return Fail(404);
    }
    var d := db.donations[donationId];
    if verification.VerifyFailed? || verification.status != "succeeded" {
      return Fail(400);
    }
    if TransactionClash(db.transactions, d.transactionId, newTxId) {
      return Fail(500);
    }
    ReferenceTakenIffCompleted(db.campaigns, db.donations, db.transactions, donationId);
    RecordPayment(db, caller, donationId, PaymentRecord(newTxId, donationId, d, verification.currency, now), now);
    reply := Ok(200);
  }

  // ---------------------------------------------------------------------
  // get_priority_campaigns

  /** `urgency_order.get(urgency, 5)` */
  function UrgencyRank(urgency: string): (r: int)
    ensures 1 <= r <= 5
    ensures r == 5 <==> urgency !in {"critical", "high", "medium", "low"}
    ensures urgency == "critical" <==> r == 1
  {
    if urgency == "critical" then 1
    else if urgency == "high" then 2
    else if urgency == "medium" then 3
    else if urgency == "low" then 4
    else 5
  }

  /** `key(a) <= key(b)` for the sort key `(rank, -(target - raised))`:
      a more urgent campaign first, and at equal urgency the one that still
      needs more. */
  predicate KeyLe(a: Campaign, b: Campaign)
  {
    || UrgencyRank(a.urgency) < UrgencyRank(b.urgency)
    || (UrgencyRank(a.urgency) == UrgencyRank(b.urgency) && RemainingAmount(a) >= RemainingAmount(b))
  }

  /** The key order is total and transitive, so sorting by it is well defined. */
  lemma KeyLeTotalPreorder(a: Campaign, b: Campaign, c: Campaign)
    ensures KeyLe(a, a)
    ensures KeyLe(a, b) || KeyLe(b, a)
    ensures KeyLe(a, b) && KeyLe(b, c) ==> KeyLe(a, c)
  {
  }

  /** A way of comparing two campaigns for sorting. */
  type Order = (Campaign, Campaign) -> bool

  /** `le` relates any two values one way or the other, and transitively. */
  ghost predicate TotalPreorder(le: Order)
  {
    && (forall a, b :: le(a, b) || le(b, a))
    && (forall a, b, c :: le(a, b) && le(b, c) ==> le(a, c))
  }

  lemma KeyLeIsTotalPreorder()
    ensures TotalPreorder(KeyLe)
  {
    forall a, b, c ensures KeyLe(a, b) || KeyLe(b, a) ensures KeyLe(a, b) && KeyLe(b, c) ==> KeyLe(a, c) {
      KeyLeTotalPreorder(a, b, c);
    }
  }

  predicate SortedBy(s: seq<Campaign>, le: Order)
  {
    forall i, j :: 0 <= i < j < |s| ==> le(s[i], s[j])
  }

  /** Inserts `x` in front of the first element it does not sort after, so
      that it stays ahead of the elements with an equal key. */
  function InsertBy(x: Campaign, s: seq<Campaign>, le: Order): (r: seq<Campaign>)
    ensures multiset(r) == multiset(s) + multiset{x}
  {
    if s == [] then [x]
    else if le(x, s[0]) then [x] + s
    else
      assert s == [s[0]] + s[1..];
      [s[0]] + InsertBy(x, s[1..], le)
  }

  /** A lower bound of `x` and of every element of `s` bounds every
      element after the insertion. */
  lemma InsertKeepsLowerBound(x: Campaign, s: seq<Campaign>, le: Order, y: Campaign)
    requires le(y, x) && forall k :: 0 <= k < |s| ==> le(y, s[k])
    ensures forall k :: 0 <= k < |InsertBy(x, s, le)| ==> le(y, InsertBy(x, s, le)[k])
  {
    var r := InsertBy(x, s, le);
    forall k | 0 <= k < |r| ensures le(y, r[k]) {
      assert r[k] in multiset(r);
      if r[k] != x {
        assert r[k] in multiset(s);
        var j :| 0 <= j < |s| && s[j] == r[k];
      }
    }
  }

  /** Inserting into a sorted sequence keeps it sorted. */
  lemma {:induction false} InsertSorted(x: Campaign, s: seq<Campaign>, le: Order)
    requires TotalPreorder(le) && SortedBy(s, le)
    ensures SortedBy(InsertBy(x, s, le), le)
  {
    if s != [] && !le(x, s[0]) {
      var rest := InsertBy(x, s[1..], le);
      InsertSorted(x, s[1..], le);
      assert forall k :: 0 <= k < |s[1..]| ==> le(s[0], s[1..][k]) by {
        forall k | 0 <= k < |s[1..]| ensures le(s[0], s[1..][k]) {
          assert s[1..][k] == s[k + 1];
        }
      }
      InsertKeepsLowerBound(x, s[1..], le, s[0]);
      var r := [s[0]] + rest;
      forall i, j | 0 <= i < j < |r| ensures le(r[i], r[j]) {
        if i == 0 {
          assert r[j] == rest[j - 1];
        } else {
          assert r[i] == rest[i - 1] && r[j] == rest[j - 1];
        }
      }
    }
  }

  /** Python's `sorted(rows, key=...)`, a stable sort, as insertion sort. */
  function SortBy(s: seq<Campaign>, le: Order): (r: seq<Campaign>)
    ensures multiset(r) == multiset(s)
  {
    if s == [] then []
    else
      assert s == [s[0]] + s[1..];
      InsertBy(s[0], SortBy(s[1..], le), le)
  }

  /** The sort's result is ordered. */
  lemma {:induction false} SortBySorted(s: seq<Campaign>, le: Order)
    requires TotalPreorder(le)
    ensures SortedBy(SortBy(s, le), le)
  {
    if s != [] {
      SortBySorted(s[1..], le);
      InsertSorted(s[0], SortBy(s[1..], le), le);
    }
  }

  /** The rows of `Campaign.query.filter_by(status='approved').all()`, in
      the order the query gives them. */
  function Approved(rows: seq<Campaign>): (r: seq<Campaign>)
    ensures forall i :: 0 <= i < |r| ==> r[i].status == CampaignStatus.Approved
    ensures forall c :: multiset(r)[c] == if c.status == CampaignStatus.Approved then multiset(rows)[c] else 0
  {
    if rows == [] then []
    else
      assert rows == [rows[0]] + rows[1..];
      (if rows[0].status == CampaignStatus.Approved then [rows[0]] else []) + Approved(rows[1..])
  }

  /** `get_priority_campaigns`: the approved campaigns sorted by key, the
      first 20 of them. */
  function PriorityCampaigns(rows: seq<Campaign>): (r: seq<Campaign>)
    ensures |r| == if |Approved(rows)| <= 20 then |Approved(rows)| else 20
  {
    var sorted := SortBy(Approved(rows), KeyLe);
    if |sorted| <= 20 then sorted else sorted[..20]
  }

  /** The first `k` elements of a sorted sequence are sorted, and every
      element left out sorts at or after every element kept. */
  lemma TopOfSorted(s: seq<Campaign>, k: nat, le: Order)
    requires SortedBy(s, le)
    ensures var r := if |s| <= k then s else s[..k];
      && SortedBy(r, le)
      && multiset(r) <= multiset(s)
      && (forall c :: c in multiset(s) - multiset(r) ==> forall i :: 0 <= i < |r| ==> le(r[i], c))
  {
    var r := if |s| <= k then s else s[..k];
    var rest := s[|r|..];
    assert s == r + rest;
    assert multiset(s) == multiset(r) + multiset(rest);
    forall c | c in multiset(s) - multiset(r)
      ensures forall i :: 0 <= i < |r| ==> le(r[i], c)
    {
      assert c in rest;
      var j :| 0 <= j < |rest| && rest[j] == c;
      forall i | 0 <= i < |r| ensures le(r[i], c) {
        assert s[i] == r[i] && s[|r| + j] == c;
      }
    }
  }

  /** At most 20 campaigns, all approved, in key order, each one a listed
      row; fewer than 20 only when fewer are approved. Everything the top 20
      leaves out sorts at or after everything it returns. */
  lemma PriorityIsTopTwenty(rows: seq<Campaign>)
    ensures var r := PriorityCampaigns(rows);
      && |r| == (if |Approved(rows)| < 20 then |Approved(rows)| else 20)
      && (forall i :: 0 <= i < |r| ==> r[i].status == CampaignStatus.Approved)
      && SortedBy(r, KeyLe)
      && multiset(r) <= multiset(Approved(rows))
      && (forall c :: c in multiset(Approved(rows)) - multiset(r) ==> forall i :: 0 <= i < |r| ==> KeyLe(r[i], c))
  {
    var a := Approved(rows);
    var sorted := SortBy(a, KeyLe);
    KeyLeIsTotalPreorder();
    SortBySorted(a, KeyLe);
    TopOfSorted(sorted, 20, KeyLe);
    var r := PriorityCampaigns(rows);
    assert |sorted| == |a| by {
      assert |multiset(sorted)| == |multiset(a)|;
    }
    forall i | 0 <= i < |r| ensures r[i].status == CampaignStatus.Approved {
      assert r[i] in multiset(a);
    }
  }

  // ---------------------------------------------------------------------
  // search_campaigns

  predicate StartsWith(s: string, prefix: string)
  {
    |prefix| <= |s| && s[..|prefix|] == prefix
  }

  /** Whether `needle` occurs in `hay` as a contiguous piece. */
  predicate Contains(hay: string, needle: string)
    ensures Contains(hay, needle) ==> |needle| <= |hay|
    decreases |hay|
  {
    StartsWith(hay, needle) || (hay != [] && Contains(hay[1..], needle))
  }

  /** `Contains` holds exactly when the needle starts at some offset. */
  lemma {:induction false} ContainsMeaning(hay: string, needle: string)
    ensures Contains(hay, needle) <==> exists i :: 0 <= i <= |hay| && StartsWith(hay[i..], needle)
  {
    assert hay[0..] == hay;
    if hay != [] {
      ContainsMeaning(hay[1..], needle);
      if Contains(hay[1..], needle) {
        var i :| 0 <= i <= |hay| - 1 && StartsWith(hay[1..][i..], needle);
        assert hay[1..][i..] == hay[i + 1..];
      }
      if exists i :: 0 <= i <= |hay| && StartsWith(hay[i..], needle) {
        var i :| 0 <= i <= |hay| && StartsWith(hay[i..], needle);
        if i > 0 {
          assert hay[1..][i - 1..] == hay[i..];
        }
      }
    }
  }

  /** `column.ilike('%' + q + '%')` on a non-null column: a case-insensitive
      substring test. */
  predicate ILike(column: string, q: string)
    ensures q == "" ==> ILike(column, q)
  {
    Contains(Lower(column), Lower(q))
  }

  /** The match does not depend on the case of either side. */
  lemma ILikeIgnoresCase(column: string, q: string)
    ensures ILike(Lower(column), q) == ILike(column, q)
    ensures ILike(column, Lower(q)) == ILike(column, q)
  {
    LowerIdempotent(column);
    LowerIdempotent(q);
  }

  /** The filter `search_campaigns` builds: approved, then urgency and
      category when given (truthy), then the search text in the title, the
      beneficiary's name or the (nullable) medical condition. */
  predicate MatchesSearch(c: Campaign, urgency: Option<string>, category: Option<string>, search: Option<string>)
    ensures !Given(urgency) && !Given(category) && !Given(search) ==>
      (MatchesSearch(c, urgency, category, search) <==> c.status == CampaignStatus.Approved)
  {
    && c.status == CampaignStatus.Approved
    && (Given(urgency) ==> c.urgency == urgency.value)
    && (Given(category) ==> c.category == category.value)
    && (Given(search) ==>
          || ILike(c.title, search.value)
          || ILike(c.beneficiaryName, search.value)
          || (c.beneficiaryMedicalCondition.Some? && ILike(c.beneficiaryMedicalCondition.value, search.value)))
  }

  /** The rows the search query selects, in the order they are listed. */
  function SearchCampaigns(rows: seq<Campaign>, urgency: Option<string>, category: Option<string>,
                           search: Option<string>): (r: seq<Campaign>)
    ensures forall c :: c in r <==> c in rows && MatchesSearch(c, urgency, category, search)
    ensures forall c :: multiset(r)[c] == if MatchesSearch(c, urgency, category, search) then multiset(rows)[c] else 0
  {
    if rows == [] then []
    else
      assert rows == [rows[0]] + rows[1..];
      (if MatchesSearch(rows[0], urgency, category, search) then [rows[0]] else [])
        + SearchCampaigns(rows[1..], urgency, category, search)
  }

  /** With no urgency, category or search text the search lists exactly the
      approved campaigns, in the same order. */
  lemma {:induction false} SearchWithoutFilters(rows: seq<Campaign>)
    ensures SearchCampaigns(rows, None, None, None) == Approved(rows)
  {
    if rows != [] {
      SearchWithoutFilters(rows[1..]);
    }
  }

  /** Any filter can only drop approved rows, never add or repeat one. */
  lemma FiltersOnlyDrop(rows: seq<Campaign>, urgency: Option<string>, category: Option<string>,
                        search: Option<string>)
    ensures multiset(SearchCampaigns(rows, urgency, category, search)) <= multiset(Approved(rows))
  {
    forall c
      ensures multiset(SearchCampaigns(rows, urgency, category, search))[c] <= multiset(Approved(rows))[c]
    {
    }
  }
}
