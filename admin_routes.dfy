/** The mutating admin routes of app/routes/admin.py: reviewing campaigns and
    partners, editing and deleting campaigns, handling fraud reports and
    approving disbursements. Every route sits behind
    `role_required('admin')`: a caller who is not a stored admin is refused
    with 403 before the handler runs. Each handler fetches one row, assigns
    some of its columns and commits. */
module AdminRoutes {
  import opened Base
  import opened Users
  import opened CampaignModel
  import opened OtherModel
  import opened Ledger
  import opened Database
  import opened AuthGuard

  predicate IsAdmin(users: map<Uuid, User>, id: Uuid)
  {
    HasRole(users, id, {"admin"})
  }

  // ---------------------------------------------------------------------
  // approve_campaign, reject_campaign

  /** `approve_campaign`: whatever its status was, the campaign becomes
      approved; no other column but `updated_at` changes. */
  method ApproveCampaign(db: Store, caller: Uuid, campaignId: Uuid, now: Instant) returns (reply: Reply)
    requires db.Valid()
    modifies db
    ensures db.Valid()
    ensures reply == (if !IsAdmin(old(db.users), caller) then Fail(403)
                      else if campaignId !in old(db.campaigns) then Fail(404)
                      else Ok(200))
    ensures !reply.success ==> unchanged(db)
    ensures reply.success ==>
      && db.campaigns == old(db.campaigns)[campaignId := old(db.campaigns)[campaignId].(
           status := CampaignStatus.Approved, updatedAt := now)]
      && db.users == old(db.users) && db.donations == old(db.donations) && db.transactions == old(db.transactions)
      && db.disbursements == old(db.disbursements) && db.fraudReports == old(db.fraudReports)
      && db.documents == old(db.documents)
  {
    if !IsAdmin(db.users, caller) {
      return Fail(403);
    }
    if campaignId !in db.campaigns {
      return Fail(404);
    }
    var c := db.campaigns[campaignId].(status := CampaignStatus.Approved, updatedAt := now);
    SameFundsKeepConsistent(db.campaigns, db.donations, db.transactions, campaignId, c);
    db.campaigns := db.campaigns[campaignId := c];
    reply := Ok(200);
  }

  /** `reject_campaign`: whatever its status was, the campaign becomes
      rejected; the reason in the body is read and dropped. */
  method RejectCampaign(db: Store, caller: Uuid, campaignId: Uuid, now: Instant) returns (reply: Reply)
    requires db.Valid()
    modifies db
    ensures db.Valid()
    ensures reply == (if !IsAdmin(old(db.users), caller) then Fail(403)
                      else if campaignId !in old(db.campaigns) then Fail(404)
                      else Ok(200))
    ensures !reply.success ==> unchanged(db)
    ensures reply.success ==>
      && db.campaigns == old(db.campaigns)[campaignId := old(db.campaigns)[campaignId].(
           status := CampaignStatus.Rejected, updatedAt := now)]
      && db.users == old(db.users) && db.donations == old(db.donations) && db.transactions == old(db.transactions)
      && db.disbursements == old(db.disbursements) && db.fraudReports == old(db.fraudReports)
      && db.documents == old(db.documents)
  {
    if !IsAdmin(db.users, caller) {
      return Fail(403);
    }
    if campaignId !in db.campaigns {
      return Fail(404);
    }
    var c := db.campaigns[campaignId].(status := CampaignStatus.Rejected, updatedAt := now);
    SameFundsKeepConsistent(db.campaigns, db.donations, db.transactions, campaignId, c);
    db.campaigns := db.campaigns[campaignId := c];
    reply := Ok(200);
  }

  // ---------------------------------------------------------------------
  // verify_partner, reject_partner

  /** `Partner.query.get(partner_id)` finds only users whose role is partner. */
  predicate IsPartnerRow(users: map<Uuid, User>, id: Uuid)
  {
    id in users && users[id].profile.PartnerProfile?
  }

  /** `verify_partner`: sets `is_verified`, and nothing else but `updated_at`. */
  method VerifyPartner(db: Store, caller: Uuid, partnerId: Uuid, now: Instant) returns (reply: Reply)
    requires db.Valid()
    modifies db
    ensures db.Valid()
    ensures reply == (if !IsAdmin(old(db.users), caller) then Fail(403)
                      else if !IsPartnerRow(old(db.users), partnerId) then Fail(404)
                      else Ok(200))
    ensures !reply.success ==> unchanged(db)
    ensures reply.success ==>
      && db.users == old(db.users)[partnerId := old(db.users)[partnerId].(isVerified := true, updatedAt := now)]
      && db.campaigns == old(db.campaigns) && db.donations == old(db.donations)
      && db.transactions == old(db.transactions) && db.disbursements == old(db.disbursements)
      && db.fraudReports == old(db.fraudReports) && db.documents == old(db.documents)
  {
    if !IsAdmin(db.users, caller) {
      return Fail(403);
    }
    if !IsPartnerRow(db.users, partnerId) {
      return Fail(404);
    }
    var u := db.users[partnerId].(isVerified := true, updatedAt := now);
    UserUpdateKeepsUnique(db.users, partnerId, u);
    db.users := db.users[partnerId := u];
    reply := Ok(200);
  }

  /** `reject_partner`: deactivates the account, and changes nothing else
      but `updated_at`; the partner's campaigns stay as they are. */
  method RejectPartner(db: Store, caller: Uuid, partnerId: Uuid, now: Instant) returns (reply: Reply)
    requires db.Valid()
    modifies db
    ensures db.Valid()
    ensures reply == (if !IsAdmin(old(db.users), caller) then Fail(403)
                      else if !IsPartnerRow(old(db.users), partnerId) then Fail(404)
                      else Ok(200))
    ensures !reply.success ==> unchanged(db)
    ensures reply.success ==>
      && db.users == old(db.users)[partnerId := old(db.users)[partnerId].(isActive := false, updatedAt := now)]
      && db.campaigns == old(db.campaigns) && db.donations == old(db.donations)
      && db.transactions == old(db.transactions) && db.disbursements == old(db.disbursements)
      && db.fraudReports == old(db.fraudReports) && db.documents == old(db.documents)
  {
    if !IsAdmin(db.users, caller) {
      return Fail(403);
    }
    if !IsPartnerRow(db.users, partnerId) {
      return Fail(404);
    }
    var u := db.users[partnerId].(isActive := false, updatedAt := now);
    UserUpdateKeepsUnique(db.users, partnerId, u);
    db.users := db.users[partnerId := u];
    reply := Ok(200);
  }

  // ---------------------------------------------------------------------
  // update_campaign

  /** The whitelist `update_campaign` walks, in its order. */
  const UpdatableFields: seq<string> := ["title", "description", "category", "urgency", "target_amount"]

  function DigitChar(d: nat): char
    requires d < 10
  {
    "0123456789"[d]
  }

  function Digits(n: nat): string
    decreases n
  {
    if n < 10 then [DigitChar(n)] else Digits(n / 10) + [DigitChar(n % 10)]
  }

  /** The text PostgreSQL stores when an integer is assigned to a text column. */
  function DecimalText(n: int): string
  {
    if n < 0 then "-" + Digits(-n) else Digits(n)
  }

  /** The value a text column receives from a body value; None is SQL NULL. */
  function TextOf(v: Json): Option<string>
  {
    match v
    case Null => None
    case Number(n) => Some(DecimalText(n))
    case Text(s, _) => Some(s)
  }

  /** `setattr(campaign, field, value)` for one whitelisted field, with
      `float(value)` for the target. None when the request fails on it:
      `float` raises, or a null is put in a NOT NULL column (title, category,
      urgency), which the commit refuses. */
  function SetField(c: Campaign, field: string, v: Json): (r: Option<Campaign>)
    ensures r.None? <==> (field in {"title", "category", "urgency"} && v.Null?)
                         || (field == "target_amount" && Float(v).None?)
  {
    if field == "title" then (if TextOf(v).Some? then Some(c.(title := TextOf(v).value)) else None)
    else if field == "description" then Some(c.(description := TextOf(v)))
    else if field == "category" then (if TextOf(v).Some? then Some(c.(category := TextOf(v).value)) else None)
    else if field == "urgency" then (if TextOf(v).Some? then Some(c.(urgency := TextOf(v).value)) else None)
    else if field == "target_amount" then (if Float(v).Some? then Some(c.(targetAmount := Float(v).value)) else None)
    else Some(c)
  }

  /** The loop of `update_campaign` over `fields`: each field present in the
      body is assigned in turn; None as soon as one assignment fails. */
  function UpdateFields(c: Campaign, data: map<string, Json>, fields: seq<string>): Option<Campaign>
    decreases |fields|
  {
    if fields == [] then Some(c)
    else if fields[0] !in data then UpdateFields(c, data, fields[1..])
    else match SetField(c, fields[0], data[fields[0]])
      case None => None
      case Some(c') => UpdateFields(c', data, fields[1..])
  }

  /** The loop can change the five whitelisted columns and no other: funds,
      status, owner, beneficiary and dates are carried over. */
  lemma {:induction false} UpdateTouchesOnlyWhitelist(c: Campaign, data: map<string, Json>, fields: seq<string>)
    requires UpdateFields(c, data, fields).Some?
    ensures var r := UpdateFields(c, data, fields).value;
      r == c.(title := r.title, description := r.description, category := r.category, urgency := r.urgency,
              targetAmount := r.targetAmount)
    decreases |fields|
  {
    if fields != [] {
      if fields[0] !in data {
        UpdateTouchesOnlyWhitelist(c, data, fields[1..]);
      } else {
        var c' := SetField(c, fields[0], data[fields[0]]).value;
        UpdateTouchesOnlyWhitelist(c', data, fields[1..]);
      }
    }
  }

  /** What the whole whitelist does, stated directly: the update fails
      exactly when a NOT NULL column is given a null or the target does not
      parse, and otherwise each of the five columns takes the body's value
      when its key is present and keeps its own when the key is absent. */
  function WhitelistUpdate(c: Campaign, data: map<string, Json>): Option<Campaign>
  {
    if || ("title" in data && data["title"].Null?)
       || ("category" in data && data["category"].Null?)
       || ("urgency" in data && data["urgency"].Null?)
       || ("target_amount" in data && Float(data["target_amount"]).None?)
    then None
    else Some(c.(
      title := if "title" in data then TextOf(data["title"]).value else c.title,
      description := if "description" in data then TextOf(data["description"]) else c.description,
      category := if "category" in data then TextOf(data["category"]).value else c.category,
      urgency := if "urgency" in data then TextOf(data["urgency"]).value else c.urgency,
      targetAmount := if "target_amount" in data then Float(data["target_amount"]).value else c.targetAmount))
  }

  /** The loop over the whitelist, one field after the other, does what
      `WhitelistUpdate` states: the fields are distinct columns, so the order
      of the assignments does not matter. */
  lemma UpdateFieldsMeaning(c: Campaign, data: map<string, Json>)
    ensures UpdateFields(c, data, UpdatableFields) == WhitelistUpdate(c, data)
  {
    var f := UpdatableFields;
    assert f[0] == "title" && f[1..][0] == "description" && f[1..][1..][0] == "category";
    assert f[1..][1..][1..][0] == "urgency" && f[1..][1..][1..][1..] == ["target_amount"];
    assert ["target_amount"][1..] == [];
  }

  /** `update_campaign`. The loop assigns the whitelisted fields present in
      the body to the fetched row; the row is then stamped and committed.
      When one assignment fails the whole request is rolled back with 500. */
  method UpdateCampaign(db: Store, caller: Uuid, campaignId: Uuid, data: map<string, Json>, now: Instant)
    returns (reply: Reply)
    requires db.Valid()
    modifies db
    ensures db.Valid()
    ensures reply == (if !IsAdmin(old(db.users), caller) then Fail(403)
                      else if campaignId !in old(db.campaigns) then Fail(404)
                      else if UpdateFields(old(db.campaigns)[campaignId], data, UpdatableFields).None? then Fail(500)
                      else Ok(200))
    ensures !reply.success ==> unchanged(db)
    ensures reply.success ==>
      && db.campaigns == old(db.campaigns)[campaignId :=
           UpdateFields(old(db.campaigns)[campaignId], data, UpdatableFields).value.(updatedAt := now)]
      && db.campaigns[campaignId].fundsRaised == old(db.campaigns)[campaignId].fundsRaised
      && db.campaigns[campaignId].status == old(db.campaigns)[campaignId].status
      && db.users == old(db.users) && db.donations == old(db.donations) && db.transactions == old(db.transactions)
      && db.disbursements == old(db.disbursements) && db.fraudReports == old(db.fraudReports)
      && db.documents == old(db.documents)
  {
    if !IsAdmin(db.users, caller) {
      return Fail(403);
    }
    if campaignId !in db.campaigns {
      return Fail(404);
    }
    var c := db.campaigns[campaignId];
    var i := 0;
    while i < |UpdatableFields|
      invariant 0 <= i <= |UpdatableFields|
      invariant UpdateFields(c, data, UpdatableFields[i..]) == UpdateFields(db.campaigns[campaignId], data, UpdatableFields)
    {
      var field := UpdatableFields[i];
      assert UpdatableFields[i..][0] == field && UpdatableFields[i..][1..] == UpdatableFields[i + 1..];
      if field in data {
        var next := SetField(c, field, data[field]);
        if next.None? {
          return Fail(500);
        }
        c := next.value;
      }
      i := i + 1;
    }
    assert UpdatableFields[i..] == [];
    UpdateTouchesOnlyWhitelist(db.campaigns[campaignId], data, UpdatableFields);
    c := c.(updatedAt := now);
    SameFundsKeepConsistent(db.campaigns, db.donations, db.transactions, campaignId, c);
    db.campaigns := db.campaigns[campaignId := c];
    reply := Ok(200);
  }

  // ---------------------------------------------------------------------
  // delete_campaign

  /** Whether some recorded transaction belongs to a donation of campaign
      `cid`. Deleting such a donation would null the transaction's NOT NULL
      `donation_id` (the relationship has no cascade), so the flush fails. */
  predicate HasPaidDonation(donations: map<Uuid, Donation>, txs: seq<Transaction>, cid: Uuid)
  {
    exists i :: 0 <= i < |txs| && Beneficiary(txs[i], donations) == Some(cid)
  }

  function DisbursementsExcept(disbursements: map<Uuid, Disbursement>, cid: Uuid): (r: map<Uuid, Disbursement>)
    ensures forall k :: k in r <==> k in disbursements && disbursements[k].campaignId != cid
    ensures forall k :: k in r ==> r[k] == disbursements[k]
  {
    map k | k in disbursements && disbursements[k].campaignId != cid :: disbursements[k]
  }

  function ReportsExcept(reports: map<Uuid, FraudReport>, cid: Uuid): (r: map<Uuid, FraudReport>)
    ensures forall k :: k in r <==> k in reports && reports[k].campaignId != cid
    ensures forall k :: k in r ==> r[k] == reports[k]
  {
    map k | k in reports && reports[k].campaignId != cid :: reports[k]
  }

  function DocumentsExcept(documents: map<Uuid, Document>, cid: Uuid): (r: map<Uuid, Document>)
    ensures forall k :: k in r <==> k in documents && documents[k].campaignId != Some(cid)
    ensures forall k :: k in r ==> r[k] == documents[k]
  {
    map k | k in documents && documents[k].campaignId != Some(cid) :: documents[k]
  }

  /** A campaign that has been credited anything cannot be deleted: the
      payment behind its funds pins one of its donations. */
  lemma FundedCampaignIsPinned(campaigns: map<Uuid, Campaign>, donations: map<Uuid, Donation>,
                               txs: seq<Transaction>, cid: Uuid)
    requires Consistent(campaigns, donations, txs)
    requires cid in campaigns && campaigns[cid].fundsRaised != 0
    ensures HasPaidDonation(donations, txs, cid)
  {
    CreditedHasWitness(txs, donations, cid);
  }

  /** `delete_campaign`. The campaign goes together with its donations,
      documents, disbursements and fraud reports (cascade), unless one of its
      donations has a transaction, in which case the flush fails and nothing
      is deleted. Users and transactions are untouched. */
  method DeleteCampaign(db: Store, caller: Uuid, campaignId: Uuid) returns (reply: Reply)
    requires db.Valid()
    modifies db
    ensures db.Valid()
    ensures reply == (if !IsAdmin(old(db.users), caller) then Fail(403)
                      else if campaignId !in old(db.campaigns) then Fail(404)
                      else if HasPaidDonation(old(db.donations), old(db.transactions), campaignId) then Fail(500)
                      else Ok(200))
    ensures !reply.success ==> unchanged(db)
    ensures reply.success ==>
      && db.campaigns == old(db.campaigns) - {campaignId}
      && db.donations == DonationsExcept(old(db.donations), campaignId)
      && db.disbursements == DisbursementsExcept(old(db.disbursements), campaignId)
      && db.fraudReports == ReportsExcept(old(db.fraudReports), campaignId)
      && db.documents == DocumentsExcept(old(db.documents), campaignId)
      && db.users == old(db.users) && db.transactions == old(db.transactions)
  {
    if !IsAdmin(db.users, caller) {
      return Fail(403);
    }
    if campaignId !in db.campaigns {
      return Fail(404);
    }
    if HasPaidDonation(db.donations, db.transactions, campaignId) {
      return Fail(500);
    }
    DeleteKeepsConsistent(db.campaigns, db.donations, db.transactions, campaignId);
    db.campaigns, db.donations := db.campaigns - {campaignId}, DonationsExcept(db.donations, campaignId);
    db.disbursements := DisbursementsExcept(db.disbursements, campaignId);
    db.fraudReports := ReportsExcept(db.fraudReports, campaignId);
    db.documents := DocumentsExcept(db.documents, campaignId);
    reply := Ok(200);
  }

  // ---------------------------------------------------------------------
  // investigate_fraud_report, confirm_fraud, dismiss_fraud_report

  /** `investigate_fraud_report`: the report becomes investigating whatever
      its status was, even confirmed or dismissed. */
  method InvestigateFraudReport(db: Store, caller: Uuid, reportId: Uuid, now: Instant) returns (reply: Reply)
    requires db.Valid()
    modifies db
    ensures db.Valid()
    ensures reply == (if !IsAdmin(old(db.users), caller) then Fail(403)
                      else if reportId !in old(db.fraudReports) then Fail(404)
                      else Ok(200))
    ensures !reply.success ==> unchanged(db)
    ensures reply.success ==>
      && db.fraudReports == old(db.fraudReports)[reportId := old(db.fraudReports)[reportId].(
           status := FraudStatus.Investigating, updatedAt := now)]
      && db.users == old(db.users) && db.campaigns == old(db.campaigns) && db.donations == old(db.donations)
      && db.transactions == old(db.transactions) && db.disbursements == old(db.disbursements)
      && db.documents == old(db.documents)
  {
    if !IsAdmin(db.users, caller) {
      return Fail(403);
    }
    if reportId !in db.fraudReports {
      return Fail(404);
    }
    db.fraudReports := db.fraudReports[reportId := db.fraudReports[reportId].(
      status := FraudStatus.Investigating, updatedAt := now)];
    reply := Ok(200);
  }

  /** `confirm_fraud`: in one commit the report is confirmed with the notes
      of the body (None when absent) and the reported campaign is cancelled.
      The campaign's disbursements, donations and funds are left as they
      are. */
  method ConfirmFraud(db: Store, caller: Uuid, reportId: Uuid, notes: Option<string>, now: Instant)
    returns (reply: Reply)
    requires db.Valid()
    modifies db
    ensures db.Valid()
    ensures reply == (if !IsAdmin(old(db.users), caller) then Fail(403)
                      else if reportId !in old(db.fraudReports) then Fail(404)
                      else Ok(200))
    ensures !reply.success ==> unchanged(db)
    ensures reply.success ==>
      var cid := old(db.fraudReports)[reportId].campaignId;
      && cid in old(db.campaigns)
      && db.fraudReports == old(db.fraudReports)[reportId := old(db.fraudReports)[reportId].(
           status := FraudStatus.Confirmed, investigationNotes := notes, updatedAt := now)]
      && db.campaigns == old(db.campaigns)[cid := old(db.campaigns)[cid].(
           status := CampaignStatus.Cancelled, updatedAt := now)]
      && db.disbursements == old(db.disbursements)
      && db.users == old(db.users) && db.donations == old(db.donations) && db.transactions == old(db.transactions)
      && db.documents == old(db.documents)
  {
    if !IsAdmin(db.users, caller) {
      return Fail(403);
    }
    if reportId !in db.fraudReports {
      return Fail(404);
    }
    var report := db.fraudReports[reportId];
    var c := db.campaigns[report.campaignId].(status := CampaignStatus.Cancelled, updatedAt := now);
    SameFundsKeepConsistent(db.campaigns, db.donations, db.transactions, report.campaignId, c);
    db.fraudReports := db.fraudReports[reportId := report.(
      status := FraudStatus.Confirmed, investigationNotes := notes, updatedAt := now)];
    db.campaigns := db.campaigns[report.campaignId := c];
    reply := Ok(200);
  }

  /** `dismiss_fraud_report`: the report is dismissed with the notes; the
      campaign is not touched. */
  method DismissFraudReport(db: Store, caller: Uuid, reportId: Uuid, notes: Option<string>, now: Instant)
    returns (reply: Reply)
    requires db.Valid()
    modifies db
    ensures db.Valid()
    ensures reply == (if !IsAdmin(old(db.users), caller) then Fail(403)
                      else if reportId !in old(db.fraudReports) then Fail(404)
                      else Ok(200))
    ensures !reply.success ==> unchanged(db)
    ensures reply.success ==>
      && db.fraudReports == old(db.fraudReports)[reportId := old(db.fraudReports)[reportId].(
           status := FraudStatus.Dismissed, investigationNotes := notes, updatedAt := now)]
      && db.users == old(db.users) && db.campaigns == old(db.campaigns) && db.donations == old(db.donations)
      && db.transactions == old(db.transactions) && db.disbursements == old(db.disbursements)
      && db.documents == old(db.documents)
  {
    if !IsAdmin(db.users, caller) {
      return Fail(403);
    }
    if reportId !in db.fraudReports {
      return Fail(404);
    }
    db.fraudReports := db.fraudReports[reportId := db.fraudReports[reportId].(
      status := FraudStatus.Dismissed, investigationNotes := notes, updatedAt := now)];
    reply := Ok(200);
  }

  // ---------------------------------------------------------------------
  // approve_disbursement

  /** `approve_disbursement`: the request is approved by the calling admin,
      with the notes and the time. Nothing is re-checked: not its status (a
      processed or failed request is approved again), not the campaign's
      funds, not other requests; and no money moves. */
  method ApproveDisbursement(db: Store, caller: Uuid, disbursementId: Uuid, notes: Option<string>, now: Instant)
    returns (reply: Reply)
    requires db.Valid()
    modifies db
    ensures db.Valid()
    ensures reply == (if !IsAdmin(old(db.users), caller) then Fail(403)
                      else if disbursementId !in old(db.disbursements) then Fail(404)
                      else Ok(200))
    ensures !reply.success ==> unchanged(db)
    ensures reply.success ==>
      && db.disbursements == old(db.disbursements)[disbursementId := old(db.disbursements)[disbursementId].(
           status := DisbursementStatus.Approved, approvedById := Some(caller), approvalNotes := notes,
           approvedAt := Some(now))]
      && db.campaigns == old(db.campaigns)
      && db.users == old(db.users) && db.donations == old(db.donations) && db.transactions == old(db.transactions)
      && db.fraudReports == old(db.fraudReports) && db.documents == old(db.documents)
  {
    if !IsAdmin(db.users, caller) {
      return Fail(403);
    }
    if disbursementId !in db.disbursements {
      return Fail(404);
    }
    db.disbursements := db.disbursements[disbursementId := db.disbursements[disbursementId].(
      status := DisbursementStatus.Approved, approvedById := Some(caller), approvalNotes := notes,
      approvedAt := Some(now))];
    reply := Ok(200);
  }
}
