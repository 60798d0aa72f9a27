/** The partner routes of app/routes/partner.py: creating a campaign (with
    its optional uploads) or registering a beneficiary, the progress report
    of a campaign, and requesting a disbursement of its funds. Every route
    sits behind `role_required('partner')`, so a caller who is not a stored
    partner is refused with 403 before the handler runs. */
module PartnerRoutes {
  import opened Base
  import opened Users
  import opened CampaignModel
  import opened OtherModel
  import opened Ledger
  import opened Database
  import opened AuthGuard
  import opened FileHandler

  predicate IsPartner(users: map<Uuid, User>, id: Uuid)
  {
    HasRole(users, id, {"partner"})
  }

  // ---------------------------------------------------------------------
  // create_campaign and register_beneficiary

  const ImageExtensions: set<string> := {"png", "jpg", "jpeg", "gif"}
  const DocumentExtensions: set<string> := {"pdf", "doc", "docx"}

  /** The fields of the JSON body the two creating handlers read. */
  datatype CampaignForm = CampaignForm(
    title: Option<string>,
    description: Option<string>,
    category: Option<string>,
    urgency: Option<string>,
    targetAmount: Json,
    beneficiaryName: Option<string>,
    beneficiaryAge: Option<int>,
    condition: Option<string>)

  /** The six fields `create_campaign` demands, each truthy. */
  predicate CampaignFieldsGiven(f: CampaignForm)
  {
    Given(f.title) && Given(f.category) && Given(f.urgency) && Truthy(f.targetAmount)
    && Given(f.beneficiaryName) && Given(f.condition)
  }

  /** The five fields `register_beneficiary` demands: those of a campaign but
      the title. */
  predicate BeneficiaryFieldsGiven(f: CampaignForm)
  {
    Given(f.category) && Given(f.urgency) && Truthy(f.targetAmount)
    && Given(f.beneficiaryName) && Given(f.condition)
  }

  /** A part of the multipart request: the client's file name and what
      writing it to the upload folder gives. */
  datatype FilePart = FilePart(filename: string, write: WriteOutcome)

  /** What the handler makes of one optional upload: the path it keeps (None
      when nothing was stored), or an error that aborts the request. */
  datatype Stored = Kept(path: Option<string>) | UploadFailed(error: UploadError)

  /** Python truthiness of the error text `save_uploaded_file` returned. */
  predicate ErrorTruthy(e: Option<UploadError>)
  {
    e.Some? && (e.value.WriteError? ==> e.value.message != "")
  }

  /** The upload step of `create_campaign`: a part whose name is empty or has
      an extension outside `allowed` is skipped without complaint; otherwise
      the file is saved, and an error from the save aborts the request. An
      error whose text is empty is falsy and passes unnoticed. */
  function StoreUpload(part: Option<FilePart>, allowed: set<string>): (r: Stored)
    ensures part.None? || part.value.filename == "" || !AllowedFile(part.value.filename, allowed) ==> r == Kept(None)
    ensures r.UploadFailed? <==>
      part.Some? && AllowedFile(part.value.filename, allowed) && part.value.write.WriteFailed?
      && part.value.write.message != ""
    ensures r.Kept? && r.path.Some? <==>
      part.Some? && AllowedFile(part.value.filename, allowed) && part.value.write.Written?
    ensures r.Kept? && r.path.Some? ==> r.path.value == part.value.write.path
  {
    if part.None? || part.value.filename == "" || !AllowedFile(part.value.filename, allowed) then Kept(None)
    else
      var (path, error) := SaveUploadedFile(FileStorage(part.value.filename), allowed, part.value.write);
      if ErrorTruthy(error) then UploadFailed(error.value) else Kept(path)
  }

  /** The path `create_campaign` stores for an upload step that did not fail. */
  function KeptPath(s: Stored): Option<string>
  {
    if s.Kept? then s.path else None
  }

  /** The checks of `create_campaign` in their order, given the ids the
      flush would assign; None when the campaign is stored. */
  function CreateCampaignCheck(users: map<Uuid, User>, campaigns: map<Uuid, Campaign>, documents: map<Uuid, Document>,
                               caller: Uuid, form: CampaignForm, cover: Option<FilePart>,
                               medical: Option<FilePart>, newId: Uuid, newDocId: Uuid): (r: Option<Reply>)
    ensures r.Some? ==> !r.value.success
  {
    if !IsPartner(users, caller) then Some(Fail(403))
    else if !CampaignFieldsGiven(form) then Some(Fail(400))
    else if StoreUpload(cover, ImageExtensions).UploadFailed? then Some(Fail(400))
    else if StoreUpload(medical, DocumentExtensions).UploadFailed? then Some(Fail(400))
    else if Float(form.targetAmount).None? then Some(Fail(500))
    else if newId in campaigns then Some(Fail(500))
    else if MedicalDocumentRecorded(medical) && newDocId in documents then Some(Fail(500))
    else None
  }

  /** Whether a Document row is added for the medical document: its path is
      truthy. */
  predicate MedicalDocumentRecorded(medical: Option<FilePart>)
  {
    var p := KeptPath(StoreUpload(medical, DocumentExtensions));
    p.Some? && p.value != ""
  }

  /** A partner's request is stored exactly when the six fields are truthy,
      no upload failed, the target parses and the ids are fresh. A target of
      0 counts as missing, and so does a title of "". */
  lemma CreateCampaignCheckPasses(users: map<Uuid, User>, campaigns: map<Uuid, Campaign>, documents: map<Uuid, Document>,
                                  caller: Uuid, form: CampaignForm, cover: Option<FilePart>,
                                  medical: Option<FilePart>, newId: Uuid, newDocId: Uuid)
    ensures CreateCampaignCheck(users, campaigns, documents, caller, form, cover, medical, newId, newDocId).None? <==>
      && IsPartner(users, caller) && CampaignFieldsGiven(form)
      && !StoreUpload(cover, ImageExtensions).UploadFailed? && !StoreUpload(medical, DocumentExtensions).UploadFailed?
      && Float(form.targetAmount).Some? && newId !in campaigns
      && (MedicalDocumentRecorded(medical) ==> newDocId !in documents)
    ensures IsPartner(users, caller) && (form.targetAmount == Number(0) || form.title == Some("")) ==>
      CreateCampaignCheck(users, campaigns, documents, caller, form, cover, medical, newId, newDocId) == Some(Fail(400))
    ensures !IsPartner(users, caller) ==>
      CreateCampaignCheck(users, campaigns, documents, caller, form, cover, medical, newId, newDocId) == Some(Fail(403))
  {
  }

  /** The campaign `create_campaign` builds from a form that passed its checks. */
  function CampaignFromForm(form: CampaignForm, caller: Uuid, cover: Option<string>, medical: Option<string>,
                            now: Instant): (c: Campaign)
    requires CampaignFieldsGiven(form) && Float(form.targetAmount).Some?
    ensures c.status == CampaignStatus.Pending && c.fundsRaised == 0 && c.partnerId == Some(caller)
    ensures c.title == form.title.value && c.targetAmount == Float(form.targetAmount).value
    ensures c.coverImage == cover && c.medicalDocument == medical
  {
    NewCampaign(form.title.value, form.description, form.category.value, form.urgency.value,
                Float(form.targetAmount).value, form.beneficiaryName.value, form.beneficiaryAge,
                form.condition, caller, cover, medical, now)
  }

  /** `create_campaign` as evidently intended (the uploads read together with
      the form; `CreateCampaignCheckAsWritten` is the code as it stands). On
      201 exactly one pending campaign with no funds is
      added, owned by the caller, plus a `medical_certificate` document when
      a medical document was stored; otherwise nothing is stored. */
  method CreateCampaign(db: Store, caller: Uuid, form: CampaignForm, cover: Option<FilePart>,
                        medical: Option<FilePart>, newId: Uuid, newDocId: Uuid, now: Instant)
    returns (reply: Reply)
    requires db.Valid()
    modifies db
    ensures db.Valid()
    ensures var check := CreateCampaignCheck(old(db.users), old(db.campaigns), old(db.documents), caller, form,
                                             cover, medical, newId, newDocId);
      reply == if check.Some? then check.value else Ok(201)
    ensures !reply.success ==> unchanged(db)
    ensures reply.success ==>
      && CampaignFieldsGiven(form) && Float(form.targetAmount).Some?
      && var coverPath := KeptPath(StoreUpload(cover, ImageExtensions));
      && var medicalPath := KeptPath(StoreUpload(medical, DocumentExtensions));
      && db.campaigns == old(db.campaigns)[newId := CampaignFromForm(form, caller, coverPath, medicalPath, now)]
      && db.documents == (if MedicalDocumentRecorded(medical)
                          then old(db.documents)[newDocId := NewDocument(Some(newId), "medical_certificate",
                                                                         medicalPath.value, medical.value.filename, now)]
                          else old(db.documents))
      && db.users == old(db.users) && db.donations == old(db.donations) && db.transactions == old(db.transactions)
      && db.disbursements == old(db.disbursements) && db.fraudReports == old(db.fraudReports)
  {
    var check := CreateCampaignCheck(db.users, db.campaigns, db.documents, caller, form, cover, medical, newId, newDocId);
    if check.Some? {
      return check.value;
    }
    var coverPath := KeptPath(StoreUpload(cover, ImageExtensions));
    var medicalPath := KeptPath(StoreUpload(medical, DocumentExtensions));
    var c := CampaignFromForm(form, caller, coverPath, medicalPath, now);
    NewCampaignKeepsConsistent(db.campaigns, db.donations, db.transactions, newId, c);
    db.campaigns := db.campaigns[newId := c];
    if MedicalDocumentRecorded(medical) {
      db.documents := db.documents[newDocId := NewDocument(Some(newId), "medical_certificate", medicalPath.value,
                                                           medical.value.filename, now)];
    }
    reply := Ok(201);
  }

  /** The checks of `create_campaign` as written: the body is read with
      `request.get_json()` before `request.files`, and a request that carries
      any file part is multipart, not JSON, so reading the body raises and the
      handler answers 500. Only a JSON request without uploads gets further. */
  function CreateCampaignCheckAsWritten(users: map<Uuid, User>, campaigns: map<Uuid, Campaign>,
                                        documents: map<Uuid, Document>, caller: Uuid, form: CampaignForm,
                                        cover: Option<FilePart>, medical: Option<FilePart>,
                                        newId: Uuid, newDocId: Uuid): (r: Option<Reply>)
    ensures r.Some? ==> !r.value.success
  {
    if !IsPartner(users, caller) then Some(Fail(403))
    else if cover.Some? || medical.Some? then Some(Fail(500))
    else CreateCampaignCheck(users, campaigns, documents, caller, form, cover, medical, newId, newDocId)
  }

  /** As written, a partner who sends a medical certificate with an otherwise
      acceptable campaign is refused with 500, while the checks the handler
      evidently intends store the campaign together with a Document row. */
  lemma UploadRefusedAsWritten(users: map<Uuid, User>, campaigns: map<Uuid, Campaign>,
                               documents: map<Uuid, Document>, caller: Uuid, form: CampaignForm,
                               name: string, path: string, newId: Uuid, newDocId: Uuid)
    requires IsPartner(users, caller) && CampaignFieldsGiven(form) && Float(form.targetAmount).Some?
    requires AllowedFile(name, DocumentExtensions) && path != ""
    requires newId !in campaigns && newDocId !in documents
    ensures var medical := Some(FilePart(name, Written(path)));
      && CreateCampaignCheckAsWritten(users, campaigns, documents, caller, form, None, medical, newId, newDocId)
         == Some(Fail(500))
      && CreateCampaignCheck(users, campaigns, documents, caller, form, None, medical, newId, newDocId).None?
      && MedicalDocumentRecorded(medical)
  {
    var medical := Some(FilePart(name, Written(path)));
    assert StoreUpload(medical, DocumentExtensions) == Kept(Some(path));
  }

  /** The title `register_beneficiary` gives the campaign. */
  function BeneficiaryTitle(name: string): (t: string)
    ensures |t| == |"Medical Campaign for "| + |name|
    ensures t[..21] == "Medical Campaign for " && t[21..] == name
  {
    "Medical Campaign for " + name
  }

  /** The checks of `register_beneficiary` in their order. */
  function RegisterBeneficiaryCheck(users: map<Uuid, User>, campaigns: map<Uuid, Campaign>, caller: Uuid,
                                    form: CampaignForm, newId: Uuid): (r: Option<Reply>)
    ensures r.Some? ==> !r.value.success
  {
    if !IsPartner(users, caller) then Some(Fail(403))
    else if !BeneficiaryFieldsGiven(form) then Some(Fail(400))
    else if Float(form.targetAmount).None? then Some(Fail(500))
    else if newId in campaigns then Some(Fail(500))
    else None
  }

  /** Registering needs five fields, not the title: a form that would be
      refused by `create_campaign` for a missing title is accepted here. */
  lemma RegisterBeneficiaryCheckPasses(users: map<Uuid, User>, campaigns: map<Uuid, Campaign>, caller: Uuid,
                                       form: CampaignForm, newId: Uuid)
    ensures RegisterBeneficiaryCheck(users, campaigns, caller, form, newId).None? <==>
      IsPartner(users, caller) && BeneficiaryFieldsGiven(form) && Float(form.targetAmount).Some? && newId !in campaigns
    ensures CampaignFieldsGiven(form) ==> BeneficiaryFieldsGiven(form)
    ensures BeneficiaryFieldsGiven(form) && !Given(form.title) ==> !CampaignFieldsGiven(form)
  {
  }

  /** `register_beneficiary`. On 201 exactly one pending campaign without
      uploads is added, owned by the caller and titled after the
      beneficiary; otherwise nothing is stored. */
  method RegisterBeneficiary(db: Store, caller: Uuid, form: CampaignForm, newId: Uuid, now: Instant)
    returns (reply: Reply)
    requires db.Valid()
    modifies db
    ensures db.Valid()
    ensures var check := RegisterBeneficiaryCheck(old(db.users), old(db.campaigns), caller, form, newId);
      reply == if check.Some? then check.value else Ok(201)
    ensures !reply.success ==> unchanged(db)
    ensures reply.success ==>
      && BeneficiaryFieldsGiven(form) && Float(form.targetAmount).Some?
      && newId !in old(db.campaigns)
      && db.campaigns == old(db.campaigns)[newId := NewCampaign(
           BeneficiaryTitle(form.beneficiaryName.value), form.description, form.category.value, form.urgency.value,
           Float(form.targetAmount).value, form.beneficiaryName.value, form.beneficiaryAge, form.condition,
           caller, None, None, now)]
      && db.campaigns[newId].status == CampaignStatus.Pending && db.campaigns[newId].fundsRaised == 0
      && db.users == old(db.users) && db.donations == old(db.donations) && db.transactions == old(db.transactions)
      && db.disbursements == old(db.disbursements) && db.fraudReports == old(db.fraudReports)
      && db.documents == old(db.documents)
  {
    var check := RegisterBeneficiaryCheck(db.users, db.campaigns, caller, form, newId);
    if check.Some? {
      return check.value;
    }
    var c := NewCampaign(BeneficiaryTitle(form.beneficiaryName.value), form.description, form.category.value,
                         form.urgency.value, Float(form.targetAmount).value, form.beneficiaryName.value,
                         form.beneficiaryAge, form.condition, caller, None, None, now);
    NewCampaignKeepsConsistent(db.campaigns, db.donations, db.transactions, newId, c);
    db.campaigns := db.campaigns[newId := c];
    reply := Ok(201);
  }

  // ---------------------------------------------------------------------
  // The ownership test of get_campaign_progress and request_disbursement

  /** The Python values the ownership test compares: `campaign.partner_id`
      is a `uuid.UUID` (or None), the JWT identity is the text `str(user.id)`. */
  datatype PyValue = PyNone | PyUuid(u: Uuid) | PyStr(s: string)

  /** Python `==` on these values: a UUID equals only a UUID with the same
      value, and never a string, whatever the string spells. */
  predicate PyEq(a: PyValue, b: PyValue)
  {
    match (a, b)
    case (PyNone, PyNone) => true
    case (PyUuid(x), PyUuid(y)) => x == y
    case (PyStr(s), PyStr(t)) => s == t
    case _ => false
  }

  function PartnerIdValue(c: Campaign): PyValue
  {
    if c.partnerId.Some? then PyUuid(c.partnerId.value) else PyNone
  }

  /** The test as written: refuse when the campaign is missing or
      `campaign.partner_id != partner_id`, with `partner_id` the identity text. */
  predicate RefusedAsWritten(campaigns: map<Uuid, Campaign>, campaignId: Uuid, identity: string)
  {
    campaignId !in campaigns || !PyEq(PartnerIdValue(campaigns[campaignId]), PyStr(identity))
  }

  /** The test as intended: refuse unless the caller owns the campaign. */
  predicate Owns(c: Campaign, caller: Uuid)
  {
    c.partnerId == Some(caller)
  }

  predicate NotOwned(campaigns: map<Uuid, Campaign>, campaignId: Uuid, caller: Uuid)
  {
    campaignId !in campaigns || !Owns(campaigns[campaignId], caller)
  }

  // ---------------------------------------------------------------------
  // get_campaign_progress

  /** The completed donations of campaign `cid`. */
  function CompletedDonations(donations: map<Uuid, Donation>, cid: Uuid): (ids: set<Uuid>)
    ensures ids <= donations.Keys
    ensures forall k :: k in ids <==>
      k in donations && donations[k].campaignId == cid && donations[k].status == DonationStatus.Completed
  {
    set k | k in donations && donations[k].campaignId == cid && donations[k].status == DonationStatus.Completed
  }

  /** `set(d.donor_id for d in completed if d.donor_id)` */
  function DistinctDonors(donations: map<Uuid, Donation>, ids: set<Uuid>): set<Uuid>
    requires ids <= donations.Keys
  {
    set k | k in ids && donations[k].donorId.Some? :: donations[k].donorId.value
  }

  /** The donations among `ids` that name their donor. */
  function Named(donations: map<Uuid, Donation>, ids: set<Uuid>): (r: set<Uuid>)
    requires ids <= donations.Keys
    ensures r <= ids
  {
    set k | k in ids && donations[k].donorId.Some?
  }

  /** The donations among `ids` marked anonymous. */
  function Anonymous(donations: map<Uuid, Donation>, ids: set<Uuid>): (r: set<Uuid>)
    requires ids <= donations.Keys
    ensures r <= ids
  {
    set k | k in ids && donations[k].isAnonymous
  }

  /** The `data` of a successful progress report. */
  datatype ProgressStats = ProgressStats(
    campaignId: Uuid,
    title: string,
    status: CampaignStatus,
    fundsRaised: int,
    targetAmount: int,
    remainingAmount: int,
    progressPercentage: real,
    totalDonors: nat,
    donationCount: nat,
    anonymousDonations: nat,
    createdAt: Instant,
    deadline: Option<Instant>)

  /** `get_campaign_progress`, read-only, with the ownership test as
      intended (see `ProgressAsWritten` for the test as written). */
  function CampaignProgress(users: map<Uuid, User>, campaigns: map<Uuid, Campaign>, donations: map<Uuid, Donation>,
                            caller: Uuid, campaignId: Uuid): (r: Served<ProgressStats>)
    ensures r.Refused? <==> !IsPartner(users, caller) || NotOwned(campaigns, campaignId, caller)
    ensures r.Refused? ==> r.code == (if IsPartner(users, caller) then 404 else 403)
  {
    if !IsPartner(users, caller) then Refused(403)
    else if NotOwned(campaigns, campaignId, caller) then Refused(404)
    else
      var c := campaigns[campaignId];
      var ids := CompletedDonations(donations, campaignId);
      Served(ProgressStats(campaignId, c.title, c.status, c.fundsRaised, c.targetAmount,
                           c.targetAmount - c.fundsRaised, ProgressPercentage(c),
                           |DistinctDonors(donations, ids)|, |ids|, |Anonymous(donations, ids)|,
                           c.createdAt, c.deadline))
  }

  /** Several donations by one donor count as one donor. */
  lemma {:induction false} DistinctDonorsAtMostNamed(donations: map<Uuid, Donation>, ids: set<Uuid>)
    requires ids <= donations.Keys
    ensures |DistinctDonors(donations, ids)| <= |Named(donations, ids)|
    decreases |ids|
  {
    if ids != {} {
      var k :| k in ids;
      var rest := ids - {k};
      DistinctDonorsAtMostNamed(donations, rest);
      if donations[k].donorId.Some? {
        assert DistinctDonors(donations, ids) == DistinctDonors(donations, rest) + {donations[k].donorId.value};
        assert Named(donations, ids) == Named(donations, rest) + {k};
      } else {
        assert DistinctDonors(donations, ids) == DistinctDonors(donations, rest);
        assert Named(donations, ids) == Named(donations, rest);
      }
    }
  }

  /** The report's counts fit together: anonymous donations and distinct
      donors are each at most the number of completed donations, and since
      a donation names its donor exactly when it is not anonymous, the two
      together are at most that number too. `remaining_amount` is the
      target less the funds, negative once the campaign is overfunded. */
  lemma ProgressCountsAgree(users: map<Uuid, User>, campaigns: map<Uuid, Campaign>, donations: map<Uuid, Donation>,
                            caller: Uuid, campaignId: Uuid)
    requires DonationsWellFormed(donations)
    ensures var r := CampaignProgress(users, campaigns, donations, caller, campaignId);
      r.Served? ==>
        && r.data.anonymousDonations <= r.data.donationCount
        && r.data.totalDonors <= r.data.donationCount
        && r.data.totalDonors + r.data.anonymousDonations <= r.data.donationCount
        && r.data.remainingAmount == RemainingAmount(campaigns[campaignId])
        && r.data.donationCount == |CompletedDonations(donations, campaignId)|
  {
    var r := CampaignProgress(users, campaigns, donations, caller, campaignId);
    if r.Served? {
      var ids := CompletedDonations(donations, campaignId);
      var named := Named(donations, ids);
      var anonymous := Anonymous(donations, ids);
      DistinctDonorsAtMostNamed(donations, ids);
      assert named * anonymous == {} by {
        forall k | k in named ensures k !in anonymous {
          assert k in donations;
        }
      }
      assert named + anonymous <= ids;
      assert |named + anonymous| == |named| + |anonymous|;
      SubsetSmaller(named + anonymous, ids);
      SubsetSmaller(anonymous, ids);
    }
  }

  lemma SubsetSmaller(a: set<Uuid>, b: set<Uuid>)
    requires a <= b
    ensures |a| <= |b|
  {
    assert b == a + (b - a);
  }

  /** The ownership test as written can never pass: the owner's own request
      for the progress of their campaign is refused with 404, whatever text
      the identity is. */
  function ProgressAsWritten(users: map<Uuid, User>, campaigns: map<Uuid, Campaign>, donations: map<Uuid, Donation>,
                             caller: Uuid, identity: string, campaignId: Uuid): Served<ProgressStats>
  {
    if !IsPartner(users, caller) then Refused(403)
    else if RefusedAsWritten(campaigns, campaignId, identity) then Refused(404)
    else CampaignProgress(users, campaigns, donations, caller, campaignId)
  }

  lemma ProgressRefusedAsWritten(users: map<Uuid, User>, campaigns: map<Uuid, Campaign>,
                                 donations: map<Uuid, Donation>, caller: Uuid, identity: string, campaignId: Uuid)
    requires IsPartner(users, caller) && campaignId in campaigns && Owns(campaigns[campaignId], caller)
    ensures ProgressAsWritten(users, campaigns, donations, caller, identity, campaignId) == Refused(404)
    ensures CampaignProgress(users, campaigns, donations, caller, campaignId).Served?
  {
  }

  // ---------------------------------------------------------------------
  // request_disbursement

  /** The body of a disbursement request: the amount, and the bank fields,
      each either absent (the partner's stored value is used) or given. */
  datatype DisbursementRequest = DisbursementRequest(
    amount: Json,
    bankAccountNumber: Patch<Option<string>>,
    bankName: Patch<Option<string>>)

  /** The checks of `request_disbursement` in their order, with the ownership
      test as intended. */
  function DisbursementCheck(users: map<Uuid, User>, campaigns: map<Uuid, Campaign>,
                             disbursements: map<Uuid, Disbursement>, caller: Uuid, campaignId: Uuid,
                             req: DisbursementRequest, newId: Uuid): (r: Option<Reply>)
    ensures r.Some? ==> !r.value.success
  {
    if !IsPartner(users, caller) then Some(Fail(403))
    else if NotOwned(campaigns, campaignId, caller) then Some(Fail(404))
    else if !Truthy(req.amount) then Some(Fail(400))
    else if Float(req.amount).None? then Some(Fail(500))
    else if Float(req.amount).value <= 0 || Float(req.amount).value > campaigns[campaignId].fundsRaised
    then Some(Fail(400))
    else if newId in disbursements then Some(Fail(500))
    else None
  }

  /** A request is accepted exactly when the partner owns the campaign and
      asks for a positive amount no larger than the funds raised; asking
      for all of it is allowed. Neither other disbursements of the campaign
      nor its status are looked at. */
  lemma DisbursementCheckPasses(users: map<Uuid, User>, campaigns: map<Uuid, Campaign>,
                                disbursements: map<Uuid, Disbursement>, caller: Uuid, campaignId: Uuid,
                                req: DisbursementRequest, newId: Uuid)
    ensures DisbursementCheck(users, campaigns, disbursements, caller, campaignId, req, newId).None? <==>
      && IsPartner(users, caller) && campaignId in campaigns && Owns(campaigns[campaignId], caller)
      && Truthy(req.amount) && Float(req.amount).Some?
      && 0 < Float(req.amount).value <= campaigns[campaignId].fundsRaised
      && newId !in disbursements
    ensures IsPartner(users, caller) && NotOwned(campaigns, campaignId, caller) ==>
      DisbursementCheck(users, campaigns, disbursements, caller, campaignId, req, newId) == Some(Fail(404))
    ensures IsPartner(users, caller) && !NotOwned(campaigns, campaignId, caller)
            && Float(req.amount).Some? && Float(req.amount).value > campaigns[campaignId].fundsRaised ==>
      DisbursementCheck(users, campaigns, disbursements, caller, campaignId, req, newId) == Some(Fail(400))
  {
  }

  /** The stored bank details of a partner. */
  function PartnerBank(u: User): (Option<string>, Option<string>)
  {
    if u.profile.PartnerProfile? then (u.profile.bankAccountNumber, u.profile.bankName) else (None, None)
  }

  /** `request_disbursement`. On 201 exactly one pending disbursement of the
      requested amount is added for the campaign, with the bank fields of the
      request or else the partner's own; no campaign's funds change. */
  method RequestDisbursement(db: Store, caller: Uuid, campaignId: Uuid, req: DisbursementRequest, newId: Uuid,
                             now: Instant)
    returns (reply: Reply)
    requires db.Valid()
    modifies db
    ensures db.Valid()
    ensures var check := DisbursementCheck(old(db.users), old(db.campaigns), old(db.disbursements), caller,
                                           campaignId, req, newId);
      reply == if check.Some? then check.value else Ok(201)
    ensures !reply.success ==> unchanged(db)
    ensures reply.success ==>
      && caller in old(db.users) && Float(req.amount).Some?
      && db.disbursements == old(db.disbursements)[newId := NewDisbursement(
           campaignId, Float(req.amount).value,
           Apply(req.bankAccountNumber, PartnerBank(old(db.users)[caller]).0),
           Apply(req.bankName, PartnerBank(old(db.users)[caller]).1), now)]
      && db.campaigns == old(db.campaigns)
      && db.users == old(db.users) && db.donations == old(db.donations) && db.transactions == old(db.transactions)
      && db.fraudReports == old(db.fraudReports) && db.documents == old(db.documents)
  {
    var check := DisbursementCheck(db.users, db.campaigns, db.disbursements, caller, campaignId, req, newId);
    if check.Some? {
      return check.value;
    }
    var bank := PartnerBank(db.users[caller]);
    var d := NewDisbursement(campaignId, Float(req.amount).value, Apply(req.bankAccountNumber, bank.0),
                             Apply(req.bankName, bank.1), now);
    db.disbursements := db.disbursements[newId := d];
    reply := Ok(201);
  }

  /** `request_disbursement` with the ownership test as written: no request
      ever gets past it. */
  function DisbursementCheckAsWritten(users: map<Uuid, User>, campaigns: map<Uuid, Campaign>,
                                      disbursements: map<Uuid, Disbursement>, caller: Uuid, identity: string,
                                      campaignId: Uuid, req: DisbursementRequest, newId: Uuid): Option<Reply>
  {
    if !IsPartner(users, caller) then Some(Fail(403))
    else if RefusedAsWritten(campaigns, campaignId, identity) then Some(Fail(404))
    else DisbursementCheck(users, campaigns, disbursements, caller, campaignId, req, newId)
  }

  lemma DisbursementRefusedAsWritten(users: map<Uuid, User>, campaigns: map<Uuid, Campaign>,
                                     disbursements: map<Uuid, Disbursement>, caller: Uuid, identity: string,
                                     campaignId: Uuid, req: DisbursementRequest, newId: Uuid)
    requires IsPartner(users, caller)
    ensures DisbursementCheckAsWritten(users, campaigns, disbursements, caller, identity, campaignId, req, newId)
            == Some(Fail(404))
  {
  }
}
