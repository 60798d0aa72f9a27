/** Document, Transaction, Disbursement and FraudReport records of
    app/models/other.py: their defaults and what `to_dict` exposes. */
module OtherModel {
  import opened Base

  datatype Document = Document(
    campaignId: Option<Uuid>,
    partnerId: Option<Uuid>,
    documentType: string,
    filePath: string,
    fileName: string,
    fileSize: Option<int>,
    isVerified: bool,
    verificationNotes: Option<string>,
    createdAt: Instant,
    updatedAt: Instant)

  /** `Document(...)` with the columns the caller supplies; not yet verified. */
  function NewDocument(campaignId: Option<Uuid>, documentType: string, filePath: string,
                       fileName: string, now: Instant): (d: Document)
    ensures !d.isVerified && d.verificationNotes.None?
    ensures d.campaignId == campaignId && d.filePath == filePath && d.fileName == fileName
  {
    Document(campaignId, None, documentType, filePath, fileName, None, false, None, now, now)
  }

  datatype TransactionStatus = Pending | Success | Failed

  /** A row of `transactions`. `reference` is the gateway's id for the
      payment and is unique across the table. */
  datatype Transaction = Transaction(
    id: Uuid,
    donationId: Uuid,
    paymentMethod: Option<string>,
    reference: string,
    amount: int,
    currency: string,
    status: TransactionStatus,
    errorMessage: Option<string>,
    createdAt: Instant,
    processedAt: Option<Instant>)

  /** `Transaction(donation_id, transaction_reference, amount)` with every
      other column at its default: pending, in USD, unprocessed. */
  function NewTransaction(id: Uuid, donationId: Uuid, reference: string, amount: int, now: Instant): (t: Transaction)
    ensures t.status == TransactionStatus.Pending && t.currency == "USD" && t.processedAt.None?
    ensures t.donationId == donationId && t.reference == reference && t.amount == amount
  {
    Transaction(id, donationId, None, reference, amount, "USD", TransactionStatus.Pending, None, now, None)
  }

  datatype DisbursementStatus = Pending | Approved | Processed | Failed

  datatype Disbursement = Disbursement(
    campaignId: Uuid,
    amount: int,
    status: DisbursementStatus,
    bankAccountNumber: Option<string>,
    bankName: Option<string>,
    approvedById: Option<Uuid>,
    approvalNotes: Option<string>,
    createdAt: Instant,
    approvedAt: Option<Instant>,
    processedAt: Option<Instant>)

  /** `Disbursement(campaign_id, amount, bank_account_number, bank_name)`:
      pending, unapproved and unprocessed. */
  function NewDisbursement(campaignId: Uuid, amount: int, bankAccountNumber: Option<string>,
                           bankName: Option<string>, now: Instant): (d: Disbursement)
    ensures d.status == DisbursementStatus.Pending
    ensures d.approvedById.None? && d.approvedAt.None? && d.processedAt.None?
    ensures d.campaignId == campaignId && d.amount == amount
    ensures d.bankAccountNumber == bankAccountNumber && d.bankName == bankName
  {
    Disbursement(campaignId, amount, DisbursementStatus.Pending, bankAccountNumber, bankName,
                 None, None, now, None, None)
  }

  /** What `Disbursement.to_dict()` exposes. */
  datatype DisbursementView = DisbursementView(
    id: Uuid, campaignId: Uuid, amount: int, status: DisbursementStatus, bankName: Option<string>,
    createdAt: Instant, approvedAt: Option<Instant>, processedAt: Option<Instant>)

  /** `Disbursement.to_dict()`: the two timestamps serialise as None until set;
      the account number is not exposed. */
  function DisbursementToDict(id: Uuid, d: Disbursement): (v: DisbursementView)
    ensures v.approvedAt.None? <==> d.approvedAt.None?
    ensures v.processedAt.None? <==> d.processedAt.None?
    ensures v.amount == d.amount && v.status == d.status && v.bankName == d.bankName
  {
    DisbursementView(id, d.campaignId, d.amount, d.status, d.bankName, d.createdAt, d.approvedAt, d.processedAt)
  }

  datatype FraudStatus = Pending | Investigating | Confirmed | Dismissed

  /** A row of `fraud_reports`; `campaign_id` is not nullable. */
  datatype FraudReport = FraudReport(
    campaignId: Uuid,
    reportedById: Option<Uuid>,
    description: string,
    evidenceFile: Option<string>,
    status: FraudStatus,
    investigationNotes: Option<string>,
    createdAt: Instant,
    updatedAt: Instant)

  /** `FraudReport(campaign_id, reported_by_id, description, evidence_file)`:
      pending and without notes. */
  function NewFraudReport(campaignId: Uuid, reportedBy: Option<Uuid>, description: string,
                          evidence: Option<string>, now: Instant): (r: FraudReport)
    ensures r.status == FraudStatus.Pending && r.investigationNotes.None?
    ensures r.campaignId == campaignId
  {
    FraudReport(campaignId, reportedBy, description, evidence, FraudStatus.Pending, None, now, now)
  }
}
