/** Campaign and Donation records of app/models/campaign.py: column
    defaults, the progress expressions and the serialisation rules.
    Amounts are `db.Float` in the source and whole numbers here. */
module CampaignModel {
  import opened Base

  /** The values the handlers write into `Campaign.status`. */
  datatype CampaignStatus = Pending | Approved | Rejected | Completed | Cancelled

  datatype Campaign = Campaign(
    title: string,
    description: Option<string>,
    category: string,
    urgency: string,
    targetAmount: int,
    fundsRaised: int,
    status: CampaignStatus,
    beneficiaryName: string,
    beneficiaryAge: Option<int>,
    beneficiaryMedicalCondition: Option<string>,
    partnerId: Option<Uuid>,
    coverImage: Option<string>,
    medicalDocument: Option<string>,
    createdAt: Instant,
    updatedAt: Instant,
    deadline: Option<Instant>)

  /** `Campaign(...)` with the columns a partner supplies; `funds_raised`
      takes its column default and `status` is 'pending'. */
  function NewCampaign(title: string, description: Option<string>, category: string, urgency: string,
                       targetAmount: int, beneficiaryName: string, beneficiaryAge: Option<int>,
                       condition: Option<string>, partnerId: Uuid, coverImage: Option<string>,
                       medicalDocument: Option<string>, now: Instant): (c: Campaign)
    ensures c.fundsRaised == 0 && c.status == CampaignStatus.Pending
    ensures c.partnerId == Some(partnerId) && c.targetAmount == targetAmount && c.title == title
    ensures c.deadline.None? && c.createdAt == now
  {
    Campaign(title, description, category, urgency, targetAmount, 0, CampaignStatus.Pending,
             beneficiaryName, beneficiaryAge, condition, Some(partnerId), coverImage, medicalDocument,
             now, now, None)
  }

  /** `target_amount - funds_raised`, uncapped. */
  function RemainingAmount(c: Campaign): int
  {
    c.targetAmount - c.fundsRaised
  }

  /** Nothing caps the remaining amount: it is negative exactly when the
      campaign is overfunded, and adding to the funds lowers it by as much. */
  lemma RemainingAmountUncapped(c: Campaign, extra: int)
    ensures RemainingAmount(c) < 0 <==> c.fundsRaised > c.targetAmount
    ensures RemainingAmount(c.(fundsRaised := c.fundsRaised + extra)) == RemainingAmount(c) - extra
  {
  }

  /** `get_progress_percentage()` without the final `round(..., 2)`. */
  function ProgressPercentage(c: Campaign): real
  {
    if c.targetAmount == 0 then 0.0
    else (c.fundsRaised as real) * 100.0 / (c.targetAmount as real)
  }

  /** The `progress_percentage` entry of `to_dict()`, again without rounding. */
  function DictProgress(c: Campaign): real
  {
    if c.targetAmount > 0 then (c.fundsRaised as real) * 100.0 / (c.targetAmount as real) else 0.0
  }

  /** The two progress expressions guard differently: `to_dict` reports 0 for
      any target that is not positive, `get_progress_percentage` only for a
      zero target. They agree whenever the target is not negative. */
  lemma ProgressGuards(c: Campaign)
    ensures c.targetAmount == 0 ==> ProgressPercentage(c) == 0.0 && DictProgress(c) == 0.0
    ensures c.targetAmount <= 0 ==> DictProgress(c) == 0.0
    ensures c.targetAmount >= 0 ==> ProgressPercentage(c) == DictProgress(c)
    ensures c.targetAmount < 0 && c.fundsRaised > 0 ==> ProgressPercentage(c) < 0.0
  {
    if c.targetAmount < 0 && c.fundsRaised > 0 {
      assert (c.fundsRaised as real) * 100.0 > 0.0;
    }
  }

  /** With a positive target the percentage reaches 100 exactly when the
      target is met; overfunding shows as more than 100. */
  lemma ProgressReachesHundred(c: Campaign)
    requires c.targetAmount > 0
    ensures ProgressPercentage(c) >= 100.0 <==> c.fundsRaised >= c.targetAmount
  {
    var t := c.targetAmount as real;
    var p := ProgressPercentage(c);
    assert p * t == (c.fundsRaised as real) * 100.0;
    if c.fundsRaised >= c.targetAmount {
      assert p * t >= 100.0 * t;
    } else {
      assert p * t < 100.0 * t;
    }
  }

  /** The values `Donation.status` is meant to take; the handlers only ever
      write 'pending' and 'completed'. */
  datatype DonationStatus = Pending | Completed | Failed | Refunded

  datatype Donation = Donation(
    campaignId: Uuid,
    donorId: Option<Uuid>,
    amount: int,
    isAnonymous: bool,
    status: DonationStatus,
    transactionId: string,
    donorMessage: Option<string>,
    createdAt: Instant,
    completedAt: Option<Instant>)

  /** The Donation `create_donation` builds: pending, tied to the payment
      intent, and carrying the donor only when it is not anonymous. */
  function NewDonation(campaignId: Uuid, donor: Uuid, amount: int, isAnonymous: bool,
                       message: Option<string>, intentId: string, now: Instant): (d: Donation)
    ensures d.status == DonationStatus.Pending && d.completedAt.None?
    ensures d.transactionId == intentId && d.campaignId == campaignId && d.amount == amount
    ensures d.donorId.None? <==> isAnonymous
    ensures d.donorId.Some? ==> d.donorId.value == donor
  {
    Donation(campaignId, if isAnonymous then None else Some(donor), amount, isAnonymous,
             DonationStatus.Pending, intentId, message, now, None)
  }

  /** What `Donation.to_dict()` exposes. */
  datatype DonationView = DonationView(
    id: Uuid, campaignId: Uuid, donorId: Option<Uuid>, amount: int, isAnonymous: bool,
    status: DonationStatus, donorMessage: Option<string>, createdAt: Instant, completedAt: Option<Instant>)

  /** `Donation.to_dict()` */
  function DonationToDict(id: Uuid, d: Donation): (v: DonationView)
    ensures v.donorId.Some? <==> d.donorId.Some? && !d.isAnonymous
    ensures v.donorId.Some? ==> v.donorId == d.donorId
    ensures v.completedAt.None? <==> d.completedAt.None?
    ensures v.amount == d.amount && v.status == d.status && v.campaignId == d.campaignId
  {
    DonationView(id, d.campaignId, if d.donorId.Some? && !d.isAnonymous then d.donorId else None,
                 d.amount, d.isAnonymous, d.status, d.donorMessage, d.createdAt, d.completedAt)
  }

  /** An anonymous donation never reveals its donor, even if a donor id were
      stored on it. */
  lemma AnonymousDonorHidden(id: Uuid, d: Donation)
    requires d.isAnonymous
    ensures DonationToDict(id, d).donorId.None?
  {
  }
}
