/** The money bookkeeping the route handlers keep between them: a campaign's
    `funds_raised` against the successful Transactions of its donations.
    Everything here is a statement about table contents (values); the
    Database module ties it to the mutable store. */
module Ledger {
  import opened Base
  import opened CampaignModel
  import opened OtherModel

  /** The campaign a transaction's money went to, through its donation. */
  function Beneficiary(t: Transaction, donations: map<Uuid, Donation>): Option<Uuid>
  {
    if t.donationId in donations then Some(donations[t.donationId].campaignId) else None
  }

  /** Whether transaction `t` credits campaign `c`. */
  predicate Credits(t: Transaction, donations: map<Uuid, Donation>, c: Uuid)
  {
    t.status == TransactionStatus.Success && Beneficiary(t, donations) == Some(c)
  }

  /** Sum of the amounts of the successful transactions of campaign `c`'s
      donations. */
  function Credited(txs: seq<Transaction>, donations: map<Uuid, Donation>, c: Uuid): int
  {
    if txs == [] then 0
    else (if Credits(txs[0], donations, c) then txs[0].amount else 0) + Credited(txs[1..], donations, c)
  }

  /** Recording one more transaction adds its amount to the campaign it
      credits and nothing to any other. */
  lemma {:induction false} CreditedAppend(txs: seq<Transaction>, t: Transaction, donations: map<Uuid, Donation>, c: Uuid)
    ensures Credited(txs + [t], donations, c)
         == Credited(txs, donations, c) + (if Credits(t, donations, c) then t.amount else 0)
  {
    if txs == [] {
      assert [t][1..] == [];
    } else {
      assert (txs + [t])[1..] == txs[1..] + [t];
      CreditedAppend(txs[1..], t, donations, c);
    }
  }

  /** The sum depends on the donations table only through the campaign each
      recorded transaction is attributed to. */
  lemma {:induction false} CreditedFrame(txs: seq<Transaction>, d1: map<Uuid, Donation>, d2: map<Uuid, Donation>, c: Uuid)
    requires forall i :: 0 <= i < |txs| ==> Beneficiary(txs[i], d1) == Beneficiary(txs[i], d2)
    ensures Credited(txs, d1, c) == Credited(txs, d2, c)
  {
    if txs != [] {
      assert Beneficiary(txs[0], d1) == Beneficiary(txs[0], d2);
      CreditedFrame(txs[1..], d1, d2, c);
    }
  }

  /** A campaign none of whose donations has a transaction is credited 0. */
  lemma {:induction false} CreditedNothing(txs: seq<Transaction>, donations: map<Uuid, Donation>, c: Uuid)
    requires forall i :: 0 <= i < |txs| ==> Beneficiary(txs[i], donations) != Some(c)
    ensures Credited(txs, donations, c) == 0
  {
    if txs != [] {
      assert Beneficiary(txs[0], donations) != Some(c);
      CreditedNothing(txs[1..], donations, c);
    }
  }

  /** Credits are never negative when every recorded amount is positive. */
  lemma {:induction false} CreditedNonNegative(txs: seq<Transaction>, donations: map<Uuid, Donation>, c: Uuid)
    requires forall i :: 0 <= i < |txs| ==> txs[i].amount > 0
    ensures Credited(txs, donations, c) >= 0
  {
    if txs != [] {
      assert txs[0].amount > 0;
      CreditedNonNegative(txs[1..], donations, c);
    }
  }

  /** A campaign credited anything has a successful transaction of one of
      its donations behind it. */
  lemma {:induction false} CreditedHasWitness(txs: seq<Transaction>, donations: map<Uuid, Donation>, c: Uuid)
    requires Credited(txs, donations, c) != 0
    ensures exists i :: 0 <= i < |txs| && Credits(txs[i], donations, c)
  {
    if !Credits(txs[0], donations, c) {
      CreditedHasWitness(txs[1..], donations, c);
      var i :| 0 <= i < |txs| - 1 && Credits(txs[1..][i], donations, c);
      assert txs[1..][i] == txs[i + 1];
    }
  }

  /** Foreign keys: every donation belongs to an existing campaign. */
  ghost predicate DonationsHaveCampaigns(campaigns: map<Uuid, Campaign>, donations: map<Uuid, Donation>)
  {
    forall id :: id in donations ==> donations[id].campaignId in campaigns
  }

  /** What `create_donation` guarantees of every donation: a positive amount,
      and no donor recorded exactly when it is anonymous. */
  ghost predicate DonationsWellFormed(donations: map<Uuid, Donation>)
  {
    forall id :: id in donations ==>
      donations[id].amount > 0 && (donations[id].donorId.None? <==> donations[id].isAnonymous)
  }

  /** `Donation.transaction_id` is unique. */
  ghost predicate UniqueIntentIds(donations: map<Uuid, Donation>)
  {
    forall a, b :: a in donations && b in donations && a != b ==>
      donations[a].transactionId != donations[b].transactionId
  }

  /** Every transaction is the successful confirmation of an existing
      donation: same amount, and the gateway reference is the donation's
      payment intent. */
  ghost predicate TransactionsBacked(donations: map<Uuid, Donation>, txs: seq<Transaction>)
  {
    forall i :: 0 <= i < |txs| ==>
      && txs[i].donationId in donations
      && txs[i].status == TransactionStatus.Success
      && txs[i].reference == donations[txs[i].donationId].transactionId
      && txs[i].amount == donations[txs[i].donationId].amount
  }

  /** `Transaction.transaction_reference` is unique. */
  ghost predicate UniqueReferences(txs: seq<Transaction>)
  {
    forall i, j :: 0 <= i < j < |txs| ==> txs[i].reference != txs[j].reference
  }

  /** Whether some recorded transaction belongs to donation `id`. */
  predicate Recorded(txs: seq<Transaction>, id: Uuid)
  {
    exists i :: 0 <= i < |txs| && txs[i].donationId == id
  }

  /** A donation is 'completed' exactly when a transaction records its
      payment; 'pending' otherwise (the handlers write no other status). */
  ghost predicate CompletedIffRecorded(donations: map<Uuid, Donation>, txs: seq<Transaction>)
  {
    forall id :: id in donations ==>
      && (donations[id].status == DonationStatus.Completed <==> Recorded(txs, id))
      && (donations[id].status == DonationStatus.Pending || donations[id].status == DonationStatus.Completed)
  }

  /** The ledger equation: each campaign's `funds_raised` is what its
      donations' successful transactions add up to. */
  ghost predicate FundsMatchLedger(campaigns: map<Uuid, Campaign>, donations: map<Uuid, Donation>, txs: seq<Transaction>)
  {
    forall c :: c in campaigns ==> campaigns[c].fundsRaised == Credited(txs, donations, c)
  }

  ghost predicate Consistent(campaigns: map<Uuid, Campaign>, donations: map<Uuid, Donation>, txs: seq<Transaction>)
  {
    && DonationsHaveCampaigns(campaigns, donations)
    && DonationsWellFormed(donations)
    && UniqueIntentIds(donations)
    && TransactionsBacked(donations, txs)
    && UniqueReferences(txs)
    && CompletedIffRecorded(donations, txs)
    && FundsMatchLedger(campaigns, donations, txs)
  }

  /** A donation is credited at most once: two transactions never belong to
      the same donation, because each carries its donation's unique intent id
      as its unique reference. */
  lemma AtMostOneCreditPerDonation(donations: map<Uuid, Donation>, txs: seq<Transaction>, i: int, j: int)
    requires TransactionsBacked(donations, txs) && UniqueReferences(txs)
    requires 0 <= i < j < |txs|
    ensures txs[i].donationId != txs[j].donationId
  {
  }

  /** In a consistent ledger no campaign has negative funds. */
  lemma FundsNonNegative(campaigns: map<Uuid, Campaign>, donations: map<Uuid, Donation>, txs: seq<Transaction>, c: Uuid)
    requires Consistent(campaigns, donations, txs)
    requires c in campaigns
    ensures campaigns[c].fundsRaised >= 0
  {
    forall i | 0 <= i < |txs| ensures txs[i].amount > 0 {
      assert txs[i].donationId in donations;
    }
    CreditedNonNegative(txs, donations, c);
  }

  /** No campaign's funds went down between two states of the tables. */
  ghost predicate FundsNeverDecrease(before: map<Uuid, Campaign>, after: map<Uuid, Campaign>)
  {
    forall c :: c in before && c in after ==> before[c].fundsRaised <= after[c].fundsRaised
  }

  /** Recording a new pending donation (create_donation) leaves every
      campaign's credits as they were. */
  lemma NewDonationKeepsConsistent(campaigns: map<Uuid, Campaign>, donations: map<Uuid, Donation>,
                                   txs: seq<Transaction>, id: Uuid, d: Donation)
    requires Consistent(campaigns, donations, txs)
    requires id !in donations && d.campaignId in campaigns
    requires d.amount > 0 && (d.donorId.None? <==> d.isAnonymous) && d.status == DonationStatus.Pending
    requires forall k :: k in donations ==> donations[k].transactionId != d.transactionId
    ensures Consistent(campaigns, donations[id := d], txs)
  {
    var donations' := donations[id := d];
    forall c | c in campaigns
      ensures campaigns[c].fundsRaised == Credited(txs, donations', c)
    {
      forall i | 0 <= i < |txs| ensures Beneficiary(txs[i], donations) == Beneficiary(txs[i], donations') {
        assert txs[i].donationId in donations;
      }
      CreditedFrame(txs, donations, donations', c);
    }
  }

  /** The donation as `confirm_donation` leaves it. */
  function MarkCompleted(d: Donation, now: Instant): (r: Donation)
    ensures r.status == DonationStatus.Completed && r.completedAt == Some(now)
    ensures r == d.(status := r.status, completedAt := r.completedAt)
  {
    d.(status := DonationStatus.Completed, completedAt := Some(now))
  }

  /** The campaign after `funds_raised += amount`. */
  function Credit(c: Campaign, amount: int): (r: Campaign)
    ensures r.fundsRaised == c.fundsRaised + amount
    ensures r == c.(fundsRaised := r.fundsRaised)
  {
    c.(fundsRaised := c.fundsRaised + amount)
  }

  /** Crediting the campaign of donation `id` by its amount while recording
      its transaction keeps every campaign's funds equal to its credits. */
  lemma ConfirmKeepsFunds(campaigns: map<Uuid, Campaign>, donations: map<Uuid, Donation>,
                          txs: seq<Transaction>, id: Uuid, t: Transaction, now: Instant)
    requires FundsMatchLedger(campaigns, donations, txs) && DonationsHaveCampaigns(campaigns, donations)
    requires id in donations
    requires t.donationId == id && t.status == TransactionStatus.Success && t.amount == donations[id].amount
    ensures donations[id].campaignId in campaigns
    ensures FundsMatchLedger(
      campaigns[donations[id].campaignId := Credit(campaigns[donations[id].campaignId], donations[id].amount)],
      donations[id := MarkCompleted(donations[id], now)],
      txs + [t])
  {
    var d := donations[id];
    var campaigns' := campaigns[d.campaignId := Credit(campaigns[d.campaignId], d.amount)];
    var donations' := donations[id := MarkCompleted(d, now)];
    forall c | c in campaigns'
      ensures campaigns'[c].fundsRaised == Credited(txs + [t], donations', c)
    {
      forall i | 0 <= i < |txs| ensures Beneficiary(txs[i], donations) == Beneficiary(txs[i], donations') {
      }
      CreditedFrame(txs, donations, donations', c);
      CreditedAppend(txs, t, donations', c);
    }
  }

  /** Completing donation `id` while recording its transaction keeps the
      transaction table backed, unique in its references, and in step with
      the donations' statuses. */
  lemma ConfirmKeepsRecords(donations: map<Uuid, Donation>, txs: seq<Transaction>, id: Uuid, t: Transaction,
                            now: Instant)
    requires TransactionsBacked(donations, txs) && UniqueReferences(txs) && CompletedIffRecorded(donations, txs)
    requires id in donations
    requires t.donationId == id && t.status == TransactionStatus.Success
    requires t.reference == donations[id].transactionId && t.amount == donations[id].amount
    requires forall i :: 0 <= i < |txs| ==> txs[i].reference != t.reference
    ensures var donations' := donations[id := MarkCompleted(donations[id], now)];
      TransactionsBacked(donations', txs + [t]) && UniqueReferences(txs + [t])
      && CompletedIffRecorded(donations', txs + [t])
  {
    var donations' := donations[id := MarkCompleted(donations[id], now)];
    var txs' := txs + [t];
    assert TransactionsBacked(donations', txs') by {
      forall i | 0 <= i < |txs'|
        ensures txs'[i].donationId in donations'
        ensures txs'[i].status == TransactionStatus.Success
        ensures txs'[i].reference == donations'[txs'[i].donationId].transactionId
        ensures txs'[i].amount == donations'[txs'[i].donationId].amount
      {
        if i < |txs| { assert txs'[i] == txs[i]; } else { assert txs'[i] == t; }
      }
    }
    assert CompletedIffRecorded(donations', txs') by {
      assert txs'[|txs|].donationId == id;
      forall k | k in donations' && k != id
        ensures donations'[k].status == DonationStatus.Completed <==> Recorded(txs', k)
      {
        if Recorded(txs', k) {
          var i :| 0 <= i < |txs'| && txs'[i].donationId == k;
          assert i < |txs| && txs[i] == txs'[i];
        }
        if Recorded(txs, k) {
          var i :| 0 <= i < |txs| && txs[i].donationId == k;
          assert txs'[i] == txs[i];
        }
      }
    }
    assert UniqueReferences(txs') by {
      forall i, j | 0 <= i < j < |txs'| ensures txs'[i].reference != txs'[j].reference {
        if j == |txs| { assert txs'[j] == t && txs'[i] == txs[i]; }
        else { assert txs'[i] == txs[i] && txs'[j] == txs[j]; }
      }
    }
  }

  /** A successful confirmation keeps the ledger equation: completing the
      donation, crediting its campaign by its amount and recording its one
      transaction (whose reference was not yet taken) happen together. */
  lemma ConfirmKeepsConsistent(campaigns: map<Uuid, Campaign>, donations: map<Uuid, Donation>,
                               txs: seq<Transaction>, id: Uuid, t: Transaction, now: Instant)
    requires Consistent(campaigns, donations, txs)
    requires id in donations
    requires t.donationId == id && t.status == TransactionStatus.Success
    requires t.reference == donations[id].transactionId && t.amount == donations[id].amount
    requires forall i :: 0 <= i < |txs| ==> txs[i].reference != t.reference
    ensures donations[id].campaignId in campaigns
    ensures Consistent(
      campaigns[donations[id].campaignId := Credit(campaigns[donations[id].campaignId], donations[id].amount)],
      donations[id := MarkCompleted(donations[id], now)],
      txs + [t])
  {
    ConfirmKeepsFunds(campaigns, donations, txs, id, t, now);
    ConfirmKeepsRecords(donations, txs, id, t, now);
  }

  /** A new campaign starting at zero funds (create_campaign,
      register_beneficiary) satisfies the ledger equation from the start:
      no donation can name it yet. */
  lemma NewCampaignKeepsConsistent(campaigns: map<Uuid, Campaign>, donations: map<Uuid, Donation>,
                                   txs: seq<Transaction>, id: Uuid, c: Campaign)
    requires Consistent(campaigns, donations, txs)
    requires id !in campaigns && c.fundsRaised == 0
    ensures Consistent(campaigns[id := c], donations, txs)
  {
    forall i | 0 <= i < |txs| ensures Beneficiary(txs[i], donations) != Some(id) {
      assert txs[i].donationId in donations;
    }
    CreditedNothing(txs, donations, id);
  }

  /** Changing a campaign's other columns, never its funds, keeps the
      ledger equation (approve, reject, update, fraud cancellation). */
  lemma SameFundsKeepConsistent(campaigns: map<Uuid, Campaign>, donations: map<Uuid, Donation>,
                                txs: seq<Transaction>, id: Uuid, c: Campaign)
    requires Consistent(campaigns, donations, txs)
    requires id in campaigns && c.fundsRaised == campaigns[id].fundsRaised
    ensures Consistent(campaigns[id := c], donations, txs)
  {
  }

  /** The donations that survive deleting campaign `cid`. */
  function DonationsExcept(donations: map<Uuid, Donation>, cid: Uuid): (r: map<Uuid, Donation>)
    ensures forall k :: k in r <==> k in donations && donations[k].campaignId != cid
    ensures forall k :: k in r ==> r[k] == donations[k]
  {
    map k | k in donations && donations[k].campaignId != cid :: donations[k]
  }

  /** Deleting a campaign together with its donations keeps the ledger
      equation for every other campaign, provided none of the deleted
      donations has a transaction (the only case in which the delete
      commits). */
  lemma DeleteKeepsConsistent(campaigns: map<Uuid, Campaign>, donations: map<Uuid, Donation>,
                              txs: seq<Transaction>, cid: Uuid)
    requires Consistent(campaigns, donations, txs)
    requires forall i :: 0 <= i < |txs| ==> Beneficiary(txs[i], donations) != Some(cid)
    ensures Consistent(campaigns - {cid}, DonationsExcept(donations, cid), txs)
  {
    var donations' := DonationsExcept(donations, cid);
    forall c | c in campaigns - {cid}
      ensures (campaigns - {cid})[c].fundsRaised == Credited(txs, donations', c)
    {
      forall i | 0 <= i < |txs| ensures Beneficiary(txs[i], donations) == Beneficiary(txs[i], donations') {
        assert txs[i].donationId in donations;
        assert Beneficiary(txs[i], donations) != Some(cid);
      }
      CreditedFrame(txs, donations, donations', c);
    }
    assert TransactionsBacked(donations', txs) by {
      forall i | 0 <= i < |txs| ensures txs[i].donationId in donations' {
        assert Beneficiary(txs[i], donations) != Some(cid);
      }
    }
  }

  /** Whether some transaction already carries gateway reference `r`. */
  predicate ReferenceTaken(txs: seq<Transaction>, r: string)
  {
    exists i :: 0 <= i < |txs| && txs[i].reference == r
  }

  /** A donation's payment intent is already used as a transaction reference
      exactly when the donation is completed. So confirming a completed
      donation again always collides on the unique reference, and confirming
      a pending one never does. */
  lemma ReferenceTakenIffCompleted(campaigns: map<Uuid, Campaign>, donations: map<Uuid, Donation>,
                                   txs: seq<Transaction>, id: Uuid)
    requires Consistent(campaigns, donations, txs)
    requires id in donations
    ensures ReferenceTaken(txs, donations[id].transactionId) <==> donations[id].status == DonationStatus.Completed
  {
    if ReferenceTaken(txs, donations[id].transactionId) {
      var i :| 0 <= i < |txs| && txs[i].reference == donations[id].transactionId;
      var k := txs[i].donationId;
      assert k in donations && donations[k].transactionId == donations[id].transactionId;
      assert k == id;
      assert Recorded(txs, id);
    }
    if donations[id].status == DonationStatus.Completed {
      assert Recorded(txs, id);
      var i :| 0 <= i < |txs| && txs[i].donationId == id;
      assert txs[i].reference == donations[id].transactionId;
    }
  }
}
