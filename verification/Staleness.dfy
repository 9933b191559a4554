/**
 * What a write on a stale check breaks: for each kind of call the exact condition, on the tables before
 * the write, under which its property survives. `Scenarios` has a run for each that does not meet it.
 */
module Staleness {
  import opened Policy
  import opened Ledger
  import opened Payments
  import opened Safety
  import opened Agreement
  import opened ReleaseDelay

  /** Closing a refund keeps the refunds in agreement exactly when it had not succeeded meanwhile. */
  lemma StaleClose(b: Books, r: nat, outcome: RefundStatus, a: Answer, now: nat)
    requires Base(b) && RefundsAgree(b) && TicketOk(b, CloseRefund(r, outcome))
    ensures RefundsAgree(After(b, Commit(b, CloseRefund(r, outcome), a, now)))
       <==> (b.refunds[r].status.Succeeded? ==> b.refunds[r].amount == 0)
  {
    var b' := After(b, Commit(b, CloseRefund(r, outcome), a, now));
    var i := b.refunds[r].intent;
    RefundedSumDropped(b.refunds, r, outcome, i, |b.refunds|);
    forall j | j != i ensures Refunded(b', j) == Refunded(b, j) {
      RefundedElsewhere(b.refunds, r, b'.refunds[r], j, |b.refunds|);
    }
    assert Refunded(b, i) == AccountOf(b.ledger, i).refunded;
  }

  lemma {:induction false} RefundedSumDropped(x: seq<Refund>, r: nat, outcome: RefundStatus, i: nat, n: nat)
    requires r < n <= |x| && x[r].intent == i && !outcome.Succeeded?
    ensures RefundedSum(x[r := x[r].(status := outcome)], i, n)
         == RefundedSum(x, i, n) - (if x[r].status.Succeeded? then x[r].amount else 0)
  {
    if n - 1 > r {
      RefundedSumDropped(x, r, outcome, i, n - 1);
    } else {
      RefundedSumSame(x, x[r := x[r].(status := outcome)], i, n - 1);
    }
  }

  /** Approving a payout keeps the payouts in agreement exactly when it had not been paid meanwhile. */
  lemma StaleApproval(b: Books, p: nat, a: Answer, now: nat)
    requires Linked(b) && PayoutsAgree(b) && p < |b.payouts| && b.payouts[p].amount >= 1
    ensures PayoutsAgree(After(b, Commit(b, MarkApproved(p), a, now))) <==> !b.payouts[p].status.Paid?
  {
    var b' := After(b, Commit(b, MarkApproved(p), a, now));
    var i := b.payouts[p].intent;
    PayoutSumMoved(b.payouts, p, PayoutStatus.Approved, i, {PayoutStatus.Paid}, |b.payouts|);
    forall j | j != i ensures PayoutsIn(b', j, {PayoutStatus.Paid}) == PayoutsIn(b, j, {PayoutStatus.Paid}) {
      PaidElsewhere(b.payouts, p, PayoutStatus.Approved, j, {PayoutStatus.Paid}, |b.payouts|);
    }
    assert PayoutsIn(b, i, {PayoutStatus.Paid}) == AccountOf(b.ledger, i).paidOut;
  }

  /**
   * Applying an answer to a copy of a transaction keeps confirmed amounts exactly when, on a charge,
   * success came or the copy is current.
   */
  lemma StaleAnswer(b: Books, t: nat, copy: Txn, a: Answer, now: nat)
    requires Base(b) && ConfirmedAgree(b) && TicketOk(b, ApplyAnswer(t, copy))
    ensures ConfirmedAgree(After(b, Commit(b, ApplyAnswer(t, copy), a, now)))
       <==> (b.txns[t].kind.Charge? ==> a.status.Succeeded? || copy.confirmed == b.txns[t].confirmed)
  {
    var b' := After(b, Commit(b, ApplyAnswer(t, copy), a, now));
    if b.txns[t].kind.Charge? ==> a.status.Succeeded? || copy.confirmed == b.txns[t].confirmed {
      ConfirmedAfterApply(b, t, copy, a.status, now);
    } else {
      assert b'.ledger == b.ledger;
    }
  }

  /** The write leaves the job anything but completed long enough ago. */
  predicate Unreleasable(t: Ticket, c: Config, now: nat)
    requires t.WriteJob?
  {
    !t.next.Completed? || (t.completedAt.Some? && now < t.completedAt.value + c.releaseDelay)
  }

  /**
   * A job write keeps the release rule exactly when none of the job's money was released, unless it writes
   * a completion that is old enough, or one that leaves the date of an earlier completion.
   */
  lemma StaleJobWrite(b: Books, c: Config, t: Ticket, a: Answer, now: nat)
    requires Base(b) && NoEarlyMoney(b, c, now) && t.WriteJob? && Sound(b, t)
    ensures Linked(After(b, Commit(b, t, a, now)))
    ensures NoEarlyMoney(After(b, Commit(b, t, a, now)), c, now)
       <==> (Unreleasable(t, c, now) ==>
               forall k :: 0 <= k < |b.ledger| && Releasable(b.ledger[k].bucket) ==>
                   b.intents[b.ledger[k].intent].job != t.job)
  {
    CommitKeepsBase(b, t, a, now);
    hide Base;
    hide Sound;
    var b' := CommitJob(b, t);
    forall i | 0 <= i < |b.intents| && Matured(b, c, i, now)
      ensures Matured(b', c, i, now) <==> (Unreleasable(t, c, now) ==> b.intents[i].job != t.job)
    {
      JobWriteMatured(b, c, t, now, i);
    }
    hide Matured;
    hide Unreleasable;
  }

  lemma JobWriteMatured(b: Books, c: Config, t: Ticket, now: nat, i: nat)
    requires Linked(b) && t.WriteJob? && t.job < |b.jobs| && Matured(b, c, i, now) && Linked(CommitJob(b, t))
    ensures Matured(CommitJob(b, t), c, i, now) <==> (Unreleasable(t, c, now) ==> b.intents[i].job != t.job)
  {
  }

  /** Settling a refund keeps the cap exactly when it does not go through or its amount still remains. */
  lemma StaleSettlement(b: Books, r: nat, part: nat, a: Answer)
    requires Base(b) && RefundsCapped(b) && TicketOk(b, SettleRefund(r, part))
    ensures RefundsCapped(After(b, CommitRefund(b, r, part, a)))
       <==> (RefundGoesThrough(b, r, part, a) ==> b.refunds[r].amount <= Remaining(b, b.refunds[r].intent))
  {
    var t, b', i := SettleRefund(r, part), After(b, CommitRefund(b, r, part, a)), b.refunds[r].intent;
    assert Refunded(b, i) <= b.intents[i].amount;
    forall j | 0 <= j < |b.intents| ensures Refunded(b', j) == Refunded(b, j) + RefundBooked(b, t, a, j) {
      RefundedMoves(b, t, a, 0, j);
    }
    RowsOfRefund(b, r, part, a);
    hide Base;
    hide Linked;
    hide RefundGoesThrough;
    if RefundsCapped(b') {
      assert Refunded(b', i) <= b'.intents[i].amount;
    }
  }

  /** Creating a payout keeps the reservation exactly when its amount is still available and not reserved. */
  lemma StaleCreation(b: Books, row: Payout, a: Answer, now: nat)
    requires Base(b) && Reserved(b) && TicketOk(b, InsertPayout(row))
    ensures Reserved(After(b, Commit(b, InsertPayout(row), a, now)))
       <==> row.amount <= Net(b.ledger, row.intent, ProviderAvailable) - PayoutsIn(b, row.intent, RESERVING)
  {
    var b' := After(b, Commit(b, InsertPayout(row), a, now));
    forall i: nat {
      PayoutSumSame(b.payouts, b'.payouts, i, RESERVING, |b.payouts|);
    }
    assert forall i: nat ::
        PayoutsIn(b', i, RESERVING) == PayoutsIn(b, i, RESERVING) + if row.intent == i then row.amount else 0;
    hide Base;
    hide Net;
    hide PayoutsIn;
    if Reserved(b') {
      assert PayoutsIn(b', row.intent, RESERVING) <= Net(b'.ledger, row.intent, ProviderAvailable);
    }
  }

  /** Approving a payout keeps the reservation exactly when it was waiting, or could be created once more. */
  lemma StaleApprovalReserves(b: Books, p: nat, a: Answer, now: nat)
    requires Linked(b) && Reserved(b) && p < |b.payouts|
    ensures Reserved(After(b, Commit(b, MarkApproved(p), a, now)))
       <==> (b.payouts[p].status in RESERVING
             || b.payouts[p].amount <= Net(b.ledger, b.payouts[p].intent, ProviderAvailable)
                                       - PayoutsIn(b, b.payouts[p].intent, RESERVING))
  {
    var b', i := After(b, Commit(b, MarkApproved(p), a, now)), b.payouts[p].intent;
    PayoutSumMoved(b.payouts, p, PayoutStatus.Approved, i, RESERVING, |b.payouts|);
    forall j | j != i ensures PayoutsIn(b', j, RESERVING) == PayoutsIn(b, j, RESERVING) {
      PaidElsewhere(b.payouts, p, PayoutStatus.Approved, j, RESERVING, |b.payouts|);
    }
    hide Net;
    if Reserved(b') {
      assert PayoutsIn(b', i, RESERVING) <= Net(b'.ledger, i, ProviderAvailable);
    }
  }
}
