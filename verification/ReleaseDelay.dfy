/** No early money, and the reservation of pending payouts. */
module ReleaseDelay {
  import opened Common
  import opened Policy
  import opened Ledger
  import opened Payments
  import opened Safety
  import opened Growth
  import opened Agreement

  predicate Releasable(k: Bucket) {
    k.ProviderAvailable? || k.ProviderPaidOut?
  }

  /** Money is available or paid out only for jobs that completed at least the release delay ago. */
  predicate NoEarlyMoney(b: Books, c: Config, now: nat)
    requires Linked(b)
  {
    forall k :: 0 <= k < |b.ledger| && Releasable(b.ledger[k].bucket) ==> Matured(b, c, b.ledger[k].intent, now)
  }

  /** A completed job stays as it is, except under a job write that took it for something else. */
  lemma CompletedStays(b: Books, t: Ticket, a: Answer, now: nat, j: nat)
    requires Linked(b) && TicketOk(b, t) && j < |b.jobs| && b.jobs[j].status.Completed?
    requires t.WriteJob? ==> t.job != j
    ensures var b' := After(b, Commit(b, t, a, now));
            j < |b'.jobs| && b'.jobs[j].status.Completed? && b'.jobs[j].completedAt == b.jobs[j].completedAt
  {
  }

  lemma MaturedStays(b: Books, c: Config, t: Ticket, a: Answer, now: nat, i: nat)
    requires Base(b) && Sound(b, t) && Matured(b, c, i, now)
    requires t.WriteJob? ==> Fresh(b, c, t, now)
    ensures Linked(After(b, Commit(b, t, a, now))) && Matured(After(b, Commit(b, t, a, now)), c, i, now)
  {
    CommitKeepsBase(b, t, a, now);
    CommitGrows(b, t, a, now);
    CompletedStays(b, t, a, now, b.intents[i].job);
  }

  /** A positive available balance was released once. */
  lemma AvailableMeansMatured(b: Books, c: Config, now: nat, i: nat)
    requires Linked(b) && NoEarlyMoney(b, c, now) && Net(b.ledger, i, ProviderAvailable) > 0
    ensures Matured(b, c, i, now)
  {
    var k := SumPositive(BucketNet(i, ProviderAvailable), b.ledger, |b.ledger|);
  }

  /** A commit that books a releasable entry books it on a matured intent. */
  lemma PostedOnMatured(b: Books, c: Config, t: Ticket, a: Answer, now: nat, k: nat)
    requires Linked(b) && TicketOk(b, t) && PayoutsPositive(b.payouts) && NoEarlyMoney(b, c, now)
    requires t.SettleRefund? ==> AccountOf(b.ledger, b.refunds[t.refund].intent).Sound()
    requires t.ReleaseHeld? ==> Fresh(b, c, t, now)
    requires k < |PostedBy(b, t, a, now)| && Releasable(PostedBy(b, t, a, now)[k].bucket)
    ensures Matured(b, c, PostedBy(b, t, a, now)[k].intent, now)
  {
    match t
    case SettleRefund(_, _) => RefundOnMatured(b, c, t, a, now, k);
    case SettlePayout(p, reference) =>
      PayoutShape(b, p, reference, a);
      AvailableMeansMatured(b, c, now, b.payouts[p].intent);
    case ReleaseHeld(i) =>
    case _ => ChargesAreNotReleasable(b, t, a, now);
  }

  /** A refund that books a releasable entry debits an available balance. */
  lemma RefundOnMatured(b: Books, c: Config, t: Ticket, a: Answer, now: nat, k: nat)
    requires Linked(b) && t.SettleRefund? && TicketOk(b, t) && NoEarlyMoney(b, c, now)
    requires AccountOf(b.ledger, b.refunds[t.refund].intent).Sound()
    requires k < |PostedBy(b, t, a, now)| && Releasable(PostedBy(b, t, a, now)[k].bucket)
    ensures Matured(b, c, PostedBy(b, t, a, now)[k].intent, now)
  {
    var r := t.refund;
    var rows, heldDebit, availableDebit := RefundParts(b, r, t.platformPart, a);
    assert availableDebit > 0 by {
      assert PostedBy(b, t, a, now) == if a.status.Succeeded? then
          RefundEntries(b.intents[b.refunds[r].intent].job, b.refunds[r].intent, |b.txns|, b.refunds[r].amount,
                        t.platformPart, heldDebit, availableDebit) else [];
    }
    AvailableMeansMatured(b, c, now, b.refunds[r].intent);
  }

  lemma ChargesAreNotReleasable(b: Books, t: Ticket, a: Answer, now: nat)
    requires Linked(b) && TicketOk(b, t) && !t.SettleRefund? && !t.SettlePayout? && !t.ReleaseHeld?
    ensures forall k :: 0 <= k < |PostedBy(b, t, a, now)| ==> !Releasable(PostedBy(b, t, a, now)[k].bucket)
  {
    if !MovesMoney(t) {
      RowDelta(b, t, a, now, 0);
    }
  }

  /** Only a job write on a stale check, or a release whose window was not checked, can let money out early. */
  lemma NoEarlyMoneyKept(b: Books, c: Config, t: Ticket, a: Answer, now: nat)
    requires Base(b) && Sound(b, t) && NoEarlyMoney(b, c, now)
    requires t.WriteJob? || t.ReleaseHeld? ==> Fresh(b, c, t, now)
    ensures var b' := After(b, Commit(b, t, a, now)); Linked(b') && NoEarlyMoney(b', c, now)
  {
    var b' := After(b, Commit(b, t, a, now));
    CommitKeepsBase(b, t, a, now);
    CommitGrows(b, t, a, now);
    if t.SettleRefund? {
      assert AccountOk(AccountOf(b.ledger, b.refunds[t.refund].intent), b.intents[b.refunds[t.refund].intent]);
    }
    forall k | 0 <= k < |b'.ledger| && Releasable(b'.ledger[k].bucket) ensures Matured(b', c, b'.ledger[k].intent,
        now) {
      EntryOnMatured(b, c, t, a, now, k);
      MaturedStays(b, c, t, a, now, b'.ledger[k].intent);
    }
  }

  lemma EntryOnMatured(b: Books, c: Config, t: Ticket, a: Answer, now: nat, k: nat)
    requires Linked(b) && TicketOk(b, t) && PayoutsPositive(b.payouts) && NoEarlyMoney(b, c, now)
    requires t.SettleRefund? ==> AccountOf(b.ledger, b.refunds[t.refund].intent).Sound()
    requires t.ReleaseHeld? ==> Fresh(b, c, t, now)
    requires var l := After(b, Commit(b, t, a, now)).ledger; k < |l| && Releasable(l[k].bucket)
    ensures Matured(b, c, After(b, Commit(b, t, a, now)).ledger[k].intent, now)
  {
    hide Commit;
    hide Matured;
    CommitGrows(b, t, a, now);
    var l, es := After(b, Commit(b, t, a, now)).ledger, PostedBy(b, t, a, now);
    if k < |b.ledger| {
      assert b.ledger[k] == l[k];
    } else {
      assert es[k - |b.ledger|] == l[k];
      PostedOnMatured(b, c, t, a, now, k - |b.ledger|);
    }
  }

  // ----- reservation of payouts -----

  /** What waiting payouts of an intent may still take is there. */
  predicate Reserved(b: Books) {
    forall i :: 0 <= i < |b.intents| ==> PayoutsIn(b, i, RESERVING) <= Net(b.ledger, i, ProviderAvailable)
  }

  lemma ReservingMoves(b: Books, t: Ticket, a: Answer, now: nat, i: nat)
    requires Linked(b) && TicketOk(b, t)
    requires t.MarkApproved? ==> b.payouts[t.payout].status == PayoutStatus.Pending
    ensures PayoutsIn(After(b, Commit(b, t, a, now)), i, RESERVING)
         <= PayoutsIn(b, i, RESERVING) - PayoutBooked(b, t, a, now, i)
            + (if t.InsertPayout? && t.payoutRow.intent == i then t.payoutRow.amount else 0)
  {
    var b' := After(b, Commit(b, t, a, now));
    if t.SettlePayout? && Commit(b, t, a, now).Ok? && b' != b {
      PayoutShape(b, t.payout, t.reference, a);
      if b.payouts[t.payout].intent == i {
        PayoutSumMoved(b.payouts, t.payout, b'.payouts[t.payout].status, i, RESERVING, |b.payouts|);
      } else {
        PaidElsewhere(b.payouts, t.payout, b'.payouts[t.payout].status, i, RESERVING, |b.payouts|);
      }
    } else {
      PayoutSumSame(b.payouts, b'.payouts, i, RESERVING, |b.payouts|);
    }
  }

  /** The refund leaves enough in the available balance, from which it takes what the held balance lacks. */
  predicate Spares(b: Books, r: nat, part: nat)
    requires Linked(b) && r < |b.refunds|
  {
    var i, providerPart := b.refunds[r].intent, b.refunds[r].amount - part;
    PayoutsIn(b, i, RESERVING) <= Net(b.ledger, i, ProviderAvailable) - (providerPart - Min(Net(b.ledger, i,
        ProviderHeld), providerPart))
  }

  /** A refund's transaction keeps the reservation exactly when it books nothing or spares the waiting payouts. */
  lemma RefundReservesIff(b: Books, r: nat, part: nat, a: Answer)
    requires Base(b) && Reserved(b) && TicketOk(b, SettleRefund(r, part))
    ensures Reserved(After(b, CommitRefund(b, r, part, a)))
            <==> (RefundGoesThrough(b, r, part, a) ==> Spares(b, r, part))
  {
    var i, b' := b.refunds[r].intent, After(b, CommitRefund(b, r, part, a));
    var t := SettleRefund(r, part);
    forall j | 0 <= j < |b.intents| && j != i
      ensures Net(b'.ledger, j, ProviderAvailable) == Net(b.ledger, j, ProviderAvailable)
    {
      RefundLeavesOthers(b, t, a, 0, j);
    }
    assert Net(b.ledger, i, ProviderHeld) >= 0 by {
      assert AccountOk(AccountOf(b.ledger, i), b.intents[i]);
    }
    RefundTakes(b, r, part, a);
    hide Base;
    hide RefundGoesThrough;
    hide Net;
    RowsOfRefund(b, r, part, a);
    if Reserved(b') {
      assert PayoutsIn(b', i, RESERVING) <= Net(b'.ledger, i, ProviderAvailable);
    }
  }

  lemma RowsOfRefund(b: Books, r: nat, part: nat, a: Answer)
    requires Linked(b) && TicketOk(b, SettleRefund(r, part))
    ensures var b' := After(b, CommitRefund(b, r, part, a)); b'.payouts == b.payouts && b'.intents == b.intents
  {
  }

  lemma EntriesTake(l: seq<Entry>, job: nat, i: nat, t: nat, amount: nat, part: nat, heldDebit: nat,
                    availableDebit: nat)
    ensures Net(l + RefundEntries(job, i, t, amount, part, heldDebit, availableDebit), i, ProviderAvailable)
         == Net(l, i, ProviderAvailable) - availableDebit
  {
    var es := RefundEntries(job, i, t, amount, part, heldDebit, availableDebit);
    RefundAccount(job, i, t, amount, part, heldDebit, availableDebit);
    AccountAppend(l, es, i);
    assert AccountOf(l + es, i).available == AccountOf(l, i).available - availableDebit;
  }

  /** What a refund takes from its own intent's available balance. */
  lemma RefundTakes(b: Books, r: nat, part: nat, a: Answer)
    requires Linked(b) && TicketOk(b, SettleRefund(r, part)) && Net(b.ledger, b.refunds[r].intent, ProviderHeld) >= 0
    ensures var i, providerPart := b.refunds[r].intent, b.refunds[r].amount - part;
            Net(After(b, CommitRefund(b, r, part, a)).ledger, i, ProviderAvailable)
            == Net(b.ledger, i, ProviderAvailable)
               - (if RefundGoesThrough(b, r, part, a)
                  then providerPart - Min(Net(b.ledger, i, ProviderHeld), providerPart) else 0)
  {
    hide CommitRefund;
    var i, amount := b.refunds[r].intent, b.refunds[r].amount;
    RefundLedger(b, r, part, a);
    hide RefundGoesThrough;
    hide Net;
    var heldDebit := Min(Net(b.ledger, i, ProviderHeld), amount - part);
    EntriesTake(b.ledger, b.intents[i].job, i, |b.txns|, amount, part, heldDebit, amount - part - heldDebit);
  }

  /**
   * Every transaction body keeps the reservation, if payouts are created and approved on fresh checks and
   * refunds spare it.
   */
  lemma ReservedKept(b: Books, c: Config, t: Ticket, a: Answer, now: nat)
    requires Base(b) && Sound(b, t) && Reserved(b)
    requires t.InsertPayout? || t.MarkApproved? ==> Fresh(b, c, t, now)
    requires t.SettleRefund? && RefundGoesThrough(b, t.refund, t.platformPart, a) ==>
             Spares(b, t.refund, t.platformPart)
    ensures Reserved(After(b, Commit(b, t, a, now)))
  {
    if t.SettleRefund? {
      RefundReservesIff(b, t.refund, t.platformPart, a);
    } else {
      OthersReserve(b, c, t, a, now);
    }
  }

  lemma OthersReserve(b: Books, c: Config, t: Ticket, a: Answer, now: nat)
    requires Base(b) && Sound(b, t) && Reserved(b) && !t.SettleRefund?
    requires t.InsertPayout? || t.MarkApproved? ==> Fresh(b, c, t, now)
    ensures Reserved(After(b, Commit(b, t, a, now)))
  {
    var b' := After(b, Commit(b, t, a, now));
    CommitKeepsBase(b, t, a, now);
    forall i | 0 <= i < |b'.intents| ensures PayoutsIn(b', i, RESERVING) <= Net(b'.ledger, i, ProviderAvailable) {
      if i < |b.intents| {
        ReservingMoves(b, t, a, now, i);
        AccountDelta(b, t, a, now, i);
      } else {
        FreshIntents(b, t, a, now, i);
        NoPayouts(b.payouts, i, RESERVING, |b.payouts|);
        NewIntentHasNothing(b, i);
      }
    }
  }

  lemma RefundLeavesOthers(b: Books, t: Ticket, a: Answer, now: nat, i: nat)
    requires Linked(b) && AccountsOk(b.intents, b.ledger) && t.SettleRefund? && TicketOk(b, t)
    ensures i != b.refunds[t.refund].intent ==>
              Net(After(b, Commit(b, t, a, now)).ledger, i, ProviderAvailable) == Net(b.ledger, i, ProviderAvailable)
    ensures PayoutBooked(b, t, a, now, i) == 0
  {
    var j := b.refunds[t.refund].intent;
    assert AccountOk(AccountOf(b.ledger, j), b.intents[j]);
    if Commit(b, t, a, now).Ok? && i != j && a.status.Succeeded? {
      var rows, heldDebit, availableDebit := RefundParts(b, t.refund, t.platformPart, a);
      var es := RefundEntries(b.intents[j].job, j, |b.txns|, b.refunds[t.refund].amount, t.platformPart, heldDebit,
                              availableDebit);
      AccountElsewhere(b.ledger, es, j, i);
      assert AccountOf(b.ledger + es, i).available == AccountOf(b.ledger, i).available;
    }
  }

  /** While the reservation holds, settling an approved payout never fails its balance check. */
  lemma ApprovedPayoutIsCovered(b: Books, p: nat, reference: Option<string>, a: Answer)
    requires Linked(b) && Reserved(b) && p < |b.payouts| && b.payouts[p].status == PayoutStatus.Approved
    ensures CommitPayout(b, p, reference, a).Ok?
       <==> FindKey(b.txns, PayoutKey(p)).Some? || FindReference(b.txns, b.payouts[p].gateway,
                                                                 reference.GetOr(a.reference)).None?
  {
    PayoutSumIncludes(b.payouts, p, b.payouts[p].intent, RESERVING, |b.payouts|);
  }

  lemma {:induction false} PayoutSumIncludes(x: seq<Payout>, p: nat, i: nat, sts: set<PayoutStatus>, n: nat)
    requires p < n <= |x| && x[p].intent == i && x[p].status in sts
    ensures x[p].amount <= PayoutSum(x, i, sts, n)
  {
    if n - 1 > p {
      PayoutSumIncludes(x, p, i, sts, n - 1);
    }
  }
}
