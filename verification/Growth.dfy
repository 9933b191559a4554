/**
 * What no operation ever changes: the ledger is append-only, rows are never removed, identities and amounts
 * are final.
 */
module Growth {
  import opened Ledger
  import opened Payments
  import opened Safety

  predicate JobsGrew(x: seq<Job>, y: seq<Job>) {
    |x| <= |y| && forall j :: 0 <= j < |x| ==>
      && y[j].client == x[j].client && y[j].provider == x[j].provider
      && y[j].request == x[j].request && y[j].proposal == x[j].proposal && y[j].agreedPrice == x[j].agreedPrice
      && (x[j].contactUnlockedAt.Some? ==> y[j].contactUnlockedAt.Some?)
      && (x[j].completedAt.Some? ==> y[j].completedAt.Some?)
  }

  predicate IntentsGrew(x: seq<Intent>, y: seq<Intent>) {
    |x| <= |y| && forall i :: 0 <= i < |x| ==> y[i] == x[i].(status := y[i].status)
  }

  predicate TxnsGrew(x: seq<Txn>, y: seq<Txn>) {
    |x| <= |y| && forall t :: 0 <= t < |x| ==> y[t] == x[t].(status := y[t].status, confirmed := y[t].confirmed)
  }

  predicate RefundsGrew(x: seq<Refund>, y: seq<Refund>) {
    |x| <= |y| && forall r :: 0 <= r < |x| ==> y[r] == x[r].(status := y[r].status, txn := y[r].txn)
  }

  predicate PayoutsGrew(x: seq<Payout>, y: seq<Payout>) {
    |x| <= |y| && forall p :: 0 <= p < |x| ==> y[p] == x[p].(status := y[p].status)
  }

  predicate Grew(b: Books, b': Books) {
    && JobsGrew(b.jobs, b'.jobs) && IntentsGrew(b.intents, b'.intents) && TxnsGrew(b.txns, b'.txns)
    && RefundsGrew(b.refunds, b'.refunds) && PayoutsGrew(b.payouts, b'.payouts)
    && |b.events| <= |b'.events| && b.ledger <= b'.ledger
  }

  lemma ApplyGrows(b: Books, t: nat, row: Txn, g: GatewayStatus, now: nat)
    requires Linked(b) && t < |b.txns|
    ensures Grew(b, Apply(b, t, row, g, now))
  {
  }

  /** Applying a status keeps the foreign keys and the stored splits. */
  lemma ApplyLinks(b: Books, t: nat, row: Txn, g: GatewayStatus, now: nat)
    requires Linked(b) && t < |b.txns|
    ensures var b' := Apply(b, t, row, g, now);
            Linked(b') && |b'.txns| == |b.txns| && b'.events == b.events
                && (SplitsOk(b.intents) ==> SplitsOk(b'.intents))
  {
    hide ChargePosted;
    hide IntentStatusOf;
  }

  lemma ChargeGrows(b: Books, t: Ticket, a: Answer, now: nat)
    requires Linked(b) && TicketOk(b, t) && t.ChargeIntent?
    ensures Grew(b, After(b, Commit(b, t, a, now)))
  {
    var intent := b.intents[t.intent];
    if Insertable(b.txns, t.key, intent.gateway, a.reference) {
      var row := Txn(t.intent, Charge, TxnStatusOf(a.status), intent.gateway, a.reference, t.key, intent.amount,
                     ConfirmedFor(a.status, intent.amount));
      ApplyGrows(b.(txns := b.txns + [row]), |b.txns|, row, a.status, now);
    }
  }

  lemma MoneyGrows(b: Books, t: Ticket, a: Answer, now: nat)
    requires Linked(b) && TicketOk(b, t) && MovesMoney(t)
    ensures Grew(b, After(b, Commit(b, t, a, now)))
  {
    match t
    case ChargeIntent(_, _) => ChargeGrows(b, t, a, now);
    case Deliver(x, g, _) => ApplyGrows(b, x, b.txns[x], g, now);
    case ApplyAnswer(x, row) => ApplyGrows(b, x, row, a.status, now);
    case _ => SettlementGrows(b, t, a, now);
  }

  lemma SettlementGrows(b: Books, t: Ticket, a: Answer, now: nat)
    requires Linked(b) && TicketOk(b, t) && (t.SettleRefund? || t.SettlePayout? || t.ReleaseHeld?)
    ensures Grew(b, After(b, Commit(b, t, a, now)))
  {
  }

  lemma RowsGrow(b: Books, t: Ticket, a: Answer, now: nat)
    requires Linked(b) && TicketOk(b, t) && !MovesMoney(t)
    ensures Grew(b, After(b, Commit(b, t, a, now)))
  {
  }

  /** Every transaction body only appends rows and entries and leaves identities and amounts as they were. */
  lemma CommitGrows(b: Books, t: Ticket, a: Answer, now: nat)
    requires Linked(b) && TicketOk(b, t)
    ensures Grew(b, After(b, Commit(b, t, a, now)))
  {
    if MovesMoney(t) {
      MoneyGrows(b, t, a, now);
    } else {
      RowsGrow(b, t, a, now);
    }
  }

  /** Settlements keep the foreign keys. */
  lemma SettlementLinks(b: Books, t: Ticket, a: Answer, now: nat)
    requires Linked(b) && TicketOk(b, t) && (t.SettleRefund? || t.SettlePayout?)
    ensures Linked(After(b, Commit(b, t, a, now)))
  {
    hide Net;
    hide Insertable;
    hide FindKey;
    hide FindReference;
    hide Apply;
    if t.SettleRefund? {
      RefundLinks(b, t.refund, t.platformPart, a);
    }
  }

  lemma RefundLinks(b: Books, r: nat, part: nat, a: Answer)
    requires Linked(b) && r < |b.refunds| && part <= b.refunds[r].amount
    ensures Linked(After(b, CommitRefund(b, r, part, a)))
  {
    hide Net;
    hide Insertable;
  }

  /** A sound ticket stays sound while the tables move on without it. */
  lemma SoundStays(b: Books, b': Books, t: Ticket)
    requires Linked(b) && Linked(b') && Grew(b, b') && Sound(b, t)
    ensures Sound(b', t)
  {
    if t.WriteJob? && t.next in EXECUTION {
      var k :| 0 <= k < |b.ledger| && IsCharge(b.ledger[k], t.job);
      assert b'.ledger[k] == b.ledger[k];
    }
  }
}
