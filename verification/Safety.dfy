/**
 * What every operation on the payment tables keeps, however stale its outer checks are:
 * `Base` is preserved by every `Commit` of every well-formed ticket.
 */
module Safety {
  import opened Common
  import opened Policy
  import opened Ledger
  import opened Payments

  // ----- the invariant -----

  /** No two transactions share an idempotency key, or a reference at one gateway. */
  predicate UniqueKeys(txns: seq<Txn>) {
    forall s, t :: 0 <= s < t < |txns| ==>
      && txns[s].key != txns[t].key
      && (txns[s].gateway != txns[t].gateway || txns[s].reference != txns[t].reference)
  }

  /**
   * Every entry but a release belongs to a transaction and is booked on that transaction's intent; a
   * charge is booked on that intent's job.
   */
  predicate EntriesOk(intents: seq<Intent>, txns: seq<Txn>, l: seq<Entry>) {
    forall k :: 0 <= k < |l| ==>
      && l[k].intent < |intents|
      && (l[k].txn.None? ==> l[k].kind.ProviderBalanceReleased?)
      && (l[k].txn.Some? ==> l[k].txn.value < |txns| && txns[l[k].txn.value].intent == l[k].intent)
      && (l[k].kind.CustomerCharge? ==> l[k].job == intents[l[k].intent].job)
  }

  /**
   * Rounding never drifts: twice `amount` times the reserved balance differs from its exact
   * proportional value by at most `amount` for each refund booked.
   */
  predicate Drift(x: Account, amount: int, fee: int) {
    -(x.refunds * amount) <= 2 * (amount * x.reserved - fee * (x.charges * amount - x.refunded)) <= x.refunds * amount
  }

  predicate AccountOk(x: Account, row: Intent) {
    x.Sound() && x.charged == x.charges * row.amount && Drift(x, row.amount, row.fee)
  }

  predicate AccountsOk(intents: seq<Intent>, l: seq<Entry>) {
    forall i :: 0 <= i < |intents| ==> AccountOk(AccountOf(l, i), intents[i])
  }

  /** A transaction has booked its intent's charge whole and at most once, or not at all. */
  predicate ChargeOnce(p: Postings, row: Intent) {
    if p.charges == 0 then p.fees == p.helds == p.charged == p.feeAmount == p.heldAmount == 0
    else
      && p.charges == p.fees == p.helds == 1
      && p.charged == row.amount && p.feeAmount == row.fee && p.heldAmount == row.net
  }

  predicate RefundOnce(p: Postings, x: Txn, refunds: seq<Refund>) {
    if p.refunds == 0 then p.refunded == 0
    else
      && p.refunds == 1 && x.kind.Refunding? && x.key.RefundKey? && x.key.refund < |refunds|
      && refunds[x.key.refund].intent == x.intent && p.refunded == refunds[x.key.refund].amount
  }

  predicate PayoutOnce(p: Postings, x: Txn, payouts: seq<Payout>) {
    if p.payouts == 0 then p.debits == p.paid == p.debited == 0
    else
      && p.payouts == p.debits == 1 && x.kind.Payment? && x.key.PayoutKey? && x.key.payout < |payouts|
      && payouts[x.key.payout].intent == x.intent && p.paid == p.debited == payouts[x.key.payout].amount
  }

  predicate PostingOk(p: Postings, x: Txn, intents: seq<Intent>, refunds: seq<Refund>, payouts: seq<Payout>)
  {
    x.intent < |intents| && ChargeOnce(p, intents[x.intent]) && RefundOnce(p, x, refunds) && PayoutOnce(p, x, payouts)
  }

  predicate PostingsOk(txns: seq<Txn>, intents: seq<Intent>, refunds: seq<Refund>, payouts: seq<Payout>,
                       l: seq<Entry>) {
    forall t :: 0 <= t < |txns| ==> PostingOk(PostingsOf(l, t), txns[t], intents, refunds, payouts)
  }

  predicate IsCharge(e: Entry, job: nat) {
    e.kind.CustomerCharge? && e.job == job
  }

  predicate JobCharged(l: seq<Entry>, job: nat) {
    exists k :: 0 <= k < |l| && IsCharge(l[k], job)
  }

  predicate Unlocked(jobs: seq<Job>, l: seq<Entry>, j: nat) {
    j < |jobs| && jobs[j].contactUnlockedAt.Some? && JobCharged(l, j)
  }

  /** A paid intent has its job's charge on the ledger and its contact unlocked. */
  predicate PaidCharged(intents: seq<Intent>, jobs: seq<Job>, l: seq<Entry>) {
    forall i :: 0 <= i < |intents| && intents[i].status in PAID ==> Unlocked(jobs, l, intents[i].job)
  }

  /** No unpaid execution. */
  predicate ExecutionCharged(jobs: seq<Job>, l: seq<Entry>) {
    forall j :: 0 <= j < |jobs| && jobs[j].status in EXECUTION ==> Unlocked(jobs, l, j)
  }

  predicate PayoutsPositive(payouts: seq<Payout>) {
    forall p :: 0 <= p < |payouts| ==> payouts[p].amount >= 1
  }

  predicate Base(b: Books) {
    && Linked(b) && SplitsOk(b.intents) && UniqueKeys(b.txns) && PayoutsPositive(b.payouts)
    && EntriesOk(b.intents, b.txns, b.ledger)
    && AccountsOk(b.intents, b.ledger)
    && PostingsOk(b.txns, b.intents, b.refunds, b.payouts, b.ledger)
    && PaidCharged(b.intents, b.jobs, b.ledger)
    && ExecutionCharged(b.jobs, b.ledger)
  }

  /** A ticket whose job move rests on a payment found that payment on the ledger. */
  predicate Sound(b: Books, t: Ticket)
    requires Linked(b)
  {
    TicketOk(b, t) && (t.WriteJob? && t.next in EXECUTION ==> Unlocked(b.jobs, b.ledger, t.job))
  }

  // ----- primitive edits -----

  lemma AddTxn(b: Books, x: Txn)
    requires Base(b) && x.intent < |b.intents| && Insertable(b.txns, x.key, x.gateway, x.reference)
    ensures Base(b.(txns := b.txns + [x]))
  {
    var n := |b.txns|;
    forall t | 0 <= t < n + 1
      ensures PostingOk(PostingsOf(b.ledger, t), (b.txns + [x])[t], b.intents, b.refunds, b.payouts)
    {
      if t == n {
        NothingPosted(b.ledger, t);
      }
    }
  }

  /** Posting entries `es` on intent `i`, for transaction `own` if there is one. */
  lemma Post(b: Books, i: nat, own: Option<nat>, es: seq<Entry>)
    requires Base(b) && i < |b.intents|
    requires own.Some? ==> own.value < |b.txns| && b.txns[own.value].intent == i
    requires forall k :: 0 <= k < |es| ==> es[k].intent == i && es[k].txn == own
    requires forall k :: 0 <= k < |es| && es[k].kind.CustomerCharge? ==> es[k].job == b.intents[i].job
    requires forall k :: 0 <= k < |es| && own.None? ==> es[k].kind.ProviderBalanceReleased?
    requires AccountOk(AccountOf(b.ledger, i).Plus(AccountOf(es, i)), b.intents[i])
    requires own.Some? ==> PostingOk(PostingsOf(b.ledger, own.value).Plus(PostingsOf(es, own.value)), b.txns[own.value],
                                     b.intents, b.refunds, b.payouts)
    ensures Base(b.(ledger := b.ledger + es))
  {
    var l := b.ledger + es;
    forall j | 0 <= j < |b.intents| ensures AccountOk(AccountOf(l, j), b.intents[j]) {
      if j == i {
        AccountAppend(b.ledger, es, i);
      } else {
        AccountElsewhere(b.ledger, es, i, j);
      }
    }
    forall t | 0 <= t < |b.txns| ensures PostingOk(PostingsOf(l, t), b.txns[t], b.intents, b.refunds, b.payouts) {
      if own == Some(t) {
        PostingsAppend(b.ledger, es, t);
      } else {
        PostingsElsewhere(b.ledger, es, t);
      }
    }
    ChargesRemain(b.ledger, es);
  }

  lemma ChargesRemain(l: seq<Entry>, es: seq<Entry>)
    ensures forall j :: JobCharged(l, j) ==> JobCharged(l + es, j)
  {
    forall j | JobCharged(l, j) ensures JobCharged(l + es, j) {
      var k :| 0 <= k < |l| && IsCharge(l[k], j);
      assert (l + es)[k] == l[k];
    }
  }

  lemma SetTxn(b: Books, t: nat, status: TxnStatus, confirmed: Option<nat>)
    requires Base(b) && t < |b.txns|
    ensures Base(b.(txns := b.txns[t := b.txns[t].(status := status, confirmed := confirmed)]))
  {
  }

  lemma SetIntents(b: Books, intents: seq<Intent>)
    requires Base(b) && |intents| == |b.intents|
    requires forall i :: 0 <= i < |intents| ==> intents[i] == b.intents[i].(status := intents[i].status)
    requires forall i :: 0 <= i < |intents| && intents[i].status in PAID && intents[i] != b.intents[i] ==>
               Unlocked(b.jobs, b.ledger, intents[i].job)
    ensures Base(b.(intents := intents))
  {
  }

  lemma SetJob(b: Books, j: nat, row: Job)
    requires Base(b) && j < |b.jobs|
    requires b.jobs[j].contactUnlockedAt.Some? ==> row.contactUnlockedAt.Some?
    requires row.status in EXECUTION ==> row.contactUnlockedAt.Some? && JobCharged(b.ledger, j)
    ensures Base(b.(jobs := b.jobs[j := row]))
  {
  }

  lemma SetRefund(b: Books, r: nat, row: Refund)
    requires Base(b) && r < |b.refunds| && row.intent == b.refunds[r].intent && row.amount == b.refunds[r].amount
    ensures Base(b.(refunds := b.refunds[r := row]))
  {
  }

  lemma SetPayout(b: Books, p: nat, row: Payout)
    requires Base(b) && p < |b.payouts| && row.intent == b.payouts[p].intent && row.amount == b.payouts[p].amount
    ensures Base(b.(payouts := b.payouts[p := row]))
  {
  }

  lemma AddIntent(b: Books, row: Intent)
    requires Base(b) && row.job < |b.jobs| && row.amount >= 1 && row.fee + row.net == row.amount && row.status !in PAID
    ensures Base(b.(intents := b.intents + [row]))
  {
    var n := |b.intents|;
    forall i | 0 <= i < n + 1 ensures AccountOk(AccountOf(b.ledger, i), (b.intents + [row])[i]) {
      if i == n {
        forall q: Query | (q.BucketNet? || q.KindTotal? || q.KindCount?) && q.intent == n
          ensures Tally(q, b.ledger) == 0
        {
          SumZero(q, b.ledger, |b.ledger|);
        }
        assert AccountOf(b.ledger, n) == EMPTY_ACCOUNT;
      }
    }
  }

  lemma AddJob(b: Books, row: Job)
    requires Base(b) && row.status !in EXECUTION
    ensures Base(b.(jobs := b.jobs + [row]))
  {
  }

  // ----- arithmetic of the four postings -----

  lemma ChargeArithmetic(x: Account, row: Intent)
    requires AccountOk(x, row) && row.fee + row.net == row.amount
    ensures AccountOk(x.Plus(Account(-(row.amount as int), row.fee, row.net, 0, 0, row.amount, 0, 1, 0)), row)
  {
    var y := x.Plus(Account(-(row.amount as int), row.fee, row.net, 0, 0, row.amount, 0, 1, 0));
    assert y.charges * row.amount == x.charges * row.amount + row.amount;
    assert row.amount * y.reserved == row.amount * x.reserved + row.amount * row.fee;
    assert row.fee * (y.charges * row.amount - y.refunded)
        == row.fee * (x.charges * row.amount - x.refunded) + row.fee * row.amount;
    assert row.amount * row.fee == row.fee * row.amount;
  }

  lemma RefundArithmetic(x: Account, row: Intent, amount: nat, part: nat, heldDebit: nat, availableDebit: nat)
    requires AccountOk(x, row) && row.fee <= row.amount
    requires part == RefundShare(amount, row.fee, row.amount) && part <= x.reserved
    requires part + heldDebit + availableDebit == amount && heldDebit <= x.held && availableDebit <= x.available
    ensures AccountOk(x.Plus(Account(amount, -(part as int), -(heldDebit as int), -(availableDebit as int), 0, 0,
                                     amount, 0, 1)), row)
  {
    DriftStep(x, row.amount, row.fee, amount, part);
  }

  lemma DriftStep(x: Account, amount: nat, fee: nat, refund: nat, part: nat)
    requires fee <= amount && part == RefundShare(refund, fee, amount) && Drift(x, amount, fee)
    ensures Drift(x.(reserved := x.reserved - part, refunded := x.refunded + refund, refunds := x.refunds + 1), amount,
                  fee)
  {
    var before := amount * x.reserved - fee * (x.charges * amount - x.refunded);
    var after := amount * (x.reserved - part) - fee * (x.charges * amount - (x.refunded + refund));
    assert after == before - amount * part + fee * refund;
    assert (x.refunds + 1) * amount == x.refunds * amount + amount;
    assert 2 * amount * part == 2 * (amount * part);
    assert 2 * refund * fee == 2 * (fee * refund);
  }

  // ----- the transaction bodies -----

  lemma ChargeFits(l: seq<Entry>, t: nat, i: nat, row: Intent, x: Txn, intents: seq<Intent>, refunds: seq<Refund>,
                   payouts: seq<Payout>)
    requires AccountOk(AccountOf(l, i), row) && row.fee + row.net == row.amount
    requires PostingOk(PostingsOf(l, t), x, intents, refunds, payouts) && x.intent == i && intents[i] == row
    requires !ChargePosted(l, t)
    ensures var es := ChargeEntries(row.job, i, t, row.amount, row.fee, row.net);
            && AccountOk(AccountOf(l, i).Plus(AccountOf(es, i)), row)
            && PostingOk(PostingsOf(l, t).Plus(PostingsOf(es, t)), x, intents, refunds, payouts)
  {
    SumNonNegative(Posts(t, CustomerCharge, CustomerExternal), l, |l|);
    ChargeAccount(row.job, i, t, row.amount, row.fee, row.net);
    ChargePostings(row.job, i, t, row.amount, row.fee, row.net);
    ChargeArithmetic(AccountOf(l, i), row);
  }

  lemma PostCharge(b: Books, t: nat)
    requires Base(b) && t < |b.txns| && !ChargePosted(b.ledger, t)
    ensures var i := b.txns[t].intent; var intent := b.intents[i];
            var l := b.ledger + ChargeEntries(intent.job, i, t, intent.amount, intent.fee, intent.net);
            Base(b.(ledger := l)) && JobCharged(l, intent.job)
  {
    var i := b.txns[t].intent;
    var intent := b.intents[i];
    var es := ChargeEntries(intent.job, i, t, intent.amount, intent.fee, intent.net);
    ChargeFits(b.ledger, t, i, intent, b.txns[t], b.intents, b.refunds, b.payouts);
    Post(b, i, Some(t), es);
    assert IsCharge((b.ledger + es)[|b.ledger|], intent.job);
  }

  /** The transaction row and the ledger after `Apply`. */
  lemma ApplyPosts(b: Books, t: nat, x: Txn, g: GatewayStatus, es: seq<Entry>)
    requires Base(b) && t < |b.txns|
    requires x == b.txns[t].(status := x.status, confirmed := x.confirmed)
    requires var i := b.txns[t].intent; var intent := b.intents[i];
             es == if g.Succeeded? && !ChargePosted(b.ledger, t)
                   then ChargeEntries(intent.job, i, t, intent.amount, intent.fee, intent.net) else []
    ensures Base(b.(txns := b.txns[t := x], ledger := b.ledger + es))
    ensures g.Succeeded? ==> JobCharged(b.ledger + es, b.intents[b.txns[t].intent].job)
  {
    SetTxn(b, t, x.status, x.confirmed);
    if es == [] {
      assert b.ledger + es == b.ledger;
      if g.Succeeded? {
        ChargeHasEntry(b, t);
      }
    } else {
      PostCharge(b.(txns := b.txns[t := x]), t);
    }
  }

  lemma ApplyKeeps(b: Books, t: nat, row: Txn, g: GatewayStatus, now: nat)
    requires Base(b) && t < |b.txns|
    ensures Base(Apply(b, t, row, g, now))
  {
    var b' := Apply(b, t, row, g, now);
    var j := b.intents[b.txns[t].intent].job;
    ApplyPosts(b, t, b'.txns[t], g, b'.ledger[|b.ledger|..]);
    var b2 := b.(txns := b'.txns, ledger := b'.ledger);
    ApplyUnlocks(b2, b'.jobs, b'.intents, j, g.Succeeded?);
  }

  lemma ApplyUnlocks(b: Books, jobs: seq<Job>, intents: seq<Intent>, j: nat, paid: bool)
    requires Base(b) && j < |b.jobs|
    requires if paid then JobCharged(b.ledger, j) && exists now ::
             jobs == b.jobs[j := b.jobs[j].(contactUnlockedAt := Some(now))]
             else jobs == b.jobs
    requires |intents| == |b.intents|
    requires forall i :: 0 <= i < |intents| ==> intents[i] == b.intents[i].(status := intents[i].status)
    requires forall i :: 0 <= i < |intents| && intents[i] != b.intents[i] && intents[i].status in PAID ==>
             intents[i].job == j && paid
    ensures Base(b.(jobs := jobs, intents := intents))
  {
    if paid {
      SetJob(b, j, jobs[j]);
    }
    SetIntents(b.(jobs := jobs), intents);
  }

  /** A transaction with a charge posting proves its job charged. */
  lemma ChargeHasEntry(b: Books, t: nat)
    requires Base(b) && t < |b.txns| && ChargePosted(b.ledger, t)
    ensures JobCharged(b.ledger, b.intents[b.txns[t].intent].job)
  {
    var k := SumPositive(Posts(t, CustomerCharge, CustomerExternal), b.ledger, |b.ledger|);
    assert IsCharge(b.ledger[k], b.intents[b.txns[t].intent].job);
  }

  lemma ChargeKeeps(b: Books, i: nat, key: Key, a: Answer, now: nat)
    requires Base(b) && i < |b.intents|
    ensures Base(After(b, CommitCharge(b, i, key, a, now)))
  {
    var intent := b.intents[i];
    if Insertable(b.txns, key, intent.gateway, a.reference) {
      var row := Txn(i, Charge, TxnStatusOf(a.status), intent.gateway, a.reference, key, intent.amount,
                     ConfirmedFor(a.status, intent.amount));
      AddTxn(b, row);
      ApplyKeeps(b.(txns := b.txns + [row]), |b.txns|, row, a.status, now);
    }
  }

  /** A refund's transaction row and request row. */
  lemma RefundRows(b: Books, r: nat, x: Txn, row: Refund)
    requires Base(b) && r < |b.refunds| && x.intent == b.refunds[r].intent
    requires Insertable(b.txns, x.key, x.gateway, x.reference)
    requires row.intent == b.refunds[r].intent && row.amount == b.refunds[r].amount
    ensures Base(b.(txns := b.txns + [x], refunds := b.refunds[r := row]))
  {
    AddTxn(b, x);
    SetRefund(b.(txns := b.txns + [x]), r, row);
  }

  lemma RefundFits(l: seq<Entry>, t: nat, row: Intent, x: Txn, part: nat, heldDebit: nat, availableDebit: nat,
                   intents: seq<Intent>, refunds: seq<Refund>, payouts: seq<Payout>)
    requires x.intent < |intents| && intents[x.intent] == row && AccountOk(AccountOf(l, x.intent), row)
             && row.fee <= row.amount
    requires x.kind.Refunding? && x.key.RefundKey? && x.key.refund < |refunds|
             && refunds[x.key.refund].intent == x.intent
    requires part == RefundShare(refunds[x.key.refund].amount, row.fee, row.amount)
    requires part + heldDebit + availableDebit == refunds[x.key.refund].amount
    requires part <= Net(l, x.intent, PlatformReserved) && heldDebit <= Net(l, x.intent, ProviderHeld)
    requires availableDebit <= Net(l, x.intent, ProviderAvailable)
    requires Unposted(l, t)
    ensures var es := RefundEntries(row.job, x.intent, t, refunds[x.key.refund].amount, part, heldDebit,
                                    availableDebit);
            && AccountOk(AccountOf(l, x.intent).Plus(AccountOf(es, x.intent)), row)
            && PostingOk(PostingsOf(l, t).Plus(PostingsOf(es, t)), x, intents, refunds, payouts)
  {
    var amount := refunds[x.key.refund].amount;
    RefundAccount(row.job, x.intent, t, amount, part, heldDebit, availableDebit);
    RefundPostings(row.job, x.intent, t, amount, part, heldDebit, availableDebit);
    RefundArithmetic(AccountOf(l, x.intent), row, amount, part, heldDebit, availableDebit);
    NothingPosted(l, t);
  }

  lemma RefundPosts(b: Books, t: nat, part: nat, heldDebit: nat, availableDebit: nat, b': Books)
    requires Base(b) && t < |b.txns| && b.txns[t].kind.Refunding? && b.txns[t].key.RefundKey?
    requires var r := b.txns[t].key.refund; var i := b.txns[t].intent;
             && r < |b.refunds| && b.refunds[r].intent == i
             && part == RefundShare(b.refunds[r].amount, b.intents[i].fee, b.intents[i].amount)
             && part + heldDebit + availableDebit == b.refunds[r].amount
             && part <= Net(b.ledger, i, PlatformReserved) && heldDebit <= Net(b.ledger, i, ProviderHeld)
             && availableDebit <= Net(b.ledger, i, ProviderAvailable)
             && b' == b.(ledger := b.ledger + RefundEntries(b.intents[i].job, i, t, b.refunds[r].amount, part,
                                                            heldDebit, availableDebit))
    requires Unposted(b.ledger, t)
    ensures Base(b')
  {
    var i := b.txns[t].intent;
    var intent := b.intents[i];
    RefundFits(b.ledger, t, intent, b.txns[t], part, heldDebit, availableDebit, b.intents, b.refunds, b.payouts);
    Post(b, i, Some(t), RefundEntries(intent.job, i, t, b.refunds[b.txns[t].key.refund].amount, part, heldDebit,
                                      availableDebit));
  }

  /** What a committed refund did. */
  lemma RefundShape(b: Books, r: nat, part: nat, a: Answer)
    requires Linked(b) && r < |b.refunds| && part <= b.refunds[r].amount && CommitRefund(b, r, part, a).Ok?
    requires Net(b.ledger, b.refunds[r].intent, ProviderHeld) >= 0
             && Net(b.ledger, b.refunds[r].intent, ProviderAvailable) >= 0
    ensures Insertable(b.txns, RefundKey(r), b.intents[b.refunds[r].intent].gateway, a.reference)
    ensures var b' := CommitRefund(b, r, part, a).value;
            var i, t, amount := b.refunds[r].intent, |b.txns|, b.refunds[r].amount;
            var x := Txn(i, Refunding, TxnStatusOf(a.status), b.intents[i].gateway, a.reference, RefundKey(r), amount,
                         ConfirmedFor(a.status, amount));
            var row := b.refunds[r].(status := RefundStatusOf(TxnStatusOf(a.status)), txn := Some(t));
            var rows := b.(txns := b.txns + [x], refunds := b.refunds[r := row]);
            var heldDebit := Min(Net(b.ledger, i, ProviderHeld), amount - part);
            if a.status.Succeeded? then
              && part <= Net(b.ledger, i, PlatformReserved)
              && 0 <= heldDebit <= amount - part
              && amount - part - heldDebit <= Net(b.ledger, i, ProviderAvailable)
              && b' == rows.(ledger := b.ledger + RefundEntries(b.intents[i].job, i, t, amount, part, heldDebit,
                                                                amount - part - heldDebit))
            else b' == rows
  {
  }

  /** A committed refund as two edits: the rows, then the entries. */
  lemma RefundParts(b: Books, r: nat, part: nat, a: Answer) returns (rows: Books, heldDebit: nat, availableDebit: nat)
    requires Linked(b) && TicketOk(b, SettleRefund(r, part)) && CommitRefund(b, r, part, a).Ok?
    requires AccountOf(b.ledger, b.refunds[r].intent).Sound()
    ensures var i, t, amount := b.refunds[r].intent, |b.txns|, b.refunds[r].amount;
            && |rows.txns| == t + 1 && rows.txns[t].kind.Refunding? && rows.txns[t].key == RefundKey(r)
                 && rows.txns[t].intent == i
            && Insertable(b.txns, rows.txns[t].key, rows.txns[t].gateway, rows.txns[t].reference)
            && |rows.refunds| == |b.refunds| && rows.refunds[r].intent == i && rows.refunds[r].amount == amount
            && rows == b.(txns := b.txns + [rows.txns[t]], refunds := b.refunds[r := rows.refunds[r]])
            && if a.status.Succeeded? then
                 && part <= Net(b.ledger, i, PlatformReserved) && part + heldDebit + availableDebit == amount
                 && heldDebit <= Net(b.ledger, i, ProviderHeld) && availableDebit <= Net(b.ledger, i, ProviderAvailable)
                 && CommitRefund(b, r, part, a).value
                    == rows.(ledger := b.ledger + RefundEntries(b.intents[i].job, i, t, amount, part, heldDebit,
                                                                availableDebit))
               else CommitRefund(b, r, part, a).value == rows
  {
    var i, amount := b.refunds[r].intent, b.refunds[r].amount;
    assert Net(b.ledger, i, ProviderHeld) >= 0 && Net(b.ledger, i, ProviderAvailable) >= 0;
    RefundShape(b, r, part, a);
    rows := CommitRefund(b, r, part, a).value.(ledger := b.ledger);
    heldDebit := if a.status.Succeeded? then Min(Net(b.ledger, i, ProviderHeld), amount - part) else 0;
    availableDebit := amount - part - heldDebit;
  }

  lemma RefundKeeps(b: Books, r: nat, part: nat, a: Answer)
    requires Base(b) && TicketOk(b, SettleRefund(r, part))
    ensures Base(After(b, CommitRefund(b, r, part, a)))
  {
    if CommitRefund(b, r, part, a).Ok? {
      RefundCommitted(b, r, part, a, CommitRefund(b, r, part, a).value);
    }
  }

  lemma RefundCommitted(b: Books, r: nat, part: nat, a: Answer, b': Books)
    requires Base(b) && TicketOk(b, SettleRefund(r, part)) && CommitRefund(b, r, part, a) == Ok(b')
    ensures Base(b')
  {
    assert AccountOk(AccountOf(b.ledger, b.refunds[r].intent), b.intents[b.refunds[r].intent]);
    var rows, heldDebit, availableDebit := RefundParts(b, r, part, a);
    RefundRows(b, r, rows.txns[|b.txns|], rows.refunds[r]);
    if a.status.Succeeded? {
      RefundPosts(rows, |b.txns|, part, heldDebit, availableDebit, b');
    }
  }

  lemma PayoutRows(b: Books, p: nat, x: Txn, row: Payout)
    requires Base(b) && p < |b.payouts| && x.intent == b.payouts[p].intent
    requires Insertable(b.txns, x.key, x.gateway, x.reference)
    requires row.intent == b.payouts[p].intent && row.amount == b.payouts[p].amount
    ensures Base(b.(txns := b.txns + [x], payouts := b.payouts[p := row]))
  {
    AddTxn(b, x);
    SetPayout(b.(txns := b.txns + [x]), p, row);
  }

  lemma PayoutPosts(b: Books, t: nat)
    requires Base(b) && t < |b.txns| && b.txns[t].kind.Payment? && b.txns[t].key.PayoutKey?
    requires var p := b.txns[t].key.payout; var i := b.txns[t].intent;
             p < |b.payouts| && b.payouts[p].intent == i && b.payouts[p].amount <= Net(b.ledger, i, ProviderAvailable)
    requires Unposted(b.ledger, t)
    ensures var row := b.payouts[b.txns[t].key.payout];
            Base(b.(ledger := b.ledger + PayoutEntries(row.job, row.intent, t, row.amount)))
  {
    var row := b.payouts[b.txns[t].key.payout];
    PayoutAccount(row.job, row.intent, t, row.amount);
    PayoutPostings(row.job, row.intent, t, row.amount);
    NothingPosted(b.ledger, t);
    assert AccountOk(AccountOf(b.ledger, row.intent), b.intents[row.intent]);
    Post(b, row.intent, Some(t), PayoutEntries(row.job, row.intent, t, row.amount));
  }

  /** What a committed payout did. */
  lemma PayoutShape(b: Books, p: nat, reference: Option<string>, a: Answer)
    requires p < |b.payouts| && CommitPayout(b, p, reference, a).Ok? && CommitPayout(b, p, reference, a).value != b
    ensures Insertable(b.txns, PayoutKey(p), b.payouts[p].gateway, reference.GetOr(a.reference))
    ensures var b' := CommitPayout(b, p, reference, a).value;
            var row, t := b.payouts[p], |b.txns|;
            var x := Txn(row.intent, Payment, TxnStatusOf(a.status), row.gateway, reference.GetOr(a.reference),
                         PayoutKey(p),
                         row.amount, ConfirmedFor(a.status, row.amount));
            var rows := b.(txns := b.txns + [x],
                           payouts := b.payouts[p := row.(status := PayoutStatusOf(TxnStatusOf(a.status)))]);
            if a.status.Succeeded? then
              && row.amount <= Net(b.ledger, row.intent, ProviderAvailable)
              && b' == rows.(ledger := b.ledger + PayoutEntries(row.job, row.intent, t, row.amount))
            else b' == rows
  {
  }

  lemma PayoutKeeps(b: Books, p: nat, reference: Option<string>, a: Answer)
    requires Base(b) && p < |b.payouts|
    ensures Base(After(b, CommitPayout(b, p, reference, a)))
  {
    var c := CommitPayout(b, p, reference, a);
    if c.Ok? && c.value != b {
      PayoutShape(b, p, reference, a);
      PayoutRows(b, p, c.value.txns[|b.txns|], c.value.payouts[p]);
      if a.status.Succeeded? {
        PayoutPosts(c.value.(ledger := b.ledger), |b.txns|);
      }
    }
  }

  lemma ReleaseFits(x: Account, row: Intent)
    requires AccountOk(x, row)
    ensures AccountOk(x.Plus(Account(0, 0, -x.held, x.held, 0, 0, 0, 0, 0)), row)
  {
  }

  lemma ReleaseKeeps(b: Books, i: nat)
    requires Base(b) && i < |b.intents|
    ensures Base(After(b, CommitRelease(b, i)))
  {
    var held := Net(b.ledger, i, ProviderHeld);
    if held > 0 {
      ReleaseAccount(b.intents[i].job, i, held);
      ReleaseFits(AccountOf(b.ledger, i), b.intents[i]);
      hide AccountOk;
      Post(b, i, None, ReleaseEntries(b.intents[i].job, i, held));
    }
  }

  lemma JobKeeps(b: Books, t: Ticket)
    requires Base(b) && t.WriteJob? && Sound(b, t)
    ensures Base(CommitJob(b, t))
  {
    var b' := CommitJob(b, t);
    SetJob(b, t.job, b'.jobs[t.job]);
    SetIntents(b.(jobs := b'.jobs), b'.intents);
  }

  lemma OpenJobKeeps(b: Books, job: Job, s: Split, gateway: Gateway)
    requires Base(b) && TicketOk(b, InsertJob(job, s, gateway))
    ensures Base(After(b, CommitOpenJob(b, job, s, gateway)))
  {
    AddJob(b, job);
    AddIntent(b.(jobs := b.jobs + [job]),
              Intent(|b.jobs|, job.client, job.provider, s.gross, s.fee, s.net, IntentStatus.AwaitingPayment, gateway,
                     true));
  }

  predicate MovesMoney(t: Ticket) {
    t.ChargeIntent? || t.Deliver? || t.ApplyAnswer? || t.SettleRefund? || t.SettlePayout? || t.ReleaseHeld?
  }

  lemma MoneyCommitKeeps(b: Books, t: Ticket, a: Answer, now: nat)
    requires Base(b) && TicketOk(b, t) && MovesMoney(t)
    ensures Base(After(b, Commit(b, t, a, now)))
  {
    match t
    case ChargeIntent(i, key) => ChargeKeeps(b, i, key, a, now);
    case Deliver(x, g, e) => DeliverKeeps(b, t, a, now);
    case ApplyAnswer(x, row) => ApplyKeeps(b, x, row, a.status, now);
    case SettleRefund(r, part) => RefundKeeps(b, r, part, a);
    case SettlePayout(p, reference) => PayoutKeeps(b, p, reference, a);
    case ReleaseHeld(i) => ReleaseKeeps(b, i);
  }

  lemma DeliverKeeps(b: Books, t: Ticket, a: Answer, now: nat)
    requires Base(b) && t.Deliver? && TicketOk(b, t)
    ensures Base(After(b, Commit(b, t, a, now)))
  {
    ApplyKeeps(b, t.txn, b.txns[t.txn], t.status, now);
  }

  lemma InsertKeeps(b: Books, t: Ticket, a: Answer, now: nat)
    requires Base(b) && TicketOk(b, t) && (t.InsertRefund? || t.InsertPayout?)
    ensures Base(After(b, Commit(b, t, a, now)))
  {
  }

  lemma RowCommitKeeps(b: Books, t: Ticket, a: Answer, now: nat)
    requires Base(b) && Sound(b, t) && !MovesMoney(t)
    ensures Base(After(b, Commit(b, t, a, now)))
  {
    match t
    case InsertIntent(row) => AddIntent(b, row);
    case CloseRefund(r, outcome) => SetRefund(b, r, b.refunds[r].(status := outcome));
    case MarkApproved(p) => SetPayout(b, p, b.payouts[p].(status := PayoutStatus.Approved));
    case WriteJob(_, _, _, _, _, _) => JobKeeps(b, t);
    case InsertJob(job, s, gateway) => OpenJobKeeps(b, job, s, gateway);
    case _ => InsertKeeps(b, t, a, now);
  }

  /**
   * Every transaction body keeps the invariant, whatever the gateway answers and whatever changed since the
   * ticket was issued.
   */
  lemma CommitKeepsBase(b: Books, t: Ticket, a: Answer, now: nat)
    requires Base(b) && Sound(b, t)
    ensures Base(After(b, Commit(b, t, a, now)))
  {
    if MovesMoney(t) {
      MoneyCommitKeeps(b, t, a, now);
    } else {
      RowCommitKeeps(b, t, a, now);
    }
  }

  lemma SetEvents(b: Books, events: seq<Event>)
    requires Base(b)
    ensures Base(b.(events := events))
  {
  }

  lemma UpdateJobIsSound(b: Books, j: nat, actor: nat, next: JobStatus, reason: bool, now: nat)
    requires Linked(b) && PaidCharged(b.intents, b.jobs, b.ledger)
    ensures var s := BeginUpdateJob(b, j, actor, next, reason, now);
            !s.Settled? && (s.Ready? ==> s.books == b && Sound(b, s.ticket))
  {
  }

  /** The part before the transaction keeps the invariant too, and only issues sound tickets. */
  lemma BeginIsSound(b: Books, c: Config, call: Call, now: nat)
    requires ValidConfig(c) && ValidCall(call) && Base(b)
    ensures var s := Begin(b, c, call, now);
            (s.Settled? ==> Base(s.books)) && (s.Ready? ==> Base(s.books) && Sound(s.books, s.ticket))
  {
    var s := Begin(b, c, call, now);
    if call.Webhook? {
      if !s.Refused? {
        SetEvents(b, s.books.events);
      }
    } else {
      BeginTicket(b, c, call, now);
    }
  }

  lemma BeginTicket(b: Books, c: Config, call: Call, now: nat)
    requires ValidConfig(c) && ValidCall(call) && !call.Webhook?
    requires Linked(b) && SplitsOk(b.intents) && PaidCharged(b.intents, b.jobs, b.ledger)
    ensures var s := Begin(b, c, call, now);
            (!s.Refused? ==> s.books == b) && (s.Ready? ==> Sound(b, s.ticket))
  {
    if call.UpdateJob? {
      UpdateJobIsSound(b, call.job, call.actor, call.next, call.reason, now);
    } else {
      OtherTicket(b, c, call, now);
    }
  }

  lemma OtherTicket(b: Books, c: Config, call: Call, now: nat)
    requires ValidConfig(c) && ValidCall(call) && !call.Webhook? && !call.UpdateJob?
    requires Linked(b) && SplitsOk(b.intents)
    ensures var s := Begin(b, c, call, now);
            (!s.Refused? ==> s.books == b) && (s.Ready? ==> TicketOk(b, s.ticket) && !s.ticket.WriteJob?)
  {
  }
}
