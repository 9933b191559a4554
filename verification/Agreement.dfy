/**
 * The properties that need some outer checks to be fresh: status tables against the ledger, and the
 * release delay. `Fresh` says what the outer checks of a ticket established; each lemma names the
 * tickets whose staleness would break its property.
 */
module Agreement {
  import opened Common
  import opened Policy
  import opened Ledger
  import opened Payments
  import opened Safety
  import opened Growth

  /** The job behind an intent is completed and its release delay has passed. */
  predicate Matured(b: Books, c: Config, i: nat, now: nat)
    requires Linked(b)
  {
    i < |b.intents| && b.jobs[b.intents[i].job].status.Completed?
        && CanRelease(c, b.jobs[b.intents[i].job].completedAt, now)
  }

  /** The outer checks of the ticket still hold. */
  predicate Fresh(b: Books, c: Config, t: Ticket, now: nat)
    requires Linked(b) && TicketOk(b, t)
  {
    match t
    case CloseRefund(r, _) => b.refunds[r].status == RefundStatus.Pending
    case SettleRefund(r, _) => b.refunds[r].amount <= Remaining(b, b.refunds[r].intent)
    case MarkApproved(p) => b.payouts[p].status == PayoutStatus.Pending
    case ApplyAnswer(x, row) => row == b.txns[x]
    case WriteJob(j, _, _, _, _, _) => !b.jobs[j].status.Completed?
    case ReleaseHeld(i) => Matured(b, c, i, now)
    case InsertPayout(row) =>
      row.amount <= Net(b.ledger, row.intent, ProviderAvailable) - PayoutsIn(b, row.intent, RESERVING)
    case _ => true
  }

  lemma BeginIsFresh(b: Books, c: Config, call: Call, now: nat)
    requires ValidConfig(c) && ValidCall(call) && Base(b)
    requires Begin(b, c, call, now).Ready?
    ensures var s := Begin(b, c, call, now);
            Linked(s.books) && TicketOk(s.books, s.ticket) && Fresh(s.books, c, s.ticket, now)
  {
    BeginIsSound(b, c, call, now);
    if !call.Webhook? {
      BeginTicket(b, c, call, now);
      FreshTicket(b, c, call, now);
    }
  }

  lemma FreshTicket(b: Books, c: Config, call: Call, now: nat)
    requires ValidConfig(c) && ValidCall(call) && Linked(b) && SplitsOk(b.intents) && !call.Webhook?
    requires Begin(b, c, call, now).Ready? && Begin(b, c, call, now).books == b
             && TicketOk(b, Begin(b, c, call, now).ticket)
    ensures Fresh(b, c, Begin(b, c, call, now).ticket, now)
  {
  }

  // ----- what a commit does to one account -----

  /** The entries a commit posts. */
  function PostedBy(b: Books, t: Ticket, a: Answer, now: nat): seq<Entry>
    requires Linked(b) && TicketOk(b, t)
  {
    CommitGrows(b, t, a, now);
    After(b, Commit(b, t, a, now)).ledger[|b.ledger|..]
  }

  /** The guards a refund passes on its way to the ledger, all read off the tables before the transaction. */
  predicate RefundGoesThrough(b: Books, r: nat, part: nat, a: Answer)
    requires Linked(b) && r < |b.refunds|
  {
    var row := b.refunds[r];
    && a.status.Succeeded? && row.status == RefundStatus.Pending
    && Insertable(b.txns, RefundKey(r), b.intents[row.intent].gateway, a.reference)
    && part <= Net(b.ledger, row.intent, PlatformReserved)
    && row.amount - part <= Net(b.ledger, row.intent, ProviderHeld) + Net(b.ledger, row.intent, ProviderAvailable)
  }

  function RefundBooked(b: Books, t: Ticket, a: Answer, i: nat): nat
    requires Linked(b) && TicketOk(b, t)
  {
    if t.SettleRefund? && b.refunds[t.refund].intent == i && RefundGoesThrough(b, t.refund, t.platformPart, a)
    then b.refunds[t.refund].amount else 0
  }

  function PayoutBooked(b: Books, t: Ticket, a: Answer, now: nat, i: nat): nat
    requires Linked(b) && TicketOk(b, t)
  {
    if t.SettlePayout? && Commit(b, t, a, now).Ok? && Commit(b, t, a, now).value != b && a.status.Succeeded?
       && b.payouts[t.payout].intent == i
    then b.payouts[t.payout].amount else 0
  }

  /** Only a settled refund changes what an intent has refunded; only a settled payout what it has paid out. */
  lemma AccountDelta(b: Books, t: Ticket, a: Answer, now: nat, i: nat)
    requires Linked(b) && AccountsOk(b.intents, b.ledger) && TicketOk(b, t) && i < |b.intents|
    ensures var x, y := AccountOf(b.ledger, i), AccountOf(After(b, Commit(b, t, a, now)).ledger, i);
            && y.refunded == x.refunded + RefundBooked(b, t, a, i)
            && y.paidOut == x.paidOut + PayoutBooked(b, t, a, now, i)
            && (!t.SettleRefund? ==> y.available >= x.available - PayoutBooked(b, t, a, now, i))
  {
    match t
    case ChargeIntent(j, key) => ChargeDelta(b, t, a, now, i);
    case Deliver(x, g, _) => ApplyDelta(b, x, b.txns[x], g, now, i);
    case ApplyAnswer(x, row) => ApplyDelta(b, x, row, a.status, now, i);
    case SettleRefund(_, _) => SettlementDelta(b, t, a, now, i);
    case SettlePayout(_, _) => SettlementDelta(b, t, a, now, i);
    case ReleaseHeld(j) => ReleaseDelta(b, j, i);
    case _ => RowDelta(b, t, a, now, i);
  }

  lemma SettlementDelta(b: Books, t: Ticket, a: Answer, now: nat, i: nat)
    requires Linked(b) && AccountsOk(b.intents, b.ledger) && TicketOk(b, t) && i < |b.intents|
             && (t.SettleRefund? || t.SettlePayout?)
    ensures var x, y := AccountOf(b.ledger, i), AccountOf(After(b, Commit(b, t, a, now)).ledger, i);
            && y.refunded == x.refunded + RefundBooked(b, t, a, i)
            && y.paidOut == x.paidOut + PayoutBooked(b, t, a, now, i)
            && (!t.SettleRefund? ==> y.available >= x.available - PayoutBooked(b, t, a, now, i))
  {
    if t.SettleRefund? {
      var j := b.refunds[t.refund].intent;
      assert AccountOk(AccountOf(b.ledger, j), b.intents[j]);
      RefundDelta(b, t, a, now, i);
    } else {
      PayoutDelta(b, t, a, now, i);
    }
  }

  lemma RowDelta(b: Books, t: Ticket, a: Answer, now: nat, i: nat)
    requires Linked(b) && TicketOk(b, t) && !MovesMoney(t)
    ensures After(b, Commit(b, t, a, now)).ledger == b.ledger
    ensures RefundBooked(b, t, a, i) == PayoutBooked(b, t, a, now, i) == 0
  {
  }

  lemma ApplyDelta(b: Books, t: nat, row: Txn, g: GatewayStatus, now: nat, i: nat)
    requires Linked(b) && t < |b.txns| && i < |b.intents|
    ensures var x, y := AccountOf(b.ledger, i), AccountOf(Apply(b, t, row, g, now).ledger, i);
            y.refunded == x.refunded && y.paidOut == x.paidOut && y.available >= x.available
  {
    var j := b.txns[t].intent;
    var intent := b.intents[j];
    if g.Succeeded? && !ChargePosted(b.ledger, t) {
      var es := ChargeEntries(intent.job, j, t, intent.amount, intent.fee, intent.net);
      if j == i {
        AccountAppend(b.ledger, es, i);
        ChargeAccount(intent.job, j, t, intent.amount, intent.fee, intent.net);
      } else {
        AccountElsewhere(b.ledger, es, j, i);
      }
    } else {
      assert b.ledger + [] == b.ledger;
    }
  }

  lemma ChargeDelta(b: Books, t: Ticket, a: Answer, now: nat, i: nat)
    requires Linked(b) && t.ChargeIntent? && TicketOk(b, t) && i < |b.intents|
    ensures var x, y := AccountOf(b.ledger, i), AccountOf(After(b, Commit(b, t, a, now)).ledger, i);
            y.refunded == x.refunded && y.paidOut == x.paidOut && y.available >= x.available
  {
    var intent := b.intents[t.intent];
    if Insertable(b.txns, t.key, intent.gateway, a.reference) {
      var row := Txn(t.intent, Charge, TxnStatusOf(a.status), intent.gateway, a.reference, t.key, intent.amount,
                     ConfirmedFor(a.status, intent.amount));
      ApplyDelta(b.(txns := b.txns + [row]), |b.txns|, row, a.status, now, i);
    }
  }

  /** What a refund's transaction does to the ledger. */
  lemma RefundLedger(b: Books, r: nat, part: nat, a: Answer)
    requires Linked(b) && TicketOk(b, SettleRefund(r, part))
    ensures var i, providerPart := b.refunds[r].intent, b.refunds[r].amount - part;
            var heldDebit := Min(Net(b.ledger, i, ProviderHeld), providerPart);
            After(b, CommitRefund(b, r, part, a)).ledger
            == if RefundGoesThrough(b, r, part, a)
               then b.ledger + RefundEntries(b.intents[i].job, i, |b.txns|, b.refunds[r].amount, part, heldDebit,
                                             providerPart - heldDebit)
               else b.ledger
  {
    hide Net;
    hide Insertable;
    hide RefundEntries;
  }

  lemma RefundDelta(b: Books, t: Ticket, a: Answer, now: nat, i: nat)
    requires Linked(b) && t.SettleRefund? && TicketOk(b, t) && i < |b.intents|
    ensures var x, y := AccountOf(b.ledger, i), AccountOf(After(b, Commit(b, t, a, now)).ledger, i);
            y.refunded == x.refunded + RefundBooked(b, t, a, i) && y.paidOut == x.paidOut
  {
    hide RefundGoesThrough;
    hide CommitRefund;
    hide AccountOf;
    hide Net;
    var j, amount := b.refunds[t.refund].intent, b.refunds[t.refund].amount;
    RefundLedger(b, t.refund, t.platformPart, a);
    var heldDebit := Min(Net(b.ledger, j, ProviderHeld), amount - t.platformPart);
    RefundEntriesDelta(b.ledger, b.intents[j].job, j, |b.txns|, amount, t.platformPart, heldDebit,
                       amount - t.platformPart - heldDebit, i);
  }

  lemma RefundEntriesDelta(l: seq<Entry>, job: nat, j: nat, t: nat, amount: nat, part: nat, heldDebit: int,
                           availableDebit: nat, i: nat)
    ensures var es := RefundEntries(job, j, t, amount, part, heldDebit, availableDebit);
            var x, y := AccountOf(l, i), AccountOf(l + es, i);
            y.refunded == x.refunded + (if i == j then amount else 0) && y.paidOut == x.paidOut
  {
    var es := RefundEntries(job, j, t, amount, part, heldDebit, availableDebit);
    if j == i {
      var debit := Max(0, heldDebit);
      assert es == RefundEntries(job, j, t, amount, part, debit, availableDebit);
      AccountAppend(l, es, i);
      RefundAccount(job, j, t, amount, part, debit, availableDebit);
    } else {
      AccountElsewhere(l, es, j, i);
    }
  }

  lemma PayoutDelta(b: Books, t: Ticket, a: Answer, now: nat, i: nat)
    requires t.SettlePayout? && Linked(b) && TicketOk(b, t) && i < |b.intents|
    ensures var x, y := AccountOf(b.ledger, i), AccountOf(After(b, Commit(b, t, a, now)).ledger, i);
            && y.refunded == x.refunded && y.paidOut == x.paidOut + PayoutBooked(b, t, a, now, i)
            && y.available == x.available - PayoutBooked(b, t, a, now, i)
  {
    var row := b.payouts[t.payout];
    if Commit(b, t, a, now).Ok? && Commit(b, t, a, now).value != b {
      PayoutShape(b, t.payout, t.reference, a);
      if a.status.Succeeded? {
        var es := PayoutEntries(row.job, row.intent, |b.txns|, row.amount);
        if row.intent == i {
          AccountAppend(b.ledger, es, i);
          PayoutAccount(row.job, row.intent, |b.txns|, row.amount);
        } else {
          AccountElsewhere(b.ledger, es, row.intent, i);
        }
      }
    }
  }

  lemma ReleaseDelta(b: Books, j: nat, i: nat)
    requires j < |b.intents| && i < |b.intents|
    ensures var x, y := AccountOf(b.ledger, i), AccountOf(After(b, CommitRelease(b, j)).ledger, i);
            y.refunded == x.refunded && y.paidOut == x.paidOut && y.available >= x.available
  {
    var held := Net(b.ledger, j, ProviderHeld);
    if held > 0 {
      var es := ReleaseEntries(b.intents[j].job, j, held);
      if j == i {
        AccountAppend(b.ledger, es, i);
        ReleaseAccount(b.intents[j].job, j, held);
      } else {
        AccountElsewhere(b.ledger, es, j, i);
      }
    }
  }

  // ----- sums over rows -----

  lemma {:induction false} RefundedSumSame(x: seq<Refund>, y: seq<Refund>, i: nat, n: nat)
    requires n <= |x| && n <= |y|
    requires forall r :: 0 <= r < n ==> x[r].intent == y[r].intent && x[r].amount == y[r].amount
                                        && x[r].status.Succeeded? == y[r].status.Succeeded?
    ensures RefundedSum(x, i, n) == RefundedSum(y, i, n)
  {
    if n > 0 {
      RefundedSumSame(x, y, i, n - 1);
    }
  }

  /** Settling one pending row adds its amount. */
  lemma {:induction false} RefundedSumSettled(x: seq<Refund>, r: nat, row: Refund, i: nat, n: nat)
    requires r < n <= |x| && !x[r].status.Succeeded? && row.status.Succeeded? && row.intent == i
    ensures RefundedSum(x[r := row], i, n) == RefundedSum(x, i, n) + row.amount
  {
    if n - 1 > r {
      RefundedSumSettled(x, r, row, i, n - 1);
    } else {
      RefundedSumSame(x, x[r := row], i, n - 1);
    }
  }

  lemma {:induction false} RefundedElsewhere(x: seq<Refund>, r: nat, row: Refund, i: nat, n: nat)
    requires r < |x| && n <= |x| && x[r].intent != i && row.intent != i
    ensures RefundedSum(x[r := row], i, n) == RefundedSum(x, i, n)
  {
    if n > 0 {
      RefundedElsewhere(x, r, row, i, n - 1);
    }
  }

  lemma {:induction false} PayoutSumSame(x: seq<Payout>, y: seq<Payout>, i: nat, sts: set<PayoutStatus>, n: nat)
    requires n <= |x| && n <= |y|
    requires forall p :: 0 <= p < n ==> x[p].intent == y[p].intent && x[p].amount == y[p].amount
                                        && (x[p].status in sts <==> y[p].status in sts)
    ensures PayoutSum(x, i, sts, n) == PayoutSum(y, i, sts, n)
  {
    if n > 0 {
      PayoutSumSame(x, y, i, sts, n - 1);
    }
  }

  /** Changing the status of one row moves its amount in or out of the sum. */
  lemma {:induction false} PayoutSumMoved(x: seq<Payout>, p: nat, status: PayoutStatus, i: nat, sts: set<PayoutStatus>,
                                          n: nat)
    requires p < n <= |x| && x[p].intent == i
    ensures PayoutSum(x[p := x[p].(status := status)], i, sts, n)
         == PayoutSum(x, i, sts, n) - (if x[p].status in sts then x[p].amount else 0)
             + (if status in sts then x[p].amount else 0)
  {
    var y := x[p := x[p].(status := status)];
    if n - 1 > p {
      PayoutSumMoved(x, p, status, i, sts, n - 1);
    } else {
      PayoutSumSame(x, y, i, sts, n - 1);
    }
  }

  // ----- status tables agree with the ledger -----

  /** For each intent, the succeeded refund requests add up to the refunds on the ledger. */
  predicate RefundsAgree(b: Books) {
    forall i :: 0 <= i < |b.intents| ==> Refunded(b, i) == AccountOf(b.ledger, i).refunded
  }

  /** For each intent, the succeeded refund requests never exceed its amount. */
  predicate RefundsCapped(b: Books) {
    forall i :: 0 <= i < |b.intents| ==> Refunded(b, i) <= b.intents[i].amount
  }

  /** For each intent, the paid payouts add up to its paid-out balance. */
  predicate PayoutsAgree(b: Books) {
    forall i :: 0 <= i < |b.intents| ==> PayoutsIn(b, i, {PayoutStatus.Paid}) == AccountOf(b.ledger, i).paidOut
  }

  /** A charge transaction is confirmed, in full, exactly when its charge is on the ledger. */
  predicate ConfirmedAgree(b: Books) {
    forall t :: 0 <= t < |b.txns| && b.txns[t].kind.Charge? ==>
      b.txns[t].confirmed == if ChargePosted(b.ledger, t) then Some(b.txns[t].requested) else None
  }

  /** How the succeeded sum of one intent moves in a commit. */
  lemma RefundedMoves(b: Books, t: Ticket, a: Answer, now: nat, i: nat)
    requires Linked(b) && TicketOk(b, t)
    requires t.CloseRefund? ==> b.refunds[t.refund].status == RefundStatus.Pending
    ensures Refunded(After(b, Commit(b, t, a, now)), i) == Refunded(b, i) + RefundBooked(b, t, a, i)
  {
    var b' := After(b, Commit(b, t, a, now));
    if t.SettleRefund? && Commit(b, t, a, now).Ok? && a.status.Succeeded? {
      if b.refunds[t.refund].intent == i {
        RefundedSumSettled(b.refunds, t.refund, b'.refunds[t.refund], i, |b.refunds|);
      } else {
        RefundedElsewhere(b.refunds, t.refund, b'.refunds[t.refund], i, |b.refunds|);
      }
    } else if t.InsertRefund? {
      RefundedSumSame(b.refunds, b'.refunds, i, |b.refunds|);
    } else {
      RefundedSumSame(b.refunds, b'.refunds, i, |b.refunds|);
    }
  }

  lemma NewIntentHasNothing(b: Books, i: nat)
    requires Linked(b) && i >= |b.intents|
    ensures AccountOf(b.ledger, i) == EMPTY_ACCOUNT && Refunded(b, i) == 0 && PayoutsIn(b, i, {PayoutStatus.Paid}) == 0
  {
    forall q: Query | (q.BucketNet? || q.KindTotal? || q.KindCount?) && q.intent == i ensures Tally(q, b.ledger) == 0 {
      SumZero(q, b.ledger, |b.ledger|);
    }
    NoRefunds(b.refunds, i, |b.refunds|);
    NoPayouts(b.payouts, i, {PayoutStatus.Paid}, |b.payouts|);
  }

  lemma {:induction false} NoRefunds(x: seq<Refund>, i: nat, n: nat)
    requires n <= |x| && forall r :: 0 <= r < n ==> x[r].intent != i
    ensures RefundedSum(x, i, n) == 0
  {
    if n > 0 {
      NoRefunds(x, i, n - 1);
    }
  }

  lemma {:induction false} NoPayouts(x: seq<Payout>, i: nat, sts: set<PayoutStatus>, n: nat)
    requires n <= |x| && forall p :: 0 <= p < n ==> x[p].intent != i
    ensures PayoutSum(x, i, sts, n) == 0
  {
    if n > 0 {
      NoPayouts(x, i, sts, n - 1);
    }
  }

  /** Intents appear without entries, refunds or payouts. */
  lemma FreshIntents(b: Books, t: Ticket, a: Answer, now: nat, i: nat)
    requires Base(b) && Sound(b, t)
    requires var b' := After(b, Commit(b, t, a, now)); |b.intents| <= i < |b'.intents|
    ensures var b' := After(b, Commit(b, t, a, now));
            b'.ledger == b.ledger && b'.refunds == b.refunds && b'.payouts == b.payouts
  {
  }

  /** Only closing a refund on a stale check breaks the agreement of refunds. */
  lemma RefundsAgreeKept(b: Books, c: Config, t: Ticket, a: Answer, now: nat)
    requires Base(b) && Sound(b, t) && RefundsAgree(b)
    requires t.CloseRefund? ==> Fresh(b, c, t, now)
    ensures RefundsAgree(After(b, Commit(b, t, a, now)))
  {
    var b' := After(b, Commit(b, t, a, now));
    forall i | 0 <= i < |b'.intents| ensures Refunded(b', i) == AccountOf(b'.ledger, i).refunded {
      if i < |b.intents| {
        AccountDelta(b, t, a, now, i);
        RefundedMoves(b, t, a, now, i);
      } else {
        FreshIntents(b, t, a, now, i);
        NewIntentHasNothing(b, i);
      }
    }
  }

  /** The cap also needs the remaining amount to be fresh when a refund settles. */
  lemma RefundsCappedKept(b: Books, c: Config, t: Ticket, a: Answer, now: nat)
    requires Base(b) && Sound(b, t) && RefundsCapped(b)
    requires t.CloseRefund? || t.SettleRefund? ==> Fresh(b, c, t, now)
    ensures RefundsCapped(After(b, Commit(b, t, a, now)))
  {
    var b' := After(b, Commit(b, t, a, now));
    CommitGrows(b, t, a, now);
    forall i | 0 <= i < |b'.intents| ensures Refunded(b', i) <= b'.intents[i].amount {
      if i < |b.intents| {
        RefundedMoves(b, t, a, now, i);
      } else {
        FreshIntents(b, t, a, now, i);
        NewIntentHasNothing(b, i);
      }
    }
  }

  lemma PaidMoves(b: Books, t: Ticket, a: Answer, now: nat, i: nat)
    requires Linked(b) && TicketOk(b, t)
    requires t.MarkApproved? ==> b.payouts[t.payout].status == PayoutStatus.Pending
    ensures PayoutsIn(After(b, Commit(b, t, a, now)), i, {PayoutStatus.Paid})
         == PayoutsIn(b, i, {PayoutStatus.Paid}) + PayoutBooked(b, t, a, now, i)
  {
    var b' := After(b, Commit(b, t, a, now));
    if t.SettlePayout? && Commit(b, t, a, now).Ok? && b' != b {
      PayoutShape(b, t.payout, t.reference, a);
      if b.payouts[t.payout].intent == i {
        PayoutSumMoved(b.payouts, t.payout, b'.payouts[t.payout].status, i, {PayoutStatus.Paid}, |b.payouts|);
      } else {
        PaidElsewhere(b.payouts, t.payout, b'.payouts[t.payout].status, i, {PayoutStatus.Paid}, |b.payouts|);
      }
    } else {
      PayoutSumSame(b.payouts, b'.payouts, i, {PayoutStatus.Paid}, |b.payouts|);
    }
  }

  lemma {:induction false} PaidElsewhere(x: seq<Payout>, p: nat, status: PayoutStatus, i: nat, sts: set<PayoutStatus>,
                                         n: nat)
    requires p < |x| && n <= |x| && x[p].intent != i
    ensures PayoutSum(x[p := x[p].(status := status)], i, sts, n) == PayoutSum(x, i, sts, n)
  {
    if n > 0 {
      PaidElsewhere(x, p, status, i, sts, n - 1);
    }
  }

  /** Only approving on a stale check breaks the agreement of payouts. */
  lemma PayoutsAgreeKept(b: Books, c: Config, t: Ticket, a: Answer, now: nat)
    requires Base(b) && Sound(b, t) && PayoutsAgree(b)
    requires t.MarkApproved? ==> Fresh(b, c, t, now)
    ensures PayoutsAgree(After(b, Commit(b, t, a, now)))
  {
    var b' := After(b, Commit(b, t, a, now));
    forall i | 0 <= i < |b'.intents| ensures PayoutsIn(b', i, {PayoutStatus.Paid}) == AccountOf(b'.ledger, i).paidOut {
      if i < |b.intents| {
        AccountDelta(b, t, a, now, i);
        PaidMoves(b, t, a, now, i);
      } else {
        FreshIntents(b, t, a, now, i);
        NewIntentHasNothing(b, i);
      }
    }
  }

  // ----- confirmed amounts -----

  lemma ChargePostedElsewhere(l: seq<Entry>, es: seq<Entry>, t: nat)
    requires Unposted(es, t)
    ensures ChargePosted(l + es, t) == ChargePosted(l, t)
  {
    PostingsElsewhere(l, es, t);
    assert PostingsOf(l + es, t).charges == PostingsOf(l, t).charges;
  }

  lemma ConfirmedAfterApply(b: Books, t: nat, row: Txn, g: GatewayStatus, now: nat)
    requires Linked(b) && t < |b.txns| && row.requested == b.txns[t].requested
    requires b.txns[t].kind.Charge? && !g.Succeeded? ==>
               row.confirmed == if ChargePosted(b.ledger, t) then Some(row.requested) else None
    requires forall s :: 0 <= s < |b.txns| && s != t && b.txns[s].kind.Charge? ==>
               b.txns[s].confirmed == if ChargePosted(b.ledger, s) then Some(b.txns[s].requested) else None
    ensures ConfirmedAgree(Apply(b, t, row, g, now))
  {
    var b' := Apply(b, t, row, g, now);
    var intent := b.intents[b.txns[t].intent];
    var es := b'.ledger[|b.ledger|..];
    assert b'.ledger == b.ledger + es;
    if g.Succeeded? && !ChargePosted(b.ledger, t) {
      SumNonNegative(Posts(t, CustomerCharge, CustomerExternal), b.ledger, |b.ledger|);
      TallyAppend(Posts(t, CustomerCharge, CustomerExternal), b.ledger, es);
      ChargePostings(intent.job, b.txns[t].intent, t, intent.amount, intent.fee, intent.net);
      assert PostingsOf(es, t).charges == 1;
      assert ChargePosted(b'.ledger, t);
    } else {
      assert b'.ledger == b.ledger;
    }
    forall s | 0 <= s < |b.txns| && s != t ensures ChargePosted(b'.ledger, s) == ChargePosted(b.ledger, s) {
      ChargePostedElsewhere(b.ledger, es, s);
    }
  }

  /** Only applying an answer to a stale copy of the transaction breaks the agreement of confirmed amounts. */
  lemma ConfirmedAgreeKept(b: Books, c: Config, t: Ticket, a: Answer, now: nat)
    requires Linked(b) && TicketOk(b, t) && ConfirmedAgree(b)
    requires t.ApplyAnswer? ==> Fresh(b, c, t, now)
    ensures ConfirmedAgree(After(b, Commit(b, t, a, now)))
  {
    match t
    case ChargeIntent(i, key) => ConfirmedAfterCharge(b, t, a, now);
    case Deliver(x, g, _) => ConfirmedAfterApply(b, x, b.txns[x], g, now);
    case ApplyAnswer(x, row) => ConfirmedAfterApply(b, x, row, a.status, now);
    case SettleRefund(_, _) => ConfirmedAfterSettlement(b, t, a, now);
    case SettlePayout(_, _) => ConfirmedAfterSettlement(b, t, a, now);
    case ReleaseHeld(i) =>
      var es := PostedBy(b, t, a, now);
      forall s | 0 <= s < |b.txns| ensures ChargePosted(b.ledger + es, s) == ChargePosted(b.ledger, s) {
        ChargePostedElsewhere(b.ledger, es, s);
      }
    case _ => RowDelta(b, t, a, now, 0);
  }

  lemma NothingCharged(b: Books, t: nat)
    requires Linked(b) && t >= |b.txns|
    ensures !ChargePosted(b.ledger, t)
  {
    NothingPosted(b.ledger, t);
    assert PostingsOf(b.ledger, t).charges == 0;
  }

  lemma ConfirmedAfterCharge(b: Books, t: Ticket, a: Answer, now: nat)
    requires Linked(b) && t.ChargeIntent? && TicketOk(b, t) && ConfirmedAgree(b)
    ensures ConfirmedAgree(After(b, Commit(b, t, a, now)))
  {
    var intent := b.intents[t.intent];
    if Insertable(b.txns, t.key, intent.gateway, a.reference) {
      var row := Txn(t.intent, Charge, TxnStatusOf(a.status), intent.gateway, a.reference, t.key, intent.amount,
                     ConfirmedFor(a.status, intent.amount));
      NothingCharged(b, |b.txns|);
      ConfirmedAfterApply(b.(txns := b.txns + [row]), |b.txns|, row, a.status, now);
    }
  }

  /** A settlement adds one row, which is no charge, and posts under that row only. */
  lemma SettlementRows(b: Books, t: Ticket, a: Answer, now: nat)
    requires Linked(b) && (t.SettleRefund? || t.SettlePayout?) && TicketOk(b, t)
    ensures var b' := After(b, Commit(b, t, a, now));
            && (b'.txns == b.txns || (b'.txns[..|b'.txns| - 1] == b.txns && !b'.txns[|b.txns|].kind.Charge?))
            && (forall k :: 0 <= k < |PostedBy(b, t, a, now)| ==> PostedBy(b, t, a, now)[k].txn == Some(|b.txns|))
  {
    hide Net;
    hide Insertable;
    hide FindKey;
    hide FindReference;
  }

  lemma ConfirmedAfterSettlement(b: Books, t: Ticket, a: Answer, now: nat)
    requires Linked(b) && (t.SettleRefund? || t.SettlePayout?) && TicketOk(b, t) && ConfirmedAgree(b)
    ensures ConfirmedAgree(After(b, Commit(b, t, a, now)))
  {
    var b' := After(b, Commit(b, t, a, now));
    var es := PostedBy(b, t, a, now);
    SettlementRows(b, t, a, now);
    CommitGrows(b, t, a, now);
    hide Commit;
    hide ChargePosted;
    assert b'.ledger == b.ledger + es;
    forall s | 0 <= s < |b.txns|
      ensures ChargePosted(b'.ledger, s) == ChargePosted(b.ledger, s) && b'.txns[s] == b.txns[s]
    {
      ChargePostedElsewhere(b.ledger, es, s);
    }
  }
}
