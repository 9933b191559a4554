/** What a whole run of the payment service guarantees, stated outright. */
module Guarantees {
  import opened Common
  import opened Policy
  import opened Ledger
  import opened Payments
  import opened Safety
  import opened Agreement
  import opened ReleaseDelay
  import opened Runs

  lemma InitialIsSafe(c: Config, split: set<Kind>)
    ensures Safe(INITIAL, c, split)
  {
  }

  lemma FromStartIsSafe(c: Config, split: set<Kind>, steps: seq<Step>)
    requires ValidConfig(c)
    ensures Safe(FromStart(c, split, steps), c, split)
  {
    hide Run;
    hide Base;
    InitialIsSafe(c, split);
    RunIsSafe(INITIAL, c, split, steps);
  }

  /**
   * Ledger safety: in any interleaving, with any gateway answers, each intent's five balances sum to
   * zero, none but the customer's is negative, and refunds and payouts together never exceed charges.
   */
  lemma LedgerSafety(c: Config, split: set<Kind>, steps: seq<Step>, i: nat)
    requires ValidConfig(c) && i < |FromStart(c, split, steps).books.intents|
    ensures var l := FromStart(c, split, steps).books.ledger;
            && Net(l, i, CustomerExternal) + Net(l, i, PlatformReserved) + Net(l, i, ProviderHeld)
               + Net(l, i, ProviderAvailable) + Net(l, i, ProviderPaidOut) == 0
            && Net(l, i, PlatformReserved) >= 0 && Net(l, i, ProviderHeld) >= 0
            && Net(l, i, ProviderAvailable) >= 0 && Net(l, i, ProviderPaidOut) >= 0
            && Tally(KindTotal(i, CustomerRefund), l) + Net(l, i, ProviderPaidOut)
               <= Tally(KindTotal(i, CustomerCharge), l)
  {
    var b := FromStart(c, split, steps).books;
    assert AccountOk(AccountOf(b.ledger, i), b.intents[i]);
  }

  /** A ledger entry by which a payout reaches the provider, or a refund the customer. */
  predicate IsPayout(e: Entry) { e.kind.ProviderPayout? && e.bucket.ProviderPaidOut? }
  predicate IsRefund(e: Entry) { e.kind.CustomerRefund? && e.bucket.CustomerExternal? }

  lemma PayoutEntry(b: Books, k: nat)
    requires Base(b) && k < |b.ledger| && IsPayout(b.ledger[k])
    ensures var e := b.ledger[k];
            && e.txn.Some? && e.txn.value < |b.txns| && b.txns[e.txn.value].key.PayoutKey?
            && PostingsOf(b.ledger, e.txn.value).payouts == 1 && PostingsOf(b.ledger, e.txn.value).refunds <= 1
            && b.txns[e.txn.value].key.payout < |b.payouts|
            && b.payouts[b.txns[e.txn.value].key.payout].intent == e.intent
            && e.amount == b.payouts[b.txns[e.txn.value].key.payout].amount
  {
    var t := b.ledger[k].txn.value;
    assert PostingOk(PostingsOf(b.ledger, t), b.txns[t], b.intents, b.refunds, b.payouts);
    SumOne(Posts(t, ProviderPayout, ProviderPaidOut), b.ledger, |b.ledger|, k);
    OnlyEntry(t, ProviderPayout, ProviderPaidOut, b.ledger, |b.ledger|, k);
  }

  lemma RefundEntry(b: Books, k: nat)
    requires Base(b) && k < |b.ledger| && IsRefund(b.ledger[k])
    ensures var e := b.ledger[k];
            && e.txn.Some? && e.txn.value < |b.txns| && b.txns[e.txn.value].key.RefundKey?
            && PostingsOf(b.ledger, e.txn.value).refunds == 1
            && b.txns[e.txn.value].key.refund < |b.refunds|
            && b.refunds[b.txns[e.txn.value].key.refund].intent == e.intent
            && e.amount == b.refunds[b.txns[e.txn.value].key.refund].amount
  {
    var t := b.ledger[k].txn.value;
    assert PostingOk(PostingsOf(b.ledger, t), b.txns[t], b.intents, b.refunds, b.payouts);
    SumOne(Posts(t, CustomerRefund, CustomerExternal), b.ledger, |b.ledger|, k);
    OnlyEntry(t, CustomerRefund, CustomerExternal, b.ledger, |b.ledger|, k);
  }

  /** The payout that an entry pays, and the refund that an entry settles: named by its idempotency key. */
  function PayoutOf(b: Books, k: nat): nat
    requires Base(b) && k < |b.ledger| && IsPayout(b.ledger[k])
  {
    PayoutEntry(b, k);
    b.txns[b.ledger[k].txn.value].key.payout
  }

  function RefundOf(b: Books, k: nat): nat
    requires Base(b) && k < |b.ledger| && IsRefund(b.ledger[k])
  {
    RefundEntry(b, k);
    b.txns[b.ledger[k].txn.value].key.refund
  }

  lemma DistinctPayouts(b: Books, j: nat, k: nat)
    requires Base(b) && j < k < |b.ledger| && IsPayout(b.ledger[j]) && IsPayout(b.ledger[k])
    ensures PayoutOf(b, j) != PayoutOf(b, k)
  {
    PayoutEntry(b, j);
    PayoutEntry(b, k);
    var s, t := b.ledger[j].txn.value, b.ledger[k].txn.value;
    if s == t {
      SumTwo(Posts(s, ProviderPayout, ProviderPaidOut), b.ledger, |b.ledger|, j, k);
    }
  }

  lemma DistinctRefunds(b: Books, j: nat, k: nat)
    requires Base(b) && j < k < |b.ledger| && IsRefund(b.ledger[j]) && IsRefund(b.ledger[k])
    ensures RefundOf(b, j) != RefundOf(b, k)
  {
    RefundEntry(b, j);
    RefundEntry(b, k);
    var s, t := b.ledger[j].txn.value, b.ledger[k].txn.value;
    if s == t {
      SumTwo(Posts(s, CustomerRefund, CustomerExternal), b.ledger, |b.ledger|, j, k);
    }
  }

  /** The entry is of the payout row's intent and amount. */
  predicate PaysRow(b: Books, k: nat)
    requires Base(b) && k < |b.ledger| && IsPayout(b.ledger[k])
  {
    var p, e := PayoutOf(b, k), b.ledger[k];
    p < |b.payouts| && b.payouts[p].intent == e.intent && b.payouts[p].amount == e.amount
  }

  predicate RefundsRow(b: Books, k: nat)
    requires Base(b) && k < |b.ledger| && IsRefund(b.ledger[k])
  {
    var r, e := RefundOf(b, k), b.ledger[k];
    r < |b.refunds| && b.refunds[r].intent == e.intent && b.refunds[r].amount == e.amount
  }

  /**
   * At most once: in any interleaving of any number of workers, no payout and no refund reaches the
   * ledger twice, and each entry that does is of an existing row's intent and amount.
   */
  lemma PostedAtMostOnce(c: Config, split: set<Kind>, steps: seq<Step>, k: nat)
    requires ValidConfig(c) && k < |FromStart(c, split, steps).books.ledger|
    ensures var b := FromStart(c, split, steps).books;
            && (IsPayout(b.ledger[k]) ==>
                  PaysRow(b, k) && forall j :: 0 <= j < k && IsPayout(b.ledger[j]) ==> PayoutOf(b, j) != PayoutOf(b, k))
            && (IsRefund(b.ledger[k]) ==>
                  RefundsRow(b, k)
                  && forall j :: 0 <= j < k && IsRefund(b.ledger[j]) ==> RefundOf(b, j) != RefundOf(b, k))
  {
    hide Base;
    hide Run;
    var b := FromStart(c, split, steps).books;
    if IsPayout(b.ledger[k]) {
      PayoutEntry(b, k);
      forall j | 0 <= j < k && IsPayout(b.ledger[j]) ensures PayoutOf(b, j) != PayoutOf(b, k) {
        DistinctPayouts(b, j, k);
      }
    }
    if IsRefund(b.ledger[k]) {
      RefundEntry(b, k);
      forall j | 0 <= j < k && IsRefund(b.ledger[j]) ensures RefundOf(b, j) != RefundOf(b, k) {
        DistinctRefunds(b, j, k);
      }
    }
  }

  /**
   * No unpaid execution: an accepted, running or completed job has its charge on the ledger and its contact
   * unlocked.
   */
  lemma NoUnpaidExecution(c: Config, split: set<Kind>, steps: seq<Step>, j: nat)
    requires ValidConfig(c) && j < |FromStart(c, split, steps).books.jobs|
    ensures var b := FromStart(c, split, steps).books;
            b.jobs[j].status in EXECUTION ==>
              && b.jobs[j].contactUnlockedAt.Some?
              && exists k :: 0 <= k < |b.ledger| && b.ledger[k].kind == CustomerCharge && b.ledger[k].job == j
  {
    var b := FromStart(c, split, steps).books;
    if b.jobs[j].status in EXECUTION {
      assert Unlocked(b.jobs, b.ledger, j);
      var k :| 0 <= k < |b.ledger| && IsCharge(b.ledger[k], j);
      assert b.ledger[k].kind == CustomerCharge && b.ledger[k].job == j;
    }
  }

  /** The ledger is append-only along every run. */
  lemma {:induction false} LedgerOnlyGrows(c: Config, split: set<Kind>, steps: seq<Step>, n: nat)
    requires ValidConfig(c) && n <= |steps|
    ensures FromStart(c, split, steps[..n]).books.ledger <= FromStart(c, split, steps).books.ledger
    decreases |steps|
  {
    hide Next;
    hide Base;
    if n < |steps| {
      var front := steps[..|steps| - 1];
      LedgerOnlyGrows(c, split, front, n);
      assert front[..n] == steps[..n];
    } else {
      assert steps[..n] == steps;
    }
  }

  /**
   * No early money: while job updates run whole, everything else may interleave, and money is available
   * or paid out only for jobs completed at least the release delay ago.
   */
  lemma NoMoneyBeforeTheDelay(c: Config, split: set<Kind>, steps: seq<Step>, k: nat)
    requires ValidConfig(c) && JobWrite !in split
    requires var l := FromStart(c, split, steps).books.ledger;
             k < |l| && (l[k].bucket == ProviderAvailable || l[k].bucket == ProviderPaidOut)
    ensures var s := FromStart(c, split, steps);
            var job := s.books.jobs[s.books.intents[s.books.ledger[k].intent].job];
            job.status == JobStatus.Completed && job.completedAt.Some?
                && job.completedAt.value + c.releaseDelay <= s.clock
  {
    hide Run;
    hide Base;
    var s := FromStart(c, split, steps);
    FromStartIsSafe(c, split, steps);
    BaseGives(s.books);
    assert Matured(s.books, c, s.books.ledger[k].intent, s.clock);
  }

  /**
   * Status tables agree with the ledger: refunds while refund closings run whole, payouts while payout
   * approvals do. The cap on refunds needs nothing else on an intent charged once; on one charged more
   * often, settlements must run whole too.
   */
  lemma StatusTablesAgree(c: Config, split: set<Kind>, steps: seq<Step>, i: nat)
    requires ValidConfig(c) && i < |FromStart(c, split, steps).books.intents|
    ensures var b := FromStart(c, split, steps).books;
            && (RefundClosing !in split ==> Refunded(b, i) == Tally(KindTotal(i, CustomerRefund), b.ledger))
            && (RefundClosing !in split
                && (RefundSettling !in split || Tally(KindCount(i, CustomerCharge), b.ledger) <= 1) ==>
                  Refunded(b, i) <= b.intents[i].amount)
            && (PayoutApproval !in split ==> PayoutsIn(b, i, {PayoutStatus.Paid}) == Net(b.ledger, i, ProviderPaidOut))
  {
    hide Run;
    hide Base;
    var s := FromStart(c, split, steps);
    FromStartIsSafe(c, split, steps);
    BaseGives(s.books);
    AccountAt(s.books, i);
    RefundedWithinCharged(AccountOf(s.books.ledger, i), s.books.intents[i]);
    assert AccountOf(s.books.ledger, i).refunded == Tally(KindTotal(i, CustomerRefund), s.books.ledger);
    assert AccountOf(s.books.ledger, i).paidOut == Net(s.books.ledger, i, ProviderPaidOut);
  }

  lemma RefundedWithinCharged(x: Account, row: Intent)
    requires AccountOk(x, row)
    ensures x.charges <= 1 ==> x.refunded <= row.amount
  {
    if x.charges == 1 {
      assert x.charges * row.amount == row.amount;
    }
  }

  /** A charge is confirmed in full exactly when it is on the ledger, while reconciliations run whole. */
  lemma ConfirmedMeansCharged(c: Config, split: set<Kind>, steps: seq<Step>, t: nat)
    requires ValidConfig(c) && Reconciliation !in split
    requires var b := FromStart(c, split, steps).books; t < |b.txns| && b.txns[t].kind == Charge
    ensures var b := FromStart(c, split, steps).books;
            b.txns[t].confirmed == if ChargePosted(b.ledger, t) then Some(b.txns[t].requested) else None
  {
    hide Run;
    hide Base;
    var s := FromStart(c, split, steps);
    FromStartIsSafe(c, split, steps);
    BaseGives(s.books);
  }

  /**
   * Rounding: in any interleaving, twice the amount times the platform's reserve differs from the exact
   * proportional value by at most the amount for each refund booked, that is by half a unit per refund.
   */
  lemma RoundingStaysWithinHalfAUnit(c: Config, split: set<Kind>, steps: seq<Step>, i: nat)
    requires ValidConfig(c) && i < |FromStart(c, split, steps).books.intents|
    ensures var b := FromStart(c, split, steps).books;
            var row := b.intents[i];
            var charged, refunded := Tally(KindTotal(i, CustomerCharge), b.ledger),
                Tally(KindTotal(i, CustomerRefund), b.ledger);
            var refunds := Tally(KindCount(i, CustomerRefund), b.ledger);
            -(refunds * row.amount)
            <= 2 * (row.amount * Net(b.ledger, i, PlatformReserved) - row.fee * (charged - refunded))
            <= refunds * row.amount
  {
    hide Base;
    hide Run;
    hide Tally;
    hide AccountOk;
    var b := FromStart(c, split, steps).books;
    AccountAt(b, i);
    var x := AccountOf(b.ledger, i);
    DriftStated(x, b.intents[i]);
    assert x.charged == Tally(KindTotal(i, CustomerCharge), b.ledger);
  }

  lemma AccountAt(b: Books, i: nat)
    requires Base(b) && i < |b.intents|
    ensures AccountOk(AccountOf(b.ledger, i), b.intents[i])
  {
  }

  lemma DriftStated(x: Account, row: Intent)
    requires AccountOk(x, row)
    ensures -(x.refunds * row.amount)
         <= 2 * (row.amount * x.reserved - row.fee * (x.charged - x.refunded))
         <= x.refunds * row.amount
  {
  }

  /** With nothing refunded or paid out, every booked charge still lies whole in its two parts. */
  lemma UntouchedCharge(b: Books, i: nat)
    requires Base(b) && i < |b.intents|
    requires AccountOf(b.ledger, i).refunds == 0 && AccountOf(b.ledger, i).refunded == 0
             && AccountOf(b.ledger, i).paidOut == 0
    ensures var x := AccountOf(b.ledger, i);
            && x.reserved == x.charges * b.intents[i].fee
            && x.held + x.available == x.charges * b.intents[i].net
  {
    hide Base;
    hide AccountOf;
    BaseGives(b);
    AccountAt(b, i);
    UntouchedArithmetic(AccountOf(b.ledger, i), b.intents[i]);
  }

  lemma UntouchedArithmetic(x: Account, row: Intent)
    requires AccountOk(x, row) && row.amount >= 1 && row.fee + row.net == row.amount
    requires x.refunds == x.refunded == x.paidOut == 0
    ensures x.reserved == x.charges * row.fee && x.held + x.available == x.charges * row.net
  {
    assert row.amount * x.reserved == row.fee * (x.charges * row.amount) == row.amount * (x.charges * row.fee);
    CancelFactor(row.amount, x.reserved, x.charges * row.fee);
    assert x.charges * row.amount == x.charges * row.fee + x.charges * row.net;
  }

  lemma CancelFactor(a: int, x: int, y: int)
    requires a >= 1 && a * x == a * y
    ensures x == y
  {
    assert a * (x - y) == 0;
  }

  /**
   * The first refund on a charged intent always settles, whatever its size: both balance checks pass.
   * (A later one may not: see Scenarios.AcceptedRefundCannotSettle.)
   */
  lemma FirstRefundSettles(b: Books, r: nat, part: nat, a: Answer)
    requires Base(b) && TicketOk(b, SettleRefund(r, part)) && b.refunds[r].status == RefundStatus.Pending
    requires var i := b.refunds[r].intent; var x := AccountOf(b.ledger, i);
             x.charges >= 1 && x.refunds == 0 && x.refunded == 0 && x.paidOut == 0
                 && b.refunds[r].amount <= b.intents[i].amount
    ensures CommitRefund(b, r, part, a).Ok?
       <==> Insertable(b.txns, RefundKey(r), b.intents[b.refunds[r].intent].gateway, a.reference)
  {
    hide Base;
    BaseGives(b);
    var i := b.refunds[r].intent;
    FirstRefundFits(b, i, b.refunds[r].amount);
    assert Net(b.ledger, i, PlatformReserved) == AccountOf(b.ledger, i).reserved;
  }

  /**
   * Any later refund settles exactly when the platform's reserve covers its part and leaves the provider
   * enough of what was charged and neither refunded nor paid out.
   */
  lemma RefundSettlesIff(b: Books, r: nat, part: nat, a: Answer)
    requires Base(b) && TicketOk(b, SettleRefund(r, part)) && b.refunds[r].status == RefundStatus.Pending
             && a.status.Succeeded?
    requires Insertable(b.txns, RefundKey(r), b.intents[b.refunds[r].intent].gateway, a.reference)
    ensures var x := AccountOf(b.ledger, b.refunds[r].intent);
            CommitRefund(b, r, part, a).Ok?
            <==> part <= x.reserved <= x.charged - x.refunded - x.paidOut - (b.refunds[r].amount - part)
  {
    hide Insertable;
    AccountAt(b, b.refunds[r].intent);
  }

  lemma FirstRefundFits(b: Books, i: nat, amount: nat)
    requires Base(b) && i < |b.intents| && amount <= b.intents[i].amount && b.intents[i].fee <= b.intents[i].amount
    requires var x := AccountOf(b.ledger, i); x.charges >= 1 && x.refunds == 0 && x.refunded == 0 && x.paidOut == 0
    ensures var part := RefundShare(amount, b.intents[i].fee, b.intents[i].amount);
            && part <= Net(b.ledger, i, PlatformReserved)
            && amount - part <= Net(b.ledger, i, ProviderHeld) + Net(b.ledger, i, ProviderAvailable)
  {
    hide Base;
    var x, row := AccountOf(b.ledger, i), b.intents[i];
    UntouchedCharge(b, i);
    BaseGives(b);
    PartialRefundShare(amount, row.fee, row.amount);
    AtLeastOnce(x.charges, row.fee);
    AtLeastOnce(x.charges, row.net);
  }

  lemma AtLeastOnce(n: int, x: nat)
    ensures n >= 1 ==> n * x >= x
  {
  }

  /** A first refund of the whole amount returns exactly the recorded fee and net of one charge. */
  lemma FullRefundReturnsEverything(b: Books, r: nat, part: nat, a: Answer)
    requires Base(b) && TicketOk(b, SettleRefund(r, part)) && a.status.Succeeded? && CommitRefund(b, r, part, a).Ok?
    requires var i := b.refunds[r].intent; var x := AccountOf(b.ledger, i);
             x.charges == 1 && x.refunds == 0 && x.refunded == 0 && x.paidOut == 0
                 && b.refunds[r].amount == b.intents[i].amount
    ensures var y := AccountOf(CommitRefund(b, r, part, a).value.ledger, b.refunds[r].intent);
            part == b.intents[b.refunds[r].intent].fee
            && y.reserved == y.held == y.available == y.paidOut == y.external == 0
  {
    var i := b.refunds[r].intent;
    var row := b.intents[i];
    UntouchedCharge(b, i);
    FullRefundShare(row.fee, row.amount);
    assert AccountOk(AccountOf(b.ledger, i), row);
    var rows, heldDebit, availableDebit := RefundParts(b, r, part, a);
    RefundAccount(row.job, i, |b.txns|, row.amount, part, heldDebit, availableDebit);
    AccountAppend(b.ledger, RefundEntries(row.job, i, |b.txns|, row.amount, part, heldDebit, availableDebit), i);
  }

  // ----- the reservation of payouts along runs -----

  /** If the refund with this row and platform part goes through, it spares the waiting payouts. */
  predicate SparesIfBooked(b: Books, r: nat, part: nat, a: Answer)
    requires Linked(b) && r < |b.refunds|
  {
    RefundGoesThrough(b, r, part, a) ==> Spares(b, r, part)
  }

  /** So does the refund that a step settles, if the step settles one. */
  ghost predicate SparesIn(s: System, c: Config, step: Step)
    requires ValidConfig(c) && Good(s)
  {
    match step
    case Finish(w, a, _) =>
      w < |s.pending| && s.pending[w].SettleRefund? ==>
        SparesIfBooked(s.books, s.pending[w].refund, s.pending[w].platformPart, a)
    case Whole(call, a, wait) =>
      call.ProcessRefund? && BeginProcessRefund(s.books, call.refund).Ready? ==>
        SparesIfBooked(s.books, call.refund, PlatformPart(s.books, call.refund), a)
    case _ => true
  }

  ghost predicate AlwaysSpares(c: Config, split: set<Kind>, steps: seq<Step>)
    requires ValidConfig(c)
  {
    steps == []
    || (AlwaysSpares(c, split, steps[..|steps| - 1])
        && SparesIn(FromStart(c, split, steps[..|steps| - 1]), c, steps[|steps| - 1]))
  }

  /** The reservation holds after every step of the run. */
  ghost predicate AlwaysReserved(c: Config, split: set<Kind>, steps: seq<Step>)
    requires ValidConfig(c)
  {
    Reserved(FromStart(c, split, steps).books) && (steps == [] || AlwaysReserved(c, split, steps[..|steps| - 1]))
  }

  lemma CommitReservesIff(b: Books, c: Config, t: Ticket, a: Answer, now: nat)
    requires Base(b) && Sound(b, t) && Reserved(b)
    requires t.InsertPayout? || t.MarkApproved? ==> Fresh(b, c, t, now)
    ensures Reserved(After(b, Commit(b, t, a, now)))
       <==> (t.SettleRefund? ==> SparesIfBooked(b, t.refund, t.platformPart, a))
  {
    if t.SettleRefund? {
      RefundReservesIff(b, t.refund, t.platformPart, a);
    } else {
      ReservedKept(b, c, t, a, now);
    }
  }

  lemma PerformReservesIff(b: Books, c: Config, call: Call, a: Answer, now: nat)
    requires ValidConfig(c) && ValidCall(call) && Base(b) && Reserved(b)
    ensures Linked(b) && SplitsOk(b.intents)
    ensures Reserved(Perform(b, c, call, a, now))
       <==> (call.ProcessRefund? && BeginProcessRefund(b, call.refund).Ready? ==>
               SparesIfBooked(b, call.refund, PlatformPart(b, call.refund), a))
  {
    BaseGives(b);
    hide Base;
    hide Begin;
    hide Commit;
    hide SparesIfBooked;
    var start := Begin(b, c, call, now);
    SettlesARefund(b, c, call, now);
    if !start.Refused? {
      BeginIsSound(b, c, call, now);
      EventsGrow(b, c, call, now);
      assert Reserved(start.books);
      if start.Ready? {
        BeginIsFresh(b, c, call, now);
        CommitReservesIff(start.books, c, start.ticket, a, now);
      }
    }
  }

  /** Settling a refund is what processing one comes to, and nothing else does. */
  lemma SettlesARefund(b: Books, c: Config, call: Call, now: nat)
    requires ValidConfig(c) && ValidCall(call) && Linked(b) && SplitsOk(b.intents)
    ensures call.ProcessRefund? ==> Begin(b, c, call, now) == BeginProcessRefund(b, call.refund)
    ensures call.ProcessRefund? && BeginProcessRefund(b, call.refund).Ready? ==>
              BeginProcessRefund(b, call.refund) == Ready(b, SettleRefund(call.refund, PlatformPart(b, call.refund)))
    ensures call.ProcessRefund? ==> !Begin(b, c, call, now).Settled?
    ensures Begin(b, c, call, now).Ready? && !call.ProcessRefund? ==> !Begin(b, c, call, now).ticket.SettleRefund?
  {
  }

  /** One step of a run keeps the reservation exactly when the refund it settles, if any, spares the waiting payouts. */
  lemma StepReservesIff(s: System, c: Config, split: set<Kind>, step: Step)
    requires ValidConfig(c) && Good(s) && PendingOk(s, c, split) && Reserved(s.books)
    requires PayoutCreation !in split && PayoutApproval !in split
    ensures Reserved(Next(s, c, split, step).books) <==> SparesIn(s, c, step)
  {
    hide Begin;
    hide Commit;
    hide Base;
    hide Reserved;
    BaseGives(s.books);
    match step
    case Enter(call, wait) => EnterReserves(s, c, split, step);
    case Finish(w, a, wait) =>
      if w < |s.pending| {
        CommitReservesIff(s.books, c, s.pending[w], a, s.clock + wait);
      }
    case Whole(call, a, wait) =>
      if ValidCall(call) {
        PerformReservesIff(s.books, c, call, a, s.clock + wait);
      }
    case Drop(_) =>
  }

  lemma EnterReserves(s: System, c: Config, split: set<Kind>, step: Step)
    requires ValidConfig(c) && Good(s) && Reserved(s.books) && step.Enter?
    ensures Reserved(Next(s, c, split, step).books)
  {
    hide Begin;
    hide Base;
    BaseGives(s.books);
    if ValidCall(step.call) && !Begin(s.books, c, step.call, s.clock + step.wait).Refused? {
      EventsGrow(s.books, c, step.call, s.clock + step.wait);
    }
  }

  lemma NothingReserved()
    ensures Reserved(EMPTY_BOOKS)
  {
  }

  /**
   * Reservation: while payouts are created and approved whole, everything else interleaves, and the waiting
   * payouts of every intent stay within its available balance along a run exactly when each refund the run
   * books leaves them their money; the guard reads the tables before the refund.
   */
  lemma {:induction false} ReservationIff(c: Config, split: set<Kind>, steps: seq<Step>)
    requires ValidConfig(c) && PayoutCreation !in split && PayoutApproval !in split
    ensures AlwaysReserved(c, split, steps) <==> AlwaysSpares(c, split, steps)
  {
    hide Next;
    hide Base;
    hide Reserved;
    hide SparesIn;
    if steps == [] {
      NothingReserved();
    } else {
      var front := steps[..|steps| - 1];
      var s := FromStart(c, split, front);
      ReservationIff(c, split, front);
      FromStartIsSafe(c, split, front);
      if Reserved(s.books) {
        StepReservesIff(s, c, split, steps[|steps| - 1]);
      }
    }
  }

  lemma ReservedNow(c: Config, split: set<Kind>, steps: seq<Step>)
    requires ValidConfig(c) && AlwaysReserved(c, split, steps)
    ensures Reserved(FromStart(c, split, steps).books)
  {
  }

  /**
   * Approving is enough: in such a run the settlement of an approved payout can fail only because its
   * gateway reference is taken already.
   */
  lemma ApprovedPayoutsSettle(c: Config, split: set<Kind>, steps: seq<Step>, p: nat, reference: Option<string>,
                              a: Answer)
    requires ValidConfig(c) && PayoutCreation !in split && PayoutApproval !in split && AlwaysSpares(c, split, steps)
    requires var b := FromStart(c, split, steps).books;
             p < |b.payouts| && b.payouts[p].status == PayoutStatus.Approved
    ensures var b := FromStart(c, split, steps).books;
            CommitPayout(b, p, reference, a).Ok?
            <==> (FindKey(b.txns, PayoutKey(p)).Some?
                  || FindReference(b.txns, b.payouts[p].gateway, reference.GetOr(a.reference)).None?)
  {
    hide Base;
    hide Run;
    hide Reserved;
    hide CommitPayout;
    var b := FromStart(c, split, steps).books;
    BaseGives(b);
    ReservationIff(c, split, steps);
    ReservedNow(c, split, steps);
    ApprovedPayoutIsCovered(b, p, reference, a);
  }
}
