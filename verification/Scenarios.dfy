/**
 * Runs from empty tables on which the expected properties fail, for every deal: a worker runs its outer
 * phase (`Enter`), others overtake it, and then it runs its transaction (`Finish`). `Staleness` says
 * exactly when such an overtaken write does harm.
 */
module Scenarios {
  import opened Common
  import opened Policy
  import opened Ledger
  import opened Payments
  import opened Safety
  import opened Agreement
  import opened ReleaseDelay
  import opened Runs
  import opened Lifecycle

  // ----- a refund closed late -----

  /** A cancellation checks that the refund is pending; the refund succeeds; the cancellation is written. */
  function CancellationRun(d: Deal): seq<Step> {
    AskRun(d) + [Enter(CancelRefund(0, d.client, false), 0)] + [Whole(ProcessRefund(0), d.second, 0)]
        + [Finish(0, d.third, 0)]
  }

  ghost function CanceledBooks(d: Deal, c: Config): Books
    requires ValidDeal(d, c)
  {
    var b := RefundedBooks(d, c);
    b.(refunds := [b.refunds[0].(status := RefundStatus.Canceled)])
  }

  lemma ReachesCanceled(d: Deal, c: Config)
    requires ValidDeal(d, c)
    ensures FromStart(c, {RefundClosing}, CancellationRun(d)) == System(CanceledBooks(d, c), [], d.at)
  {
    hide Base;
    hide Perform;
    hide FromStart;
    hide AskRun;
    var split, b, t := {RefundClosing}, AskedBooks(d, c), CloseRefund(0, RefundStatus.Canceled);
    ReachesAsked(d, c, split);
    BaseGives(b);
    AddEnter(c, split, AskRun(d), System(b, [], d.at), CancelRefund(0, d.client, false), 0, t);
    var run := AskRun(d) + [Enter(CancelRefund(0, d.client, false), 0)];
    AddWhole(c, split, run, System(b, [t], d.at), ProcessRefund(0), d.second, 0);
    RefundStep(d, c);
    AddFinish(c, split, run + [Whole(ProcessRefund(0), d.second, 0)], System(RefundedBooks(d, c), [t], d.at), 0,
              d.third, 0);
  }

  /** The refund is booked and its request canceled. */
  lemma LateCancellation(d: Deal, c: Config)
    requires ValidDeal(d, c)
    ensures var b := FromStart(c, {RefundClosing}, CancellationRun(d)).books;
            |b.refunds| == 1 && b.refunds[0].status.Canceled?
            && Refunded(b, 0) == 0 < Deposit(d, c).gross == Tally(KindTotal(0, CustomerRefund), b.ledger)
  {
    hide Base;
    hide FromStart;
    ReachesCanceled(d, c);
    RefundedAccount(d, c);
    assert AccountOf(RefundedBooks(d, c).ledger, 0).refunded == Deposit(d, c).gross;
    hide Tally;
    assert RefundedSum(CanceledBooks(d, c).refunds, 0, 0) == 0;
  }

  // ----- a payout approved or created late -----

  /** Two approvals check that the payout is pending; one is written, the payout is paid, the other is written. */
  ghost function ApprovalRun(d: Deal, c: Config): seq<Step>
    requires ValidDeal(d, c)
  {
    ReleaseRun(d, c) + [Whole(Asking(d, c), d.first, 0)] + [Enter(ApprovePayout(0), 0)]
        + [Whole(ApprovePayout(0), d.first, 0)]
    + [Whole(ProcessPayout(0, None), d.second, 0)] + [Finish(0, d.third, 0)]
  }

  ghost function ReapprovedBooks(d: Deal, c: Config): Books
    requires ValidDeal(d, c)
  {
    PaidOutBooks(d, c).(payouts := [Asked(d, c).(status := PayoutStatus.Approved)])
  }

  lemma ReachesReapproved(d: Deal, c: Config)
    requires ValidDeal(d, c) && Deposit(d, c).net >= 1
    ensures FromStart(c, {PayoutApproval}, ApprovalRun(d, c))
            == System(ReapprovedBooks(d, c), [], d.at + c.releaseDelay)
  {
    hide Base;
    hide Perform;
    hide FromStart;
    hide ReleaseRun;
    hide ReleasedBooks;
    var split, later, t := {PayoutApproval}, d.at + c.releaseDelay, MarkApproved(0);
    var b := ReleasedBooks(d, c).(payouts := [Asked(d, c)]);
    ReachesApproved(d, c, split);
    BaseGives(b);
    var run := ReleaseRun(d, c) + [Whole(Asking(d, c), d.first, 0)];
    AddEnter(c, split, run, System(b, [], later), ApprovePayout(0), 0, t);
    run := run + [Enter(ApprovePayout(0), 0)];
    AddWhole(c, split, run, System(b, [t], later), ApprovePayout(0), d.first, 0);
    ApproveStep(d, c, later);
    run := run + [Whole(ApprovePayout(0), d.first, 0)];
    AddWhole(c, split, run, System(ApprovedBooks(d, c), [t], later), ProcessPayout(0, None), d.second, 0);
    PayOutStep(d, c, later);
    run := run + [Whole(ProcessPayout(0, None), d.second, 0)];
    AddFinish(c, split, run, System(PaidOutBooks(d, c), [t], later), 0, d.third, 0);
  }

  /** The payout is booked, approved once more, and waits for money that is gone. */
  lemma LateApproval(d: Deal, c: Config)
    requires ValidDeal(d, c) && Deposit(d, c).net >= 1
    ensures var b := FromStart(c, {PayoutApproval}, ApprovalRun(d, c)).books;
            && |b.payouts| == 1 && b.payouts[0].status.Approved?
            && PayoutsIn(b, 0, {PayoutStatus.Paid}) == 0 < Deposit(d, c).net == Net(b.ledger, 0, ProviderPaidOut)
            && PayoutsIn(b, 0, RESERVING) == Deposit(d, c).net > Net(b.ledger, 0, ProviderAvailable)
  {
    hide Base;
    hide FromStart;
    ReachesReapproved(d, c);
    PaidOutAccount(d, c);
    assert AccountOf(PaidOutBooks(d, c).ledger, 0).paidOut == Deposit(d, c).net;
    assert AccountOf(PaidOutBooks(d, c).ledger, 0).available == 0;
    hide Net;
    var payouts := ReapprovedBooks(d, c).payouts;
    assert PayoutSum(payouts, 0, {PayoutStatus.Paid}, 0) == PayoutSum(payouts, 0, RESERVING, 0) == 0;
  }

  /** Two creations check the same available balance; both are written. */
  ghost function CreationRun(d: Deal, c: Config): seq<Step>
    requires ValidDeal(d, c)
  {
    ReleaseRun(d, c) + [Enter(Asking(d, c), 0)] + [Whole(Asking(d, c), d.first, 0)] + [Finish(0, d.third, 0)]
  }

  ghost function TwiceAskedBooks(d: Deal, c: Config): Books
    requires ValidDeal(d, c)
  {
    ReleasedBooks(d, c).(payouts := [Asked(d, c), Asked(d, c)])
  }

  lemma ReachesTwiceAsked(d: Deal, c: Config)
    requires ValidDeal(d, c) && Deposit(d, c).net >= 1
    ensures FromStart(c, {PayoutCreation}, CreationRun(d, c))
            == System(TwiceAskedBooks(d, c), [], d.at + c.releaseDelay)
  {
    hide Base;
    hide Perform;
    hide FromStart;
    hide ReleaseRun;
    hide ReleasedBooks;
    hide Begin;
    var split, later, t, b := {PayoutCreation}, d.at + c.releaseDelay, InsertPayout(Asked(d, c)), ReleasedBooks(d, c);
    ReachesReleased(d, c, split);
    AskPayoutStep(d, c, later);
    AddEnter(c, split, ReleaseRun(d, c), System(b, [], later), Asking(d, c), 0, t);
    var run := ReleaseRun(d, c) + [Enter(Asking(d, c), 0)];
    AddWhole(c, split, run, System(b, [t], later), Asking(d, c), d.first, 0);
    run := run + [Whole(Asking(d, c), d.first, 0)];
    AddFinish(c, split, run, System(b.(payouts := [Asked(d, c)]), [t], later), 0, d.third, 0);
    assert [Asked(d, c)] + [Asked(d, c)] == [Asked(d, c), Asked(d, c)];
  }

  /** The waiting payouts of the intent come to twice what is available. */
  lemma LateCreation(d: Deal, c: Config)
    requires ValidDeal(d, c) && Deposit(d, c).net >= 1
    ensures var b := FromStart(c, {PayoutCreation}, CreationRun(d, c)).books;
            PayoutsIn(b, 0, RESERVING) == 2 * Net(b.ledger, 0, ProviderAvailable) == 2 * Deposit(d, c).net
  {
    hide Base;
    hide FromStart;
    ReachesTwiceAsked(d, c);
    Accounts(d, c);
    assert AccountOf(ReleasedBooks(d, c).ledger, 0).available == Deposit(d, c).net;
    hide Net;
    var payouts := TwiceAskedBooks(d, c).payouts;
    assert PayoutSum(payouts, 0, RESERVING, 0) == 0;
    assert PayoutSum(payouts, 0, RESERVING, 1) == Deposit(d, c).net;
  }

  // ----- a job written late -----

  function Withdrawal(d: Deal): Call {
    UpdateJob(0, d.client, JobStatus.Canceled, true)
  }

  /**
   * A cancelation checks that the job is in progress; the job completes and is released; the cancelation is
   * written.
   */
  function WithdrawalRun(d: Deal, c: Config): seq<Step> {
    StartRun(d) + [Enter(Withdrawal(d), 0)] + [Moving(d, JobStatus.Completed)]
        + [Whole(ReleaseFunds(0), d.first, c.releaseDelay)]
    + [Finish(0, d.third, 0)]
  }

  ghost function WithdrawnBooks(d: Deal, c: Config): Books
    requires ValidDeal(d, c)
  {
    var b := ReleasedBooks(d, c);
    b.(jobs := [b.jobs[0].(status := JobStatus.Canceled, canceledAt := Some(d.at))])
  }

  lemma WithdrawalEnters(d: Deal, c: Config)
    requires ValidDeal(d, c)
    ensures Linked(StartedBooks(d, c)) && SplitsOk(StartedBooks(d, c).intents)
    ensures Begin(StartedBooks(d, c), c, Withdrawal(d), d.at)
         == Ready(StartedBooks(d, c), WriteJob(0, JobStatus.Canceled, None, None, None, Some(d.at)))
  {
  }

  lemma WithdrawalIsWritten(d: Deal, c: Config)
    requires ValidDeal(d, c)
    ensures CommitJob(ReleasedBooks(d, c), WriteJob(0, JobStatus.Canceled, None, None, None, Some(d.at)))
            == WithdrawnBooks(d, c)
  {
    hide ChargeEntries;
    hide ReleaseEntries;
    hide ComputeDepositSplit;
    var b' := CommitJob(ReleasedBooks(d, c), WriteJob(0, JobStatus.Canceled, None, None, None, Some(d.at)));
    assert b'.intents == ReleasedBooks(d, c).intents;
    assert b'.jobs == WithdrawnBooks(d, c).jobs;
  }

  lemma ReachesWithdrawn(d: Deal, c: Config)
    requires ValidDeal(d, c) && Deposit(d, c).net >= 1
    ensures FromStart(c, {JobWrite}, WithdrawalRun(d, c)) == System(WithdrawnBooks(d, c), [], d.at + c.releaseDelay)
  {
    hide Base;
    hide Perform;
    hide FromStart;
    hide Begin;
    hide CommitJob;
    hide StartRun;
    var split, t := {JobWrite}, WriteJob(0, JobStatus.Canceled, None, None, None, Some(d.at));
    ReachesStarted(d, c, split);
    WithdrawalEnters(d, c);
    AddEnter(c, split, StartRun(d), System(StartedBooks(d, c), [], d.at), Withdrawal(d), 0, t);
    var run := StartRun(d) + [Enter(Withdrawal(d), 0)];
    AddWhole(c, split, run, System(StartedBooks(d, c), [t], d.at), Moving(d, JobStatus.Completed).call, d.first, 0);
    MoveStep(d, c, StartedBooks(d, c), JobStatus.Completed);
    run := run + [Moving(d, JobStatus.Completed)];
    AddWhole(c, split, run, System(DoneBooks(d, c), [t], d.at), ReleaseFunds(0), d.first, c.releaseDelay);
    ReleaseStep(d, c);
    run := run + [Whole(ReleaseFunds(0), d.first, c.releaseDelay)];
    AddFinish(c, split, run, System(ReleasedBooks(d, c), [t], d.at + c.releaseDelay), 0, d.third, 0);
    WithdrawalIsWritten(d, c);
  }

  /** Released money belongs to a canceled job. */
  lemma LateJobCancelation(d: Deal, c: Config)
    requires ValidDeal(d, c) && Deposit(d, c).net >= 1
    ensures var s := FromStart(c, {JobWrite}, WithdrawalRun(d, c));
            && Net(s.books.ledger, 0, ProviderAvailable) == Deposit(d, c).net && |s.books.jobs| == 1
            && s.books.jobs[0].status.Canceled? && Linked(s.books) && !NoEarlyMoney(s.books, c, s.clock)
  {
    hide Base;
    hide FromStart;
    ReachesWithdrawn(d, c);
    Accounts(d, c);
    assert AccountOf(ReleasedBooks(d, c).ledger, 0).available == Deposit(d, c).net;
    var b := WithdrawnBooks(d, c);
    BaseGives(b);
    assert Releasable(b.ledger[4].bucket);
    assert !Matured(b, c, 0, d.at + c.releaseDelay);
  }

  /**
   * Two completions check that the job is in progress, `wait` apart; the first is written, the money
   * released, then the second.
   */
  function CompletionRun(d: Deal, c: Config, wait: nat): seq<Step>
    requires wait <= c.releaseDelay
  {
    StartRun(d) + [Enter(Moving(d, JobStatus.Completed).call, 0)] + [Enter(Moving(d, JobStatus.Completed).call, wait)]
    + [Finish(0, d.first, 0)] + [Whole(ReleaseFunds(0), d.first, c.releaseDelay - wait)] + [Finish(0, d.third, 0)]
  }

  function Completion(at: nat): Ticket {
    WriteJob(0, JobStatus.Completed, None, None, Some(at), None)
  }

  ghost function RedatedBooks(d: Deal, c: Config, wait: nat): Books
    requires ValidDeal(d, c)
  {
    var b := ReleasedBooks(d, c);
    b.(jobs := [b.jobs[0].(completedAt := Some(d.at + wait))])
  }

  lemma CompletionEnters(d: Deal, c: Config, now: nat)
    requires ValidDeal(d, c)
    ensures Linked(StartedBooks(d, c)) && SplitsOk(StartedBooks(d, c).intents)
    ensures Begin(StartedBooks(d, c), c, Moving(d, JobStatus.Completed).call, now)
            == Ready(StartedBooks(d, c), Completion(now))
  {
    assert LastIntent(StartedBooks(d, c).intents, 0, PAID) == Some(0);
  }

  /** A completion of the only job changes its status and date and nothing else. */
  lemma CompletionIsWritten(b: Books, at: nat)
    requires |b.jobs| == 1
    ensures CommitJob(b, Completion(at))
         == b.(jobs := [b.jobs[0].(status := JobStatus.Completed, completedAt := Some(at))])
  {
    var goal := [b.jobs[0].(status := JobStatus.Completed, completedAt := Some(at))];
    assert CommitJob(b, Completion(at)).jobs == goal;
  }

  lemma CompletedBooks(d: Deal, c: Config, wait: nat)
    requires ValidDeal(d, c)
    ensures CommitJob(StartedBooks(d, c), Completion(d.at)) == DoneBooks(d, c)
    ensures CommitJob(ReleasedBooks(d, c), Completion(d.at + wait)) == RedatedBooks(d, c, wait)
  {
    hide CommitJob;
    hide ChargeEntries;
    hide ReleaseEntries;
    hide ComputeDepositSplit;
    CompletionIsWritten(StartedBooks(d, c), d.at);
    CompletionIsWritten(ReleasedBooks(d, c), d.at + wait);
  }

  lemma ReachesRedated(d: Deal, c: Config, wait: nat)
    requires ValidDeal(d, c) && Deposit(d, c).net >= 1 && wait <= c.releaseDelay
    ensures FromStart(c, {JobWrite}, CompletionRun(d, c, wait))
            == System(RedatedBooks(d, c, wait), [], d.at + c.releaseDelay)
  {
    hide Base;
    hide Perform;
    hide FromStart;
    hide Begin;
    hide CommitJob;
    hide StartRun;
    hide StartedBooks;
    hide DoneBooks;
    hide ReleasedBooks;
    hide RedatedBooks;
    var split, b, call := {JobWrite}, StartedBooks(d, c), Moving(d, JobStatus.Completed).call;
    ReachesStarted(d, c, split);
    CompletionEnters(d, c, d.at);
    AddEnter(c, split, StartRun(d), System(b, [], d.at), call, 0, Completion(d.at));
    CompletionEnters(d, c, d.at + wait);
    var run := StartRun(d) + [Enter(call, 0)];
    AddEnter(c, split, run, System(b, [Completion(d.at)], d.at), call, wait, Completion(d.at + wait));
    run := run + [Enter(call, wait)];
    AddFinish(c, split, run, System(b, [Completion(d.at), Completion(d.at + wait)], d.at + wait), 0, d.first, 0);
    CompletedBooks(d, c, wait);
    run := run + [Finish(0, d.first, 0)];
    AddWhole(c, split, run, System(DoneBooks(d, c), [Completion(d.at + wait)], d.at + wait), ReleaseFunds(0), d.first,
             c.releaseDelay - wait);
    ReleaseStep(d, c);
    run := run + [Whole(ReleaseFunds(0), d.first, c.releaseDelay - wait)];
    AddFinish(c, split, run, System(ReleasedBooks(d, c), [Completion(d.at + wait)], d.at + c.releaseDelay), 0, d.third,
              0);
  }

  /** Money is available although the job's completion, now dated later, is younger than the delay. */
  lemma LateCompletion(d: Deal, c: Config, wait: nat)
    requires ValidDeal(d, c) && Deposit(d, c).net >= 1 && 0 < wait <= c.releaseDelay
    ensures var s := FromStart(c, {JobWrite}, CompletionRun(d, c, wait));
            && Net(s.books.ledger, 0, ProviderAvailable) == Deposit(d, c).net && |s.books.jobs| == 1
            && s.books.jobs[0].status.Completed? && Linked(s.books) && !NoEarlyMoney(s.books, c, s.clock)
  {
    hide Base;
    hide FromStart;
    ReachesRedated(d, c, wait);
    Accounts(d, c);
    assert AccountOf(ReleasedBooks(d, c).ledger, 0).available == Deposit(d, c).net;
    var b := RedatedBooks(d, c, wait);
    BaseGives(b);
    assert Releasable(b.ledger[4].bucket);
    assert !Matured(b, c, 0, d.at + c.releaseDelay);
  }

  // ----- an answer applied late -----

  function Unanswered(d: Deal): Answer {
    Answer(GatewayStatus.Pending, d.first.reference)
  }

  function SubmitRun(d: Deal): seq<Step> {
    [Opening(d)] + [Whole(PayIntent(0, d.client, None), Unanswered(d), 0)]
  }

  /** A reconciliation reads the pending charge; another confirms it; the first applies a failure to what it read. */
  function AnswerRun(d: Deal): seq<Step> {
    SubmitRun(d) + [Enter(Reconcile(0), 0)] + [Whole(Reconcile(0), d.first, 0)]
        + [Finish(0, Answer(GatewayStatus.Failed, ""), 0)]
  }

  ghost function SubmittedBooks(d: Deal, c: Config): Books
    requires ValidDeal(d, c)
  {
    var b := SelectedBooks(d, c);
    b.(intents := [b.intents[0].(status := IntentStatus.PendingConfirmation)],
       txns := [Txn(0, Charge, TxnStatus.Processing, d.gateway, d.first.reference, ChargeKey(0, d.at),
                    Deposit(d, c).gross, None)])
  }

  ghost function ErasedBooks(d: Deal, c: Config): Books
    requires ValidDeal(d, c)
  {
    var b := PaidBooks(d, c);
    b.(intents := [b.intents[0].(status := IntentStatus.Failed)],
       txns := [b.txns[0].(status := TxnStatus.Failed, confirmed := None)])
  }

  lemma SubmitStep(d: Deal, c: Config)
    requires ValidDeal(d, c) && Base(SelectedBooks(d, c))
    ensures Perform(SelectedBooks(d, c), c, PayIntent(0, d.client, None), Unanswered(d), d.at) == SubmittedBooks(d, c)
  {
    hide Base;
    var b, goal := SelectedBooks(d, c), SubmittedBooks(d, c);
    BaseGives(b);
    assert Begin(b, c, PayIntent(0, d.client, None), d.at) == Ready(b, ChargeIntent(0, ChargeKey(0, d.at)));
    assert b.txns + [goal.txns[0]] == goal.txns;
    var b' := Apply(b.(txns := goal.txns), 0, goal.txns[0], GatewayStatus.Pending, d.at);
    assert b'.txns == goal.txns && b'.intents == goal.intents;
  }

  lemma ConfirmStep(d: Deal, c: Config)
    requires ValidDeal(d, c) && Base(SubmittedBooks(d, c))
    ensures Perform(SubmittedBooks(d, c), c, Reconcile(0), d.first, d.at) == PaidBooks(d, c)
  {
    hide Base;
    var b, goal := SubmittedBooks(d, c), PaidBooks(d, c);
    BaseGives(b);
    assert !ChargePosted(b.ledger, 0);
    assert b.ledger + goal.ledger == goal.ledger;
    var b' := Apply(b, 0, b.txns[0], GatewayStatus.Succeeded, d.at);
    assert b'.txns == goal.txns && b'.intents == goal.intents && b'.jobs == goal.jobs;
  }

  lemma EraseStep(d: Deal, c: Config)
    requires ValidDeal(d, c) && Linked(PaidBooks(d, c))
    ensures Apply(PaidBooks(d, c), 0, SubmittedBooks(d, c).txns[0], GatewayStatus.Failed, d.at) == ErasedBooks(d, c)
  {
    var b, goal := PaidBooks(d, c), ErasedBooks(d, c);
    var b' := Apply(b, 0, SubmittedBooks(d, c).txns[0], GatewayStatus.Failed, d.at);
    assert b'.txns == goal.txns && b'.intents == goal.intents && b.ledger + [] == b.ledger;
  }

  lemma ReachesSubmitted(d: Deal, c: Config, split: set<Kind>)
    requires ValidDeal(d, c)
    ensures FromStart(c, split, SubmitRun(d)) == System(SubmittedBooks(d, c), [], d.at)
  {
    hide Base;
    hide Perform;
    hide SelectedBooks;
    hide SubmittedBooks;
    FromNothing(c, split);
    AddWhole(c, split, [], INITIAL, Opening(d).call, d.first, d.at);
    OpenStep(d, c);
    assert [] + [Opening(d)] == [Opening(d)];
    AddWhole(c, split, [Opening(d)], System(SelectedBooks(d, c), [], d.at), PayIntent(0, d.client, None),
             Unanswered(d), 0);
    SubmitStep(d, c);
  }

  lemma ReachesErased(d: Deal, c: Config)
    requires ValidDeal(d, c)
    ensures FromStart(c, {Reconciliation}, AnswerRun(d)) == System(ErasedBooks(d, c), [], d.at)
  {
    hide Base;
    hide Perform;
    hide FromStart;
    hide Apply;
    hide SubmitRun;
    var split, b := {Reconciliation}, SubmittedBooks(d, c);
    var t := ApplyAnswer(0, b.txns[0]);
    ReachesSubmitted(d, c, split);
    BaseGives(b);
    AddEnter(c, split, SubmitRun(d), System(b, [], d.at), Reconcile(0), 0, t);
    var run := SubmitRun(d) + [Enter(Reconcile(0), 0)];
    AddWhole(c, split, run, System(b, [t], d.at), Reconcile(0), d.first, 0);
    ConfirmStep(d, c);
    run := run + [Whole(Reconcile(0), d.first, 0)];
    AddFinish(c, split, run, System(PaidBooks(d, c), [t], d.at), 0, Answer(GatewayStatus.Failed, ""), 0);
    EraseStep(d, c);
  }

  /** The charge is booked and its transaction confirms nothing. */
  lemma LateAnswer(d: Deal, c: Config)
    requires ValidDeal(d, c)
    ensures var b := FromStart(c, {Reconciliation}, AnswerRun(d)).books;
            |b.txns| == 1 && b.txns[0].kind.Charge? && b.txns[0].confirmed.None? && ChargePosted(b.ledger, 0)
  {
    hide Base;
    hide FromStart;
    var s := Deposit(d, c);
    ReachesErased(d, c);
    ChargePostings(0, 0, 0, s.gross, s.fee, s.net);
    assert PostingsOf(ErasedBooks(d, c).ledger, 0).charges == 1;
  }

  // ----- a refund settled late -----

  /** A pending intent is paid once more; then both charges are confirmed. */
  function TwiceRun(d: Deal): seq<Step> {
    SubmitRun(d) + [Whole(PayIntent(0, d.client, None), Answer(GatewayStatus.Pending, d.second.reference), 1)]
    + [Whole(Reconcile(0), d.first, 0)] + [Whole(Reconcile(1), d.second, 0)]
  }

  function Claiming(d: Deal): Step {
    Whole(OpenRefund(0, d.client, None), d.first, 0)
  }

  /** Two refunds of the whole amount are opened, both are checked against what remains, and both settle. */
  function SettlementRun(d: Deal): seq<Step> {
    TwiceRun(d) + [Claiming(d)] + [Claiming(d)] + [Enter(ProcessRefund(0), 0)] + [Enter(ProcessRefund(1), 0)]
    + [Finish(0, d.third, 0)] + [Finish(0, d.fourth, 0)]
  }

  ghost function SecondTxn(d: Deal, c: Config): Txn
    requires ValidDeal(d, c)
  {
    Txn(0, Charge, TxnStatus.Processing, d.gateway, d.second.reference, ChargeKey(0, d.at + 1), Deposit(d, c).gross,
        None)
  }

  ghost function ResubmittedBooks(d: Deal, c: Config): Books
    requires ValidDeal(d, c)
  {
    var b := SubmittedBooks(d, c);
    b.(txns := [b.txns[0], SecondTxn(d, c)])
  }

  ghost function OnceChargedBooks(d: Deal, c: Config): Books
    requires ValidDeal(d, c)
  {
    var b, s := ResubmittedBooks(d, c), Deposit(d, c);
    b.(jobs := [b.jobs[0].(contactUnlockedAt := Some(d.at + 1))],
       intents := [b.intents[0].(status := IntentStatus.PaidPartial)],
       txns := [b.txns[0].(status := TxnStatus.Succeeded, confirmed := Some(s.gross)), SecondTxn(d, c)],
       ledger := ChargeEntries(0, 0, 0, s.gross, s.fee, s.net))
  }

  ghost function TwiceChargedBooks(d: Deal, c: Config): Books
    requires ValidDeal(d, c)
  {
    var b, s := OnceChargedBooks(d, c), Deposit(d, c);
    b.(txns := [b.txns[0], b.txns[1].(status := TxnStatus.Succeeded, confirmed := Some(s.gross))],
       ledger := b.ledger + ChargeEntries(0, 0, 1, s.gross, s.fee, s.net))
  }

  ghost function Claim(d: Deal, c: Config): Refund
    requires ValidDeal(d, c)
  {
    Refund(0, 0, d.client, Deposit(d, c).gross, RefundStatus.Pending, None)
  }

  ghost function RefundTxn(d: Deal, c: Config, r: nat, reference: string): Txn
    requires ValidDeal(d, c)
  {
    Txn(0, Refunding, TxnStatus.Succeeded, d.gateway, reference, RefundKey(r), Deposit(d, c).gross,
        Some(Deposit(d, c).gross))
  }

  ghost function OnceSettledBooks(d: Deal, c: Config): Books
    requires ValidDeal(d, c)
  {
    var b, s := TwiceChargedBooks(d, c), Deposit(d, c);
    b.(txns := [b.txns[0], b.txns[1], RefundTxn(d, c, 0, d.third.reference)],
       refunds := [Claim(d, c).(status := RefundStatus.Succeeded, txn := Some(2)), Claim(d, c)],
       ledger := b.ledger + RefundEntries(0, 0, 2, s.gross, s.fee, s.net, 0))
  }

  ghost function TwiceSettledBooks(d: Deal, c: Config): Books
    requires ValidDeal(d, c)
  {
    var b, s := OnceSettledBooks(d, c), Deposit(d, c);
    b.(txns := [b.txns[0], b.txns[1], b.txns[2], RefundTxn(d, c, 1, d.fourth.reference)],
       refunds := [b.refunds[0], Claim(d, c).(status := RefundStatus.Succeeded, txn := Some(3))],
       ledger := b.ledger + RefundEntries(0, 0, 3, s.gross, s.fee, s.net, 0))
  }

  lemma ResubmitStep(d: Deal, c: Config)
    requires ValidDeal(d, c) && Base(SubmittedBooks(d, c))
    ensures Perform(SubmittedBooks(d, c), c, PayIntent(0, d.client, None),
                    Answer(GatewayStatus.Pending, d.second.reference), d.at + 1)
         == ResubmittedBooks(d, c)
  {
    hide Base;
    var b, goal := SubmittedBooks(d, c), ResubmittedBooks(d, c);
    BaseGives(b);
    assert Begin(b, c, PayIntent(0, d.client, None), d.at + 1) == Ready(b, ChargeIntent(0, ChargeKey(0, d.at + 1)));
    assert b.txns[0].key == ChargeKey(0, d.at) && b.txns[0].reference == d.first.reference;
    assert Insertable(b.txns, ChargeKey(0, d.at + 1), d.gateway, d.second.reference);
    assert b.txns + [SecondTxn(d, c)] == goal.txns;
    var b' := Apply(b.(txns := goal.txns), 1, goal.txns[1], GatewayStatus.Pending, d.at + 1);
    assert b'.txns == goal.txns && b'.intents == goal.intents && b.ledger + [] == b.ledger;
  }

  lemma FirstChargeStep(d: Deal, c: Config)
    requires ValidDeal(d, c) && Base(ResubmittedBooks(d, c))
    ensures Perform(ResubmittedBooks(d, c), c, Reconcile(0), d.first, d.at + 1) == OnceChargedBooks(d, c)
  {
    hide Base;
    var b, goal := ResubmittedBooks(d, c), OnceChargedBooks(d, c);
    BaseGives(b);
    assert !ChargePosted(b.ledger, 0);
    assert b.ledger + goal.ledger == goal.ledger;
    var b' := Apply(b, 0, b.txns[0], GatewayStatus.Succeeded, d.at + 1);
    assert b'.txns == goal.txns && b'.intents == goal.intents && b'.jobs == goal.jobs;
  }

  lemma SecondChargeStep(d: Deal, c: Config)
    requires ValidDeal(d, c) && Base(OnceChargedBooks(d, c))
    ensures Perform(OnceChargedBooks(d, c), c, Reconcile(1), d.second, d.at + 1) == TwiceChargedBooks(d, c)
  {
    hide Base;
    var b, goal, s := OnceChargedBooks(d, c), TwiceChargedBooks(d, c), Deposit(d, c);
    BaseGives(b);
    assert !ChargePosted(b.ledger, 1) by {
      ChargeTally(Posts(1, CustomerCharge, CustomerExternal), 0, 0, 0, s.gross, s.fee, s.net);
    }
    hide ChargePosted;
    var b' := Apply(b, 1, b.txns[1], GatewayStatus.Succeeded, d.at + 1);
    assert b'.txns == goal.txns && b'.intents == goal.intents && b'.jobs == goal.jobs && b'.ledger == goal.ledger;
  }

  lemma ReachesTwiceCharged(d: Deal, c: Config, split: set<Kind>)
    requires ValidDeal(d, c)
    ensures FromStart(c, split, TwiceRun(d)) == System(TwiceChargedBooks(d, c), [], d.at + 1)
  {
    hide Base;
    hide Perform;
    hide FromStart;
    hide SubmitRun;
    hide SubmittedBooks;
    hide ResubmittedBooks;
    hide OnceChargedBooks;
    hide TwiceChargedBooks;
    var again := Answer(GatewayStatus.Pending, d.second.reference);
    ReachesSubmitted(d, c, split);
    AddWhole(c, split, SubmitRun(d), System(SubmittedBooks(d, c), [], d.at), PayIntent(0, d.client, None), again, 1);
    ResubmitStep(d, c);
    var run := SubmitRun(d) + [Whole(PayIntent(0, d.client, None), again, 1)];
    AddWhole(c, split, run, System(ResubmittedBooks(d, c), [], d.at + 1), Reconcile(0), d.first, 0);
    FirstChargeStep(d, c);
    AddWhole(c, split, run + [Whole(Reconcile(0), d.first, 0)], System(OnceChargedBooks(d, c), [], d.at + 1),
             Reconcile(1), d.second, 0);
    SecondChargeStep(d, c);
  }

  /** Opening a refund of everything that remains, with only open requests before it. */
  lemma ClaimBegins(d: Deal, c: Config, refunds: seq<Refund>)
    requires ValidDeal(d, c) && (refunds == [] || refunds == [Claim(d, c)])
    ensures var b := TwiceChargedBooks(d, c).(refunds := refunds);
            BeginOpenRefund(b, 0, d.client, None) == Ready(b, InsertRefund(Claim(d, c)))
  {
    hide ChargeEntries;
    hide ComputeDepositSplit;
    var b := TwiceChargedBooks(d, c).(refunds := refunds);
    NothingRefunded(b, |refunds|);
    assert Remaining(b, 0) == b.intents[0].amount;
    hide Remaining;
  }

  lemma ClaimStep(d: Deal, c: Config, refunds: seq<Refund>)
    requires ValidDeal(d, c) && Base(TwiceChargedBooks(d, c).(refunds := refunds))
             && (refunds == [] || refunds == [Claim(d, c)])
    ensures Perform(TwiceChargedBooks(d, c).(refunds := refunds), c, Claiming(d).call, d.first, d.at + 1)
         == TwiceChargedBooks(d, c).(refunds := refunds + [Claim(d, c)])
  {
    hide Base;
    hide TwiceChargedBooks;
    hide BeginOpenRefund;
    BaseGives(TwiceChargedBooks(d, c).(refunds := refunds));
    ClaimBegins(d, c, refunds);
  }

  lemma {:induction false} NothingRefunded(b: Books, n: nat)
    requires n <= |b.refunds| && forall r :: 0 <= r < n ==> b.refunds[r].status.Pending?
    ensures RefundedSum(b.refunds, 0, n) == 0
  {
    if n > 0 {
      NothingRefunded(b, n - 1);
    }
  }

  lemma SettlementEnters(d: Deal, c: Config, r: nat)
    requires ValidDeal(d, c) && r < 2
    ensures var b := TwiceChargedBooks(d, c).(refunds := [Claim(d, c), Claim(d, c)]);
            Linked(b) && SplitsOk(b.intents) && Begin(b, c, ProcessRefund(r), d.at + 1)
                == Ready(b, SettleRefund(r, Deposit(d, c).fee))
  {
    var b := TwiceChargedBooks(d, c).(refunds := [Claim(d, c), Claim(d, c)]);
    NothingRefunded(b, 2);
    FullRefundShare(Deposit(d, c).fee, Deposit(d, c).gross);
  }

  lemma TwiceChargedAccount(d: Deal, c: Config)
    requires ValidDeal(d, c)
    ensures var s := Deposit(d, c);
            AccountOf(TwiceChargedBooks(d, c).ledger, 0)
            == Account(-2 * s.gross, 2 * s.fee, 2 * s.net, 0, 0, 2 * s.gross, 0, 2, 0)
  {
    hide AccountOf;
    var s := Deposit(d, c);
    ChargeAccount(0, 0, 0, s.gross, s.fee, s.net);
    ChargeAccount(0, 0, 1, s.gross, s.fee, s.net);
    hide ChargeEntries;
    AccountAppend(OnceChargedBooks(d, c).ledger, ChargeEntries(0, 0, 1, s.gross, s.fee, s.net), 0);
  }

  lemma OnceSettledAccount(d: Deal, c: Config)
    requires ValidDeal(d, c)
    ensures var s := Deposit(d, c);
            AccountOf(OnceSettledBooks(d, c).ledger, 0)
            == Account(-(s.gross as int), s.fee, s.net, 0, 0, 2 * s.gross, s.gross, 2, 1)
  {
    hide AccountOf;
    var s := Deposit(d, c);
    TwiceChargedAccount(d, c);
    RefundAccount(0, 0, 2, s.gross, s.fee, s.net, 0);
    hide ChargeEntries;
    hide RefundEntries;
    AccountAppend(TwiceChargedBooks(d, c).ledger, RefundEntries(0, 0, 2, s.gross, s.fee, s.net, 0), 0);
  }

  lemma FirstSettlement(d: Deal, c: Config)
    requires ValidDeal(d, c) && Linked(TwiceChargedBooks(d, c).(refunds := [Claim(d, c), Claim(d, c)]))
    ensures CommitRefund(TwiceChargedBooks(d, c).(refunds := [Claim(d, c), Claim(d, c)]), 0, Deposit(d, c).fee, d.third)
         == Ok(OnceSettledBooks(d, c))
  {
    hide ChargeEntries;
    hide RefundEntries;
    var b, goal, s := TwiceChargedBooks(d, c).(refunds := [Claim(d, c), Claim(d, c)]), OnceSettledBooks(d, c),
        Deposit(d, c);
    assert Net(b.ledger, 0, PlatformReserved) == 2 * s.fee && Net(b.ledger, 0, ProviderHeld) == 2 * s.net
        && Net(b.ledger, 0, ProviderAvailable) == 0 by {
      TwiceChargedAccount(d, c);
      assert AccountOf(b.ledger, 0) == AccountOf(TwiceChargedBooks(d, c).ledger, 0);
    }
    hide Net;
    NewReference(b.txns, d.gateway, d.third.reference, 0);
    hide Insertable;
    RefundCommits(b, 0, s.fee, d.third, s.net, 0);
    hide CommitRefund;
    assert b.txns + [goal.txns[2]] == goal.txns;
    assert b.refunds[0 := goal.refunds[0]] == goal.refunds;
  }

  lemma NewReference(txns: seq<Txn>, gateway: Gateway, reference: string, r: nat)
    requires forall t :: 0 <= t < |txns| ==> txns[t].reference != reference && txns[t].key != RefundKey(r)
    ensures Insertable(txns, RefundKey(r), gateway, reference)
  {
  }

  lemma SecondSettlement(d: Deal, c: Config)
    requires ValidDeal(d, c) && Linked(OnceSettledBooks(d, c))
    ensures CommitRefund(OnceSettledBooks(d, c), 1, Deposit(d, c).fee, d.fourth) == Ok(TwiceSettledBooks(d, c))
  {
    hide ChargeEntries;
    hide RefundEntries;
    var b, goal, s := OnceSettledBooks(d, c), TwiceSettledBooks(d, c), Deposit(d, c);
    assert Net(b.ledger, 0, PlatformReserved) == s.fee && Net(b.ledger, 0, ProviderHeld) == s.net
        && Net(b.ledger, 0, ProviderAvailable) == 0 by {
      OnceSettledAccount(d, c);
      assert AccountOf(b.ledger, 0).reserved == s.fee;
    }
    hide Net;
    NewReference(b.txns, d.gateway, d.fourth.reference, 1);
    hide Insertable;
    RefundCommits(b, 1, s.fee, d.fourth, s.net, 0);
    hide CommitRefund;
    assert b.txns + [goal.txns[3]] == goal.txns;
    assert b.refunds[1 := goal.refunds[1]] == goal.refunds;
  }

  lemma ReachesTwiceSettled(d: Deal, c: Config)
    requires ValidDeal(d, c)
    ensures FromStart(c, {RefundSettling}, SettlementRun(d)) == System(TwiceSettledBooks(d, c), [], d.at + 1)
  {
    hide Base;
    hide Perform;
    hide FromStart;
    hide Begin;
    hide CommitRefund;
    hide TwiceRun;
    hide TwiceChargedBooks;
    hide OnceSettledBooks;
    hide TwiceSettledBooks;
    var split, b, now, fee := {RefundSettling}, TwiceChargedBooks(d, c), d.at + 1, Deposit(d, c).fee;
    var claims := [Claim(d, c), Claim(d, c)];
    ReachesTwiceCharged(d, c, split);
    NoRefundsYet(d, c);
    AddWhole(c, split, TwiceRun(d), System(b, [], now), Claiming(d).call, d.first, 0);
    ClaimStep(d, c, []);
    var run := TwiceRun(d) + [Claiming(d)];
    AddWhole(c, split, run, System(b.(refunds := [Claim(d, c)]), [], now), Claiming(d).call, d.first, 0);
    ClaimStep(d, c, [Claim(d, c)]);
    run := run + [Claiming(d)];
    SettlementEnters(d, c, 0);
    AddEnter(c, split, run, System(b.(refunds := claims), [], now), ProcessRefund(0), 0, SettleRefund(0, fee));
    run := run + [Enter(ProcessRefund(0), 0)];
    SettlementEnters(d, c, 1);
    AddEnter(c, split, run, System(b.(refunds := claims), [SettleRefund(0, fee)], now), ProcessRefund(1), 0,
             SettleRefund(1, fee));
    run := run + [Enter(ProcessRefund(1), 0)];
    AddFinish(c, split, run, System(b.(refunds := claims), [SettleRefund(0, fee), SettleRefund(1, fee)], now), 0,
              d.third, 0);
    FirstSettlement(d, c);
    run := run + [Finish(0, d.third, 0)];
    AddFinish(c, split, run, System(OnceSettledBooks(d, c), [SettleRefund(1, fee)], now), 0, d.fourth, 0);
    SecondSettlement(d, c);
  }

  lemma NoRefundsYet(d: Deal, c: Config)
    requires ValidDeal(d, c)
    ensures TwiceChargedBooks(d, c).refunds == []
  {
  }

  /** Twice the intent's amount is refunded. */
  lemma LateSettlement(d: Deal, c: Config)
    requires ValidDeal(d, c)
    ensures var b := FromStart(c, {RefundSettling}, SettlementRun(d)).books;
            |b.intents| == 1 && Refunded(b, 0) == 2 * b.intents[0].amount && b.intents[0].amount >= 1
  {
    hide Base;
    hide FromStart;
    ReachesTwiceSettled(d, c);
    var refunds := TwiceSettledBooks(d, c).refunds;
    assert RefundedSum(refunds, 0, 0) == 0;
    assert RefundedSum(refunds, 0, 1) == Deposit(d, c).gross;
  }

  // ----- atomic runs -----

  /** A success notice for the transaction of a refund. */
  const NOTICE := Webhook(Internal, false, None, Some(1), None, Some("SUCCEEDED"))

  function NoticeRun(d: Deal): seq<Step> {
    RefundRun(d) + [Whole(NOTICE, d.third, 0)]
  }

  ghost function NoticedBooks(d: Deal, c: Config): Books
    requires ValidDeal(d, c)
  {
    var b, s := RefundedBooks(d, c), Deposit(d, c);
    b.(events := [Event(Internal, None, true)], ledger := b.ledger + ChargeEntries(0, 0, 1, s.gross, s.fee, s.net))
  }

  lemma RefundIsNoCharge(d: Deal, c: Config)
    requires ValidDeal(d, c)
    ensures !ChargePosted(RefundedBooks(d, c).ledger, 1)
  {
    var q, s := Posts(1, CustomerCharge, CustomerExternal), Deposit(d, c);
    TallyAppend(q, PaidBooks(d, c).ledger, RefundEntries(0, 0, 1, s.gross, s.fee, s.net, 0));
    ChargeTally(q, 0, 0, 0, s.gross, s.fee, s.net);
    RefundTally(q, 0, 0, 1, s.gross, s.fee, s.net, 0);
  }

  lemma NoticeStep(d: Deal, c: Config)
    requires ValidDeal(d, c) && Base(RefundedBooks(d, c))
    ensures Perform(RefundedBooks(d, c), c, NOTICE, d.third, d.at) == NoticedBooks(d, c)
  {
    hide Base;
    hide RefundEntries;
    var b, goal := RefundedBooks(d, c), NoticedBooks(d, c);
    BaseGives(b);
    RefundIsNoCharge(d, c);
    hide ChargePosted;
    hide ChargeEntries;
    var b' := b.(events := [Event(Internal, None, false)]);
    assert b.events + [Event(Internal, None, false)] == b'.events;
    assert Begin(b, c, NOTICE, d.at) == Ready(b', Deliver(1, GatewayStatus.Succeeded, 0));
    hide Begin;
    var after := Apply(b', 1, b'.txns[1], GatewayStatus.Succeeded, d.at);
    assert after.txns == goal.txns && after.intents == goal.intents && after.jobs == goal.jobs
           && after.ledger == goal.ledger;
    assert b'.events[0 := b'.events[0].(processed := true)] == goal.events;
  }

  /** A success notice for a refund transaction books a second charge: the type of the transaction is not looked at. */
  lemma RefundNoticeBooksCharge(d: Deal, c: Config)
    requires ValidDeal(d, c)
    ensures var b := FromStart(c, {}, NoticeRun(d)).books;
            |b.txns| == 2 && b.txns[1].kind.Refunding? && Tally(KindCount(0, CustomerCharge), b.ledger) == 2
  {
    hide Base;
    hide Perform;
    hide FromStart;
    hide RefundRun;
    var s := Deposit(d, c);
    ReachesRefunded(d, c, {});
    AddWhole(c, {}, RefundRun(d), System(RefundedBooks(d, c), [], d.at), NOTICE, d.third, 0);
    NoticeStep(d, c);
    NoticeCharges(d, c);
  }

  lemma NoticeCharges(d: Deal, c: Config)
    requires ValidDeal(d, c)
    ensures Tally(KindCount(0, CustomerCharge), NoticedBooks(d, c).ledger) == 2
  {
    var s := Deposit(d, c);
    RefundedAccount(d, c);
    ChargeAccount(0, 0, 1, s.gross, s.fee, s.net);
    AccountAppend(RefundedBooks(d, c).ledger, ChargeEntries(0, 0, 1, s.gross, s.fee, s.net), 0);
    assert AccountOf(NoticedBooks(d, c).ledger, 0).charges == 2;
  }

  /** The whole deposit is refunded although an approved payout waits for its part of it. */
  ghost function OverdrawRun(d: Deal, c: Config): seq<Step>
    requires ValidDeal(d, c)
  {
    ApproveRun(d, c) + [Whole(RequestRefund(0, d.client, false, None), d.first, 0)]
        + [Whole(ProcessRefund(0), d.second, 0)]
  }

  ghost function ContestedBooks(d: Deal, c: Config): Books
    requires ValidDeal(d, c)
  {
    ApprovedBooks(d, c).(refunds := [Claim(d, c)])
  }

  ghost function OverdrawnBooks(d: Deal, c: Config): Books
    requires ValidDeal(d, c)
  {
    var b, s := ContestedBooks(d, c), Deposit(d, c);
    b.(txns := [b.txns[0], RefundTxn(d, c, 0, d.second.reference)],
       refunds := [Claim(d, c).(status := RefundStatus.Succeeded, txn := Some(1))],
       ledger := b.ledger + RefundEntries(0, 0, 1, s.gross, s.fee, 0, s.net))
  }

  lemma ContestStep(d: Deal, c: Config, now: nat)
    requires ValidDeal(d, c) && Base(ApprovedBooks(d, c))
    ensures Perform(ApprovedBooks(d, c), c, RequestRefund(0, d.client, false, None), d.first, now)
            == ContestedBooks(d, c)
  {
    hide Base;
    hide ChargeEntries;
    hide ReleaseEntries;
    hide ComputeDepositSplit;
    var b := ApprovedBooks(d, c);
    BaseGives(b);
    assert LastIntent(b.intents, 0, PAID) == Some(0);
    assert !HasActiveRefund(b.refunds, 0);
    assert Remaining(b, 0) == b.intents[0].amount;
    hide Remaining;
    hide HasActiveRefund;
    assert Begin(b, c, RequestRefund(0, d.client, false, None), now) == Ready(b, InsertRefund(Claim(d, c)));
    hide Begin;
    assert b.refunds + [Claim(d, c)] == [Claim(d, c)];
  }

  lemma OverdrawBegins(d: Deal, c: Config)
    requires ValidDeal(d, c) && Linked(ContestedBooks(d, c)) && SplitsOk(ContestedBooks(d, c).intents)
    ensures BeginProcessRefund(ContestedBooks(d, c), 0)
         == Ready(ContestedBooks(d, c), SettleRefund(0, Deposit(d, c).fee))
  {
    hide ChargeEntries;
    hide ReleaseEntries;
    var b, s := ContestedBooks(d, c), Deposit(d, c);
    assert RefundedSum(b.refunds, 0, 0) == 0;
    assert Remaining(b, 0) == s.gross;
    FullRefundShare(s.fee, s.gross);
  }

  lemma OverdrawCommits(d: Deal, c: Config)
    requires ValidDeal(d, c) && Linked(ContestedBooks(d, c))
    ensures CommitRefund(ContestedBooks(d, c), 0, Deposit(d, c).fee, d.second) == Ok(OverdrawnBooks(d, c))
  {
    hide ChargeEntries;
    hide ReleaseEntries;
    hide RefundEntries;
    hide ComputeDepositSplit;
    var b, goal, s := ContestedBooks(d, c), OverdrawnBooks(d, c), Deposit(d, c);
    assert Net(b.ledger, 0, PlatformReserved) == s.fee && Net(b.ledger, 0, ProviderHeld) == 0
        && Net(b.ledger, 0, ProviderAvailable) == s.net by {
      Accounts(d, c);
      assert AccountOf(b.ledger, 0) == AccountOf(ReleasedBooks(d, c).ledger, 0);
    }
    hide Net;
    NewReference(b.txns, d.gateway, d.second.reference, 0);
    hide Insertable;
    RefundCommits(b, 0, s.fee, d.second, 0, s.net);
    hide CommitRefund;
    assert b.txns + [goal.txns[1]] == goal.txns;
    assert b.refunds[0 := goal.refunds[0]] == goal.refunds;
  }

  lemma OverdrawStep(d: Deal, c: Config, now: nat)
    requires ValidDeal(d, c) && Base(ContestedBooks(d, c))
    ensures Perform(ContestedBooks(d, c), c, ProcessRefund(0), d.second, now) == OverdrawnBooks(d, c)
  {
    hide Base;
    hide BeginProcessRefund;
    hide CommitRefund;
    hide ContestedBooks;
    hide OverdrawnBooks;
    BaseGives(ContestedBooks(d, c));
    OverdrawBegins(d, c);
    OverdrawCommits(d, c);
  }

  lemma ReachesOverdrawn(d: Deal, c: Config, split: set<Kind>)
    requires ValidDeal(d, c) && Deposit(d, c).net >= 1
    ensures FromStart(c, split, OverdrawRun(d, c)) == System(OverdrawnBooks(d, c), [], d.at + c.releaseDelay)
  {
    hide Base;
    hide Perform;
    hide FromStart;
    hide ApproveRun;
    hide ApprovedBooks;
    hide ContestedBooks;
    hide OverdrawnBooks;
    var later, call := d.at + c.releaseDelay, RequestRefund(0, d.client, false, None);
    ReachesApproved(d, c, split);
    AddWhole(c, split, ApproveRun(d, c), System(ApprovedBooks(d, c), [], later), call, d.first, 0);
    ContestStep(d, c, later);
    AddWhole(c, split, ApproveRun(d, c) + [Whole(call, d.first, 0)], System(ContestedBooks(d, c), [], later),
             ProcessRefund(0), d.second, 0);
    OverdrawStep(d, c, later);
  }

  lemma OverdrawnAccount(d: Deal, c: Config)
    requires ValidDeal(d, c)
    ensures Net(OverdrawnBooks(d, c).ledger, 0, ProviderAvailable) == 0
  {
    var s := Deposit(d, c);
    Accounts(d, c);
    RefundAccount(0, 0, 1, s.gross, s.fee, 0, s.net);
    AccountAppend(ReleasedBooks(d, c).ledger, RefundEntries(0, 0, 1, s.gross, s.fee, 0, s.net), 0);
    assert AccountOf(OverdrawnBooks(d, c).ledger, 0).available == 0;
  }

  /** The approved payout passes every check but that of its money. */
  lemma RefundOverdrawsPayout(d: Deal, c: Config)
    requires ValidDeal(d, c) && Deposit(d, c).net >= 1
    ensures var b := FromStart(c, {}, OverdrawRun(d, c)).books;
            && BeginProcessPayout(b, 0, None) == Ready(b, SettlePayout(0, None)) && !Reserved(b)
            && FindReference(b.txns, d.gateway, d.third.reference).None?
            && CommitPayout(b, 0, None, d.third) == Err(Conflict)
  {
    hide Base;
    hide FromStart;
    ReachesOverdrawn(d, c, {});
    OverdrawnAccount(d, c);
    hide Net;
    var b := OverdrawnBooks(d, c);
    assert FindReference(b.txns, d.gateway, d.third.reference).None?;
    assert PayoutSum(b.payouts, 0, RESERVING, 0) == 0;
    assert PayoutsIn(b, 0, RESERVING) == Deposit(d, c).net;
    assert 0 < |b.intents|;
  }

  /** A price of 10 with a deposit of 2, half of it fee. */
  const HALVES := Config(5000, 10)

  ghost function HalfDeal(): (d: Deal)
    ensures ValidDeal(d, HALVES) && Deposit(d, HALVES) == Split(2, 1, 1)
  {
    RoundDivUnique(10 * 20, 100, 2);
    RoundDivUnique(2 * 5000, 10000, 1);
    Deal(1, 2, 7, 8, 10, 20, Internal, 0, Answer(GatewayStatus.Succeeded, "a"), Answer(GatewayStatus.Succeeded, "bb"),
         Answer(GatewayStatus.Succeeded, "ccc"), Answer(GatewayStatus.Succeeded, "dddd"))
  }

  /** One unit is refunded, which rounding takes from the platform, and one more asked for. */
  function HalvesRun(d: Deal): seq<Step> {
    PayRun(d) + [Whole(RequestRefund(0, d.client, false, Some(1)), d.first, 0)] + [Whole(ProcessRefund(0), d.second, 0)]
    + [Whole(RequestRefund(0, d.client, false, Some(1)), d.first, 0)]
  }

  ghost function HalfClaim(): Refund {
    Refund(0, 0, HalfDeal().client, 1, RefundStatus.Pending, None)
  }

  ghost function HalfBooks(): Books {
    var d := HalfDeal();
    var b := PaidBooks(d, HALVES);
    b.(txns := [b.txns[0], Txn(0, Refunding, TxnStatus.Succeeded, d.gateway, d.second.reference, RefundKey(0), 1,
                               Some(1))],
       refunds := [HalfClaim().(status := RefundStatus.Succeeded, txn := Some(1))],
       ledger := b.ledger + RefundEntries(0, 0, 1, 1, 1, 0, 0))
  }

  lemma FirstHalfAsked()
    requires Base(PaidBooks(HalfDeal(), HALVES))
    ensures Perform(PaidBooks(HalfDeal(), HALVES), HALVES, RequestRefund(0, HalfDeal().client, false, Some(1)),
                    HalfDeal().first, HalfDeal().at)
         == PaidBooks(HalfDeal(), HALVES).(refunds := [HalfClaim()])
  {
    hide Base;
    hide HalfDeal;
    hide ChargeEntries;
    var d := HalfDeal();
    var b := PaidBooks(d, HALVES);
    BaseGives(b);
    NothingRefunded(b, 0);
    assert LastIntent(b.intents, 0, PAID) == Some(0);
    assert !HasActiveRefund(b.refunds, 0);
    assert Begin(b, HALVES, RequestRefund(0, d.client, false, Some(1)), d.at) == Ready(b, InsertRefund(HalfClaim()));
    hide Begin;
    assert b.refunds + [HalfClaim()] == [HalfClaim()];
  }

  lemma FirstHalfBegins()
    requires Base(PaidBooks(HalfDeal(), HALVES).(refunds := [HalfClaim()]))
    ensures Linked(PaidBooks(HalfDeal(), HALVES).(refunds := [HalfClaim()]))
    ensures SplitsOk(PaidBooks(HalfDeal(), HALVES).intents)
    ensures var b := PaidBooks(HalfDeal(), HALVES).(refunds := [HalfClaim()]);
            BeginProcessRefund(b, 0) == Ready(b, SettleRefund(0, 1))
  {
    hide Base;
    hide HalfDeal;
    hide ChargeEntries;
    var b := PaidBooks(HalfDeal(), HALVES).(refunds := [HalfClaim()]);
    BaseGives(b);
    assert RefundedSum(b.refunds, 0, 0) == 0;
    assert Remaining(b, 0) == 2;
    ShareOfHalf();
  }

  lemma FirstHalfSettles()
    requires Base(PaidBooks(HalfDeal(), HALVES).(refunds := [HalfClaim()]))
    ensures Perform(PaidBooks(HalfDeal(), HALVES).(refunds := [HalfClaim()]), HALVES, ProcessRefund(0),
                    HalfDeal().second, HalfDeal().at)
         == HalfBooks()
  {
    hide Base;
    hide HalfDeal;
    hide ChargeEntries;
    hide RefundEntries;
    var d, goal := HalfDeal(), HalfBooks();
    var b := PaidBooks(d, HALVES).(refunds := [HalfClaim()]);
    FirstHalfBegins();
    hide BeginProcessRefund;
    assert Net(b.ledger, 0, PlatformReserved) == 1 && Net(b.ledger, 0, ProviderHeld) == 1
           && Net(b.ledger, 0, ProviderAvailable) == 0 by {
      Accounts(d, HALVES);
      assert AccountOf(b.ledger, 0) == AccountOf(PaidBooks(d, HALVES).ledger, 0);
    }
    hide Net;
    NewReference(b.txns, d.gateway, d.second.reference, 0);
    hide Insertable;
    RefundCommits(b, 0, 1, d.second, 0, 0);
    hide CommitRefund;
    assert b.txns + [goal.txns[1]] == goal.txns;
    assert b.refunds[0 := goal.refunds[0]] == goal.refunds;
    assert CommitRefund(b, 0, 1, d.second) == Ok(goal);
  }

  lemma ShareOfHalf()
    ensures RefundShare(1, 1, 2) == 1
  {
    RoundDivUnique(1 * 1, 2, 1);
  }

  lemma OneRefunded(refunds: seq<Refund>)
    requires refunds == HalfBooks().refunds || refunds == HalfBooks().refunds + [HalfClaim()]
    ensures RefundedSum(refunds, 0, |refunds|) == 1
  {
    hide HalfDeal;
    assert RefundedSum(refunds, 0, 0) == 0;
    assert RefundedSum(refunds, 0, 1) == 1;
  }

  lemma SecondHalfAsked()
    requires Base(HalfBooks())
    ensures Perform(HalfBooks(), HALVES, RequestRefund(0, HalfDeal().client, false, Some(1)), HalfDeal().first,
                    HalfDeal().at)
         == HalfBooks().(refunds := HalfBooks().refunds + [HalfClaim()])
  {
    hide Base;
    hide HalfDeal;
    hide ChargeEntries;
    hide RefundEntries;
    var d, b := HalfDeal(), HalfBooks();
    BaseGives(b);
    OneRefunded(b.refunds);
    assert LastIntent(b.intents, 0, PAID) == Some(0);
    assert !HasActiveRefund(b.refunds, 0);
    assert Begin(b, HALVES, RequestRefund(0, d.client, false, Some(1)), d.at) == Ready(b, InsertRefund(HalfClaim()));
  }

  lemma ReachesHalves()
    ensures FromStart(HALVES, {}, HalvesRun(HalfDeal()))
         == System(HalfBooks().(refunds := HalfBooks().refunds + [HalfClaim()]), [], HalfDeal().at)
  {
    hide Base;
    hide Perform;
    hide FromStart;
    hide PayRun;
    hide PaidBooks;
    hide HalfDeal;
    hide HalfBooks;
    var d := HalfDeal();
    var b, ask := PaidBooks(d, HALVES), RequestRefund(0, d.client, false, Some(1));
    ReachesPaid(d, HALVES, {});
    AddWhole(HALVES, {}, PayRun(d), System(b, [], d.at), ask, d.first, 0);
    FirstHalfAsked();
    var run := PayRun(d) + [Whole(ask, d.first, 0)];
    AddWhole(HALVES, {}, run, System(b.(refunds := [HalfClaim()]), [], d.at), ProcessRefund(0), d.second, 0);
    FirstHalfSettles();
    run := run + [Whole(ProcessRefund(0), d.second, 0)];
    AddWhole(HALVES, {}, run, System(HalfBooks(), [], d.at), ask, d.first, 0);
    SecondHalfAsked();
  }

  lemma NoReserveLeft()
    ensures Net(HalfBooks().ledger, 0, PlatformReserved) == 0
  {
    hide HalfDeal;
    Accounts(HalfDeal(), HALVES);
    RefundAccount(0, 0, 1, 1, 1, 0, 0);
    AccountAppend(PaidBooks(HalfDeal(), HALVES).ledger, RefundEntries(0, 0, 1, 1, 1, 0, 0), 0);
    assert AccountOf(HalfBooks().ledger, 0).reserved == 0;
  }

  /**
   * A request within the remaining refundable amount can be impossible to settle: every outer check
   * accepts it, but rounding has left the platform's balance short.
   */
  lemma AcceptedRefundCannotSettle()
    ensures var b := FromStart(HALVES, {}, HalvesRun(HalfDeal())).books;
            && Linked(b) && SplitsOk(b.intents) && |b.refunds| == 2 && b.refunds[1].amount == 1 == Remaining(b, 0)
            && BeginProcessRefund(b, 1) == Ready(b, SettleRefund(1, 1))
            && Insertable(b.txns, RefundKey(1), Internal, HalfDeal().third.reference)
            && CommitRefund(b, 1, 1, HalfDeal().third) == Err(Conflict)
  {
    hide Base;
    hide FromStart;
    hide ChargeEntries;
    hide RefundEntries;
    ReachesHalves();
    var b := HalfBooks().(refunds := HalfBooks().refunds + [HalfClaim()]);
    BaseGives(b);
    OneRefunded(b.refunds);
    ShareOfHalf();
    NoReserveLeft();
    hide Net;
    NewReference(b.txns, Internal, HalfDeal().third.reference, 1);
  }
}
