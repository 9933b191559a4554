/**
 * Two lives of a deal, from the selection of a proposal to the last movement of its deposit, for every
 * price, percentage, fee rate, gateway and starting time: the job is done and paid out, or the customer
 * withdraws. Each is a run from empty tables; the tables after each of its steps are given outright.
 */
module Lifecycle {
  import opened Common
  import opened Policy
  import opened Ledger
  import opened Payments
  import opened Safety
  import opened Runs

  /** A selected proposal, the time at which work on it starts, and successful answers in the order of their use. */
  datatype Deal = Deal(client: nat, provider: nat, request: nat, proposal: nat, price: nat, percent: nat,
                       gateway: Gateway, at: nat, first: Answer, second: Answer, third: Answer, fourth: Answer)

  ghost predicate ValidDeal(d: Deal, c: Config) {
    && ValidConfig(c) && d.price >= 1 && 20 <= d.percent <= 30
    && d.first.status.Succeeded? && d.second.status.Succeeded? && d.third.status.Succeeded?
         && d.fourth.status.Succeeded?
    && d.first.reference != d.second.reference && d.first.reference != d.third.reference
    && d.first.reference != d.fourth.reference && d.second.reference != d.third.reference
    && d.second.reference != d.fourth.reference && d.third.reference != d.fourth.reference
  }

  function Deposit(d: Deal, c: Config): Split
    requires c.feeBps <= MAX_FEE_BPS && d.price >= 1 && 20 <= d.percent <= 30
  {
    ComputeDepositSplit(d.price, d.percent, c.feeBps)
  }

  // ----- the steps -----

  function Opening(d: Deal): Step {
    Whole(OpenJob(d.client, d.provider, d.request, d.proposal, d.price, d.percent, d.gateway), d.first, d.at)
  }

  function Paying(d: Deal): Step {
    Whole(PayIntent(0, d.client, None), d.first, 0)
  }

  function Moving(d: Deal, next: JobStatus): Step {
    Whole(UpdateJob(0, d.provider, next, false), d.first, 0)
  }

  function Asking(d: Deal, c: Config): Call
    requires c.feeBps <= MAX_FEE_BPS && d.price >= 1 && 20 <= d.percent <= 30
  {
    CreatePayout(0, d.provider, Deposit(d, c).net, None, None)
  }

  function PayRun(d: Deal): seq<Step> {
    [Opening(d)] + [Paying(d)]
  }

  function StartRun(d: Deal): seq<Step> {
    PayRun(d) + [Moving(d, JobStatus.Accepted)] + [Moving(d, JobStatus.InProgress)]
  }

  function ReleaseRun(d: Deal, c: Config): seq<Step> {
    StartRun(d) + [Moving(d, JobStatus.Completed)] + [Whole(ReleaseFunds(0), d.first, c.releaseDelay)]
  }

  ghost function ApproveRun(d: Deal, c: Config): seq<Step>
    requires ValidDeal(d, c)
  {
    ReleaseRun(d, c) + [Whole(Asking(d, c), d.first, 0)] + [Whole(ApprovePayout(0), d.first, 0)]
  }

  ghost function PayoutRun(d: Deal, c: Config): seq<Step>
    requires ValidDeal(d, c)
  {
    ApproveRun(d, c) + [Whole(ProcessPayout(0, None), d.second, 0)]
  }

  function AskRun(d: Deal): seq<Step> {
    PayRun(d) + [Whole(RequestRefund(0, d.client, false, None), d.first, 0)]
  }

  function RefundRun(d: Deal): seq<Step> {
    AskRun(d) + [Whole(ProcessRefund(0), d.second, 0)]
  }

  // ----- the tables after them -----

  ghost function SelectedBooks(d: Deal, c: Config): Books
    requires ValidDeal(d, c)
  {
    var s := Deposit(d, c);
    Books([Job(d.client, d.provider, Some(d.request), Some(d.proposal), Some(d.price), Some(d.price), Requested,
               None, None, None, None, None)],
          [Intent(0, d.client, d.provider, s.gross, s.fee, s.net, IntentStatus.AwaitingPayment, d.gateway, true)],
          [], [], [], [], [])
  }

  ghost function PaidBooks(d: Deal, c: Config): Books
    requires ValidDeal(d, c)
  {
    var s, b := Deposit(d, c), SelectedBooks(d, c);
    b.(jobs := [b.jobs[0].(contactUnlockedAt := Some(d.at))],
       intents := [b.intents[0].(status := IntentStatus.PaidPartial)],
       txns := [Txn(0, Charge, TxnStatus.Succeeded, d.gateway, d.first.reference, ChargeKey(0, d.at), s.gross,
                    Some(s.gross))],
       ledger := ChargeEntries(0, 0, 0, s.gross, s.fee, s.net))
  }

  ghost function StartedBooks(d: Deal, c: Config): Books
    requires ValidDeal(d, c)
  {
    var b := PaidBooks(d, c);
    b.(jobs := [b.jobs[0].(status := JobStatus.InProgress, acceptedAt := Some(d.at), startedAt := Some(d.at))])
  }

  ghost function DoneBooks(d: Deal, c: Config): Books
    requires ValidDeal(d, c)
  {
    var b := StartedBooks(d, c);
    b.(jobs := [b.jobs[0].(status := JobStatus.Completed, completedAt := Some(d.at))])
  }

  ghost function ReleasedBooks(d: Deal, c: Config): Books
    requires ValidDeal(d, c)
  {
    var b := DoneBooks(d, c);
    b.(ledger := b.ledger + ReleaseEntries(0, 0, Deposit(d, c).net))
  }

  ghost function Asked(d: Deal, c: Config): Payout
    requires ValidDeal(d, c)
  {
    Payout(0, 0, d.provider, Deposit(d, c).net, PayoutStatus.Pending, d.gateway)
  }

  ghost function ApprovedBooks(d: Deal, c: Config): Books
    requires ValidDeal(d, c)
  {
    ReleasedBooks(d, c).(payouts := [Asked(d, c).(status := PayoutStatus.Approved)])
  }

  ghost function PaidOutBooks(d: Deal, c: Config): Books
    requires ValidDeal(d, c)
  {
    var b, net := ApprovedBooks(d, c), Deposit(d, c).net;
    b.(txns := [b.txns[0], Txn(0, Payment, TxnStatus.Succeeded, d.gateway, d.second.reference, PayoutKey(0), net,
                               Some(net))],
       payouts := [b.payouts[0].(status := PayoutStatus.Paid)],
       ledger := b.ledger + PayoutEntries(0, 0, 1, net))
  }

  ghost function AskedBooks(d: Deal, c: Config): Books
    requires ValidDeal(d, c)
  {
    PaidBooks(d, c).(refunds := [Refund(0, 0, d.client, Deposit(d, c).gross, RefundStatus.Pending, None)])
  }

  ghost function RefundedBooks(d: Deal, c: Config): Books
    requires ValidDeal(d, c)
  {
    var b, s := AskedBooks(d, c), Deposit(d, c);
    b.(txns := [b.txns[0], Txn(0, Refunding, TxnStatus.Succeeded, d.gateway, d.second.reference, RefundKey(0), s.gross,
                               Some(s.gross))],
       refunds := [b.refunds[0].(status := RefundStatus.Succeeded, txn := Some(1))],
       ledger := b.ledger + RefundEntries(0, 0, 1, s.gross, s.fee, s.net, 0))
  }

  // ----- one step each -----

  lemma OpenStep(d: Deal, c: Config)
    requires ValidDeal(d, c) && Base(EMPTY_BOOKS)
    ensures Perform(EMPTY_BOOKS, c, Opening(d).call, d.first, d.at) == SelectedBooks(d, c)
  {
    hide Base;
    hide ComputeDepositSplit;
    var b, goal := EMPTY_BOOKS, SelectedBooks(d, c);
    BaseGives(b);
    assert b.jobs + [goal.jobs[0]] == goal.jobs;
    assert b.intents + [goal.intents[0]] == goal.intents;
  }

  lemma PayStep(d: Deal, c: Config)
    requires ValidDeal(d, c) && Base(SelectedBooks(d, c))
    ensures Perform(SelectedBooks(d, c), c, Paying(d).call, d.first, d.at) == PaidBooks(d, c)
  {
    hide Base;
    var b, goal := SelectedBooks(d, c), PaidBooks(d, c);
    BaseGives(b);
    assert Begin(b, c, Paying(d).call, d.at) == Ready(b, ChargeIntent(0, ChargeKey(0, d.at)));
    assert b.txns + [goal.txns[0]] == goal.txns;
    assert !ChargePosted(b.ledger, 0);
    assert b.ledger + goal.ledger == goal.ledger;
    var b' := Apply(b.(txns := goal.txns), 0, goal.txns[0], GatewayStatus.Succeeded, d.at);
    assert b'.txns == goal.txns && b'.intents == goal.intents && b'.jobs == goal.jobs && b'.ledger == goal.ledger;
    assert CommitCharge(b, 0, ChargeKey(0, d.at), d.first, d.at) == Ok(goal);
  }

  /** A move of the job by its provider, once the deposit is paid. */
  lemma MoveStep(d: Deal, c: Config, b: Books, next: JobStatus)
    requires ValidDeal(d, c) && Base(b) && |b.jobs| == 1 && b.intents == PaidBooks(d, c).intents
    requires b.jobs[0].provider == d.provider && b.jobs[0].request.Some? && b.jobs[0].proposal.Some?
    requires var j := b.jobs[0];
             || (j.status.Requested? && next.Accepted? && j.acceptedAt.None?)
             || (j.status.Accepted? && next.InProgress? && j.startedAt.None?)
             || (j.status.InProgress? && next.Completed? && j.completedAt.None?)
    ensures var j := b.jobs[0];
            Perform(b, c, Moving(d, next).call, d.first, d.at)
            == b.(jobs := [match next
                           case Accepted => j.(status := next, acceptedAt := Some(d.at))
                           case InProgress => j.(status := next, startedAt := Some(d.at))
                           case _ => j.(status := next, completedAt := Some(d.at))])
  {
    hide Base;
    BaseGives(b);
    assert b.intents[0].status in PAID && b.intents[0].job == 0;
    assert LastIntent(b.intents, 0, PAID) == Some(0);
    var start := Begin(b, c, Moving(d, next).call, d.at);
    assert start.Ready?;
    var b' := CommitJob(b, start.ticket);
    assert b'.intents == b.intents;
    assert |b'.jobs| == 1;
  }

  /** What the ledger says after each movement. */
  lemma Accounts(d: Deal, c: Config)
    requires ValidDeal(d, c)
    ensures var s := Deposit(d, c);
            && AccountOf(PaidBooks(d, c).ledger, 0) == Account(-(s.gross as int), s.fee, s.net, 0, 0, s.gross, 0, 1, 0)
            && AccountOf(ReleasedBooks(d, c).ledger, 0) == Account(-(s.gross as int), s.fee, 0, s.net, 0, s.gross, 0,
                                                                   1, 0)
  {
    var s := Deposit(d, c);
    ChargeAccount(0, 0, 0, s.gross, s.fee, s.net);
    ReleaseAccount(0, 0, s.net);
    AccountAppend(PaidBooks(d, c).ledger, ReleaseEntries(0, 0, s.net), 0);
  }

  lemma ReleaseStep(d: Deal, c: Config)
    requires ValidDeal(d, c) && Base(DoneBooks(d, c)) && Deposit(d, c).net >= 1
    ensures Perform(DoneBooks(d, c), c, ReleaseFunds(0), d.first, d.at + c.releaseDelay) == ReleasedBooks(d, c)
  {
    hide Base;
    var b := DoneBooks(d, c);
    BaseGives(b);
    Accounts(d, c);
    assert Net(b.ledger, 0, ProviderHeld) == AccountOf(b.ledger, 0).held == Deposit(d, c).net;
    hide Net;
    hide AccountOf;
    hide ChargeEntries;
    hide ReleaseEntries;
    hide ComputeDepositSplit;
    assert LastIntent(b.intents, 0, PAID) == Some(0);
    hide LastIntent;
    assert CommitRelease(b, 0) == Ok(ReleasedBooks(d, c));
  }

  lemma AskPayoutStep(d: Deal, c: Config, now: nat)
    requires ValidDeal(d, c) && Base(ReleasedBooks(d, c)) && Deposit(d, c).net >= 1
    ensures Perform(ReleasedBooks(d, c), c, Asking(d, c), d.first, now)
            == ReleasedBooks(d, c).(payouts := [Asked(d, c)])
    ensures Linked(ReleasedBooks(d, c)) && SplitsOk(ReleasedBooks(d, c).intents)
    ensures Begin(ReleasedBooks(d, c), c, Asking(d, c), now) == Ready(ReleasedBooks(d, c), InsertPayout(Asked(d, c)))
  {
    hide Base;
    var b, net := ReleasedBooks(d, c), Deposit(d, c).net;
    BaseGives(b);
    Accounts(d, c);
    assert Net(b.ledger, 0, ProviderAvailable) == AccountOf(b.ledger, 0).available == net;
    assert b.payouts + [Asked(d, c)] == [Asked(d, c)];
  }

  lemma ApproveStep(d: Deal, c: Config, now: nat)
    requires ValidDeal(d, c) && Base(ReleasedBooks(d, c).(payouts := [Asked(d, c)]))
    ensures Perform(ReleasedBooks(d, c).(payouts := [Asked(d, c)]), c, ApprovePayout(0), d.first, now)
            == ApprovedBooks(d, c)
  {
    hide Base;
    var b := ReleasedBooks(d, c).(payouts := [Asked(d, c)]);
    BaseGives(b);
    assert b.payouts[0 := Asked(d, c).(status := PayoutStatus.Approved)] == ApprovedBooks(d, c).payouts;
  }

  lemma PayOutStep(d: Deal, c: Config, now: nat)
    requires ValidDeal(d, c) && Base(ApprovedBooks(d, c)) && Deposit(d, c).net >= 1
    ensures Perform(ApprovedBooks(d, c), c, ProcessPayout(0, None), d.second, now) == PaidOutBooks(d, c)
  {
    hide Base;
    hide ChargeEntries;
    hide ReleaseEntries;
    hide PayoutEntries;
    var b, goal, s := ApprovedBooks(d, c), PaidOutBooks(d, c), Deposit(d, c);
    BaseGives(b);
    assert b.txns[0].key == ChargeKey(0, d.at) && b.txns[0].reference == d.first.reference;
    assert FindKey(b.txns, PayoutKey(0)).None? && FindReference(b.txns, d.gateway, d.second.reference).None?;
    assert s.net <= Net(b.ledger, 0, ProviderAvailable) by {
      Accounts(d, c);
      assert AccountOf(b.ledger, 0).available == s.net;
    }
    hide Net;
    assert b.txns + [goal.txns[1]] == goal.txns;
    assert b.payouts[0 := goal.payouts[0]] == goal.payouts;
    assert CommitPayout(b, 0, None, d.second) == Ok(goal);
  }

  lemma AskStep(d: Deal, c: Config)
    requires ValidDeal(d, c) && Base(PaidBooks(d, c))
    ensures Perform(PaidBooks(d, c), c, RequestRefund(0, d.client, false, None), d.first, d.at) == AskedBooks(d, c)
  {
    hide Base;
    hide ChargeEntries;
    var b, goal := PaidBooks(d, c), AskedBooks(d, c);
    BaseGives(b);
    assert LastIntent(b.intents, 0, PAID) == Some(0);
    assert !HasActiveRefund(b.refunds, 0);
    assert Remaining(b, 0) == b.intents[0].amount;
    assert Begin(b, c, RequestRefund(0, d.client, false, None), d.at) == Ready(b, InsertRefund(goal.refunds[0]));
    hide Begin;
    assert b.refunds + [goal.refunds[0]] == goal.refunds;
  }

  /** A refund that goes through, entirely from the held balance or entirely from the available one. */
  lemma RefundCommits(b: Books, r: nat, part: nat, a: Answer, held: nat, available: nat)
    requires Linked(b) && r < |b.refunds| && b.refunds[r].status == RefundStatus.Pending && a.status.Succeeded?
    requires part <= b.refunds[r].amount && Insertable(b.txns, RefundKey(r), b.intents[b.refunds[r].intent].gateway,
                                                       a.reference)
    requires part <= Net(b.ledger, b.refunds[r].intent, PlatformReserved)
    requires held == Min(Net(b.ledger, b.refunds[r].intent, ProviderHeld), b.refunds[r].amount - part)
    requires available == b.refunds[r].amount - part - held <= Net(b.ledger, b.refunds[r].intent, ProviderAvailable)
    ensures var row := b.refunds[r];
            var x := Txn(row.intent, Refunding, TxnStatus.Succeeded, b.intents[row.intent].gateway, a.reference,
                         RefundKey(r),
                         row.amount, Some(row.amount));
            var es := RefundEntries(b.intents[row.intent].job, row.intent, |b.txns|, row.amount, part, held, available);
            CommitRefund(b, r, part, a)
            == Ok(b.(txns := b.txns + [x],
                     refunds := b.refunds[r := row.(status := RefundStatus.Succeeded, txn := Some(|b.txns|))],
                     ledger := b.ledger + es))
  {
    hide Insertable;
    hide Net;
    hide RefundEntries;
  }

  lemma RefundStep(d: Deal, c: Config)
    requires ValidDeal(d, c) && Base(AskedBooks(d, c))
    ensures Perform(AskedBooks(d, c), c, ProcessRefund(0), d.second, d.at) == RefundedBooks(d, c)
  {
    hide Base;
    hide ChargeEntries;
    hide RefundEntries;
    var b, goal, s := AskedBooks(d, c), RefundedBooks(d, c), Deposit(d, c);
    BaseGives(b);
    FullRefundShare(s.fee, s.gross);
    assert RefundedSum(b.refunds, 0, 0) == 0;
    assert Begin(b, c, ProcessRefund(0), d.at) == Ready(b, SettleRefund(0, s.fee));
    assert b.txns[0].key == ChargeKey(0, d.at) && b.txns[0].reference == d.first.reference;
    assert Insertable(b.txns, RefundKey(0), d.gateway, d.second.reference);
    assert Net(b.ledger, 0, PlatformReserved) == s.fee && Net(b.ledger, 0, ProviderHeld) == s.net
        && Net(b.ledger, 0, ProviderAvailable) == 0 by {
      Accounts(d, c);
      assert AccountOf(b.ledger, 0) == AccountOf(PaidBooks(d, c).ledger, 0);
    }
    hide Net;
    hide Insertable;
    RefundCommits(b, 0, s.fee, d.second, s.net, 0);
    hide CommitRefund;
    assert b.txns + [goal.txns[1]] == goal.txns;
    assert b.refunds[0 := goal.refunds[0]] == goal.refunds;
    assert CommitRefund(b, 0, s.fee, d.second) == Ok(goal);
  }

  // ----- the runs reach the tables -----

  lemma ReachesPaid(d: Deal, c: Config, split: set<Kind>)
    requires ValidDeal(d, c)
    ensures FromStart(c, split, PayRun(d)) == System(PaidBooks(d, c), [], d.at)
  {
    hide Base;
    hide Perform;
    hide SelectedBooks;
    hide PaidBooks;
    FromNothing(c, split);
    AddWhole(c, split, [], INITIAL, Opening(d).call, d.first, d.at);
    OpenStep(d, c);
    assert [] + [Opening(d)] == [Opening(d)];
    AddWhole(c, split, [Opening(d)], System(SelectedBooks(d, c), [], d.at), Paying(d).call, d.first, 0);
    PayStep(d, c);
  }

  lemma FromNothing(c: Config, split: set<Kind>)
    requires ValidConfig(c)
    ensures FromStart(c, split, []) == INITIAL
  {
    hide Base;
  }

  lemma ReachesStarted(d: Deal, c: Config, split: set<Kind>)
    requires ValidDeal(d, c)
    ensures FromStart(c, split, StartRun(d)) == System(StartedBooks(d, c), [], d.at)
  {
    hide Base;
    hide Perform;
    hide FromStart;
    ReachesPaid(d, c, split);
    var b := PaidBooks(d, c);
    AddWhole(c, split, PayRun(d), System(b, [], d.at), Moving(d, JobStatus.Accepted).call, d.first, 0);
    MoveStep(d, c, b, JobStatus.Accepted);
    var accepted := b.(jobs := [b.jobs[0].(status := JobStatus.Accepted, acceptedAt := Some(d.at))]);
    AddWhole(c, split, PayRun(d) + [Moving(d, JobStatus.Accepted)], System(accepted, [], d.at),
             Moving(d, JobStatus.InProgress).call, d.first, 0);
    MoveStep(d, c, accepted, JobStatus.InProgress);
  }

  lemma ReachesReleased(d: Deal, c: Config, split: set<Kind>)
    requires ValidDeal(d, c) && Deposit(d, c).net >= 1
    ensures FromStart(c, split, ReleaseRun(d, c)) == System(ReleasedBooks(d, c), [], d.at + c.releaseDelay)
  {
    hide Base;
    hide Perform;
    hide FromStart;
    ReachesStarted(d, c, split);
    AddWhole(c, split, StartRun(d), System(StartedBooks(d, c), [], d.at), Moving(d, JobStatus.Completed).call, d.first,
             0);
    MoveStep(d, c, StartedBooks(d, c), JobStatus.Completed);
    AddWhole(c, split, StartRun(d) + [Moving(d, JobStatus.Completed)], System(DoneBooks(d, c), [], d.at),
             ReleaseFunds(0), d.first, c.releaseDelay);
    ReleaseStep(d, c);
  }

  lemma ReachesApproved(d: Deal, c: Config, split: set<Kind>)
    requires ValidDeal(d, c) && Deposit(d, c).net >= 1
    ensures FromStart(c, split, ReleaseRun(d, c) + [Whole(Asking(d, c), d.first, 0)])
         == System(ReleasedBooks(d, c).(payouts := [Asked(d, c)]), [], d.at + c.releaseDelay)
    ensures FromStart(c, split, ApproveRun(d, c)) == System(ApprovedBooks(d, c), [], d.at + c.releaseDelay)
  {
    hide Base;
    hide Perform;
    hide FromStart;
    hide ReleasedBooks;
    hide ReleaseRun;
    var b, later := ReleasedBooks(d, c), d.at + c.releaseDelay;
    ReachesReleased(d, c, split);
    AddWhole(c, split, ReleaseRun(d, c), System(b, [], later), Asking(d, c), d.first, 0);
    AskPayoutStep(d, c, later);
    AddWhole(c, split, ReleaseRun(d, c) + [Whole(Asking(d, c), d.first, 0)],
             System(b.(payouts := [Asked(d, c)]), [], later), ApprovePayout(0), d.first, 0);
    ApproveStep(d, c, later);
  }

  lemma ReachesPaidOut(d: Deal, c: Config, split: set<Kind>)
    requires ValidDeal(d, c) && Deposit(d, c).net >= 1
    ensures FromStart(c, split, PayoutRun(d, c)) == System(PaidOutBooks(d, c), [], d.at + c.releaseDelay)
  {
    hide Base;
    hide Perform;
    hide FromStart;
    hide ApprovedBooks;
    hide ApproveRun;
    ReachesApproved(d, c, split);
    AddWhole(c, split, ApproveRun(d, c), System(ApprovedBooks(d, c), [], d.at + c.releaseDelay),
             ProcessPayout(0, None), d.second, 0);
    PayOutStep(d, c, d.at + c.releaseDelay);
  }

  lemma ReachesAsked(d: Deal, c: Config, split: set<Kind>)
    requires ValidDeal(d, c)
    ensures FromStart(c, split, AskRun(d)) == System(AskedBooks(d, c), [], d.at)
  {
    hide Base;
    hide Perform;
    hide FromStart;
    hide PaidBooks;
    ReachesPaid(d, c, split);
    AddWhole(c, split, PayRun(d), System(PaidBooks(d, c), [], d.at), RequestRefund(0, d.client, false, None), d.first,
             0);
    AskStep(d, c);
  }

  lemma ReachesRefunded(d: Deal, c: Config, split: set<Kind>)
    requires ValidDeal(d, c)
    ensures FromStart(c, split, RefundRun(d)) == System(RefundedBooks(d, c), [], d.at)
  {
    hide Base;
    hide Perform;
    hide FromStart;
    hide AskedBooks;
    hide AskRun;
    ReachesAsked(d, c, split);
    AddWhole(c, split, AskRun(d), System(AskedBooks(d, c), [], d.at), ProcessRefund(0), d.second, 0);
    RefundStep(d, c);
  }

  // ----- two whole lives -----

  /** The provider has the whole net, the platform the whole fee in reserve, and nothing is in between. */
  ghost predicate ProviderPaid(b: Books, d: Deal, c: Config)
    requires ValidDeal(d, c)
  {
    var s := Deposit(d, c);
    && AccountOf(b.ledger, 0) == Account(-(s.gross as int), s.fee, 0, 0, s.net, s.gross, 0, 1, 0)
    && |b.payouts| == 1 && b.payouts[0].status.Paid? && b.payouts[0].amount == s.net
         && b.payouts[0].provider == d.provider
    && |b.jobs| == 1 && b.jobs[0].status.Completed? && |b.intents| == 1 && b.intents[0].status.PaidPartial?
  }

  lemma PaidOutAccount(d: Deal, c: Config)
    requires ValidDeal(d, c)
    ensures var s := Deposit(d, c);
            AccountOf(PaidOutBooks(d, c).ledger, 0) == Account(-(s.gross as int), s.fee, 0, 0, s.net, s.gross, 0, 1, 0)
  {
    var s := Deposit(d, c);
    Accounts(d, c);
    PayoutAccount(0, 0, 1, s.net);
    AccountAppend(ReleasedBooks(d, c).ledger, PayoutEntries(0, 0, 1, s.net), 0);
  }

  /** A deal that is paid, accepted, started, completed, released after the delay and paid out pays the provider. */
  lemma FinishedDealPaysTheProvider(d: Deal, c: Config, split: set<Kind>)
    requires ValidDeal(d, c) && Deposit(d, c).net >= 1
    ensures ProviderPaid(FromStart(c, split, PayoutRun(d, c)).books, d, c)
  {
    hide Base;
    hide FromStart;
    hide AccountOf;
    ReachesPaidOut(d, c, split);
    PaidOutAccount(d, c);
  }

  /** If rounding gives the whole deposit to the platform there is nothing to release, and only then. */
  lemma ReleasableIff(d: Deal, c: Config)
    requires ValidDeal(d, c)
    ensures Linked(DoneBooks(d, c)) && (CommitRelease(DoneBooks(d, c), 0).Ok? <==> Deposit(d, c).net >= 1)
  {
    Accounts(d, c);
    assert Net(DoneBooks(d, c).ledger, 0, ProviderHeld) == AccountOf(PaidBooks(d, c).ledger, 0).held;
  }

  ghost predicate DepositReturned(b: Books, d: Deal, c: Config)
    requires ValidDeal(d, c)
  {
    var s := Deposit(d, c);
    && AccountOf(b.ledger, 0) == Account(0, 0, 0, 0, 0, s.gross, s.gross, 1, 1)
    && |b.refunds| == 1 && b.refunds[0].status.Succeeded? && b.refunds[0].amount == s.gross
  }

  lemma RefundedAccount(d: Deal, c: Config)
    requires ValidDeal(d, c)
    ensures AccountOf(RefundedBooks(d, c).ledger, 0) == Account(0, 0, 0, 0, 0, Deposit(d, c).gross,
                                                                Deposit(d, c).gross, 1, 1)
  {
    var s := Deposit(d, c);
    Accounts(d, c);
    RefundAccount(0, 0, 1, s.gross, s.fee, s.net, 0);
    AccountAppend(PaidBooks(d, c).ledger, RefundEntries(0, 0, 1, s.gross, s.fee, s.net, 0), 0);
  }

  /** A customer who withdraws before the job starts asks for no amount and gets the whole deposit back. */
  lemma WithdrawnDealReturnsTheDeposit(d: Deal, c: Config, split: set<Kind>)
    requires ValidDeal(d, c)
    ensures DepositReturned(FromStart(c, split, RefundRun(d)).books, d, c)
  {
    hide Base;
    hide FromStart;
    hide AccountOf;
    ReachesRefunded(d, c, split);
    RefundedAccount(d, c);
  }
}
