/**
 * What the calls on intents, refunds, payouts and releases promise: exactly when each is accepted and what
 * it leaves.
 */
module MoneyRules {
  import opened Common
  import opened Policy
  import opened Ledger
  import opened Payments
  import opened Safety
  import opened Runs
  import opened PaymentRules

  // ----- intents -----

  predicate IsReusable(row: Intent) {
    || row.status == IntentStatus.AwaitingPayment
    || row.status == IntentStatus.PendingConfirmation
    || IsPaid(row)
  }

  predicate HasReusable(b: Books, j: nat) {
    exists i :: 0 <= i < |b.intents| && b.intents[i].job == j && IsReusable(b.intents[i])
  }

  /** What a job costs: the agreed price if there is one, else its budget. */
  predicate Costs(row: Job, amount: nat) {
    && amount >= 1
    && if row.agreedPrice.Some? && row.agreedPrice.value >= 1 then row.agreedPrice == Some(amount)
       else row.budget == Some(amount)
  }

  predicate HasPrice(row: Job) {
    (row.agreedPrice.Some? && row.agreedPrice.value >= 1) || (row.budget.Some? && row.budget.value >= 1)
  }

  /** The fee is the rate's share of the amount, rounded to the nearest, and the net is the rest. */
  predicate FeeAt(amount: nat, fee: nat, net: nat, feeBps: nat) {
    fee + net == amount && 20000 * fee <= 2 * amount * feeBps + 10000 < 20000 * (fee + 1)
  }

  predicate SplitAt(row: Intent, feeBps: nat) {
    FeeAt(row.amount, row.fee, row.net, feeBps)
  }

  lemma SplitMeans(amount: nat, feeBps: nat)
    requires feeBps <= 9000
    ensures var s := ComputeSplit(amount, feeBps); s.gross == amount && FeeAt(amount, s.fee, s.net, feeBps)
  {
  }

  predicate IntentOutcome(b: Books, c: Config, actor: nat, j: nat, via: Option<Gateway>, b': Books,
                          fault: Option<Fault>) {
    if j >= |b.jobs| then fault == Some(NotFound) && b' == b
    else if b.jobs[j].client != actor then fault == Some(Forbidden) && b' == b
    else if b.jobs[j].request.None? || b.jobs[j].proposal.None? || !HasPrice(b.jobs[j]) then
      fault == Some(Conflict) && b' == b
    else if HasReusable(b, j) then fault == None && b' == b
    else
      && fault == None && |b'.intents| == |b.intents| + 1
      && b' == b.(intents := b.intents + [b'.intents[|b.intents|]])
      && var row := b'.intents[|b.intents|];
         && row.job == j && row.customer == actor && row.provider == b.jobs[j].provider && Costs(b.jobs[j], row.amount)
         && SplitAt(row, c.feeBps) && row.status == IntentStatus.AwaitingPayment && !row.deposit
         && row.gateway == if via.Some? then via.value else Internal
  }

  lemma IntentMeans(b: Books, c: Config, actor: nat, j: nat, via: Option<Gateway>, a: Answer, now: nat)
    requires ValidConfig(c) && Launchable(BeginCreateIntent(b, c, actor, j, via))
    ensures var (b', fault) := Ends(b, BeginCreateIntent(b, c, actor, j, via), a, now);
            IntentOutcome(b, c, actor, j, via, b', fault)
  {
    hide LastIntent;
    hide HasReusable;
    hide ComputeSplit;
    hide FeeAt;
    ReusableMeans(b, j);
    if j < |b.jobs| && ChargeAmount(b.jobs[j]).Some? {
      SplitMeans(ChargeAmount(b.jobs[j]).value, c.feeBps);
    }
  }

  lemma ReusableMeans(b: Books, j: nat)
    ensures LastIntent(b.intents, j, REUSABLE).Some? <==> HasReusable(b, j)
  {
  }

  /** A new intent appears exactly for the client of a priced job from a selection that has no reusable one. */
  lemma CreateIntentRule(b: Books, c: Config, actor: nat, j: nat, via: Option<Gateway>, a: Answer, now: nat)
    requires ValidConfig(c) && Base(b)
    ensures var call := CreateIntent(actor, j, via);
            IntentOutcome(b, c, actor, j, via, Perform(b, c, call, a, now), FaultOf(b, c, call, a, now))
  {
    hide Base;
    hide Perform;
    hide FaultOf;
    hide IntentOutcome;
    hide BeginCreateIntent;
    hide Commit;
    Outcome(b, c, CreateIntent(actor, j, via), a, now);
    IntentMeans(b, c, actor, j, via, a, now);
  }

  predicate HasJobFor(b: Books, request: nat) {
    exists j :: 0 <= j < |b.jobs| && b.jobs[j].request == Some(request)
  }

  predicate OpeningOutcome(b: Books, c: Config, call: Call, b': Books, fault: Option<Fault>)
    requires call.OpenJob?
  {
    if call.price == 0 then fault == Some(BadRequest) && b' == b
    else if HasJobFor(b, call.request) then fault == Some(Conflict) && b' == b
    else
      && fault == None && |b'.intents| == |b.intents| + 1
      && b' == b.(jobs := b.jobs + [Job(call.client, call.provider, Some(call.request), Some(call.proposal),
                                        Some(call.price),
                                        Some(call.price), JobStatus.Requested, None, None, None, None, None)],
                  intents := b.intents + [b'.intents[|b.intents|]])
      && var row := b'.intents[|b.intents|];
         && row.job == |b.jobs| && row.customer == call.client && row.provider == call.provider
         && row.status == IntentStatus.AwaitingPayment && row.deposit && row.gateway == call.chosen
         && 1 <= row.amount <= call.price && SplitAt(row, c.feeBps)
         && (row.amount > 1 ==> 200 * row.amount <= 2 * (call.price * call.percent) + 100)
         && 2 * (call.price * call.percent) + 100 < 200 * (row.amount + 1)
  }

  lemma OpeningMeans(b: Books, c: Config, call: Call, a: Answer, now: nat)
    requires ValidConfig(c) && call.OpenJob? && ValidCall(call) && Linked(b) && SplitsOk(b.intents)
    requires Launchable(Begin(b, c, call, now))
    ensures var (b', fault) := Ends(b, Begin(b, c, call, now), a, now); OpeningOutcome(b, c, call, b', fault)
  {
    hide Linked;
    hide SplitsOk;
    assert RequestTaken(b.jobs, Some(call.request)) <==> HasJobFor(b, call.request);
    hide RequestTaken;
    hide HasJobFor;
  }

  /** A selection's job and deposit intent: once for each request, the deposit being the percentage of the price. */
  lemma OpenJobRule(b: Books, c: Config, call: Call, a: Answer, now: nat)
    requires ValidConfig(c) && Base(b) && call.OpenJob? && ValidCall(call)
    ensures OpeningOutcome(b, c, call, Perform(b, c, call, a, now), FaultOf(b, c, call, a, now))
  {
    hide Base;
    hide Perform;
    hide FaultOf;
    hide OpeningOutcome;
    hide Begin;
    hide Commit;
    Outcome(b, c, call, a, now);
    OpeningMeans(b, c, call, a, now);
  }

  // ----- refund requests -----

  /** The latest intent of the job that is paid. */
  predicate LatestPaid(b: Books, j: nat, i: nat) {
    && i < |b.intents| && b.intents[i].job == j && IsPaid(b.intents[i])
    && forall k :: i < k < |b.intents| && b.intents[k].job == j ==> !IsPaid(b.intents[k])
  }

  predicate NonePaid(b: Books, j: nat) {
    forall k :: 0 <= k < |b.intents| && b.intents[k].job == j ==> !IsPaid(b.intents[k])
  }

  lemma LatestPaidIsFound(b: Books, j: nat)
    ensures var paid := LastIntent(b.intents, j, PAID);
            if paid.Some? then LatestPaid(b, j, paid.value) && !NonePaid(b, j) else NonePaid(b, j)
  {
  }

  lemma LatestPaidIsTaken(b: Books, j: nat, i: nat)
    requires LatestPaid(b, j, i)
    ensures LastIntent(b.intents, j, PAID) == Some(i)
  {
    assert b.intents[i].status in PAID;
  }

  predicate IsParty(b: Books, j: nat, actor: nat)
    requires j < |b.jobs|
  {
    b.jobs[j].client == actor || b.jobs[j].provider == actor
  }

  predicate IsOpen(row: Refund) {
    row.status == RefundStatus.Pending || row.status == RefundStatus.Approved || row.status == RefundStatus.Processing
  }

  predicate HasOpenRefund(b: Books, i: nat) {
    exists r :: 0 <= r < |b.refunds| && b.refunds[r].intent == i && IsOpen(b.refunds[r])
  }

  /** What an intent has left to refund; not positive if nothing is. */
  function Left(b: Books, i: nat): int
    requires i < |b.intents|
  {
    b.intents[i].amount - Refunded(b, i)
  }

  /** What a request without an amount asks for. */
  predicate Proposes(row: Job, left: int, amount: nat) {
    if row.status == JobStatus.Completed then amount == left
    else if row.startedAt.Some? || row.status == JobStatus.InProgress then left <= 2 * amount <= left + 1
    else amount == left
  }

  predicate RequestOutcome(b: Books, j: nat, actor: nat, isAdmin: bool, asked: Option<nat>, i: nat, b': Books,
                           fault: Option<Fault>)
    requires j < |b.jobs| && LatestPaid(b, j, i)
  {
    if !isAdmin && !IsParty(b, j, actor) then fault == Some(Forbidden) && b' == b
    else if HasOpenRefund(b, i) || Left(b, i) <= 0 then fault == Some(Conflict) && b' == b
    else if asked.Some? && asked.value > Left(b, i) then fault == Some(BadRequest) && b' == b
    else
      && fault == None && |b'.refunds| == |b.refunds| + 1
      && var row := b'.refunds[|b.refunds|];
         && b' == b.(refunds := b.refunds + [Refund(j, i, actor, row.amount, RefundStatus.Pending, None)])
         && if asked.Some? then row.amount == asked.value else Proposes(b.jobs[j], Left(b, i), row.amount)
  }

  lemma RequestMeans(b: Books, j: nat, actor: nat, isAdmin: bool, asked: Option<nat>, i: nat, a: Answer, now: nat)
    requires j < |b.jobs| && LatestPaid(b, j, i) && Launchable(BeginRequestRefund(b, j, actor, isAdmin, asked))
    ensures var (b', fault) := Ends(b, BeginRequestRefund(b, j, actor, isAdmin, asked), a, now);
            RequestOutcome(b, j, actor, isAdmin, asked, i, b', fault)
  {
    LatestPaidIsTaken(b, j, i);
    assert HasActiveRefund(b.refunds, i) <==> HasOpenRefund(b, i);
    hide LastIntent;
    hide HasActiveRefund;
    hide HasOpenRefund;
    hide LatestPaid;
    hide Refunded;
  }

  /** A refund request is accepted exactly from a party or an admin, one at a time, within what is left. */
  lemma RequestRefundRule(b: Books, c: Config, j: nat, actor: nat, isAdmin: bool, asked: Option<nat>, i: nat,
                          a: Answer, now: nat)
    requires ValidConfig(c) && Base(b) && j < |b.jobs| && LatestPaid(b, j, i)
    ensures var call := RequestRefund(j, actor, isAdmin, asked);
            RequestOutcome(b, j, actor, isAdmin, asked, i, Perform(b, c, call, a, now), FaultOf(b, c, call, a, now))
  {
    hide Base;
    hide Perform;
    hide FaultOf;
    hide RequestOutcome;
    hide BeginRequestRefund;
    hide Commit;
    hide LatestPaid;
    hide Linked;
    hide SplitsOk;
    hide UniqueKeys;
    hide Launchable;
    hide Ends;
    Outcome(b, c, RequestRefund(j, actor, isAdmin, asked), a, now);
    RequestMeans(b, j, actor, isAdmin, asked, i, a, now);
  }

  lemma NothingBegins(b: Books, j: nat, actor: nat, isAdmin: bool, asked: Option<nat>)
    requires j >= |b.jobs| || NonePaid(b, j)
    ensures BeginRequestRefund(b, j, actor, isAdmin, asked)
         == Refused(if j >= |b.jobs| then NotFound else if !isAdmin && !IsParty(b, j, actor) then Forbidden
                    else Conflict)
  {
    LatestPaidIsFound(b, j);
    hide LastIntent;
  }

  /** Without a job or a paid intent there is nothing to refund. */
  lemma NothingToRefund(b: Books, c: Config, j: nat, actor: nat, isAdmin: bool, asked: Option<nat>, a: Answer, now: nat)
    requires ValidConfig(c) && Base(b) && (j >= |b.jobs| || NonePaid(b, j))
    ensures var call := RequestRefund(j, actor, isAdmin, asked);
            && Perform(b, c, call, a, now) == b
            && FaultOf(b, c, call, a, now)
               == Some(if j >= |b.jobs| then NotFound
                       else if !isAdmin && !IsParty(b, j, actor) then Forbidden else Conflict)
  {
    hide Base;
    hide Perform;
    hide FaultOf;
    hide BeginRequestRefund;
    hide NonePaid;
    hide Linked;
    hide SplitsOk;
    hide UniqueKeys;
    Outcome(b, c, RequestRefund(j, actor, isAdmin, asked), a, now);
    NothingBegins(b, j, actor, isAdmin, asked);
  }

  predicate ClosingOutcome(b: Books, r: nat, allowed: bool, outcome: RefundStatus, b': Books, fault: Option<Fault>) {
    if r >= |b.refunds| then fault == Some(NotFound) && b' == b
    else if !allowed then fault == Some(Forbidden) && b' == b
    else if b.refunds[r].status != RefundStatus.Pending then fault == Some(Conflict) && b' == b
    else fault == None && b' == b.(refunds := b.refunds[r := b.refunds[r].(status := outcome)])
  }

  /** Who may cancel a refund: an admin, or a party of its job that asked for it. */
  predicate MayCancel(b: Books, r: nat, actor: nat, isAdmin: bool)
    requires Linked(b)
  {
    r < |b.refunds| ==>
      isAdmin || (b.refunds[r].requester == actor && IsParty(b, b.intents[b.refunds[r].intent].job, actor))
  }

  lemma CancelMeans(b: Books, r: nat, actor: nat, isAdmin: bool, a: Answer, now: nat)
    requires Linked(b) && Launchable(BeginCancelRefund(b, r, actor, isAdmin))
    ensures var (b', fault) := Ends(b, BeginCancelRefund(b, r, actor, isAdmin), a, now);
            ClosingOutcome(b, r, MayCancel(b, r, actor, isAdmin), RefundStatus.Canceled, b', fault)
  {
  }

  /** A pending refund is canceled by an admin or by the party that asked for it. */
  lemma CancelRefundRule(b: Books, c: Config, r: nat, actor: nat, isAdmin: bool, a: Answer, now: nat)
    requires ValidConfig(c) && Base(b)
    ensures Linked(b)
    ensures var call := CancelRefund(r, actor, isAdmin);
            ClosingOutcome(b, r, MayCancel(b, r, actor, isAdmin), RefundStatus.Canceled,
                           Perform(b, c, call, a, now), FaultOf(b, c, call, a, now))
  {
    hide Base;
    hide Perform;
    hide FaultOf;
    hide ClosingOutcome;
    hide MayCancel;
    hide BeginCancelRefund;
    hide Launchable;
    hide Ends;
    Outcome(b, c, CancelRefund(r, actor, isAdmin), a, now);
    CancelMeans(b, r, actor, isAdmin, a, now);
  }

  lemma RejectRefundRule(b: Books, c: Config, r: nat, a: Answer, now: nat)
    requires ValidConfig(c) && Base(b)
    ensures ClosingOutcome(b, r, true, RefundStatus.Failed, Perform(b, c, RejectRefund(r), a, now),
                           FaultOf(b, c, RejectRefund(r), a, now))
  {
    hide Base;
    hide Perform;
    hide FaultOf;
    Outcome(b, c, RejectRefund(r), a, now);
  }

  predicate AdminRefundOutcome(b: Books, i: nat, actor: nat, asked: Option<nat>, b': Books, fault: Option<Fault>) {
    if i >= |b.intents| then fault == Some(NotFound) && b' == b
    else if !IsPaid(b.intents[i]) || Left(b, i) <= 0 then fault == Some(Conflict) && b' == b
    else if asked.Some? && asked.value > Left(b, i) then fault == Some(BadRequest) && b' == b
    else
      var amount := if asked.Some? then asked.value else Left(b, i);
      fault == None && b' == b.(refunds := b.refunds + [Refund(b.intents[i].job, i, actor, amount,
                                                               RefundStatus.Pending, None)])
  }

  lemma AdminRefundMeans(b: Books, i: nat, actor: nat, asked: Option<nat>, a: Answer, now: nat)
    requires Launchable(BeginOpenRefund(b, i, actor, asked))
    ensures var (b', fault) := Ends(b, BeginOpenRefund(b, i, actor, asked), a, now);
            AdminRefundOutcome(b, i, actor, asked, b', fault)
  {
    hide Refunded;
  }

  /** An admin opens a refund of a paid intent within what is left, by default of all of it. */
  lemma OpenRefundRule(b: Books, c: Config, i: nat, actor: nat, asked: Option<nat>, a: Answer, now: nat)
    requires ValidConfig(c) && Base(b)
    ensures var call := OpenRefund(i, actor, asked);
            AdminRefundOutcome(b, i, actor, asked, Perform(b, c, call, a, now), FaultOf(b, c, call, a, now))
  {
    hide Base;
    hide Perform;
    hide FaultOf;
    hide AdminRefundOutcome;
    hide BeginOpenRefund;
    hide Launchable;
    hide Ends;
    Outcome(b, c, OpenRefund(i, actor, asked), a, now);
    AdminRefundMeans(b, i, actor, asked, a, now);
  }

  // ----- settlements -----

  /** What an answer makes of a settlement's transaction. */
  predicate TxnShows(x: Txn, g: GatewayStatus) {
    match g
    case Succeeded => x.status == TxnStatus.Succeeded && x.confirmed == Some(x.requested)
    case Failed => x.status == TxnStatus.Failed && x.confirmed == None
    case Reversed => x.status == TxnStatus.Reversed && x.confirmed == None
    case Pending => x.status == TxnStatus.Processing && x.confirmed == None
  }

  /** The part of a refund that the provider's held balance cannot pay comes from the available one. */
  predicate RefundBooks(b: Books, r: nat, part: nat, b': Books)
    requires r < |b.refunds| && b.refunds[r].intent < |b.intents| && part <= b.refunds[r].amount
  {
    var i, amount := b.refunds[r].intent, b.refunds[r].amount;
    var held := Min(Net(b.ledger, i, ProviderHeld), amount - part);
    b'.ledger == b.ledger + RefundEntries(b.intents[i].job, i, |b.txns|, amount, part, held, amount - part - held)
  }

  predicate SettlementOutcome(b: Books, r: nat, a: Answer, b': Books, fault: Option<Fault>)
    requires Linked(b) && SplitsOk(b.intents)
  {
    if r >= |b.refunds| then fault == Some(NotFound) && b' == b
    else
      var row := b.refunds[r];
      var i := row.intent;
      if row.status != RefundStatus.Pending || !IsPaid(b.intents[i]) then fault == Some(Conflict) && b' == b
      else if row.amount > Left(b, i) && row.amount > 0 then fault == Some(BadRequest) && b' == b
      else
        var part, n := PlatformPart(b, r), |b.txns|;
        if !Free(b, RefundKey(r), b.intents[i].gateway, a.reference)
           || (a.status == GatewayStatus.Succeeded
               && (part > Net(b.ledger, i, PlatformReserved)
                   || row.amount - part > Net(b.ledger, i, ProviderHeld) + Net(b.ledger, i, ProviderAvailable)))
        then fault == Some(Conflict) && b' == b
        else
          && fault == None && Records(b, b', i, Refunding, RefundKey(r), b.intents[i].gateway, a.reference, row.amount)
          && TxnShows(b'.txns[n], a.status)
          && b' == b.(txns := b'.txns, ledger := b'.ledger,
                      refunds := b.refunds[r := row.(txn := Some(n), status :=
                        if a.status == GatewayStatus.Succeeded then RefundStatus.Succeeded
                        else if a.status == GatewayStatus.Failed then RefundStatus.Failed
                        else RefundStatus.Processing)])
          && if a.status == GatewayStatus.Succeeded then RefundBooks(b, r, part, b') else b'.ledger == b.ledger
  }

  lemma SettlementBegins(b: Books, r: nat)
    requires Linked(b) && SplitsOk(b.intents)
    ensures BeginProcessRefund(b, r)
         == if r >= |b.refunds| then Refused(NotFound)
            else if b.refunds[r].status != RefundStatus.Pending || !IsPaid(b.intents[b.refunds[r].intent])
                then Refused(Conflict)
            else if b.refunds[r].amount > Left(b, b.refunds[r].intent) && b.refunds[r].amount > 0
                then Refused(BadRequest)
            else Ready(b, SettleRefund(r, PlatformPart(b, r)))
  {
    hide Refunded;
    hide PlatformPart;
  }

  lemma SettlementCommits(b: Books, r: nat, a: Answer)
    requires Linked(b) && SplitsOk(b.intents) && r < |b.refunds|
    requires b.refunds[r].status == RefundStatus.Pending && IsPaid(b.intents[b.refunds[r].intent])
    requires b.refunds[r].amount <= Left(b, b.refunds[r].intent) || b.refunds[r].amount == 0
    ensures var result := CommitRefund(b, r, PlatformPart(b, r), a);
            SettlementOutcome(b, r, a, After(b, result), if result.Ok? then None else Some(result.fault))
  {
    FreeIsInsertable(b, RefundKey(r), b.intents[b.refunds[r].intent].gateway, a.reference);
    hide Net;
    hide Free;
    hide Insertable;
    hide Refunded;
    hide RefundEntries;
    var result := CommitRefund(b, r, PlatformPart(b, r), a);
    if result.Ok? {
      assert result.value.txns[..|b.txns|] == b.txns;
    }
  }

  /**
   * A refund is settled exactly if it is pending on a paid intent, within what is left, under a free key and
   * reference, and covered by the balances when the gateway paid; its status and transaction follow the answer.
   */
  lemma ProcessRefundRule(b: Books, c: Config, r: nat, a: Answer, now: nat)
    requires ValidConfig(c) && Base(b)
    ensures Linked(b) && SplitsOk(b.intents)
    ensures SettlementOutcome(b, r, a, Perform(b, c, ProcessRefund(r), a, now), FaultOf(b, c, ProcessRefund(r), a, now))
  {
    hide Base;
    hide Perform;
    hide FaultOf;
    hide SettlementOutcome;
    hide BeginProcessRefund;
    hide Commit;
    hide Launchable;
    hide Ends;
    Outcome(b, c, ProcessRefund(r), a, now);
    SettlementMeans(b, r, a, now);
  }

  lemma SettlementMeans(b: Books, r: nat, a: Answer, now: nat)
    requires Linked(b) && SplitsOk(b.intents) && Launchable(BeginProcessRefund(b, r))
    ensures var (b', fault) := Ends(b, BeginProcessRefund(b, r), a, now); SettlementOutcome(b, r, a, b', fault)
  {
    SettlementBegins(b, r);
    hide BeginProcessRefund;
    hide CommitRefund;
    hide Left;
    hide Linked;
    hide SplitsOk;
    hide RefundBooks;
    hide Free;
    hide Net;
    if BeginProcessRefund(b, r).Ready? {
      SettlementCommits(b, r, a);
    }
  }

  // ----- payouts -----

  /** What payouts that are not settled yet may still take from an intent. */
  function Waiting(b: Books, i: nat): nat {
    PayoutsIn(b, i, {PayoutStatus.Pending, PayoutStatus.Approved, PayoutStatus.Processing})
  }

  predicate PayoutOutcome(b: Books, i: nat, provider: nat, amount: nat, job: Option<nat>, via: Option<Gateway>,
                          b': Books, fault: Option<Fault>)
  {
    if i >= |b.intents| then fault == Some(NotFound) && b' == b
    else if b.intents[i].provider != provider then fault == Some(BadRequest) && b' == b
    else if Waiting(b, i) + amount > Net(b.ledger, i, ProviderAvailable) then fault == Some(Conflict) && b' == b
    else
      var row := Payout(if job.Some? then job.value else b.intents[i].job, i, provider, amount, PayoutStatus.Pending,
                        if via.Some? then via.value else b.intents[i].gateway);
      fault == None && b' == b.(payouts := b.payouts + [row])
  }

  lemma PayoutMeans(b: Books, i: nat, provider: nat, amount: nat, job: Option<nat>, via: Option<Gateway>, a: Answer,
                    now: nat)
    requires Launchable(BeginCreatePayout(b, i, provider, amount, job, via))
    ensures var (b', fault) := Ends(b, BeginCreatePayout(b, i, provider, amount, job, via), a, now);
            PayoutOutcome(b, i, provider, amount, job, via, b', fault)
  {
    assert RESERVING == {PayoutStatus.Pending, PayoutStatus.Approved, PayoutStatus.Processing};
    hide Net;
    hide PayoutsIn;
  }

  /** A payout to the intent's provider is accepted exactly if its amount is available and not waited for by others. */
  lemma CreatePayoutRule(b: Books, c: Config, i: nat, provider: nat, amount: nat, job: Option<nat>,
                         via: Option<Gateway>,
                         a: Answer, now: nat)
    requires ValidConfig(c) && Base(b) && amount >= 1
    ensures var call := CreatePayout(i, provider, amount, job, via);
            PayoutOutcome(b, i, provider, amount, job, via, Perform(b, c, call, a, now), FaultOf(b, c, call, a, now))
  {
    hide Base;
    hide Perform;
    hide FaultOf;
    hide PayoutOutcome;
    hide BeginCreatePayout;
    hide Commit;
    hide Launchable;
    hide Ends;
    Outcome(b, c, CreatePayout(i, provider, amount, job, via), a, now);
    PayoutMeans(b, i, provider, amount, job, via, a, now);
  }

  predicate ApprovalOutcome(b: Books, p: nat, b': Books, fault: Option<Fault>) {
    if p >= |b.payouts| then fault == Some(NotFound) && b' == b
    else if b.payouts[p].status != PayoutStatus.Pending then fault == Some(Conflict) && b' == b
    else fault == None && b' == b.(payouts := b.payouts[p := b.payouts[p].(status := PayoutStatus.Approved)])
  }

  lemma ApprovePayoutRule(b: Books, c: Config, p: nat, a: Answer, now: nat)
    requires ValidConfig(c) && Base(b)
    ensures ApprovalOutcome(b, p, Perform(b, c, ApprovePayout(p), a, now), FaultOf(b, c, ApprovePayout(p), a, now))
  {
    hide Base;
    hide Perform;
    hide FaultOf;
    Outcome(b, c, ApprovePayout(p), a, now);
  }

  predicate HasPayoutTxn(b: Books, p: nat) {
    exists t :: 0 <= t < |b.txns| && b.txns[t].key == PayoutKey(p)
  }

  predicate ReferenceTaken(b: Books, gateway: Gateway, reference: string) {
    exists t :: 0 <= t < |b.txns| && b.txns[t].gateway == gateway && b.txns[t].reference == reference
  }

  predicate PayingOutcome(b: Books, p: nat, reference: Option<string>, a: Answer, b': Books, fault: Option<Fault>) {
    if p >= |b.payouts| then fault == Some(NotFound) && b' == b
    else if b.payouts[p].status != PayoutStatus.Approved then fault == Some(Conflict) && b' == b
    else if HasPayoutTxn(b, p) then fault == None && b' == b
    else
      var row, n, paid := b.payouts[p], |b.txns|, a.status == GatewayStatus.Succeeded;
      var used := if reference.Some? then reference.value else a.reference;
      if ReferenceTaken(b, row.gateway, used) || (paid && row.amount > Net(b.ledger, row.intent, ProviderAvailable))
      then fault == Some(Conflict) && b' == b
      else
        && fault == None && Records(b, b', row.intent, Payment, PayoutKey(p), row.gateway, used, row.amount)
        && TxnShows(b'.txns[n], a.status)
        && b' == b.(txns := b'.txns,
                    ledger := if paid then b.ledger + PayoutEntries(row.job, row.intent, n, row.amount) else b.ledger,
                    payouts := b.payouts[p := row.(status := if paid then PayoutStatus.Paid
                                                             else if a.status == GatewayStatus.Failed
                                                                 then PayoutStatus.Failed
                                                             else PayoutStatus.Processing)])
  }

  lemma PayoutTxnMeans(b: Books, p: nat)
    ensures FindKey(b.txns, PayoutKey(p)).Some? <==> HasPayoutTxn(b, p)
  {
  }

  lemma ReferenceMeans(b: Books, gateway: Gateway, reference: string)
    ensures FindReference(b.txns, gateway, reference).Some? <==> ReferenceTaken(b, gateway, reference)
  {
  }

  lemma PayingMeans(b: Books, p: nat, reference: Option<string>, a: Answer, now: nat)
    requires Launchable(BeginProcessPayout(b, p, reference))
    ensures var (b', fault) := Ends(b, BeginProcessPayout(b, p, reference), a, now);
            PayingOutcome(b, p, reference, a, b', fault)
  {
    hide FindKey;
    hide FindReference;
    hide HasPayoutTxn;
    hide ReferenceTaken;
    hide Net;
    hide PayoutEntries;
    PayoutTxnMeans(b, p);
    if p < |b.payouts| {
      ReferenceMeans(b, b.payouts[p].gateway, reference.GetOr(a.reference));
    }
    var result := Ends(b, BeginProcessPayout(b, p, reference), a, now).0;
    assert |result.txns| > |b.txns| ==> result.txns[..|b.txns|] == b.txns;
  }

  /**
   * An approved payout is settled once, under a free reference and, if the gateway paid, with its money available;
   * its status and transaction follow the answer.
   */
  lemma ProcessPayoutRule(b: Books, c: Config, p: nat, reference: Option<string>, a: Answer, now: nat)
    requires ValidConfig(c) && Base(b)
    ensures var call := ProcessPayout(p, reference);
            PayingOutcome(b, p, reference, a, Perform(b, c, call, a, now), FaultOf(b, c, call, a, now))
  {
    hide Base;
    hide Perform;
    hide FaultOf;
    hide PayingOutcome;
    hide BeginProcessPayout;
    hide Commit;
    hide Launchable;
    hide Ends;
    Outcome(b, c, ProcessPayout(p, reference), a, now);
    PayingMeans(b, p, reference, a, now);
  }

  // ----- releases -----

  predicate DelayIsOver(row: Job, c: Config, now: nat) {
    row.status == JobStatus.Completed && row.completedAt.Some? && row.completedAt.value + c.releaseDelay <= now
  }

  predicate ReleaseOutcome(b: Books, c: Config, j: nat, now: nat, b': Books, fault: Option<Fault>) {
    if j >= |b.jobs| then fault == Some(NotFound) && b' == b
    else if !DelayIsOver(b.jobs[j], c, now) then fault == Some(Conflict) && b' == b
    else if NonePaid(b, j) then fault == Some(NotFound) && b' == b
    else
      exists i :: 0 <= i < |b.intents| && LatestPaid(b, j, i) &&
        if Net(b.ledger, i, ProviderHeld) <= 0 then fault == Some(Conflict) && b' == b
        else fault == None && b' == b.(ledger := b.ledger + ReleaseEntries(j, i, Net(b.ledger, i, ProviderHeld)))
  }

  lemma ReleaseMeans(b: Books, c: Config, j: nat, a: Answer, now: nat)
    requires Launchable(BeginRelease(b, c, j, now))
    ensures var (b', fault) := Ends(b, BeginRelease(b, c, j, now), a, now); ReleaseOutcome(b, c, j, now, b', fault)
  {
    LatestPaidIsFound(b, j);
    hide LastIntent;
    hide NonePaid;
    hide Net;
    hide ReleaseEntries;
    if BeginRelease(b, c, j, now).Ready? {
      var i := BeginRelease(b, c, j, now).ticket.intent;
      assert LatestPaid(b, j, i) && b.intents[i].job == j;
    }
  }

  /** All that is held on the latest paid intent of a completed job becomes available, once the delay is over. */
  lemma ReleaseRule(b: Books, c: Config, j: nat, a: Answer, now: nat)
    requires ValidConfig(c) && Base(b)
    ensures ReleaseOutcome(b, c, j, now, Perform(b, c, ReleaseFunds(j), a, now), FaultOf(b, c, ReleaseFunds(j), a, now))
  {
    hide Base;
    hide Perform;
    hide FaultOf;
    hide ReleaseOutcome;
    hide BeginRelease;
    hide Commit;
    hide Launchable;
    hide Ends;
    Outcome(b, c, ReleaseFunds(j), a, now);
    ReleaseMeans(b, c, j, a, now);
  }
}
