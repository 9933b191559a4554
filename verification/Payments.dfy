/**
 * Rows and operations of payments.service.ts and of jobs.service.ts `updateStatus`, as values.
 *
 * An operation is two functions: `Begin` is what the service does before its database transaction
 * (reads, checks, computed arguments) and yields a ticket; `Commit` is the body of the transaction,
 * run on whatever the tables hold by then, with an arbitrary gateway answer.
 */
module Payments {
  import opened Common
  import opened Policy
  import opened Ledger

  datatype Gateway = Internal | Mpesa | Emola

  datatype GatewayStatus = Pending | Succeeded | Failed | Reversed

  datatype Answer = Answer(status: GatewayStatus, reference: string)

  /** Idempotency keys. A client may send any key, also one that the service itself would generate. */
  datatype Key =
    | ClientText(text: string)
    | ChargeKey(intent: nat, at: nat)
    | PayoutKey(payout: nat)
    | RefundKey(refund: nat)

  // ----- rows; a row's id is its index in its table -----

  datatype JobStatus = Requested | Accepted | InProgress | Completed | Canceled

  datatype Job = Job(client: nat, provider: nat, request: Option<nat>, proposal: Option<nat>,
                     agreedPrice: Option<nat>, budget: Option<nat>, status: JobStatus,
                     acceptedAt: Option<nat>, startedAt: Option<nat>, completedAt: Option<nat>, canceledAt: Option<nat>,
                     contactUnlockedAt: Option<nat>)

  datatype IntentStatus =
    | Created | AwaitingPayment | PaidPartial | PendingConfirmation | Succeeded | Failed | Expired | Canceled

  datatype Intent = Intent(job: nat, customer: nat, provider: nat, amount: nat, fee: nat, net: nat,
                           status: IntentStatus, gateway: Gateway, deposit: bool)

  datatype TxnType = Charge | Payment | Refunding

  datatype TxnStatus = Processing | Succeeded | Failed | Reversed

  datatype Txn = Txn(intent: nat, kind: TxnType, status: TxnStatus, gateway: Gateway, reference: string, key: Key,
                     requested: nat, confirmed: Option<nat>)

  datatype RefundStatus = Pending | Approved | Processing | Succeeded | Failed | Canceled

  datatype Refund = Refund(job: nat, intent: nat, requester: nat, amount: nat, status: RefundStatus, txn: Option<nat>)

  datatype PayoutStatus = Pending | Approved | Processing | Paid | Failed

  datatype Payout = Payout(job: nat, intent: nat, provider: nat, amount: nat, status: PayoutStatus, gateway: Gateway)

  /** A received webhook. */
  datatype Event = Event(gateway: Gateway, externalId: Option<string>, processed: bool)

  datatype Books = Books(jobs: seq<Job>, intents: seq<Intent>, txns: seq<Txn>, refunds: seq<Refund>,
                         payouts: seq<Payout>,
                         events: seq<Event>, ledger: seq<Entry>)

  const EMPTY_BOOKS := Books([], [], [], [], [], [], [])

  const PAID := {IntentStatus.PaidPartial, IntentStatus.Succeeded}
  const REUSABLE := {IntentStatus.AwaitingPayment, IntentStatus.PendingConfirmation, IntentStatus.PaidPartial,
                     IntentStatus.Succeeded}
  const PAYABLE := {IntentStatus.AwaitingPayment, IntentStatus.PendingConfirmation, IntentStatus.Failed}
  const UNPAID := {IntentStatus.Created, IntentStatus.AwaitingPayment, IntentStatus.PendingConfirmation}
  const EXECUTION := {JobStatus.Accepted, JobStatus.InProgress, JobStatus.Completed}
  const OPEN_REFUND := {RefundStatus.Pending, RefundStatus.Approved, RefundStatus.Processing}
  const RESERVING := {PayoutStatus.Pending, PayoutStatus.Approved, PayoutStatus.Processing}

  /** Foreign keys, as the schema enforces them. */
  predicate Linked(b: Books) {
    && (forall i :: 0 <= i < |b.intents| ==> b.intents[i].job < |b.jobs|)
    && (forall t :: 0 <= t < |b.txns| ==> b.txns[t].intent < |b.intents|)
    && (forall r :: 0 <= r < |b.refunds| ==> b.refunds[r].intent < |b.intents|)
    && (forall p :: 0 <= p < |b.payouts| ==> b.payouts[p].intent < |b.intents|)
    && (forall k :: 0 <= k < |b.ledger| ==> b.ledger[k].intent < |b.intents|)
    && (forall k :: 0 <= k < |b.ledger| && b.ledger[k].txn.Some? ==> b.ledger[k].txn.value < |b.txns|)
  }

  /** Stored amounts of an intent: a positive gross split into fee and net. */
  predicate SplitsOk(intents: seq<Intent>) {
    forall i :: 0 <= i < |intents| ==> intents[i].amount >= 1 && intents[i].fee + intents[i].net == intents[i].amount
  }

  // ----- queries -----

  /** The latest intent of a job in one of the given statuses. */
  function LastIntent(intents: seq<Intent>, job: nat, sts: set<IntentStatus>): (r: Option<nat>)
    ensures r.Some? ==> r.value < |intents| && intents[r.value].job == job && intents[r.value].status in sts
    ensures forall i :: (if r.Some? then r.value + 1 else 0) <= i < |intents| ==>
            intents[i].job != job || intents[i].status !in sts
  {
    if intents == [] then None
    else
      var n := |intents| - 1;
      if intents[n].job == job && intents[n].status in sts then Some(n) else LastIntent(intents[..n], job, sts)
  }

  function FindKey(txns: seq<Txn>, key: Key): (r: Option<nat>)
    ensures r.Some? ==> r.value < |txns| && txns[r.value].key == key
    ensures r.None? ==> forall t :: 0 <= t < |txns| ==> txns[t].key != key
  {
    if txns == [] then None
    else
      var n := |txns| - 1;
      if txns[n].key == key then Some(n) else FindKey(txns[..n], key)
  }

  function FindReference(txns: seq<Txn>, gateway: Gateway, reference: string): (r: Option<nat>)
    ensures r.Some? ==> r.value < |txns| && txns[r.value].gateway == gateway && txns[r.value].reference == reference
    ensures r.None? ==> forall t :: 0 <= t < |txns| ==> txns[t].gateway != gateway || txns[t].reference != reference
  {
    if txns == [] then None
    else
      var n := |txns| - 1;
      if txns[n].gateway == gateway && txns[n].reference == reference then Some(n)
      else FindReference(txns[..n], gateway, reference)
  }

  predicate Seen(events: seq<Event>, gateway: Gateway, id: string) {
    exists e :: 0 <= e < |events| && events[e].gateway == gateway && events[e].externalId == Some(id)
  }

  predicate HasActiveRefund(refunds: seq<Refund>, i: nat) {
    exists r :: 0 <= r < |refunds| && refunds[r].intent == i && refunds[r].status in OPEN_REFUND
  }

  /** Sum of the succeeded refunds among the first `n` rows. */
  function RefundedSum(refunds: seq<Refund>, i: nat, n: nat): nat
    requires n <= |refunds|
  {
    if n == 0 then 0
    else
      var last := refunds[n - 1];
      RefundedSum(refunds, i, n - 1) + (if last.intent == i && last.status.Succeeded? then last.amount else 0)
  }

  function Refunded(b: Books, i: nat): nat {
    RefundedSum(b.refunds, i, |b.refunds|)
  }

  /** Sum of the payouts in the given statuses among the first `n` rows. */
  function PayoutSum(payouts: seq<Payout>, i: nat, sts: set<PayoutStatus>, n: nat): nat
    requires n <= |payouts|
  {
    if n == 0 then 0
    else
      var last := payouts[n - 1];
      PayoutSum(payouts, i, sts, n - 1) + (if last.intent == i && last.status in sts then last.amount else 0)
  }

  function PayoutsIn(b: Books, i: nat, sts: set<PayoutStatus>): nat {
    PayoutSum(b.payouts, i, sts, |b.payouts|)
  }

  /** `getRemainingRefundableAmount` */
  function Remaining(b: Books, i: nat): nat
    requires i < |b.intents|
  {
    Max(0, b.intents[i].amount - Refunded(b, i))
  }

  // ----- pure decisions -----

  function TxnStatusOf(g: GatewayStatus): TxnStatus {
    match g
    case Succeeded => TxnStatus.Succeeded
    case Failed => TxnStatus.Failed
    case Reversed => TxnStatus.Reversed
    case Pending => TxnStatus.Processing
  }

  function IntentStatusOf(g: GatewayStatus, deposit: bool): IntentStatus {
    match g
    case Succeeded => if deposit then IntentStatus.PaidPartial else IntentStatus.Succeeded
    case Failed => IntentStatus.Failed
    case _ => IntentStatus.PendingConfirmation
  }

  /** `parseGatewayStatus`, on text already trimmed and upper-cased. */
  function ParseGatewayStatus(text: string): GatewayStatus {
    if text == "SUCCEEDED" || text == "SUCCESS" then GatewayStatus.Succeeded
    else if text == "FAILED" || text == "FAILURE" then GatewayStatus.Failed
    else if text == "REVERSED" then GatewayStatus.Reversed
    else GatewayStatus.Pending
  }

  function ChargeAmount(job: Job): Option<nat> {
    if job.agreedPrice.Some? && job.agreedPrice.value > 0 then job.agreedPrice
    else if job.budget.Some? && job.budget.value > 0 then job.budget
    else None
  }

  /** `resolveSuggestedRefundAmount` */
  function SuggestedRefund(job: Job, remaining: nat): (r: Option<nat>)
    ensures r.Some? <==> remaining > 0 && !job.status.Completed?
    ensures r.Some? ==> 1 <= r.value <= remaining
    ensures r.Some? ==>
              if job.startedAt.Some? || job.status.InProgress? then remaining <= 2 * r.value <= remaining + 1
              else r.value == remaining
  {
    if remaining == 0 || job.status.Completed? then None
    else if job.startedAt.Some? || job.status.InProgress? then Some(Max(1, RoundDiv(remaining, 2)))
    else Some(remaining)
  }

  predicate TransitionAllowed(current: JobStatus, next: JobStatus, isClient: bool, isWorker: bool) {
    && current != next
    && !current.Completed? && !current.Canceled?
    && ((current.Requested? && next.Accepted? && isWorker)
        || (!(current.Requested? && next.Accepted?)
            && ((isWorker && current.Accepted? && next.InProgress?)
                || (isWorker && current.InProgress? && next.Completed?)
                || ((isClient || isWorker) && next.Canceled?))))
  }

  // ----- calls and tickets -----

  datatype Call =
    | CreateIntent(actor: nat, job: nat, via: Option<Gateway>)
    | PayIntent(intent: nat, actor: nat, clientKey: Option<Key>)
    | Webhook(gateway: Gateway, signed: bool, externalId: Option<string>, target: Option<nat>,
              targetReference: Option<string>, text: Option<string>)
    | Reconcile(txn: nat)
    | RequestRefund(job: nat, actor: nat, isAdmin: bool, amountAsked: Option<nat>)
    | CancelRefund(refund: nat, actor: nat, isAdmin: bool)
    | RejectRefund(refund: nat)
    | OpenRefund(intent: nat, actor: nat, amountAsked: Option<nat>)
    | ProcessRefund(refund: nat)
    | CreatePayout(intent: nat, provider: nat, amount: nat, payoutJob: Option<nat>, via: Option<Gateway>)
    | ApprovePayout(payout: nat)
    | ProcessPayout(payout: nat, reference: Option<string>)
    | ReleaseFunds(job: nat)
    | UpdateJob(job: nat, actor: nat, next: JobStatus, reason: bool)
    | OpenJob(client: nat, provider: nat, request: nat, proposal: nat, price: nat, percent: nat, chosen: Gateway)

  datatype Ticket =
    | InsertIntent(row: Intent)
    | ChargeIntent(intent: nat, key: Key)
    | Deliver(txn: nat, status: GatewayStatus, event: nat)
    | ApplyAnswer(txn: nat, stale: Txn)
    | InsertRefund(refundRow: Refund)
    | CloseRefund(refund: nat, outcome: RefundStatus)
    | SettleRefund(refund: nat, platformPart: nat)
    | InsertPayout(payoutRow: Payout)
    | MarkApproved(payout: nat)
    | SettlePayout(payout: nat, reference: Option<string>)
    | ReleaseHeld(intent: nat)
    | WriteJob(job: nat, next: JobStatus, acceptedAt: Option<nat>, startedAt: Option<nat>, completedAt: Option<nat>,
               canceledAt: Option<nat>)
    | InsertJob(jobRow: Job, split: Split, chosen: Gateway)

  /** What the part before the transaction comes to. */
  datatype Start = Refused(fault: Fault) | Settled(books: Books) | Ready(books: Books, ticket: Ticket)

  function BeginCreateIntent(b: Books, c: Config, actor: nat, j: nat, gateway: Option<Gateway>): Start
    requires ValidConfig(c)
  {
    if j >= |b.jobs| then Refused(NotFound)
    else
      var job := b.jobs[j];
      if job.client != actor then Refused(Forbidden)
      else if job.request.None? || job.proposal.None? then Refused(Conflict)
      else if ChargeAmount(job).None? then Refused(Conflict)
      else if LastIntent(b.intents, j, REUSABLE).Some? then Settled(b)
      else
        var s := ComputeSplit(ChargeAmount(job).value, c.feeBps);
        Ready(b, InsertIntent(Intent(j, actor, job.provider, s.gross, s.fee, s.net, IntentStatus.AwaitingPayment,
                                     gateway.GetOr(Internal), false)))
  }

  function BeginPay(b: Books, i: nat, actor: nat, clientKey: Option<Key>, now: nat): Start {
    if i >= |b.intents| then Refused(NotFound)
    else if b.intents[i].customer != actor then Refused(Forbidden)
    else if b.intents[i].status in PAID then Settled(b)
    else if b.intents[i].status !in PAYABLE then Refused(Conflict)
    else
      var known := if clientKey.Some? then FindKey(b.txns, clientKey.value) else None;
      if known.Some? && b.txns[known.value].intent == i then Settled(b)
      else Ready(b, ChargeIntent(i, clientKey.GetOr(ChargeKey(i, now))))
  }

  /** `handleWebhook` up to its transaction: validation, deduplication, the event row, the lookup. */
  function BeginWebhook(b: Books, gateway: Gateway, signed: bool, externalId: Option<string>, target: Option<nat>,
                        targetReference: Option<string>, text: Option<string>): Start {
    if !gateway.Internal? && externalId.None? then Refused(BadRequest)
    else if !gateway.Internal? && !signed then Refused(Forbidden)
    else if externalId.Some? && Seen(b.events, gateway, externalId.value) then Settled(b)
    else
      var b' := b.(events := b.events + [Event(gateway, externalId, false)]);
      var byId := if target.Some? && target.value < |b.txns| then target else None;
      var found := if byId.Some? then byId
                   else if targetReference.Some? then FindReference(b.txns, gateway, targetReference.value)
                   else None;
      if found.None? || text.None? then Settled(b')
      else Ready(b', Deliver(found.value, ParseGatewayStatus(text.value), |b.events|))
  }

  function BeginReconcile(b: Books, t: nat): Start {
    if t >= |b.txns| then Refused(NotFound) else Ready(b, ApplyAnswer(t, b.txns[t]))
  }

  function BeginRequestRefund(b: Books, j: nat, actor: nat, isAdmin: bool, asked: Option<nat>): Start {
    if j >= |b.jobs| then Refused(NotFound)
    else
      var job := b.jobs[j];
      var paid := LastIntent(b.intents, j, PAID);
      if !isAdmin && job.client != actor && job.provider != actor then Refused(Forbidden)
      else if paid.None? then Refused(Conflict)
      else if HasActiveRefund(b.refunds, paid.value) then Refused(Conflict)
      else
        var remaining := Remaining(b, paid.value);
        var amount := asked.GetOr(SuggestedRefund(job, remaining).GetOr(remaining));
        if remaining == 0 then Refused(Conflict)
        else if amount > remaining then Refused(BadRequest)
        else Ready(b, InsertRefund(Refund(j, paid.value, actor, amount, RefundStatus.Pending, None)))
  }

  function BeginCancelRefund(b: Books, r: nat, actor: nat, isAdmin: bool): Start
    requires Linked(b)
  {
    if r >= |b.refunds| then Refused(NotFound)
    else
      var job := b.jobs[b.intents[b.refunds[r].intent].job];
      if !isAdmin && job.client != actor && job.provider != actor then Refused(Forbidden)
      else if !isAdmin && b.refunds[r].requester != actor then Refused(Forbidden)
      else if b.refunds[r].status != RefundStatus.Pending then Refused(Conflict)
      else Ready(b, CloseRefund(r, RefundStatus.Canceled))
  }

  function BeginRejectRefund(b: Books, r: nat): Start {
    if r >= |b.refunds| then Refused(NotFound)
    else if b.refunds[r].status != RefundStatus.Pending then Refused(Conflict)
    else Ready(b, CloseRefund(r, RefundStatus.Failed))
  }

  /** `adminCreateRefund` up to the inserted request; it goes on with `BeginProcessRefund`. */
  function BeginOpenRefund(b: Books, i: nat, actor: nat, asked: Option<nat>): Start {
    if i >= |b.intents| then Refused(NotFound)
    else if b.intents[i].status !in PAID then Refused(Conflict)
    else
      var remaining := Remaining(b, i);
      var amount := asked.GetOr(remaining);
      if remaining == 0 then Refused(Conflict)
      else if amount > remaining then Refused(BadRequest)
      else Ready(b, InsertRefund(Refund(b.intents[i].job, i, actor, amount, RefundStatus.Pending, None)))
  }

  /** The platform's part of a refund, computed before the transaction. */
  function PlatformPart(b: Books, r: nat): nat
    requires Linked(b) && SplitsOk(b.intents) && r < |b.refunds|
  {
    var intent := b.intents[b.refunds[r].intent];
    RefundShare(b.refunds[r].amount, intent.fee, intent.amount)
  }

  function BeginProcessRefund(b: Books, r: nat): Start
    requires Linked(b) && SplitsOk(b.intents)
  {
    if r >= |b.refunds| then Refused(NotFound)
    else
      var row := b.refunds[r];
      var intent := b.intents[row.intent];
      if row.status != RefundStatus.Pending then Refused(Conflict)
      else if intent.status !in PAID then Refused(Conflict)
      else if row.amount > Remaining(b, row.intent) then Refused(BadRequest)
      else Ready(b, SettleRefund(r, PlatformPart(b, r)))
  }

  function BeginCreatePayout(b: Books, i: nat, provider: nat, amount: nat, job: Option<nat>,
                             gateway: Option<Gateway>): Start {
    if i >= |b.intents| then Refused(NotFound)
    else if b.intents[i].provider != provider then Refused(BadRequest)
    else if amount > Net(b.ledger, i, ProviderAvailable) - PayoutsIn(b, i, RESERVING) then Refused(Conflict)
    else Ready(b, InsertPayout(Payout(job.GetOr(b.intents[i].job), i, provider, amount, PayoutStatus.Pending,
                                      gateway.GetOr(b.intents[i].gateway))))
  }

  function BeginApprovePayout(b: Books, p: nat): Start {
    if p >= |b.payouts| then Refused(NotFound)
    else if b.payouts[p].status != PayoutStatus.Pending then Refused(Conflict)
    else Ready(b, MarkApproved(p))
  }

  function BeginProcessPayout(b: Books, p: nat, reference: Option<string>): Start {
    if p >= |b.payouts| then Refused(NotFound)
    else if b.payouts[p].status != PayoutStatus.Approved then Refused(Conflict)
    else if FindKey(b.txns, PayoutKey(p)).Some? then Settled(b)
    else Ready(b, SettlePayout(p, reference))
  }

  function BeginRelease(b: Books, c: Config, j: nat, now: nat): Start {
    if j >= |b.jobs| then Refused(NotFound)
    else if !b.jobs[j].status.Completed? then Refused(Conflict)
    else if !CanRelease(c, b.jobs[j].completedAt, now) then Refused(Conflict)
    else
      var paid := LastIntent(b.intents, j, PAID);
      if paid.None? then Refused(NotFound) else Ready(b, ReleaseHeld(paid.value))
  }

  /** `updateStatus`; `reason` tells whether a cancel reason came with the call. */
  function BeginUpdateJob(b: Books, j: nat, actor: nat, next: JobStatus, reason: bool, now: nat): Start {
    if j >= |b.jobs| then Refused(NotFound)
    else
      var job := b.jobs[j];
      var isClient, isWorker := job.client == actor, job.provider == actor;
      if !isClient && !isWorker then Refused(Forbidden)
      else if next in EXECUTION && (job.request.None? || job.proposal.None?) then Refused(Conflict)
      else if next in EXECUTION && LastIntent(b.intents, j, PAID).None? then Refused(Conflict)
      else if !TransitionAllowed(job.status, next, isClient, isWorker) then Refused(Conflict)
      else if reason != next.Canceled? then Refused(BadRequest)
      else Ready(b, WriteJob(j, next,
                             if next.Accepted? && job.acceptedAt.None? then Some(now) else None,
                             if next.InProgress? && job.startedAt.None? then Some(now) else None,
                             if next.Completed? && job.completedAt.None? then Some(now) else None,
                             if next.Canceled? && job.canceledAt.None? then Some(now) else None))
  }

  /** The job and deposit intent that a proposal selection creates. */
  function BeginOpenJob(b: Books, c: Config, client: nat, provider: nat, request: nat, proposal: nat, price: nat,
                        percent: nat, chosen: Gateway): Start
    requires ValidConfig(c) && 20 <= percent <= 30
  {
    if price == 0 then Refused(BadRequest)
    else Ready(b, InsertJob(Job(client, provider, Some(request), Some(proposal), Some(price), Some(price), Requested,
                                None, None, None, None, None),
                            ComputeDepositSplit(price, percent, c.feeBps), chosen))
  }

  /** The DTO bounds: a deposit percentage between 20 and 30, a payout of at least one unit. */
  predicate ValidCall(call: Call) {
    && (call.OpenJob? ==> 20 <= call.percent <= 30)
    && (call.CreatePayout? ==> call.amount >= 1)
  }

  function Begin(b: Books, c: Config, call: Call, now: nat): Start
    requires ValidConfig(c) && ValidCall(call) && Linked(b) && SplitsOk(b.intents)
  {
    match call
    case CreateIntent(actor, job, gateway) => BeginCreateIntent(b, c, actor, job, gateway)
    case PayIntent(i, actor, key) => BeginPay(b, i, actor, key, now)
    case Webhook(gateway, signed, id, target, reference, text) =>
      BeginWebhook(b, gateway, signed, id, target, reference, text)
    case Reconcile(t) => BeginReconcile(b, t)
    case RequestRefund(j, actor, isAdmin, asked) => BeginRequestRefund(b, j, actor, isAdmin, asked)
    case CancelRefund(r, actor, isAdmin) => BeginCancelRefund(b, r, actor, isAdmin)
    case RejectRefund(r) => BeginRejectRefund(b, r)
    case OpenRefund(i, actor, asked) => BeginOpenRefund(b, i, actor, asked)
    case ProcessRefund(r) => BeginProcessRefund(b, r)
    case CreatePayout(i, provider, amount, job, gateway) => BeginCreatePayout(b, i, provider, amount, job, gateway)
    case ApprovePayout(p) => BeginApprovePayout(b, p)
    case ProcessPayout(p, reference) => BeginProcessPayout(b, p, reference)
    case ReleaseFunds(j) => BeginRelease(b, c, j, now)
    case UpdateJob(j, actor, next, reason) => BeginUpdateJob(b, j, actor, next, reason, now)
    case OpenJob(client, provider, request, proposal, price, percent, chosen) =>
      BeginOpenJob(b, c, client, provider, request, proposal, price, percent, chosen)
  }

  // ----- transaction bodies -----

  /** Both unique constraints on transactions; a violation rolls the whole body back. */
  predicate Insertable(txns: seq<Txn>, key: Key, gateway: Gateway, reference: string) {
    FindKey(txns, key).None? && FindReference(txns, gateway, reference).None?
  }

  predicate ChargePosted(l: seq<Entry>, t: nat) {
    Tally(Posts(t, CustomerCharge, CustomerExternal), l) > 0
  }

  /** `applyGatewayStatus` on transaction `t`, whose row was read as `row`, possibly long before. */
  function Apply(b: Books, t: nat, row: Txn, g: GatewayStatus, now: nat): Books
    requires Linked(b) && t < |b.txns|
  {
    var status := TxnStatusOf(g);
    var i := b.txns[t].intent;
    var intent := b.intents[i];
    var paid := status.Succeeded?;
    var confirmed := if paid then Some(row.requested) else row.confirmed;
    b.(txns := b.txns[t := b.txns[t].(status := status, confirmed := confirmed)],
       intents := b.intents[i := intent.(status := IntentStatusOf(g, intent.deposit))],
       ledger := b.ledger + (if paid && !ChargePosted(b.ledger, t)
                             then ChargeEntries(intent.job, i, t, intent.amount, intent.fee, intent.net) else []),
       jobs := if paid then b.jobs[intent.job := b.jobs[intent.job].(contactUnlockedAt := Some(now))] else b.jobs)
  }

  function ConfirmedFor(g: GatewayStatus, amount: nat): Option<nat> {
    if g.Succeeded? then Some(amount) else None
  }

  function CommitCharge(b: Books, i: nat, key: Key, a: Answer, now: nat): Result<Books>
    requires Linked(b) && i < |b.intents|
  {
    var intent := b.intents[i];
    if !Insertable(b.txns, key, intent.gateway, a.reference) then Err(Conflict)
    else
      var row := Txn(i, Charge, TxnStatusOf(a.status), intent.gateway, a.reference, key, intent.amount,
                     ConfirmedFor(a.status, intent.amount));
      Ok(Apply(b.(txns := b.txns + [row]), |b.txns|, row, a.status, now))
  }

  function RefundStatusOf(s: TxnStatus): RefundStatus {
    match s
    case Succeeded => RefundStatus.Succeeded
    case Failed => RefundStatus.Failed
    case _ => RefundStatus.Processing
  }

  /** The body of `processRefundRequest`, with `appendRefundLedgerEntries`. */
  function CommitRefund(b: Books, r: nat, platformPart: nat, a: Answer): Result<Books>
    requires Linked(b) && r < |b.refunds| && platformPart <= b.refunds[r].amount
  {
    var row := b.refunds[r];
    var i := row.intent;
    var gateway := b.intents[i].gateway;
    var t := |b.txns|;
    var providerPart: nat := row.amount - platformPart;
    var held := Net(b.ledger, i, ProviderHeld);
    if row.status != RefundStatus.Pending then Err(Conflict)
    else if !Insertable(b.txns, RefundKey(r), gateway, a.reference) then Err(Conflict)
    else
      var status := TxnStatusOf(a.status);
      var b' := b.(txns := b.txns + [Txn(i, Refunding, status, gateway, a.reference, RefundKey(r), row.amount,
                                         ConfirmedFor(a.status, row.amount))],
                   refunds := b.refunds[r := row.(status := RefundStatusOf(status), txn := Some(t))]);
      if !status.Succeeded? then Ok(b')
      else if platformPart > Net(b.ledger, i, PlatformReserved) then Err(Conflict)
      else if providerPart > held + Net(b.ledger, i, ProviderAvailable) then Err(Conflict)
      else
        var heldDebit := Min(held, providerPart);
        Ok(b'.(ledger := b.ledger + RefundEntries(b.intents[i].job, i, t, row.amount, platformPart, heldDebit,
                                                  providerPart - heldDebit)))
  }

  function PayoutStatusOf(s: TxnStatus): PayoutStatus {
    match s
    case Succeeded => PayoutStatus.Paid
    case Failed => PayoutStatus.Failed
    case _ => PayoutStatus.Processing
  }

  /** The body of `adminProcessPayout`. */
  function CommitPayout(b: Books, p: nat, reference: Option<string>, a: Answer): Result<Books>
    requires p < |b.payouts|
  {
    var row := b.payouts[p];
    var t := |b.txns|;
    if row.status != PayoutStatus.Approved then Err(Conflict)
    else if FindKey(b.txns, PayoutKey(p)).Some? then Ok(b)
    else if FindReference(b.txns, row.gateway, reference.GetOr(a.reference)).Some? then Err(Conflict)
    else
      var status := TxnStatusOf(a.status);
      var b' := b.(txns := b.txns + [Txn(row.intent, Payment, status, row.gateway, reference.GetOr(a.reference),
                                         PayoutKey(p),
                                         row.amount, ConfirmedFor(a.status, row.amount))],
                   payouts := b.payouts[p := row.(status := PayoutStatusOf(status))]);
      if !status.Succeeded? then Ok(b')
      else if row.amount > Net(b.ledger, row.intent, ProviderAvailable) then Err(Conflict)
      else Ok(b'.(ledger := b.ledger + PayoutEntries(row.job, row.intent, t, row.amount)))
  }

  /** The body of `adminReleaseProviderFunds`. */
  function CommitRelease(b: Books, i: nat): Result<Books>
    requires i < |b.intents|
  {
    var held := Net(b.ledger, i, ProviderHeld);
    if held <= 0 then Err(Conflict)
    else Ok(b.(ledger := b.ledger + ReleaseEntries(b.intents[i].job, i, held)))
  }

  function Later(a: Option<nat>, before: Option<nat>): Option<nat> {
    if a.Some? then a else before
  }

  /** Unpaid intents of a canceled job are canceled with it. */
  function CancelUnpaid(intents: seq<Intent>, job: nat): (r: seq<Intent>)
    ensures |r| == |intents|
    ensures forall i :: 0 <= i < |r| ==>
              r[i] == if intents[i].job == job && intents[i].status in UNPAID
                      then intents[i].(status := IntentStatus.Canceled) else intents[i]
  {
    if intents == [] then []
    else
      var x := intents[|intents| - 1];
      CancelUnpaid(intents[..|intents| - 1], job)
      + [if x.job == job && x.status in UNPAID then x.(status := IntentStatus.Canceled) else x]
  }

  function CommitJob(b: Books, t: Ticket): Books
    requires t.WriteJob? && t.job < |b.jobs|
  {
    var job := b.jobs[t.job];
    b.(jobs := b.jobs[t.job := job.(status := t.next,
                                    acceptedAt := Later(t.acceptedAt, job.acceptedAt),
                                    startedAt := Later(t.startedAt, job.startedAt),
                                    completedAt := Later(t.completedAt, job.completedAt),
                                    canceledAt := Later(t.canceledAt, job.canceledAt))],
       intents := if t.next.Canceled? then CancelUnpaid(b.intents, t.job) else b.intents)
  }

  predicate RequestTaken(jobs: seq<Job>, request: Option<nat>) {
    exists j :: 0 <= j < |jobs| && jobs[j].request == request
  }

  /** The rows a selection inserts; the unique constraint on `requestId` allows one job per request. */
  function CommitOpenJob(b: Books, job: Job, s: Split, gateway: Gateway): Result<Books> {
    if RequestTaken(b.jobs, job.request) then Err(Conflict)
    else Ok(b.(jobs := b.jobs + [job],
               intents := b.intents + [Intent(|b.jobs|, job.client, job.provider, s.gross, s.fee, s.net,
                                              IntentStatus.AwaitingPayment, gateway, true)]))
  }

  /** A ticket's ids and amounts make sense in `b`; once true this stays true. */
  predicate TicketOk(b: Books, t: Ticket)
    requires Linked(b)
  {
    match t
    case InsertIntent(row) =>
      row.job < |b.jobs| && row.amount >= 1 && row.fee + row.net == row.amount && row.status.AwaitingPayment?
    case ChargeIntent(i, _) => i < |b.intents|
    case Deliver(x, _, e) => x < |b.txns| && e < |b.events|
    case ApplyAnswer(x, row) => x < |b.txns| && row.requested == b.txns[x].requested
    case InsertRefund(row) => row.intent < |b.intents| && row.status == RefundStatus.Pending && row.txn.None?
    case CloseRefund(r, outcome) => r < |b.refunds| && (outcome.Canceled? || outcome.Failed?)
    case SettleRefund(r, part) =>
      && r < |b.refunds|
      && var row := b.refunds[r]; var intent := b.intents[row.intent];
         intent.fee <= intent.amount && part == RefundShare(row.amount, intent.fee, intent.amount)
    case InsertPayout(row) => row.intent < |b.intents| && row.amount >= 1 && row.status == PayoutStatus.Pending
    case MarkApproved(p) => p < |b.payouts|
    case SettlePayout(p, _) => p < |b.payouts|
    case ReleaseHeld(i) => i < |b.intents|
    case WriteJob(j, _, _, _, _, _) => j < |b.jobs|
    case InsertJob(job, s, _) =>
      && Balanced(s) && s.gross >= 1 && job.status == Requested
      && job.acceptedAt.None? && job.startedAt.None? && job.completedAt.None? && job.contactUnlockedAt.None?
  }

  function Commit(b: Books, t: Ticket, a: Answer, now: nat): Result<Books>
    requires Linked(b) && TicketOk(b, t)
  {
    match t
    case InsertIntent(row) => Ok(b.(intents := b.intents + [row]))
    case ChargeIntent(i, key) => CommitCharge(b, i, key, a, now)
    case Deliver(x, g, e) =>
      Ok(Apply(b, x, b.txns[x], g, now).(events := b.events[e := b.events[e].(processed := true)]))
    case ApplyAnswer(x, row) => Ok(Apply(b, x, row, a.status, now))
    case InsertRefund(row) => Ok(b.(refunds := b.refunds + [row]))
    case CloseRefund(r, outcome) => Ok(b.(refunds := b.refunds[r := b.refunds[r].(status := outcome)]))
    case SettleRefund(r, part) => CommitRefund(b, r, part, a)
    case InsertPayout(row) => Ok(b.(payouts := b.payouts + [row]))
    case MarkApproved(p) => Ok(b.(payouts := b.payouts[p := b.payouts[p].(status := PayoutStatus.Approved)]))
    case SettlePayout(p, reference) => CommitPayout(b, p, reference, a)
    case ReleaseHeld(i) => CommitRelease(b, i)
    case WriteJob(_, _, _, _, _, _) => Ok(CommitJob(b, t))
    case InsertJob(job, s, gateway) => CommitOpenJob(b, job, s, gateway)
  }

  /** The tables after a transaction: its result, or what was there if it was rolled back. */
  function After(b: Books, r: Result<Books>): Books {
    if r.Ok? then r.value else b
  }
}
