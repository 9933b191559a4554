/**
 * PaymentsService and JobsService in their own, step-by-step form. Each method leaves the tables, and
 * reports the fault, that its `Begin` and `Commit` say; a transaction that fails part-way puts back what
 * it had found. `BecomesPerforms` carries the results about runs over to these methods.
 */
module PaymentsService {
  import opened Common
  import opened Policy
  import opened Ledger
  import opened Payments
  import opened Safety
  import opened Growth
  import opened Runs

  /** The tables `b'` and the fault that follow from a start `s` and the gateway answer `a`. */
  ghost predicate Becomes(b: Books, s: Start, a: Answer, now: nat, b': Books, fault: Option<Fault>) {
    match s
    case Refused(f) => b' == b && fault == Some(f)
    case Settled(x) => b' == x && fault == None
    case Ready(x, t) =>
      && Linked(x) && TicketOk(x, t)
      && var r := Commit(x, t, a, now);
         b' == After(x, r) && fault == if r.Ok? then None else Some(r.fault)
  }

  /** What a method does is what the atomic step `Perform` does, and it keeps the invariant of all runs. */
  lemma BecomesPerforms(b: Books, c: Config, call: Call, a: Answer, now: nat, b': Books, fault: Option<Fault>)
    requires ValidConfig(c) && ValidCall(call) && Base(b) && Becomes(b, Begin(b, c, call, now), a, now, b', fault)
    ensures b' == Perform(b, c, call, a, now) && fault == FaultOf(b, c, call, a, now) && Base(b')
  {
  }

  /** The shared tables. */
  class Store {
    var jobs: seq<Job>
    var intents: seq<Intent>
    var txns: seq<Txn>
    var refunds: seq<Refund>
    var payouts: seq<Payout>
    var events: seq<Event>
    var ledger: seq<Entry>

    constructor ()
      ensures Tables() == EMPTY_BOOKS
    {
      jobs, intents, txns, refunds, payouts, events, ledger := [], [], [], [], [], [], [];
    }

    function Tables(): Books
      reads this
    {
      Books(jobs, intents, txns, refunds, payouts, events, ledger)
    }

    /** A transaction rolled back. */
    method Restore(b: Books)
      modifies this
      ensures Tables() == b
    {
      jobs, intents, txns, refunds := b.jobs, b.intents, b.txns, b.refunds;
      payouts, events, ledger := b.payouts, b.events, b.ledger;
    }

    /** `appendEntries` */
    method AppendEntries(entries: seq<Entry>)
      modifies this
      ensures Tables() == old(Tables()).(ledger := old(ledger) + entries)
    {
      if |entries| == 0 {
        assert ledger + entries == ledger;
        return;
      }
      ledger := ledger + entries;
    }
  }

  /** What one reconciliation batch reports. */
  datatype Summary = Summary(scanned: nat, reconciled: nat, succeeded: nat, failed: nat, reversed: nat,
                             stillPending: nat, errors: nat)

  class PaymentsService {
    const config: Config
    const store: Store

    constructor (config: Config, store: Store)
      ensures this.config == config && this.store == store
    {
      this.config, this.store := config, store;
    }

    /** What the schema and the configuration guarantee. */
    ghost predicate Valid()
      reads store
    {
      ValidConfig(config) && Linked(store.Tables()) && SplitsOk(store.intents)
    }

    /** `ensureChargeLedgerEntries` */
    method EnsureChargeLedgerEntries(t: nat, i: nat)
      requires i < |store.intents|
      modifies store
      ensures var b := old(store.Tables());
              var row := b.intents[i];
              store.Tables() == if ChargePosted(b.ledger, t) then b
                                else b.(ledger := b.ledger + ChargeEntries(row.job, i, t, row.amount, row.fee, row.net))
    {
      var existing := false;
      for k := 0 to |store.ledger|
        invariant existing <==> Sum(Posts(t, CustomerCharge, CustomerExternal), store.ledger, k) > 0
        invariant Sum(Posts(t, CustomerCharge, CustomerExternal), store.ledger, k) >= 0
        invariant store.Tables() == old(store.Tables())
      {
        var e := store.ledger[k];
        if e.txn == Some(t) && e.kind == CustomerCharge && e.bucket == CustomerExternal {
          existing := true;
        }
      }
      if existing {
        return;
      }
      var row := store.intents[i];
      store.AppendEntries(
        [ Entry(row.job, i, Some(t), Customer, CustomerCharge, row.amount, Debit, CustomerExternal),
          Entry(row.job, i, Some(t), Platform, PlatformFeeReserved, row.fee, Credit, PlatformReserved),
          Entry(row.job, i, Some(t), Provider, ProviderBalanceHeld, row.net, Credit, ProviderHeld) ]);
    }

    /** `applyGatewayStatus`, on a row read at some earlier time. */
    method ApplyGatewayStatus(t: nat, row: Txn, g: GatewayStatus, now: nat)
      requires Linked(store.Tables()) && t < |store.txns|
      modifies store
      ensures store.Tables() == Apply(old(store.Tables()), t, row, g, now)
      ensures Linked(store.Tables()) && |store.txns| == |old(store.txns)| && |store.events| == |old(store.events)|
      ensures SplitsOk(old(store.intents)) ==> SplitsOk(store.intents)
    {
      hide ChargePosted;
      hide ChargeEntries;
      hide IntentStatusOf;
      hide SplitsOk;
      ApplyLinks(store.Tables(), t, row, g, now);
      var status := TxnStatusOf(g);
      var confirmed := if status.Succeeded? then Some(row.requested) else row.confirmed;
      store.txns := store.txns[t := store.txns[t].(status := status, confirmed := confirmed)];
      var i := store.txns[t].intent;
      var intent := store.intents[i];
      var next := IntentStatusOf(g, intent.deposit);
      if intent.status != next {
        store.intents := store.intents[i := intent.(status := next)];
      }
      assert store.intents == old(store.intents)[i := intent.(status := next)];
      if status.Succeeded? {
        EnsureChargeLedgerEntries(t, i);
        store.jobs := store.jobs[intent.job := store.jobs[intent.job].(contactUnlockedAt := Some(now))];
      } else {
        assert store.ledger + [] == store.ledger;
      }
    }

    method CreateIntent(actor: nat, j: nat, via: Option<Gateway>, a: Answer, now: nat) returns (fault: Option<Fault>)
      requires Valid()
      modifies store
      ensures Valid()
      ensures Becomes(old(store.Tables()), BeginCreateIntent(old(store.Tables()), config, actor, j, via), a, now,
                      store.Tables(), fault)
    {
      if j >= |store.jobs| {
        return Some(NotFound);
      }
      var job := store.jobs[j];
      if job.client != actor {
        return Some(Forbidden);
      }
      if job.request.None? || job.proposal.None? {
        return Some(Conflict);
      }
      var amount := ChargeAmount(job);
      if amount.None? {
        return Some(Conflict);
      }
      var existing := LastIntent(store.intents, j, REUSABLE);
      if existing.Some? {
        return None;
      }
      var split := ComputeSplit(amount.value, config.feeBps);
      store.intents := store.intents + [Intent(j, actor, job.provider, split.gross, split.fee, split.net,
                                               IntentStatus.AwaitingPayment, via.GetOr(Internal), false)];
      fault := None;
    }

    method PayIntent(i: nat, actor: nat, clientKey: Option<Key>, a: Answer, now: nat) returns (fault: Option<Fault>)
      requires Valid()
      modifies store
      ensures Valid()
      ensures Becomes(old(store.Tables()), BeginPay(old(store.Tables()), i, actor, clientKey, now), a, now,
                      store.Tables(), fault)
    {
      if i >= |store.intents| {
        return Some(NotFound);
      }
      var intent := store.intents[i];
      if intent.customer != actor {
        return Some(Forbidden);
      }
      if intent.status in PAID {
        return None;
      }
      if intent.status !in PAYABLE {
        return Some(Conflict);
      }
      var key := clientKey.GetOr(ChargeKey(i, now));
      if clientKey.Some? {
        var known := FindKey(store.txns, key);
        if known.Some? && store.txns[known.value].intent == i {
          return None;
        }
      }
      fault := RecordCharge(i, key, a, now);
    }

    /** The transaction of `payIntent`. */
    method RecordCharge(i: nat, key: Key, a: Answer, now: nat) returns (fault: Option<Fault>)
      requires Valid() && i < |store.intents|
      modifies store
      ensures Valid()
      ensures var c := CommitCharge(old(store.Tables()), i, key, a, now);
              store.Tables() == After(old(store.Tables()), c) && fault == if c.Ok? then None else Some(c.fault)
    {
      var intent := store.intents[i];
      if !Insertable(store.txns, key, intent.gateway, a.reference) {
        return Some(Conflict);
      }
      var status := TxnStatusOf(a.status);
      var confirmed := if status.Succeeded? then Some(intent.amount) else None;
      var row := Txn(i, Charge, status, intent.gateway, a.reference, key, intent.amount, confirmed);
      store.txns := store.txns + [row];
      ApplyGatewayStatus(|store.txns| - 1, row, a.status, now);
      fault := None;
    }

    method HandleWebhook(gateway: Gateway, signed: bool, externalId: Option<string>, target: Option<nat>,
                         targetReference: Option<string>, text: Option<string>, a: Answer,
                             now: nat) returns (fault: Option<Fault>)
      requires Valid()
      modifies store
      ensures Valid()
      ensures Becomes(old(store.Tables()),
                      BeginWebhook(old(store.Tables()), gateway, signed, externalId, target, targetReference, text),
                      a, now, store.Tables(), fault)
    {
      hide Seen;
      hide ParseGatewayStatus;
      hide FindReference;
      hide Apply;
      if gateway != Internal {
        if externalId.None? {
          return Some(BadRequest);
        }
        if !signed {
          return Some(Forbidden);
        }
      }
      if externalId.Some? {
        var seen := IsSeen(gateway, externalId.value);
        if seen {
          return None;
        }
      }
      var event := |store.events|;
      store.events := store.events + [Event(gateway, externalId, false)];
      var txn := if target.Some? && target.value < |store.txns| then target else None;
      if txn.None? && targetReference.Some? {
        txn := FindReference(store.txns, gateway, targetReference.value);
      }
      if txn.None? || text.None? {
        return None;
      }
      DeliverStatus(txn.value, ParseGatewayStatus(text.value), event, now);
      fault := None;
    }

    /** The transaction of `handleWebhook`, on the row as it is by then, and the mark on the event. */
    method DeliverStatus(t: nat, g: GatewayStatus, event: nat, now: nat)
      requires Valid() && t < |store.txns| && event < |store.events|
      modifies store
      ensures Valid()
      ensures var b := old(store.Tables());
              var events := b.events[event := b.events[event].(processed := true)];
              store.Tables() == Apply(b, t, b.txns[t], g, now).(events := events)
    {
      ApplyGatewayStatus(t, store.txns[t], g, now);
      store.events := store.events[event := store.events[event].(processed := true)];
    }

    method IsSeen(gateway: Gateway, id: string) returns (seen: bool)
      ensures seen <==> Seen(store.events, gateway, id)
    {
      for e := 0 to |store.events|
        invariant forall k :: 0 <= k < e ==> !(store.events[k].gateway == gateway
                                               && store.events[k].externalId == Some(id))
      {
        if store.events[e].gateway == gateway && store.events[e].externalId == Some(id) {
          return true;
        }
      }
      seen := false;
    }

    method ReconcileTransaction(t: nat, a: Answer, now: nat) returns (fault: Option<Fault>)
      requires Valid()
      modifies store
      ensures Valid()
      ensures Becomes(old(store.Tables()), BeginReconcile(old(store.Tables()), t), a, now, store.Tables(), fault)
      ensures fault.None? <==> t < |old(store.txns)|
      ensures fault.None? ==> t < |store.txns| && store.txns[t].status == TxnStatusOf(a.status)
      ensures |store.txns| == |old(store.txns)|
    {
      if t >= |store.txns| {
        return Some(NotFound);
      }
      ApplyGatewayStatus(t, store.txns[t], a.status, now);
      fault := None;
    }

    /**
     * `reconcilePendingChargeTransactions` over the scanned ids: every one is counted exactly once; a
     * gateway that does not answer (None) is an error of that id alone.
     */
    method ReconcilePending(scanned: seq<nat>, answers: seq<Option<Answer>>, now: nat) returns (s: Summary)
      requires Valid() && |answers| == |scanned| && forall k :: 0 <= k < |scanned| ==> scanned[k] < |store.txns|
      modifies store
      ensures Valid()
      ensures s.scanned == |scanned| == s.reconciled + s.errors
      ensures s.reconciled == s.succeeded + s.failed + s.reversed + s.stillPending
      ensures s.succeeded == Answered(answers, GatewayStatus.Succeeded)
              && s.failed == Answered(answers, GatewayStatus.Failed)
      ensures s.reversed == Answered(answers, GatewayStatus.Reversed)
              && s.stillPending == Answered(answers, GatewayStatus.Pending)
      ensures Reconciled(old(store.Tables()), scanned, answers, now, store.Tables())
    {
      hide Reconciled;
      hide Answered;
      hide Becomes;
      ReconciledNone(store.Tables(), now);
      s := Summary(|scanned|, 0, 0, 0, 0, 0, 0);
      var k := 0;
      while k < |scanned|
        invariant 0 <= k <= |scanned| && Valid() && |store.txns| == |old(store.txns)|
        invariant s.scanned == |scanned| && s.reconciled + s.errors == k
        invariant s.reconciled == s.succeeded + s.failed + s.reversed + s.stillPending
        invariant s.succeeded == Answered(answers[..k], GatewayStatus.Succeeded)
                  && s.failed == Answered(answers[..k], GatewayStatus.Failed)
        invariant s.reversed == Answered(answers[..k], GatewayStatus.Reversed)
                  && s.stillPending == Answered(answers[..k], GatewayStatus.Pending)
        invariant Reconciled(old(store.Tables()), scanned[..k], answers[..k], now, store.Tables())
      {
        ghost var before := store.Tables();
        AnsweredStep(answers, k);
        match answers[k] {
          case None =>
            s := s.(errors := s.errors + 1);
          case Some(a) =>
            var fault := ReconcileTransaction(scanned[k], a, now);
            s := s.(reconciled := s.reconciled + 1);
            match store.txns[scanned[k]].status {
              case Succeeded => s := s.(succeeded := s.succeeded + 1);
              case Failed => s := s.(failed := s.failed + 1);
              case Reversed => s := s.(reversed := s.reversed + 1);
              case Processing => s := s.(stillPending := s.stillPending + 1);
            }
        }
        ReconciledStep(old(store.Tables()), scanned, answers, now, before, store.Tables(), k);
        k := k + 1;
      }
      assert answers[..k] == answers && scanned[..k] == scanned;
    }

    /** Sum of the succeeded refunds of an intent, taken from its amount. */
    method GetRemainingRefundableAmount(i: nat) returns (r: nat)
      requires i < |store.intents|
      ensures r == Remaining(store.Tables(), i)
    {
      var sum := 0;
      for k := 0 to |store.refunds|
        invariant sum == RefundedSum(store.refunds, i, k)
      {
        var row := store.refunds[k];
        if row.intent == i && row.status == RefundStatus.Succeeded {
          sum := sum + row.amount;
        }
      }
      r := Max(0, store.intents[i].amount - sum);
    }

    method CreateJobRefundRequest(j: nat, actor: nat, isAdmin: bool, asked: Option<nat>, a: Answer,
                                  now: nat) returns (fault: Option<Fault>)
      requires Valid()
      modifies store
      ensures Valid()
      ensures Becomes(old(store.Tables()), BeginRequestRefund(old(store.Tables()), j, actor, isAdmin, asked), a, now,
                      store.Tables(), fault)
    {
      if j >= |store.jobs| {
        return Some(NotFound);
      }
      var job := store.jobs[j];
      if !isAdmin && job.client != actor && job.provider != actor {
        return Some(Forbidden);
      }
      var paid := LastIntent(store.intents, j, PAID);
      if paid.None? {
        return Some(Conflict);
      }
      if HasActiveRefund(store.refunds, paid.value) {
        return Some(Conflict);
      }
      var remaining := GetRemainingRefundableAmount(paid.value);
      if remaining <= 0 {
        return Some(Conflict);
      }
      var suggested := SuggestedRefund(job, remaining);
      var amount := if asked.Some? then asked.value else if suggested.Some? then suggested.value else remaining;
      if amount > remaining {
        return Some(BadRequest);
      }
      store.refunds := store.refunds + [Refund(j, paid.value, actor, amount, RefundStatus.Pending, None)];
      fault := None;
    }

    method CancelRefundRequest(r: nat, actor: nat, isAdmin: bool, a: Answer, now: nat) returns (fault: Option<Fault>)
      requires Valid()
      modifies store
      ensures Valid()
      ensures Becomes(old(store.Tables()), BeginCancelRefund(old(store.Tables()), r, actor, isAdmin), a, now,
                      store.Tables(), fault)
    {
      if r >= |store.refunds| {
        return Some(NotFound);
      }
      var row := store.refunds[r];
      var job := store.jobs[store.intents[row.intent].job];
      if !isAdmin && job.client != actor && job.provider != actor {
        return Some(Forbidden);
      }
      if !isAdmin && row.requester != actor {
        return Some(Forbidden);
      }
      if row.status != RefundStatus.Pending {
        return Some(Conflict);
      }
      store.refunds := store.refunds[r := row.(status := RefundStatus.Canceled)];
      fault := None;
    }

    method AdminRejectRefund(r: nat, a: Answer, now: nat) returns (fault: Option<Fault>)
      requires Valid()
      modifies store
      ensures Valid()
      ensures Becomes(old(store.Tables()), BeginRejectRefund(old(store.Tables()), r), a, now, store.Tables(), fault)
    {
      if r >= |store.refunds| {
        return Some(NotFound);
      }
      if store.refunds[r].status != RefundStatus.Pending {
        return Some(Conflict);
      }
      store.refunds := store.refunds[r := store.refunds[r].(status := RefundStatus.Failed)];
      fault := None;
    }

    /** `adminCreateRefund`: insert a request, then process it; a refused processing leaves the request pending. */
    method AdminCreateRefund(i: nat, actor: nat, asked: Option<nat>, a: Answer, now: nat) returns (fault: Option<Fault>)
      requires Valid()
      modifies store
      ensures Valid()
      ensures var b := old(store.Tables());
              match BeginOpenRefund(b, i, actor, asked)
              case Refused(f) => store.Tables() == b && fault == Some(f)
              case Settled(_) => false
              case Ready(_, t) =>
                var inserted := b.(refunds := b.refunds + [t.refundRow]);
                Linked(inserted) && Becomes(inserted, BeginProcessRefund(inserted, |b.refunds|), a, now,
                                            store.Tables(), fault)
    {
      hide BeginProcessRefund;
      hide Commit;
      if i >= |store.intents| {
        return Some(NotFound);
      }
      if store.intents[i].status !in PAID {
        return Some(Conflict);
      }
      var remaining := GetRemainingRefundableAmount(i);
      if remaining <= 0 {
        return Some(Conflict);
      }
      var amount := asked.GetOr(remaining);
      if amount > remaining {
        return Some(BadRequest);
      }
      store.refunds := store.refunds + [Refund(store.intents[i].job, i, actor, amount, RefundStatus.Pending, None)];
      fault := ProcessRefundRequest(|store.refunds| - 1, a, now);
    }

    /** `processRefundRequest` */
    method ProcessRefundRequest(r: nat, a: Answer, now: nat) returns (fault: Option<Fault>)
      requires Valid()
      modifies store
      ensures Valid()
      ensures Becomes(old(store.Tables()), BeginProcessRefund(old(store.Tables()), r), a, now, store.Tables(), fault)
    {
      if r >= |store.refunds| {
        return Some(NotFound);
      }
      if store.refunds[r].status != RefundStatus.Pending {
        return Some(Conflict);
      }
      var i := store.refunds[r].intent;
      var intent := store.intents[i];
      if intent.status !in PAID {
        return Some(Conflict);
      }
      var remaining := GetRemainingRefundableAmount(i);
      if store.refunds[r].amount > remaining {
        return Some(BadRequest);
      }
      var platformPart := RefundShare(store.refunds[r].amount, intent.fee, intent.amount);
      SettlementLinks(store.Tables(), Ticket.SettleRefund(r, platformPart), a, now);
      fault := SettleRefund(r, platformPart, a);
    }

    /** The transaction of `processRefundRequest`. */
    method SettleRefund(r: nat, platformPart: nat, a: Answer) returns (fault: Option<Fault>)
      requires Linked(store.Tables()) && r < |store.refunds| && platformPart <= store.refunds[r].amount
      modifies store
      ensures var c := CommitRefund(old(store.Tables()), r, platformPart, a);
              store.Tables() == After(old(store.Tables()), c) && fault == if c.Ok? then None else Some(c.fault)
      ensures store.intents == old(store.intents)
    {
      var before := store.Tables();
      var row := store.refunds[r];
      if row.status != RefundStatus.Pending {
        return Some(Conflict);
      }
      store.refunds := store.refunds[r := row.(status := RefundStatus.Approved)];
      var i := row.intent;
      var gateway := store.intents[i].gateway;
      if !Insertable(store.txns, RefundKey(r), gateway, a.reference) {
        store.Restore(before);
        return Some(Conflict);
      }
      var status := TxnStatusOf(a.status);
      var t := |store.txns|;
      var confirmed := if status.Succeeded? then Some(row.amount) else None;
      store.txns := store.txns + [Txn(i, Refunding, status, gateway, a.reference, RefundKey(r), row.amount, confirmed)];
      store.refunds := store.refunds[r := row.(status := RefundStatusOf(status), txn := Some(t))];
      assert store.refunds == before.refunds[r := row.(status := RefundStatusOf(status), txn := Some(t))];
      fault := None;
      if status.Succeeded? {
        fault := AppendRefundLedgerEntries(i, t, row.amount, platformPart, row.amount - platformPart);
        if fault.Some? {
          store.Restore(before);
        }
      }
    }

    /** `appendRefundLedgerEntries`; the held balance pays first. */
    method AppendRefundLedgerEntries(i: nat, t: nat, amount: nat, platformPart: nat,
                                     providerPart: nat) returns (fault: Option<Fault>)
      requires i < |store.intents|
      modifies store
      ensures var b := old(store.Tables());
              var held := Net(b.ledger, i, ProviderHeld);
              if platformPart > Net(b.ledger, i, PlatformReserved)
                  || providerPart > held + Net(b.ledger, i, ProviderAvailable)
              then fault == Some(Conflict) && store.Tables() == b
              else
                var heldDebit := Min(held, providerPart);
                fault == None
                && store.Tables() == b.(ledger := b.ledger + RefundEntries(b.intents[i].job, i, t, amount,
                     platformPart, heldDebit, providerPart - heldDebit))
    {
      var platformReserved := ComputeBucketNet(store.ledger, PlatformReserved, i);
      if platformPart > platformReserved {
        return Some(Conflict);
      }
      var held := ComputeBucketNet(store.ledger, ProviderHeld, i);
      var available := ComputeBucketNet(store.ledger, ProviderAvailable, i);
      if providerPart > held + available {
        return Some(Conflict);
      }
      var heldDebit := Min(held, providerPart);
      var availableDebit: nat := providerPart - heldDebit;
      var job := store.intents[i].job;
      var entries := [];
      if platformPart > 0 {
        entries := entries + [Entry(job, i, Some(t), Platform, Reversal, platformPart, Debit, PlatformReserved)];
      }
      if heldDebit > 0 {
        entries := entries + [Entry(job, i, Some(t), Provider, Reversal, heldDebit, Debit, ProviderHeld)];
      }
      if availableDebit > 0 {
        entries := entries + [Entry(job, i, Some(t), Provider, Reversal, availableDebit, Debit, ProviderAvailable)];
      }
      entries := entries + [Entry(job, i, Some(t), Customer, CustomerRefund, amount, Credit, CustomerExternal)];
      assert entries == RefundEntries(job, i, t, amount, platformPart, heldDebit, availableDebit);
      store.AppendEntries(entries);
      fault := None;
    }

    method AdminCreatePayout(i: nat, provider: nat, amount: nat, job: Option<nat>, via: Option<Gateway>, a: Answer,
                             now: nat)
      returns (fault: Option<Fault>)
      requires Valid() && amount >= 1
      modifies store
      ensures Valid()
      ensures Becomes(old(store.Tables()), BeginCreatePayout(old(store.Tables()), i, provider, amount, job, via), a,
                      now, store.Tables(), fault)
    {
      if i >= |store.intents| {
        return Some(NotFound);
      }
      var intent := store.intents[i];
      if intent.provider != provider {
        return Some(BadRequest);
      }
      var available := ComputeBucketNet(store.ledger, ProviderAvailable, i);
      var reserved := 0;
      for k := 0 to |store.payouts|
        invariant reserved == PayoutSum(store.payouts, i, RESERVING, k)
      {
        if store.payouts[k].intent == i && store.payouts[k].status in RESERVING {
          reserved := reserved + store.payouts[k].amount;
        }
      }
      if amount > available - reserved {
        return Some(Conflict);
      }
      store.payouts := store.payouts + [Payout(job.GetOr(intent.job), i, provider, amount, PayoutStatus.Pending,
                                               via.GetOr(intent.gateway))];
      fault := None;
    }

    method AdminApprovePayout(p: nat, a: Answer, now: nat) returns (fault: Option<Fault>)
      requires Valid()
      modifies store
      ensures Valid()
      ensures Becomes(old(store.Tables()), BeginApprovePayout(old(store.Tables()), p), a, now, store.Tables(), fault)
    {
      if p >= |store.payouts| {
        return Some(NotFound);
      }
      if store.payouts[p].status != PayoutStatus.Pending {
        return Some(Conflict);
      }
      store.payouts := store.payouts[p := store.payouts[p].(status := PayoutStatus.Approved)];
      fault := None;
    }

    method AdminProcessPayout(p: nat, reference: Option<string>, a: Answer, now: nat) returns (fault: Option<Fault>)
      requires Valid()
      modifies store
      ensures Valid()
      ensures Becomes(old(store.Tables()), BeginProcessPayout(old(store.Tables()), p, reference), a, now,
                      store.Tables(), fault)
    {
      if p >= |store.payouts| {
        return Some(NotFound);
      }
      if store.payouts[p].status != PayoutStatus.Approved {
        return Some(Conflict);
      }
      var existing := FindKey(store.txns, PayoutKey(p));
      if existing.Some? {
        return None;
      }
      SettlementLinks(store.Tables(), Ticket.SettlePayout(p, reference), a, now);
      fault := SettlePayout(p, reference, a);
    }

    /** The transaction of `adminProcessPayout`. */
    method SettlePayout(p: nat, reference: Option<string>, a: Answer) returns (fault: Option<Fault>)
      requires Linked(store.Tables()) && p < |store.payouts|
      modifies store
      ensures var c := CommitPayout(old(store.Tables()), p, reference, a);
              store.Tables() == After(old(store.Tables()), c) && fault == if c.Ok? then None else Some(c.fault)
      ensures store.intents == old(store.intents)
    {
      var before := store.Tables();
      var row := store.payouts[p];
      if row.status != PayoutStatus.Approved {
        return Some(Conflict);
      }
      var duplicate := FindKey(store.txns, PayoutKey(p));
      if duplicate.Some? {
        return None;
      }
      var stated := reference.GetOr(a.reference);
      if FindReference(store.txns, row.gateway, stated).Some? {
        return Some(Conflict);
      }
      var status := TxnStatusOf(a.status);
      var t := |store.txns|;
      var confirmed := if status.Succeeded? then Some(row.amount) else None;
      store.txns := store.txns + [Txn(row.intent, Payment, status, row.gateway, stated, PayoutKey(p), row.amount,
                                      confirmed)];
      var next := PayoutStatusOf(status);
      store.payouts := store.payouts[p := row.(status := next)];
      if next == PayoutStatus.Paid {
        var available := ComputeBucketNet(store.ledger, ProviderAvailable, row.intent);
        if row.amount > available {
          store.Restore(before);
          return Some(Conflict);
        }
        store.AppendEntries(
          [ Entry(row.job, row.intent, Some(t), Provider, ProviderPayout, row.amount, Debit, ProviderAvailable),
            Entry(row.job, row.intent, Some(t), Provider, ProviderPayout, row.amount, Credit, ProviderPaidOut) ]);
      }
      fault := None;
    }

    method AdminReleaseProviderFunds(j: nat, a: Answer, now: nat) returns (fault: Option<Fault>)
      requires Valid()
      modifies store
      ensures Valid()
      ensures Becomes(old(store.Tables()), BeginRelease(old(store.Tables()), config, j, now), a, now, store.Tables(),
                      fault)
    {
      if j >= |store.jobs| {
        return Some(NotFound);
      }
      var job := store.jobs[j];
      if job.status != JobStatus.Completed {
        return Some(Conflict);
      }
      if !CanRelease(config, job.completedAt, now) {
        return Some(Conflict);
      }
      var paid := LastIntent(store.intents, j, PAID);
      if paid.None? {
        return Some(NotFound);
      }
      var i := paid.value;
      var held := ComputeBucketNet(store.ledger, ProviderHeld, i);
      if held <= 0 {
        return Some(Conflict);
      }
      store.AppendEntries(
        [ Entry(store.intents[i].job, i, None, Provider, ProviderBalanceReleased, held, Debit, ProviderHeld),
          Entry(store.intents[i].job, i, None, Provider, ProviderBalanceReleased, held, Credit, ProviderAvailable) ]);
      fault := None;
    }
  }

  /** How many of the answers carry a status. */
  function Answered(answers: seq<Option<Answer>>, g: GatewayStatus): nat {
    if answers == [] then 0
    else
      var last := answers[|answers| - 1];
      Answered(answers[..|answers| - 1], g) + (if last.Some? && last.value.status == g then 1 else 0)
  }

  /** One atomic reconciliation after another, skipping the ids whose gateway did not answer. */
  ghost predicate Reconciled(b: Books, scanned: seq<nat>, answers: seq<Option<Answer>>, now: nat, b': Books)
    requires |answers| == |scanned|
    decreases |scanned|
  {
    if scanned == [] then b' == b
    else
      var n := |scanned| - 1;
      exists mid: Books :: Reconciled(b, scanned[..n], answers[..n], now, mid)
        && if answers[n].None? then b' == mid
           else scanned[n] < |mid.txns| && Becomes(mid, BeginReconcile(mid, scanned[n]), answers[n].value, now, b',
                                                   None)
  }

  lemma AnsweredStep(answers: seq<Option<Answer>>, k: nat)
    requires k < |answers|
    ensures forall g :: Answered(answers[..k + 1], g)
                     == Answered(answers[..k], g) + (if answers[k].Some? && answers[k].value.status == g then 1 else 0)
  {
    assert answers[..k + 1][..k] == answers[..k];
  }

  lemma ReconciledNone(b: Books, now: nat)
    ensures Reconciled(b, [], [], now, b) && forall g :: Answered([], g) == 0
  {
  }

  lemma ReconciledStep(b: Books, scanned: seq<nat>, answers: seq<Option<Answer>>, now: nat, mid: Books, b': Books,
                       k: nat)
    requires |answers| == |scanned| && k < |scanned| && Reconciled(b, scanned[..k], answers[..k], now, mid)
    requires if answers[k].None? then b' == mid
             else scanned[k] < |mid.txns| && Becomes(mid, BeginReconcile(mid, scanned[k]), answers[k].value, now, b',
                                                     None)
    ensures Reconciled(b, scanned[..k + 1], answers[..k + 1], now, b')
  {
    assert answers[..k + 1][..k] == answers[..k] && scanned[..k + 1][..k] == scanned[..k];
  }

  class JobsService {
    const config: Config
    const store: Store

    constructor (config: Config, store: Store)
      ensures this.config == config && this.store == store
    {
      this.config, this.store := config, store;
    }

    /** `updateStatus`; a canceled job takes its unpaid intents with it, in the same transaction. */
    method UpdateStatus(j: nat, actor: nat, next: JobStatus, reason: bool, a: Answer,
                        now: nat) returns (fault: Option<Fault>)
      requires Linked(store.Tables())
      modifies store
      ensures Linked(store.Tables())
      ensures Becomes(old(store.Tables()), BeginUpdateJob(old(store.Tables()), j, actor, next, reason, now), a, now,
                      store.Tables(), fault)
    {
      hide CancelUnpaid;
      hide LastIntent;
      hide TransitionAllowed;
      if j >= |store.jobs| {
        return Some(NotFound);
      }
      var job := store.jobs[j];
      var isClient, isWorker := job.client == actor, job.provider == actor;
      if !isClient && !isWorker {
        return Some(Forbidden);
      }
      if next in EXECUTION {
        if job.request.None? || job.proposal.None? {
          return Some(Conflict);
        }
        if LastIntent(store.intents, j, PAID).None? {
          return Some(Conflict);
        }
      }
      if !TransitionAllowed(job.status, next, isClient, isWorker) {
        return Some(Conflict);
      }
      if next != JobStatus.Canceled && reason {
        return Some(BadRequest);
      }
      var data := job.(status := next);
      if next == JobStatus.Accepted && job.acceptedAt.None? {
        data := data.(acceptedAt := Some(now));
      }
      if next == JobStatus.InProgress && job.startedAt.None? {
        data := data.(startedAt := Some(now));
      }
      if next == JobStatus.Completed && job.completedAt.None? {
        data := data.(completedAt := Some(now));
      }
      if next == JobStatus.Canceled {
        if !reason {
          return Some(BadRequest);
        }
        if job.canceledAt.None? {
          data := data.(canceledAt := Some(now));
        }
      }
      StoreJob(j, data);
      fault := None;
    }

    /** The transaction of `updateStatus`. */
    method StoreJob(j: nat, data: Job)
      requires Linked(store.Tables()) && j < |store.jobs|
      modifies store
      ensures Linked(store.Tables())
      ensures store.Tables() == old(store.Tables()).(jobs := old(store.jobs)[j := data],
                                                     intents := if data.status.Canceled?
                                                         then CancelUnpaid(old(store.intents), j)
                                                             else old(store.intents))
    {
      store.jobs := store.jobs[j := data];
      if data.status == JobStatus.Canceled {
        CancelUnpaidIntents(j);
      }
    }

    method CancelUnpaidIntents(j: nat)
      modifies store
      ensures store.Tables() == old(store.Tables()).(intents := CancelUnpaid(old(store.intents), j))
    {
      for i := 0 to |store.intents|
        invariant |store.intents| == |old(store.intents)|
        invariant store.Tables() == old(store.Tables()).(intents := store.intents)
        invariant forall k :: 0 <= k < i ==> store.intents[k] == CancelUnpaid(old(store.intents), j)[k]
        invariant forall k :: i <= k < |store.intents| ==> store.intents[k] == old(store.intents)[k]
      {
        var row := store.intents[i];
        if row.job == j && row.status in UNPAID {
          store.intents := store.intents[i := row.(status := IntentStatus.Canceled)];
        }
      }
    }
  }
}
