/** Charges are booked exactly once per transaction that ever succeeded, and redelivered webhooks change nothing. */
module Charges {
  import opened Common
  import opened Policy
  import opened Ledger
  import opened Payments
  import opened Safety
  import opened Growth
  import opened Agreement
  import opened Runs

  /** The transactions to which a commit applies the status SUCCEEDED. */
  function Succeeding(b: Books, t: Ticket, a: Answer, now: nat): set<nat>
    requires Linked(b) && TicketOk(b, t)
  {
    match t
    case ChargeIntent(_, _) => if Commit(b, t, a, now).Ok? && a.status.Succeeded? then {|b.txns|} else {}
    case Deliver(x, g, _) => if g.Succeeded? then {x} else {}
    case ApplyAnswer(x, _) => if a.status.Succeeded? then {x} else {}
    case _ => {}
  }

  lemma ApplyCharges(b: Books, t: nat, row: Txn, g: GatewayStatus, now: nat, x: nat)
    requires Linked(b) && t < |b.txns|
    ensures ChargePosted(Apply(b, t, row, g, now).ledger, x) <==> ChargePosted(b.ledger, x) || (x == t && g.Succeeded?)
  {
    var l := Apply(b, t, row, g, now).ledger;
    var intent := b.intents[b.txns[t].intent];
    var es := l[|b.ledger|..];
    assert l == b.ledger + es;
    if es == [] {
      assert l == b.ledger;
    } else if x == t {
      SumNonNegative(Posts(t, CustomerCharge, CustomerExternal), b.ledger, |b.ledger|);
      TallyAppend(Posts(t, CustomerCharge, CustomerExternal), b.ledger, es);
      ChargeTally(Posts(t, CustomerCharge, CustomerExternal), intent.job, b.txns[t].intent, t, intent.amount,
                  intent.fee, intent.net);
    } else {
      ChargePostedElsewhere(b.ledger, es, x);
    }
  }

  /** A commit charges exactly the transactions it applies success to, whatever their type. */
  lemma CommitCharges(b: Books, t: Ticket, a: Answer, now: nat, x: nat)
    requires Linked(b) && TicketOk(b, t)
    ensures ChargePosted(After(b, Commit(b, t, a, now)).ledger, x)
            <==> ChargePosted(b.ledger, x) || x in Succeeding(b, t, a, now)
  {
    match t
    case ChargeIntent(i, key) =>
      var intent := b.intents[i];
      if Insertable(b.txns, key, intent.gateway, a.reference) {
        var row := Txn(i, Charge, TxnStatusOf(a.status), intent.gateway, a.reference, key, intent.amount,
                       ConfirmedFor(a.status, intent.amount));
        ApplyCharges(b.(txns := b.txns + [row]), |b.txns|, row, a.status, now, x);
      }
    case Deliver(y, g, _) => ApplyCharges(b, y, b.txns[y], g, now, x);
    case ApplyAnswer(y, row) => ApplyCharges(b, y, row, a.status, now, x);
    case _ => OtherCommitsChargeNothing(b, t, a, now, x);
  }

  lemma OtherCommitsChargeNothing(b: Books, t: Ticket, a: Answer, now: nat, x: nat)
    requires Linked(b) && TicketOk(b, t) && !t.ChargeIntent? && !t.Deliver? && !t.ApplyAnswer?
    ensures ChargePosted(After(b, Commit(b, t, a, now)).ledger, x) == ChargePosted(b.ledger, x)
  {
    var q := Posts(x, CustomerCharge, CustomerExternal);
    var es := PostedBy(b, t, a, now);
    CommitGrows(b, t, a, now);
    assert After(b, Commit(b, t, a, now)).ledger == b.ledger + es;
    NoChargeEntries(b, t, a, now);
    SumZero(q, es, |es|);
    TallyAppend(q, b.ledger, es);
  }

  lemma NoChargeEntries(b: Books, t: Ticket, a: Answer, now: nat)
    requires Linked(b) && TicketOk(b, t) && !t.ChargeIntent? && !t.Deliver? && !t.ApplyAnswer?
    ensures forall k :: 0 <= k < |PostedBy(b, t, a, now)| ==> !PostedBy(b, t, a, now)[k].kind.CustomerCharge?
  {
  }

  /** The transactions to which one step of a run applies success. */
  ghost function SucceedingIn(s: System, c: Config, step: Step): set<nat>
    requires ValidConfig(c) && Good(s)
  {
    match step
    case Finish(w, a, wait) => if w < |s.pending| then Succeeding(s.books, s.pending[w], a, s.clock + wait) else {}
    case Whole(call, a, wait) =>
      if ValidCall(call) && Begin(s.books, c, call, s.clock + wait).Ready? then
        BeginIsSound(s.books, c, call, s.clock + wait);
        var start := Begin(s.books, c, call, s.clock + wait);
        Succeeding(start.books, start.ticket, a, s.clock + wait)
      else {}
    case _ => {}
  }

  ghost function EverSucceeded(s: System, c: Config, split: set<Kind>, steps: seq<Step>): set<nat>
    requires ValidConfig(c) && Good(s)
  {
    if steps == [] then {}
    else
      var prefix := steps[..|steps| - 1];
      EverSucceeded(s, c, split, prefix) + SucceedingIn(Run(s, c, split, prefix), c, steps[|steps| - 1])
  }

  lemma StepCharges(s: System, c: Config, split: set<Kind>, step: Step, x: nat)
    requires ValidConfig(c) && Good(s)
    ensures ChargePosted(Next(s, c, split, step).books.ledger, x)
            <==> ChargePosted(s.books.ledger, x) || x in SucceedingIn(s, c, step)
  {
    hide Begin;
    hide Commit;
    hide Base;
    hide Succeeding;
    hide ChargePosted;
    BaseGives(s.books);
    match step
    case Enter(call, wait) =>
      EnterCharges(s, c, split, step);
    case Finish(w, a, wait) =>
      if w < |s.pending| {
        CommitCharges(s.books, s.pending[w], a, s.clock + wait, x);
      }
    case Whole(call, a, wait) =>
      WholeCharges(s, c, split, step, x);
    case Drop(_) =>
  }

  lemma EnterCharges(s: System, c: Config, split: set<Kind>, step: Step)
    requires ValidConfig(c) && Good(s) && step.Enter?
    ensures Next(s, c, split, step).books.ledger == s.books.ledger
  {
    hide Begin;
    hide Commit;
    hide Base;
    BaseGives(s.books);
    if ValidCall(step.call) && !Begin(s.books, c, step.call, s.clock + step.wait).Refused? {
      EventsGrow(s.books, c, step.call, s.clock + step.wait);
    }
  }

  lemma WholeCharges(s: System, c: Config, split: set<Kind>, step: Step, x: nat)
    requires ValidConfig(c) && Good(s) && step.Whole?
    ensures ChargePosted(Next(s, c, split, step).books.ledger, x)
            <==> ChargePosted(s.books.ledger, x) || x in SucceedingIn(s, c, step)
  {
    hide Begin;
    hide Commit;
    hide Base;
    hide ChargePosted;
    hide Succeeding;
    BaseGives(s.books);
    var now := s.clock + step.wait;
    if ValidCall(step.call) && !Begin(s.books, c, step.call, now).Refused? {
      EventsGrow(s.books, c, step.call, now);
      var start := Begin(s.books, c, step.call, now);
      if start.Ready? {
        BeginIsSound(s.books, c, step.call, now);
        BaseGives(start.books);
        CommitCharges(start.books, start.ticket, step.answer, now, x);
      }
    }
  }

  lemma {:induction false} RunCharges(s: System, c: Config, split: set<Kind>, steps: seq<Step>, x: nat)
    requires ValidConfig(c) && Good(s)
    ensures ChargePosted(Run(s, c, split, steps).books.ledger, x)
       <==> ChargePosted(s.books.ledger, x) || x in EverSucceeded(s, c, split, steps)
  {
    hide Next;
    hide Base;
    hide ChargePosted;
    if steps != [] {
      var prefix := steps[..|steps| - 1];
      RunCharges(s, c, split, prefix, x);
      StepCharges(Run(s, c, split, prefix), c, split, steps[|steps| - 1], x);
    }
  }

  ghost function SucceededFromStart(c: Config, split: set<Kind>, steps: seq<Step>): set<nat>
    requires ValidConfig(c)
  {
    InitialIsGood();
    EverSucceeded(INITIAL, c, split, steps)
  }

  /**
   * Exactly-once charging: in any run, a transaction has its charge, fee and held entries exactly once
   * each, for its intent's amounts, if SUCCEEDED was ever applied to it, and none of them otherwise.
   */
  lemma ChargedExactlyOnce(c: Config, split: set<Kind>, steps: seq<Step>, x: nat)
    requires ValidConfig(c)
    requires x < |FromStart(c, split, steps).books.txns|
    ensures var b := FromStart(c, split, steps).books;
            var p := PostingsOf(b.ledger, x);
            var intent := b.intents[b.txns[x].intent];
            if x in SucceededFromStart(c, split, steps)
            then p.charges == p.fees == p.helds == 1 && p.charged == intent.amount && p.feeAmount == intent.fee
                && p.heldAmount == intent.net
            else p.charges == p.fees == p.helds == 0
  {
    var b := FromStart(c, split, steps).books;
    InitialIsGood();
    RunCharges(INITIAL, c, split, steps, x);
    assert !ChargePosted(EMPTY_BOOKS.ledger, x);
    assert PostingOk(PostingsOf(b.ledger, x), b.txns[x], b.intents, b.refunds, b.payouts);
  }

  // ----- redelivered webhooks -----

  /** One delivery, and the time at which it arrives. */
  datatype Delivery = Delivery(call: Call, at: nat)

  /** The identity under which a delivery is recorded, if it carries one and passes validation. */
  function Identity(d: Delivery): Option<(Gateway, string)> {
    if d.call.Webhook? && d.call.externalId.Some? && (d.call.gateway.Internal? || d.call.signed)
    then Some((d.call.gateway, d.call.externalId.value)) else None
  }

  predicate Repeats(ds: seq<Delivery>, d: Delivery) {
    Identity(d).Some? && exists k :: 0 <= k < |ds| && Identity(ds[k]) == Identity(d)
  }

  /** The deliveries without those that repeat the identity of an earlier one. */
  function Distinct(ds: seq<Delivery>): seq<Delivery> {
    if ds == [] then []
    else
      var front, d := ds[..|ds| - 1], ds[|ds| - 1];
      if Repeats(front, d) then Distinct(front) else Distinct(front) + [d]
  }

  ghost function DeliverAll(b: Books, c: Config, ds: seq<Delivery>): (r: Books)
    requires ValidConfig(c) && Base(b) && forall k :: 0 <= k < |ds| ==> ds[k].call.Webhook?
    ensures Base(r)
  {
    if ds == [] then b
    else
      var d := ds[|ds| - 1];
      Perform(DeliverAll(b, c, ds[..|ds| - 1]), c, d.call, Answer(GatewayStatus.Pending, ""), d.at)
  }

  lemma RecordsItself(b: Books, c: Config, d: Delivery)
    requires ValidConfig(c) && Base(b) && d.call.Webhook? && Identity(d).Some?
    ensures var b' := Perform(b, c, d.call, Answer(GatewayStatus.Pending, ""), d.at);
            Seen(b'.events, d.call.gateway, d.call.externalId.value)
    ensures Seen(b.events, d.call.gateway, d.call.externalId.value) ==>
              Perform(b, c, d.call, Answer(GatewayStatus.Pending, ""), d.at) == b
  {
    hide Base;
    BaseGives(b);
    var start := Begin(b, c, d.call, d.at);
    if !Seen(b.events, d.call.gateway, d.call.externalId.value) {
      EventsGrow(b, c, d.call, d.at);
      var e := Event(d.call.gateway, d.call.externalId, false);
      assert start.books.events == b.events + [e];
      assert start.books.events[|b.events|] == e;
      BeginIsSound(b, c, d.call, d.at);
      var recorded := Perform(b, c, d.call, Answer(GatewayStatus.Pending, ""), d.at).events[|b.events|];
      assert recorded.gateway == e.gateway && recorded.externalId == e.externalId;
    }
  }

  lemma EventsRemain(b: Books, c: Config, d: Delivery, gateway: Gateway, id: string)
    requires ValidConfig(c) && Base(b) && d.call.Webhook? && Seen(b.events, gateway, id)
    ensures Seen(Perform(b, c, d.call, Answer(GatewayStatus.Pending, ""), d.at).events, gateway, id)
  {
    hide Base;
    BaseGives(b);
    var e :| 0 <= e < |b.events| && b.events[e].gateway == gateway && b.events[e].externalId == Some(id);
    var start := Begin(b, c, d.call, d.at);
    if !start.Refused? {
      EventsGrow(b, c, d.call, d.at);
      BeginIsSound(b, c, d.call, d.at);
      assert start.books.events[e] == b.events[e];
    }
    assert Perform(b, c, d.call, Answer(GatewayStatus.Pending, ""), d.at).events[e].externalId == Some(id);
  }

  lemma {:induction false} DeliveredAreSeen(b: Books, c: Config, ds: seq<Delivery>, k: nat)
    requires ValidConfig(c) && Base(b) && forall j :: 0 <= j < |ds| ==> ds[j].call.Webhook?
    requires k < |ds| && Identity(ds[k]).Some?
    ensures Seen(DeliverAll(b, c, ds).events, ds[k].call.gateway, ds[k].call.externalId.value)
  {
    hide Base;
    hide Perform;
    hide Seen;
    var front := ds[..|ds| - 1];
    var mid := DeliverAll(b, c, front);
    if k == |ds| - 1 {
      RecordsItself(mid, c, ds[k]);
    } else {
      DeliveredAreSeen(b, c, front, k);
      assert front[k] == ds[k];
      EventsRemain(mid, c, ds[|ds| - 1], ds[k].call.gateway, ds[k].call.externalId.value);
    }
  }

  lemma {:induction false} DistinctAreWebhooks(ds: seq<Delivery>)
    requires forall k :: 0 <= k < |ds| ==> ds[k].call.Webhook?
    ensures forall k :: 0 <= k < |Distinct(ds)| ==> Distinct(ds)[k].call.Webhook?
  {
    if ds != [] {
      DistinctAreWebhooks(ds[..|ds| - 1]);
    }
  }

  /** Duplicate-insensitivity: dropping every repeated delivery leaves every table as it would have been. */
  lemma {:induction false} RepeatsChangeNothing(b: Books, c: Config, ds: seq<Delivery>)
    requires ValidConfig(c) && Base(b) && forall k :: 0 <= k < |ds| ==> ds[k].call.Webhook?
    ensures forall k :: 0 <= k < |Distinct(ds)| ==> Distinct(ds)[k].call.Webhook?
    ensures DeliverAll(b, c, ds) == DeliverAll(b, c, Distinct(ds))
  {
    hide Base;
    hide Perform;
    hide Seen;
    DistinctAreWebhooks(ds);
    if ds != [] {
      var front, d := ds[..|ds| - 1], ds[|ds| - 1];
      RepeatsChangeNothing(b, c, front);
      if Repeats(front, d) {
        var k :| 0 <= k < |front| && Identity(front[k]) == Identity(d);
        DeliveredAreSeen(b, c, front, k);
        RecordsItself(DeliverAll(b, c, front), c, d);
      } else {
        assert (Distinct(front) + [d])[..|Distinct(front)|] == Distinct(front);
      }
    }
  }
}
