/**
 * What each payment call promises its caller: exactly when it is accepted, and what it changes then. The
 * rules name statuses and texts outright, and speak of whole calls.
 */
module PaymentRules {
  import opened Common
  import opened Policy
  import opened Payments
  import opened Safety
  import opened Growth
  import opened Charges
  import opened Runs

  // ----- gateway answers -----

  /** What an answer leaves of its transaction, of the intent behind it and of the job's contact. */
  predicate AnswerShows(b: Books, t: nat, g: GatewayStatus, now: nat)
    requires Linked(b) && t < |b.txns|
  {
    var x, row := b.txns[t], b.intents[b.txns[t].intent];
    match g
    case Succeeded =>
      && x.status == TxnStatus.Succeeded && x.confirmed == Some(x.requested)
      && row.status == (if row.deposit then IntentStatus.PaidPartial else IntentStatus.Succeeded)
      && b.jobs[row.job].contactUnlockedAt == Some(now)
    case Failed => x.status == TxnStatus.Failed && row.status == IntentStatus.Failed
    case Reversed => x.status == TxnStatus.Reversed && row.status == IntentStatus.PendingConfirmation
    case Pending => x.status == TxnStatus.Processing && row.status == IntentStatus.PendingConfirmation
  }

  /**
   * Nothing but the statuses of the transaction and its intent, and on success the confirmed amount and the job's
   * contact, differs outside the ledger and the events.
   */
  predicate OthersStay(b: Books, b': Books, t: nat)
    requires Linked(b) && t < |b.txns|
  {
    var i := b.txns[t].intent;
    var j := b.intents[i].job;
    && |b'.txns| == |b.txns| && (forall x :: 0 <= x < |b.txns| && x != t ==> b'.txns[x] == b.txns[x])
    && |b'.intents| == |b.intents| && (forall x :: 0 <= x < |b.intents| && x != i ==> b'.intents[x] == b.intents[x])
    && |b'.jobs| == |b.jobs| && (forall x :: 0 <= x < |b.jobs| && x != j ==> b'.jobs[x] == b.jobs[x])
    && b'.txns[t] == b.txns[t].(status := b'.txns[t].status, confirmed := b'.txns[t].confirmed)
    && b'.intents[i] == b.intents[i].(status := b'.intents[i].status)
    && b'.jobs[j] == b.jobs[j].(contactUnlockedAt := b'.jobs[j].contactUnlockedAt)
    && (b'.txns[t].status != TxnStatus.Succeeded ==>
          b'.jobs == b.jobs && b'.txns[t].confirmed == b.txns[t].confirmed)
    && b'.refunds == b.refunds && b'.payouts == b.payouts
  }

  /** Exactly transaction `t` has its charge newly on the ledger, if `paid`. */
  ghost predicate ChargesOnly(b: Books, b': Books, t: nat, paid: bool) {
    && (forall x: nat :: ChargePosted(b'.ledger, x) <==> ChargePosted(b.ledger, x) || (x == t && paid))
    && (!paid ==> b'.ledger == b.ledger)
  }

  lemma ApplyMeans(b: Books, t: nat, row: Txn, g: GatewayStatus, now: nat)
    requires Linked(b) && t < |b.txns| && row == b.txns[t]
    ensures var b' := Apply(b, t, row, g, now);
            && Linked(b') && |b'.txns| == |b.txns| && AnswerShows(b', t, g, now) && OthersStay(b, b', t)
            && ChargesOnly(b, b', t, g.Succeeded?)
  {
    var b' := Apply(b, t, row, g, now);
    forall x: nat ensures ChargePosted(b'.ledger, x) <==> ChargePosted(b.ledger, x) || (x == t && g.Succeeded?) {
      ApplyCharges(b, t, row, g, now, x);
    }
    hide ChargePosted;
    ApplyLinks(b, t, row, g, now);
  }

  // ----- paying -----

  predicate IsPaid(row: Intent) {
    row.status == IntentStatus.PaidPartial || row.status == IntentStatus.Succeeded
  }

  predicate Launchable(s: Start) {
    s.Ready? ==> Linked(s.books) && TicketOk(s.books, s.ticket)
  }

  /** The tables and the fault in which an outer phase and its transaction end. */
  function Ends(b: Books, s: Start, a: Answer, now: nat): (Books, Option<Fault>)
    requires Launchable(s)
  {
    match s
    case Refused(f) => (b, Some(f))
    case Settled(x) => (x, None)
    case Ready(x, t) =>
      var r := Commit(x, t, a, now);
      (After(x, r), if r.Ok? then None else Some(r.fault))
  }

  /** A call is its outer phase and then its transaction, seen from outside. */
  lemma Outcome(b: Books, c: Config, call: Call, a: Answer, now: nat)
    requires ValidConfig(c) && ValidCall(call) && Base(b)
    ensures Linked(b) && SplitsOk(b.intents) && UniqueKeys(b.txns)
    ensures var s := Begin(b, c, call, now);
            && Launchable(s)
            && (Perform(b, c, call, a, now), FaultOf(b, c, call, a, now)) == Ends(b, s, a, now)
  {
    assert UniqueKeys(b.txns);
    BaseGives(b);
    BeginIsSound(b, c, call, now);
    hide Base;
    hide Begin;
    hide Commit;
    if Begin(b, c, call, now).Ready? {
      SoundTickets(b, c, call, now);
    }
  }

  lemma SoundTickets(b: Books, c: Config, call: Call, now: nat)
    requires ValidConfig(c) && ValidCall(call) && Base(b) && Linked(b) && SplitsOk(b.intents)
             && Begin(b, c, call, now).Ready?
    ensures var s := Begin(b, c, call, now); Linked(s.books) && TicketOk(s.books, s.ticket)
  {
    hide Begin;
    BeginIsSound(b, c, call, now);
    BaseGives(Begin(b, c, call, now).books);
    hide Base;
  }

  /** Paying an intent that is paid already changes nothing and reports no fault, whatever the key and the answer. */
  lemma PaidIsNotChargedAgain(b: Books, c: Config, i: nat, key: Option<Key>, a: Answer, now: nat)
    requires ValidConfig(c) && Base(b) && i < |b.intents| && IsPaid(b.intents[i])
    ensures var call := PayIntent(i, b.intents[i].customer, key);
            Perform(b, c, call, a, now) == b && FaultOf(b, c, call, a, now) == None
  {
    hide Base;
    Outcome(b, c, PayIntent(i, b.intents[i].customer, key), a, now);
  }

  predicate IsPayable(row: Intent) {
    || row.status == IntentStatus.AwaitingPayment
    || row.status == IntentStatus.PendingConfirmation
    || row.status == IntentStatus.Failed
  }

  /** The customer pays an intent that is due, not repeating a key already used for it. */
  predicate MayPay(b: Books, i: nat, actor: nat, key: Option<Key>) {
    && i < |b.intents| && b.intents[i].customer == actor && IsPayable(b.intents[i])
    && (key.Some? ==> forall t :: 0 <= t < |b.txns| && b.txns[t].intent == i ==> b.txns[t].key != key.value)
  }

  lemma PaymentBegins(b: Books, i: nat, actor: nat, key: Option<Key>, now: nat)
    requires UniqueKeys(b.txns)
    ensures MayPay(b, i, actor, key) ==>
              BeginPay(b, i, actor, key, now) == Ready(b, ChargeIntent(i, if key.Some? then key.value
                  else ChargeKey(i, now)))
    ensures !MayPay(b, i, actor, key) ==>
              BeginPay(b, i, actor, key, now)
              == if i >= |b.intents| then Refused(NotFound)
                 else if b.intents[i].customer != actor then Refused(Forbidden)
                 else if IsPaid(b.intents[i]) || IsPayable(b.intents[i]) then Settled(b)
                 else Refused(Conflict)
  {
    hide FindKey;
    KeyIsKnown(b, i, key);
  }

  lemma KeyIsKnown(b: Books, i: nat, key: Option<Key>)
    requires UniqueKeys(b.txns)
    ensures key.Some? ==>
            var known := FindKey(b.txns, key.value);
            (known.Some? && b.txns[known.value].intent == i)
            <==> !(forall t :: 0 <= t < |b.txns| && b.txns[t].intent == i ==> b.txns[t].key != key.value)
  {
  }

  /** A payment reaches the charge exactly when the customer pays what is due for the first time under that key. */
  lemma ChargeIff(b: Books, c: Config, i: nat, actor: nat, key: Option<Key>, now: nat)
    requires ValidConfig(c) && Base(b)
    ensures Linked(b) && SplitsOk(b.intents)
    ensures Begin(b, c, PayIntent(i, actor, key), now).Ready? <==> MayPay(b, i, actor, key)
  {
    assert UniqueKeys(b.txns);
    BaseGives(b);
    hide Base;
    hide BeginPay;
    hide MayPay;
    PaymentBegins(b, i, actor, key, now);
  }

  /** What is answered when the charge is not reached; the tables stay as they are. */
  lemma PaymentNotCharged(b: Books, c: Config, i: nat, actor: nat, key: Option<Key>, a: Answer, now: nat)
    requires ValidConfig(c) && Base(b) && !MayPay(b, i, actor, key)
    ensures var call := PayIntent(i, actor, key);
            && Perform(b, c, call, a, now) == b
            && FaultOf(b, c, call, a, now)
               == if i >= |b.intents| then Some(NotFound)
                  else if b.intents[i].customer != actor then Some(Forbidden)
                  else if IsPaid(b.intents[i]) || IsPayable(b.intents[i]) then None
                  else Some(Conflict)
  {
    hide Base;
    hide BeginPay;
    hide MayPay;
    hide Perform;
    hide FaultOf;
    Outcome(b, c, PayIntent(i, actor, key), a, now);
    PaymentBegins(b, i, actor, key, now);
  }

  /** No transaction has the key, and none at the gateway the reference. */
  predicate Free(b: Books, key: Key, gateway: Gateway, reference: string) {
    forall t :: 0 <= t < |b.txns| ==>
      b.txns[t].key != key && (b.txns[t].gateway != gateway || b.txns[t].reference != reference)
  }

  lemma FreeIsInsertable(b: Books, key: Key, gateway: Gateway, reference: string)
    ensures Insertable(b.txns, key, gateway, reference) <==> Free(b, key, gateway, reference)
  {
  }

  /** The new transaction `b'` has more than `b`, with its key, reference and amount. */
  predicate Records(b: Books, b': Books, i: nat, kind: TxnType, key: Key, gateway: Gateway, reference: string,
                    amount: nat) {
    && |b'.txns| == |b.txns| + 1 && b'.txns[..|b.txns|] == b.txns
    && var x := b'.txns[|b.txns|];
       && x.intent == i && x.kind == kind && x.key == key && x.gateway == gateway && x.reference == reference
       && x.requested == amount
  }

  ghost predicate ChargeShows(b: Books, i: nat, key: Key, a: Answer, now: nat, b': Books, fault: Option<Fault>) {
    && Linked(b) && Linked(b') && i < |b.intents|
    && var row := b.intents[i];
       if Free(b, key, row.gateway, a.reference) then
         && fault == None && Records(b, b', i, Charge, key, row.gateway, a.reference, row.amount)
         && AnswerShows(b', |b.txns|, a.status, now) && Linked(b.(txns := b'.txns))
         && (a.status != GatewayStatus.Succeeded ==> b'.txns[|b.txns|].confirmed == None)
         && OthersStay(b.(txns := b'.txns), b', |b.txns|)
         && ChargesOnly(b, b', |b.txns|, a.status.Succeeded?) && b'.events == b.events
       else fault == Some(Conflict) && b' == b
  }

  /**
   * A charge that is reached is recorded and shows the answer, or its key or reference is taken and nothing
   * changes.
   */
  lemma PaymentIsCharged(b: Books, c: Config, i: nat, actor: nat, key: Option<Key>, a: Answer, now: nat)
    requires ValidConfig(c) && Base(b) && MayPay(b, i, actor, key)
    ensures var call := PayIntent(i, actor, key);
            ChargeShows(b, i, if key.Some? then key.value else ChargeKey(i, now), a, now,
                        Perform(b, c, call, a, now), FaultOf(b, c, call, a, now))
  {
    hide Base;
    hide BeginPay;
    hide CommitCharge;
    hide MayPay;
    hide Perform;
    hide FaultOf;
    hide ChargeShows;
    Outcome(b, c, PayIntent(i, actor, key), a, now);
    PaymentBegins(b, i, actor, key, now);
    ChargeMeans(b, i, if key.Some? then key.value else ChargeKey(i, now), a, now);
  }

  lemma ApplyKeepsRow(b: Books, t: nat, row: Txn, g: GatewayStatus, now: nat)
    requires Linked(b) && t < |b.txns|
    ensures var b' := Apply(b, t, row, g, now);
            && b'.events == b.events && |b'.txns| == |b.txns|
            && b'.txns[t].(status := b.txns[t].status, confirmed := b.txns[t].confirmed) == b.txns[t]
            && (g != GatewayStatus.Succeeded ==> b'.txns[t].confirmed == row.confirmed)
  {
  }

  lemma ChargeMeans(b: Books, i: nat, key: Key, a: Answer, now: nat)
    requires Linked(b) && i < |b.intents|
    ensures var r := CommitCharge(b, i, key, a, now);
            ChargeShows(b, i, key, a, now, After(b, r), if r.Ok? then None else Some(r.fault))
  {
    hide Insertable;
    hide Free;
    hide Apply;
    hide ChargePosted;
    hide AnswerShows;
    FreeIsInsertable(b, key, b.intents[i].gateway, a.reference);
    if Insertable(b.txns, key, b.intents[i].gateway, a.reference) {
      var row := b.intents[i];
      var x := Txn(i, Charge, TxnStatusOf(a.status), row.gateway, a.reference, key, row.amount,
                   ConfirmedFor(a.status, row.amount));
      var mid := b.(txns := b.txns + [x]);
      ApplyMeans(mid, |b.txns|, x, a.status, now);
      ApplyKeepsRow(mid, |b.txns|, x, a.status, now);
      var b' := Apply(mid, |b.txns|, x, a.status, now);
      assert b'.txns[..|b.txns|] == b.txns;
    }
  }

  /** In any run, a payment that starts on a paid intent leaves the tables and the pending work as they are. */
  lemma PaymentStepsChargeOnce(c: Config, split: set<Kind>, steps: seq<Step>, i: nat, key: Option<Key>, a: Answer,
                               wait: nat)
    requires ValidConfig(c)
    requires var b := FromStart(c, split, steps).books; i < |b.intents| && IsPaid(b.intents[i])
    ensures var s := FromStart(c, split, steps);
            var call := PayIntent(i, s.books.intents[i].customer, key);
            && FromStart(c, split, steps + [Whole(call, a, wait)]) == s.(clock := s.clock + wait)
            && FromStart(c, split, steps + [Enter(call, wait)]) == s.(clock := s.clock + wait)
  {
    hide Base;
    hide Run;
    hide FromStart;
    var s := FromStart(c, split, steps);
    var call := PayIntent(i, s.books.intents[i].customer, key);
    BaseGives(s.books);
    AddWhole(c, split, steps, s, call, a, wait);
    PaidIsNotChargedAgain(s.books, c, i, key, a, s.clock + wait);
    AddStep(c, split, steps, Enter(call, wait));
    hide Perform;
    assert Begin(s.books, c, call, s.clock + wait) == Settled(s.books);
  }

  // ----- webhooks and reconciliation -----

  predicate Validates(gateway: Gateway, signed: bool, id: Option<string>) {
    gateway == Internal || (id.Some? && signed)
  }

  predicate Recorded(b: Books, gateway: Gateway, id: Option<string>) {
    id.Some? && exists e :: 0 <= e < |b.events| && b.events[e].gateway == gateway && b.events[e].externalId == id
  }

  /** The transaction named by id, or failing that by gateway and reference. */
  predicate Finds(b: Books, gateway: Gateway, target: Option<nat>, reference: Option<string>, t: nat) {
    && t < |b.txns|
    && (target == Some(t)
        || ((target.None? || target.value >= |b.txns|)
            && b.txns[t].gateway == gateway && reference == Some(b.txns[t].reference)))
  }

  predicate SaysPaid(text: string) {
    text == "SUCCEEDED" || text == "SUCCESS"
  }

  /** What each text leaves of a transaction and of the intent behind it. */
  predicate TextShows(b: Books, t: nat, text: string)
    requires Linked(b) && t < |b.txns|
  {
    var x, row := b.txns[t], b.intents[b.txns[t].intent];
    if SaysPaid(text) then
      && x.status == TxnStatus.Succeeded && x.confirmed == Some(x.requested)
      && (row.status == if row.deposit then IntentStatus.PaidPartial else IntentStatus.Succeeded)
      && b.jobs[row.job].contactUnlockedAt.Some?
    else if text == "FAILED" || text == "FAILURE" then
      x.status == TxnStatus.Failed && row.status == IntentStatus.Failed
    else if text == "REVERSED" then
      x.status == TxnStatus.Reversed && row.status == IntentStatus.PendingConfirmation
    else
      x.status == TxnStatus.Processing && row.status == IntentStatus.PendingConfirmation
  }

  /** Finding is by unique keys: at most one transaction is found, and it is the one the service takes. */
  lemma FoundIsTaken(b: Books, gateway: Gateway, signed: bool, id: Option<string>, target: Option<nat>,
                     reference: Option<string>, text: string, t: nat)
    requires UniqueKeys(b.txns) && Validates(gateway, signed, id) && !Recorded(b, gateway, id)
             && Finds(b, gateway, target, reference, t)
    ensures BeginWebhook(b, gateway, signed, id, target, reference, Some(text))
         == Ready(b.(events := b.events + [Event(gateway, id, false)]),
                  Deliver(t, ParseGatewayStatus(text), |b.events|))
  {
    hide ParseGatewayStatus;
    hide UniqueKeys;
    assert id.Some? ==> !Seen(b.events, gateway, id.value);
    if reference.Some? && b.txns[t].gateway == gateway && reference.value == b.txns[t].reference {
      ReferenceIsFound(b.txns, t);
    }
    hide Recorded;
    hide Seen;
    hide FindReference;
  }

  lemma ReferenceIsFound(txns: seq<Txn>, t: nat)
    requires UniqueKeys(txns) && t < |txns|
    ensures FindReference(txns, txns[t].gateway, txns[t].reference) == Some(t)
  {
  }

  ghost predicate DeliveryShows(b: Books, gateway: Gateway, id: Option<string>, text: string, t: nat, b': Books) {
    && Linked(b) && Linked(b') && |b'.txns| == |b.txns| && t < |b.txns|
    && TextShows(b', t, text) && OthersStay(b, b', t) && ChargesOnly(b, b', t, SaysPaid(text))
    && b'.events == b.events + [Event(gateway, id, true)]
  }

  lemma DeliverMeans(b: Books, gateway: Gateway, id: Option<string>, text: string, t: nat, a: Answer, now: nat)
    requires Linked(b) && t < |b.txns|
    ensures var mid, ticket := b.(events := b.events + [Event(gateway, id, false)]),
                               Deliver(t, ParseGatewayStatus(text), |b.events|);
            && TicketOk(mid, ticket) && Commit(mid, ticket, a, now).Ok?
            && DeliveryShows(b, gateway, id, text, t, Commit(mid, ticket, a, now).value)
  {
    var mid := b.(events := b.events + [Event(gateway, id, false)]);
    ApplyMeans(mid, t, mid.txns[t], ParseGatewayStatus(text), now);
    hide Apply;
    hide ChargePosted;
    var e := mid.events[|b.events|];
    assert mid.events[|b.events| := e.(processed := true)] == b.events + [Event(gateway, id, true)];
  }

  /**
   * A validated, new delivery for a transaction that is found: a charge is newly booked exactly if the text says
   * paid and it was not booked before, and the text decides the statuses.
   */
  lemma DeliveryMeans(b: Books, c: Config, gateway: Gateway, signed: bool, id: Option<string>, target: Option<nat>,
                      reference: Option<string>, text: string, t: nat, a: Answer, now: nat)
    requires ValidConfig(c) && Base(b) && Validates(gateway, signed, id) && !Recorded(b, gateway, id)
    requires Finds(b, gateway, target, reference, t)
    ensures var call := Webhook(gateway, signed, id, target, reference, Some(text));
            && FaultOf(b, c, call, a, now) == None
            && DeliveryShows(b, gateway, id, text, t, Perform(b, c, call, a, now))
  {
    hide Base;
    hide BeginWebhook;
    hide Commit;
    hide Perform;
    hide FaultOf;
    hide DeliveryShows;
    Outcome(b, c, Webhook(gateway, signed, id, target, reference, Some(text)), a, now);
    FoundIsTaken(b, gateway, signed, id, target, reference, text, t);
    DeliverMeans(b, gateway, id, text, t, a, now);
  }

  lemma IdleWebhook(b: Books, gateway: Gateway, signed: bool, id: Option<string>, target: Option<nat>,
                    reference: Option<string>, text: Option<string>)
    ensures var start := BeginWebhook(b, gateway, signed, id, target, reference, text);
            && (!Validates(gateway, signed, id) ==> start == Refused(if id.None? then BadRequest else Forbidden))
            && (Validates(gateway, signed, id) && Recorded(b, gateway, id) ==> start == Settled(b))
            && (Validates(gateway, signed, id) && !Recorded(b, gateway, id)
                && (text.None? || forall t :: !Finds(b, gateway, target, reference, t)) ==>
                  start == Settled(b.(events := b.events + [Event(gateway, id, false)])))
  {
    hide ParseGatewayStatus;
    if id.Some? {
      assert Recorded(b, gateway, id) <==> Seen(b.events, gateway, id.value);
    }
    if target.Some? && target.value < |b.txns| {
      assert Finds(b, gateway, target, reference, target.value);
    } else if reference.Some? {
      var found := FindReference(b.txns, gateway, reference.value);
      if found.Some? {
        assert Finds(b, gateway, target, reference, found.value);
      }
    }
  }

  /** Every other delivery books nothing: it is refused, already recorded, or only recorded. */
  lemma DeliveryWithoutEffect(b: Books, c: Config, gateway: Gateway, signed: bool, id: Option<string>,
                              target: Option<nat>,
                              reference: Option<string>, text: Option<string>, a: Answer, now: nat)
    requires ValidConfig(c) && Base(b)
    ensures var call := Webhook(gateway, signed, id, target, reference, text);
            var b', fault := Perform(b, c, call, a, now), FaultOf(b, c, call, a, now);
            && (!Validates(gateway, signed, id) ==>
                  b' == b && fault == Some(if id.None? then BadRequest else Forbidden))
            && (Validates(gateway, signed, id) && Recorded(b, gateway, id) ==> b' == b && fault == None)
            && (Validates(gateway, signed, id) && !Recorded(b, gateway, id)
                && (text.None? || forall t :: !Finds(b, gateway, target, reference, t)) ==>
                  b' == b.(events := b.events + [Event(gateway, id, false)]) && fault == None)
  {
    hide Base;
    hide BeginWebhook;
    hide Commit;
    hide Perform;
    hide FaultOf;
    hide Validates;
    hide Recorded;
    hide Finds;
    Outcome(b, c, Webhook(gateway, signed, id, target, reference, text), a, now);
    IdleWebhook(b, gateway, signed, id, target, reference, text);
  }

  ghost predicate AnswerApplied(b: Books, t: nat, g: GatewayStatus, now: nat, b': Books) {
    && Linked(b) && Linked(b') && t < |b.txns| == |b'.txns|
    && AnswerShows(b', t, g, now) && OthersStay(b, b', t) && ChargesOnly(b, b', t, g.Succeeded?)
  }

  /** A reconciliation applies the gateway's answer to the transaction it is asked about. */
  lemma ReconcileMeans(b: Books, c: Config, t: nat, a: Answer, now: nat)
    requires ValidConfig(c) && Base(b)
    ensures var b', fault := Perform(b, c, Reconcile(t), a, now), FaultOf(b, c, Reconcile(t), a, now);
            if t < |b.txns| then fault == None && AnswerApplied(b, t, a.status, now, b')
            else fault == Some(NotFound) && b' == b
  {
    hide Base;
    hide Perform;
    hide FaultOf;
    Outcome(b, c, Reconcile(t), a, now);
    if t < |b.txns| {
      ApplyMeans(b, t, b.txns[t], a.status, now);
      hide ChargePosted;
    }
  }
}
