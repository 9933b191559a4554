/** Contact details are handed out exactly for the jobs that are charged on the ledger, in every run. */
module ContactRules {
  import opened Common
  import opened Policy
  import opened Ledger
  import opened Payments
  import opened Safety
  import opened Growth
  import opened Agreement
  import opened Charges
  import opened Runs

  /** Exactly the jobs with a charge on the ledger have their contact unlocked. */
  predicate ContactsMatch(b: Books) {
    forall j :: 0 <= j < |b.jobs| ==> (b.jobs[j].contactUnlockedAt.Some? <==> JobCharged(b.ledger, j))
  }

  lemma JobChargedAppend(l: seq<Entry>, es: seq<Entry>, j: nat)
    ensures JobCharged(l + es, j) <==> JobCharged(l, j) || JobCharged(es, j)
  {
    ChargesRemain(l, es);
    if JobCharged(es, j) {
      var k :| 0 <= k < |es| && IsCharge(es[k], j);
      assert (l + es)[|l| + k] == es[k];
    }
    if JobCharged(l + es, j) {
      var k :| 0 <= k < |l + es| && IsCharge((l + es)[k], j);
      assert (l + es)[k] == if k < |l| then l[k] else es[k - |l|];
    }
  }

  lemma ChargeEntriesCharge(job: nat, i: nat, t: nat, amount: nat, fee: nat, net: nat, j: nat)
    ensures JobCharged(ChargeEntries(job, i, t, amount, fee, net), j) <==> j == job
  {
    assert IsCharge(ChargeEntries(job, i, t, amount, fee, net)[0], job);
  }

  lemma ApplyMatches(b: Books, t: nat, row: Txn, g: GatewayStatus, now: nat)
    requires Base(b) && t < |b.txns| && ContactsMatch(b)
    ensures ContactsMatch(Apply(b, t, row, g, now))
  {
    hide Base;
    hide JobCharged;
    hide ChargePosted;
    hide ChargeEntries;
    BaseGives(b);
    var b' := Apply(b, t, row, g, now);
    var i := b.txns[t].intent;
    var intent := b.intents[i];
    if ChargePosted(b.ledger, t) {
      ChargeHasEntry(b, t);
      assert b'.ledger == b.ledger;
    } else if g.Succeeded? {
      var es := ChargeEntries(intent.job, i, t, intent.amount, intent.fee, intent.net);
      forall j | 0 <= j < |b.jobs| ensures JobCharged(b'.ledger, j) <==> JobCharged(b.ledger, j) || j == intent.job {
        JobChargedAppend(b.ledger, es, j);
        ChargeEntriesCharge(intent.job, i, t, intent.amount, intent.fee, intent.net, j);
      }
    } else {
      assert b'.ledger == b.ledger;
    }
  }

  lemma OtherContacts(b: Books, t: Ticket, a: Answer, now: nat)
    requires Linked(b) && TicketOk(b, t) && !t.ChargeIntent? && !t.Deliver? && !t.ApplyAnswer?
    ensures var b' := After(b, Commit(b, t, a, now));
            && (forall j :: 0 <= j < |b.jobs| ==> b'.jobs[j].contactUnlockedAt == b.jobs[j].contactUnlockedAt)
            && (forall j :: |b.jobs| <= j < |b'.jobs| ==> b'.jobs[j].contactUnlockedAt == None)
  {
    hide Insertable;
  }

  lemma OtherMatches(b: Books, t: Ticket, a: Answer, now: nat)
    requires Base(b) && Linked(b) && TicketOk(b, t) && ContactsMatch(b)
    requires !t.ChargeIntent? && !t.Deliver? && !t.ApplyAnswer?
    ensures ContactsMatch(After(b, Commit(b, t, a, now)))
  {
    hide Base;
    hide JobCharged;
    hide Commit;
    hide TicketOk;
    var es, b' := PostedBy(b, t, a, now), After(b, Commit(b, t, a, now));
    CommitGrows(b, t, a, now);
    assert b'.ledger == b.ledger + es;
    NoChargeEntries(b, t, a, now);
    OtherContacts(b, t, a, now);
    forall j | 0 <= j < |b'.jobs| ensures JobCharged(b'.ledger, j) <==> JobCharged(b.ledger, j) {
      JobChargedAppend(b.ledger, es, j);
      NoneCharged(es, j);
    }
    forall j | |b.jobs| <= j < |b'.jobs| ensures !JobCharged(b.ledger, j) {
      NewJobUncharged(b, j);
    }
  }

  lemma NoneCharged(es: seq<Entry>, j: nat)
    requires forall k :: 0 <= k < |es| ==> !es[k].kind.CustomerCharge?
    ensures !JobCharged(es, j)
  {
  }

  lemma NewJobUncharged(b: Books, j: nat)
    requires Base(b) && j >= |b.jobs|
    ensures !JobCharged(b.ledger, j)
  {
  }

  lemma CommitMatches(b: Books, t: Ticket, a: Answer, now: nat)
    requires Base(b) && Linked(b) && TicketOk(b, t) && ContactsMatch(b)
    ensures ContactsMatch(After(b, Commit(b, t, a, now)))
  {
    hide Base;
    hide ContactsMatch;
    match t
    case ChargeIntent(i, key) => ChargeMatches(b, i, key, a, now);
    case Deliver(x, g, e) =>
      ApplyMatches(b, x, b.txns[x], g, now);
      EventsMatch(Apply(b, x, b.txns[x], g, now), Commit(b, t, a, now).value);
    case ApplyAnswer(x, row) => ApplyMatches(b, x, row, a.status, now);
    case _ => OtherMatches(b, t, a, now);
  }

  lemma EventsMatch(b: Books, b': Books)
    requires ContactsMatch(b) && b' == b.(events := b'.events)
    ensures ContactsMatch(b')
  {
  }

  lemma ChargeMatches(b: Books, i: nat, key: Key, a: Answer, now: nat)
    requires Base(b) && Linked(b) && i < |b.intents| && ContactsMatch(b)
    ensures ContactsMatch(After(b, CommitCharge(b, i, key, a, now)))
  {
    hide Base;
    hide Apply;
    hide JobCharged;
    var intent := b.intents[i];
    if Insertable(b.txns, key, intent.gateway, a.reference) {
      var row := Txn(i, Charge, TxnStatusOf(a.status), intent.gateway, a.reference, key, intent.amount,
                     ConfirmedFor(a.status, intent.amount));
      var mid := b.(txns := b.txns + [row]);
      AddTxn(b, row);
      ApplyMatches(mid, |b.txns|, row, a.status, now);
    }
  }

  lemma PerformMatches(b: Books, c: Config, call: Call, a: Answer, now: nat)
    requires ValidConfig(c) && ValidCall(call) && Base(b) && ContactsMatch(b)
    ensures ContactsMatch(Perform(b, c, call, a, now))
  {
    hide Base;
    hide Begin;
    hide Commit;
    hide Sound;
    hide ContactsMatch;
    BaseGives(b);
    BeginIsSound(b, c, call, now);
    var s := Begin(b, c, call, now);
    if !s.Refused? {
      EventsGrow(b, c, call, now);
      EventsMatch(b, s.books);
    }
    if s.Ready? {
      BaseGives(s.books);
      SoundGives(s.books, s.ticket);
      CommitMatches(s.books, s.ticket, a, now);
    }
  }

  lemma StepMatches(s: System, c: Config, split: set<Kind>, step: Step)
    requires ValidConfig(c) && Good(s) && ContactsMatch(s.books)
    ensures ContactsMatch(Next(s, c, split, step).books)
  {
    hide Base;
    hide Begin;
    hide Commit;
    hide Perform;
    hide Sound;
    hide ContactsMatch;
    BaseGives(s.books);
    match step
    case Enter(call, wait) =>
      if ValidCall(call) && !Begin(s.books, c, call, s.clock + wait).Refused? {
        EventsGrow(s.books, c, call, s.clock + wait);
        EventsMatch(s.books, Begin(s.books, c, call, s.clock + wait).books);
      }
    case Finish(w, a, wait) =>
      if w < |s.pending| {
        SoundGives(s.books, s.pending[w]);
        CommitMatches(s.books, s.pending[w], a, s.clock + wait);
      }
    case Whole(call, a, wait) =>
      if ValidCall(call) {
        PerformMatches(s.books, c, call, a, s.clock + wait);
      }
    case Drop(_) =>
  }

  lemma {:induction false} ContactsAlwaysMatch(c: Config, split: set<Kind>, steps: seq<Step>)
    requires ValidConfig(c)
    ensures ContactsMatch(FromStart(c, split, steps).books)
  {
    hide Next;
    hide Base;
    hide JobCharged;
    if steps != [] {
      var front := steps[..|steps| - 1];
      ContactsAlwaysMatch(c, split, front);
      StepMatches(FromStart(c, split, front), c, split, steps[|steps| - 1]);
    }
  }

  /**
   * In any interleaving with any gateway answers, a job's contact is unlocked exactly if a customer charge of the
   * job is on the ledger.
   */
  lemma ContactIffCharged(c: Config, split: set<Kind>, steps: seq<Step>, j: nat)
    requires ValidConfig(c) && j < |FromStart(c, split, steps).books.jobs|
    ensures var b := FromStart(c, split, steps).books;
            b.jobs[j].contactUnlockedAt.Some?
            <==> exists k :: 0 <= k < |b.ledger| && b.ledger[k].kind == CustomerCharge && b.ledger[k].job == j
  {
    hide FromStart;
    ContactsAlwaysMatch(c, split, steps);
    var b := FromStart(c, split, steps).books;
    forall k | 0 <= k < |b.ledger|
      ensures IsCharge(b.ledger[k], j) <==> b.ledger[k].kind == CustomerCharge && b.ledger[k].job == j
    {
    }
    if exists k :: 0 <= k < |b.ledger| && b.ledger[k].kind == CustomerCharge && b.ledger[k].job == j {
      var k :| 0 <= k < |b.ledger| && b.ledger[k].kind == CustomerCharge && b.ledger[k].job == j;
      assert IsCharge(b.ledger[k], j);
    }
  }
}
