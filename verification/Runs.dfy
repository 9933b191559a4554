/**
 * Whole runs of the payment service: any number of workers, each between its outer phase and its
 * transaction, interleaved in any way, with any gateway answers.
 */
module Runs {
  import opened Common
  import opened Policy
  import opened Payments
  import opened Safety
  import opened Growth
  import opened Agreement
  import opened ReleaseDelay

  /** The kinds of call whose outer check guards a write that does not check again. */
  datatype Kind = JobWrite | RefundClosing | RefundSettling | PayoutCreation | PayoutApproval | Reconciliation | Other

  function KindOf(t: Ticket): Kind {
    match t
    case WriteJob(_, _, _, _, _, _) => JobWrite
    case CloseRefund(_, _) => RefundClosing
    case SettleRefund(_, _) => RefundSettling
    case InsertPayout(_) => PayoutCreation
    case MarkApproved(_) => PayoutApproval
    case ApplyAnswer(_, _) => Reconciliation
    case _ => Other
  }

  /** `pending` holds the tickets of workers that have not reached their transaction yet. */
  datatype System = System(books: Books, pending: seq<Ticket>, clock: nat)

  const INITIAL := System(EMPTY_BOOKS, [], 0)

  datatype Step =
    | Enter(call: Call, wait: nat)                    // a worker runs its outer phase
    | Finish(worker: nat, answer: Answer, wait: nat)  // a worker runs its transaction
    | Whole(call: Call, answer: Answer, wait: nat)    // both, with nothing in between
    | Drop(worker: nat)                               // a worker dies before its transaction

  ghost predicate Good(s: System) {
    Base(s.books) && forall k :: 0 <= k < |s.pending| ==> Sound(s.books, s.pending[k])
  }

  /** A transaction run or rolled back. */
  ghost function Finished(b: Books, t: Ticket, a: Answer, now: nat): (r: Books)
    requires Base(b) && Sound(b, t)
    ensures Base(r) && Grew(b, r)
  {
    CommitKeepsBase(b, t, a, now);
    CommitGrows(b, t, a, now);
    After(b, Commit(b, t, a, now))
  }

  /** One call with nothing interleaved. */
  ghost function Perform(b: Books, c: Config, call: Call, a: Answer, now: nat): (r: Books)
    requires ValidConfig(c) && ValidCall(call) && Base(b)
    ensures Base(r) && Grew(b, r)
  {
    BeginIsSound(b, c, call, now);
    match Begin(b, c, call, now)
    case Refused(_) => b
    case Settled(b') => EventsGrow(b, c, call, now); b'
    case Ready(b', t) =>
      EventsGrow(b, c, call, now);
      GrewTransitive(b, b', Finished(b', t, a, now));
      Finished(b', t, a, now)
  }

  /** The fault that call reports, if any. */
  ghost function FaultOf(b: Books, c: Config, call: Call, a: Answer, now: nat): Option<Fault>
    requires ValidConfig(c) && ValidCall(call) && Base(b)
  {
    BeginIsSound(b, c, call, now);
    match Begin(b, c, call, now)
    case Refused(f) => Some(f)
    case Settled(_) => None
    case Ready(b', t) =>
      var r := Commit(b', t, a, now);
      if r.Ok? then None else Some(r.fault)
  }

  /** The outer phase touches no table but the webhook events. */
  lemma EventsGrow(b: Books, c: Config, call: Call, now: nat)
    requires ValidConfig(c) && ValidCall(call) && Base(b) && !Begin(b, c, call, now).Refused?
    ensures var b' := Begin(b, c, call, now).books; b' == b.(events := b'.events) && Grew(b, b')
  {
    if !call.Webhook? {
      BeginTicket(b, c, call, now);
    }
  }

  lemma GrewTransitive(x: Books, y: Books, z: Books)
    requires Grew(x, y) && Grew(y, z) && y == x.(events := y.events)
    ensures Grew(x, z)
  {
  }

  lemma AllSoundStays(b: Books, b': Books, pending: seq<Ticket>)
    requires Linked(b) && Linked(b') && Grew(b, b') && forall k :: 0 <= k < |pending| ==> Sound(b, pending[k])
    ensures forall k :: 0 <= k < |pending| ==> Sound(b', pending[k])
  {
    forall k | 0 <= k < |pending| ensures Sound(b', pending[k]) {
      SoundStays(b, b', pending[k]);
    }
  }

  /** One step; calls whose kind is not in `split` only run whole. */
  ghost function Next(s: System, c: Config, split: set<Kind>, step: Step): (r: System)
    requires ValidConfig(c) && Good(s)
    ensures Good(r) && Grew(s.books, r.books) && s.clock <= r.clock
  {
    match step
    case Enter(call, wait) =>
      var now := s.clock + wait;
      if !ValidCall(call) || Begin(s.books, c, call, now).Refused? then s
      else
        BeginIsSound(s.books, c, call, now);
        EventsGrow(s.books, c, call, now);
        var start := Begin(s.books, c, call, now);
        AllSoundStays(s.books, start.books, s.pending);
        if start.Settled? then System(start.books, s.pending, now)
        else if KindOf(start.ticket).Other? || KindOf(start.ticket) in split
            then System(start.books, s.pending + [start.ticket], now)
        else s
    case Finish(w, a, wait) =>
      if w >= |s.pending| then s
      else
        var now := s.clock + wait;
        var b' := Finished(s.books, s.pending[w], a, now);
        AllSoundStays(s.books, b', s.pending);
        System(b', s.pending[..w] + s.pending[w + 1..], now)
    case Whole(call, a, wait) =>
      if !ValidCall(call) then s
      else
        var b' := Perform(s.books, c, call, a, s.clock + wait);
        AllSoundStays(s.books, b', s.pending);
        System(b', s.pending, s.clock + wait)
    case Drop(w) =>
      if w >= |s.pending| then s else s.(pending := s.pending[..w] + s.pending[w + 1..])
  }

  ghost function Run(s: System, c: Config, split: set<Kind>, steps: seq<Step>): (r: System)
    requires ValidConfig(c) && Good(s)
    ensures Good(r)
  {
    if steps == [] then s else Next(Run(s, c, split, steps[..|steps| - 1]), c, split, steps[|steps| - 1])
  }

  lemma InitialIsGood()
    ensures Good(INITIAL)
  {
  }

  /** The state after `steps`, starting from empty tables. */
  ghost function FromStart(c: Config, split: set<Kind>, steps: seq<Step>): (r: System)
    requires ValidConfig(c)
    ensures Good(r)
  {
    InitialIsGood();
    Run(INITIAL, c, split, steps)
  }

  // ----- runs, one step longer -----

  lemma AddStep(c: Config, split: set<Kind>, steps: seq<Step>, step: Step)
    requires ValidConfig(c)
    ensures FromStart(c, split, steps + [step]) == Next(FromStart(c, split, steps), c, split, step)
  {
    hide Next;
    hide Base;
    assert (steps + [step])[..|steps|] == steps;
  }

  lemma AddWhole(c: Config, split: set<Kind>, steps: seq<Step>, s: System, call: Call, a: Answer, wait: nat)
    requires ValidConfig(c) && ValidCall(call) && FromStart(c, split, steps) == s
    ensures Base(s.books)
    ensures FromStart(c, split, steps + [Whole(call, a, wait)])
         == System(Perform(s.books, c, call, a, s.clock + wait), s.pending, s.clock + wait)
  {
    hide Base;
    hide Perform;
    hide FromStart;
    AddStep(c, split, steps, Whole(call, a, wait));
  }

  lemma AddEnter(c: Config, split: set<Kind>, steps: seq<Step>, s: System, call: Call, wait: nat, t: Ticket)
    requires ValidConfig(c) && ValidCall(call) && FromStart(c, split, steps) == s
    requires Linked(s.books) && SplitsOk(s.books.intents)
    requires Begin(s.books, c, call, s.clock + wait) == Ready(s.books, t) && KindOf(t) in split
    ensures FromStart(c, split, steps + [Enter(call, wait)]) == System(s.books, s.pending + [t], s.clock + wait)
  {
    hide Begin;
    hide Base;
    hide FromStart;
    AddStep(c, split, steps, Enter(call, wait));
  }

  lemma AddFinish(c: Config, split: set<Kind>, steps: seq<Step>, s: System, w: nat, a: Answer, wait: nat)
    requires ValidConfig(c) && FromStart(c, split, steps) == s && w < |s.pending|
    ensures Linked(s.books) && TicketOk(s.books, s.pending[w])
    ensures FromStart(c, split, steps + [Finish(w, a, wait)])
         == System(After(s.books, Commit(s.books, s.pending[w], a, s.clock + wait)),
                   s.pending[..w] + s.pending[w + 1..], s.clock + wait)
  {
    hide Base;
    hide Sound;
    hide Commit;
    hide FromStart;
    AddStep(c, split, steps, Finish(w, a, wait));
    BaseGives(s.books);
    SoundGives(s.books, s.pending[w]);
  }

  lemma SoundGives(b: Books, t: Ticket)
    requires Linked(b) && Sound(b, t)
    ensures TicketOk(b, t)
  {
  }

  lemma BaseGives(b: Books)
    requires Base(b)
    ensures Linked(b) && SplitsOk(b.intents)
  {
  }

  // ----- what depends on fresh checks -----

  ghost predicate Agrees(b: Books, c: Config, now: nat, split: set<Kind>)
    requires Linked(b)
  {
    && (JobWrite !in split ==> NoEarlyMoney(b, c, now))
    && (RefundClosing !in split ==> RefundsAgree(b))
    && (RefundClosing !in split && RefundSettling !in split ==> RefundsCapped(b))
    && (PayoutApproval !in split ==> PayoutsAgree(b))
    && (Reconciliation !in split ==> ConfirmedAgree(b))
  }

  ghost predicate PendingOk(s: System, c: Config, split: set<Kind>)
    requires Linked(s.books)
  {
    forall k :: 0 <= k < |s.pending| ==>
      && (KindOf(s.pending[k]).Other? || KindOf(s.pending[k]) in split)
      && (JobWrite !in split && s.pending[k].ReleaseHeld? ==> Matured(s.books, c, s.pending[k].intent, s.clock))
  }

  ghost predicate Safe(s: System, c: Config, split: set<Kind>) {
    Good(s) && Agrees(s.books, c, s.clock, split) && PendingOk(s, c, split)
  }

  lemma CommitAgrees(b: Books, c: Config, t: Ticket, a: Answer, now: nat, split: set<Kind>)
    requires Base(b) && Sound(b, t) && Agrees(b, c, now, split)
    requires KindOf(t).Other? || KindOf(t) in split || Fresh(b, c, t, now)
    requires JobWrite !in split && t.ReleaseHeld? ==> Fresh(b, c, t, now)
    ensures var b' := After(b, Commit(b, t, a, now)); Linked(b') && Agrees(b', c, now, split)
  {
    CommitKeepsBase(b, t, a, now);
    if JobWrite !in split { NoEarlyMoneyKept(b, c, t, a, now); }
    if RefundClosing !in split { RefundsAgreeKept(b, c, t, a, now); }
    if RefundClosing !in split && RefundSettling !in split { RefundsCappedKept(b, c, t, a, now); }
    if PayoutApproval !in split { PayoutsAgreeKept(b, c, t, a, now); }
    if Reconciliation !in split { ConfirmedAgreeKept(b, c, t, a, now); }
  }

  lemma AgreesLater(b: Books, b': Books, c: Config, now: nat, later: nat, split: set<Kind>)
    requires Linked(b) && Linked(b') && Agrees(b, c, now, split) && now <= later && b' == b.(events := b'.events)
    ensures Agrees(b', c, later, split)
  {
  }

  lemma PerformAgrees(b: Books, c: Config, call: Call, a: Answer, now: nat, split: set<Kind>)
    requires ValidConfig(c) && ValidCall(call) && Base(b) && Agrees(b, c, now, split)
    ensures Agrees(Perform(b, c, call, a, now), c, now, split)
  {
    var start := Begin(b, c, call, now);
    if !start.Refused? {
      BeginIsSound(b, c, call, now);
      EventsGrow(b, c, call, now);
      AgreesLater(b, start.books, c, now, now, split);
      if start.Ready? {
        BeginIsFresh(b, c, call, now);
        CommitAgrees(start.books, c, start.ticket, a, now, split);
      }
    }
  }

  /** A commit leaves the pending releases matured, unless it is a job write on a stale check. */
  lemma PendingStays(b: Books, b': Books, before: seq<Ticket>, after: seq<Ticket>, now: nat, c: Config,
                     split: set<Kind>, t: Ticket, a: Answer)
    requires Base(b) && Sound(b, t) && PendingOk(System(b, before, now), c, split)
    requires b' == After(b, Commit(b, t, a, now)) && forall k :: 0 <= k < |after| ==> after[k] in before
    requires JobWrite !in split && t.WriteJob? ==> Fresh(b, c, t, now)
    ensures Linked(b') && PendingOk(System(b', after, now), c, split)
  {
    CommitKeepsBase(b, t, a, now);
    forall k | 0 <= k < |after| && JobWrite !in split && after[k].ReleaseHeld?
      ensures Matured(b', c, after[k].intent, now)
    {
      MaturedStays(b, c, t, a, now, after[k].intent);
    }
  }

  lemma EnterAgrees(s: System, c: Config, split: set<Kind>, step: Step)
    requires ValidConfig(c) && Good(s) && Agrees(s.books, c, s.clock, split) && step.Enter?
    ensures Agrees(Next(s, c, split, step).books, c, Next(s, c, split, step).clock, split)
  {
    hide Begin;
    hide Commit;
    hide Base;
    BaseGives(s.books);
    BaseGives(Next(s, c, split, step).books);
    var s' := Next(s, c, split, step);
    if ValidCall(step.call) && !Begin(s.books, c, step.call, s.clock + step.wait).Refused? {
      EventsGrow(s.books, c, step.call, s.clock + step.wait);
      AgreesLater(s.books, s'.books, c, s.clock, s'.clock, split);
    }
  }

  /** A change of the webhook events alone, at a later time, disturbs no pending ticket. */
  lemma PendingLater(s: System, s': System, c: Config, split: set<Kind>)
    requires Linked(s.books) && PendingOk(s, c, split)
    requires s'.books == s.books.(events := s'.books.events) && s'.pending == s.pending && s.clock <= s'.clock
    ensures PendingOk(s', c, split)
  {
  }

  lemma EnterPending(s: System, c: Config, split: set<Kind>, step: Step)
    requires ValidConfig(c) && Good(s) && PendingOk(s, c, split) && step.Enter?
    ensures PendingOk(Next(s, c, split, step), c, split)
  {
    hide Begin;
    hide Commit;
    hide Base;
    BaseGives(s.books);
    BaseGives(Next(s, c, split, step).books);
    var s' := Next(s, c, split, step);
    var now := s.clock + step.wait;
    if ValidCall(step.call) && !Begin(s.books, c, step.call, now).Refused? {
      var start := Begin(s.books, c, step.call, now);
      EventsGrow(s.books, c, step.call, now);
      PendingLater(s, System(start.books, s.pending, now), c, split);
      if start.Ready? {
        BeginIsFresh(s.books, c, step.call, now);
      }
    }
  }

  lemma WholePending(s: System, c: Config, split: set<Kind>, step: Step)
    requires ValidConfig(c) && Good(s) && PendingOk(s, c, split) && step.Whole?
    ensures PendingOk(Next(s, c, split, step), c, split)
  {
    hide Begin;
    hide Commit;
    hide Base;
    BaseGives(s.books);
    BaseGives(Next(s, c, split, step).books);
    var now := s.clock + step.wait;
    if ValidCall(step.call) {
      PendingLater(s, s.(clock := now), c, split);
      var start := Begin(s.books, c, step.call, now);
      if !start.Refused? {
        EventsGrow(s.books, c, step.call, now);
        PendingLater(s, System(start.books, s.pending, now), c, split);
        if start.Ready? {
          WholeCommitPending(s, c, split, step, start.books, start.ticket);
        }
      }
    }
  }

  lemma WholeCommitPending(s: System, c: Config, split: set<Kind>, step: Step, b: Books, t: Ticket)
    requires ValidConfig(c) && Good(s) && step.Whole? && ValidCall(step.call)
    requires Begin(s.books, c, step.call, s.clock + step.wait) == Ready(b, t)
    requires Linked(b) && PendingOk(System(b, s.pending, s.clock + step.wait), c, split)
    ensures PendingOk(Next(s, c, split, step), c, split)
  {
    hide Begin;
    hide Commit;
    hide Base;
    BaseGives(s.books);
    BaseGives(Next(s, c, split, step).books);
    var now := s.clock + step.wait;
    BeginIsSound(s.books, c, step.call, now);
    BeginIsFresh(s.books, c, step.call, now);
    var b' := After(b, Commit(b, t, step.answer, now));
    PendingStays(b, b', s.pending, s.pending, now, c, split, t, step.answer);
  }

  lemma FinishAgrees(s: System, c: Config, split: set<Kind>, step: Step)
    requires ValidConfig(c) && Good(s) && Agrees(s.books, c, s.clock, split) && PendingOk(s, c, split) && step.Finish?
    ensures Agrees(Next(s, c, split, step).books, c, Next(s, c, split, step).clock, split)
  {
    hide Begin;
    hide Commit;
    hide Base;
    BaseGives(s.books);
    BaseGives(Next(s, c, split, step).books);
    if step.worker < |s.pending| {
      var now := s.clock + step.wait;
      AgreesLater(s.books, s.books, c, s.clock, now, split);
      CommitAgrees(s.books, c, s.pending[step.worker], step.answer, now, split);
    }
  }

  lemma FinishPending(s: System, c: Config, split: set<Kind>, step: Step)
    requires ValidConfig(c) && Good(s) && PendingOk(s, c, split) && step.Finish?
    ensures PendingOk(Next(s, c, split, step), c, split)
  {
    hide Begin;
    hide Commit;
    hide Base;
    BaseGives(s.books);
    BaseGives(Next(s, c, split, step).books);
    if step.worker < |s.pending| {
      var t, now := s.pending[step.worker], s.clock + step.wait;
      var b' := After(s.books, Commit(s.books, t, step.answer, now));
      PendingLater(s, s.(clock := now), c, split);
      PendingStays(s.books, b', s.pending, s.pending[..step.worker] + s.pending[step.worker + 1..], now, c, split, t,
                   step.answer);
    }
  }

  lemma StepIsSafe(s: System, c: Config, split: set<Kind>, step: Step)
    requires ValidConfig(c) && Safe(s, c, split)
    ensures Safe(Next(s, c, split, step), c, split)
  {
    hide Begin;
    hide Commit;
    hide Base;
    BaseGives(s.books);
    BaseGives(Next(s, c, split, step).books);
    match step
    case Enter(_, _) =>
      EnterAgrees(s, c, split, step);
      EnterPending(s, c, split, step);
    case Finish(_, _, _) =>
      FinishAgrees(s, c, split, step);
      FinishPending(s, c, split, step);
    case Whole(call, a, wait) =>
      if ValidCall(call) {
        AgreesLater(s.books, s.books, c, s.clock, s.clock + wait, split);
        PerformAgrees(s.books, c, call, a, s.clock + wait, split);
      }
      WholePending(s, c, split, step);
    case Drop(_) =>
  }

  lemma {:induction false} RunIsSafe(s: System, c: Config, split: set<Kind>, steps: seq<Step>)
    requires ValidConfig(c) && Safe(s, c, split)
    ensures Safe(Run(s, c, split, steps), c, split)
  {
    if steps != [] {
      RunIsSafe(s, c, split, steps[..|steps| - 1]);
      StepIsSafe(Run(s, c, split, steps[..|steps| - 1]), c, split, steps[|steps| - 1]);
    }
  }
}
