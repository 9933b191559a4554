/** What the job calls promise: who may move a job when, what a move leaves, and the timeline every run keeps. */
module JobRules {
  import opened Common
  import opened Policy
  import opened Payments
  import opened Safety
  import opened Runs
  import opened PaymentRules
  import opened Guarantees

  // ----- moving a job -----

  /** The moves of the provider, and the cancelation open to both parties until the job has ended. */
  predicate MayMove(row: Job, actor: nat, next: JobStatus) {
    || (actor == row.provider && row.status == JobStatus.Requested && next == JobStatus.Accepted)
    || (actor == row.provider && row.status == JobStatus.Accepted && next == JobStatus.InProgress)
    || (actor == row.provider && row.status == JobStatus.InProgress && next == JobStatus.Completed)
    || ((actor == row.client || actor == row.provider) && next == JobStatus.Canceled
        && row.status != JobStatus.Completed && row.status != JobStatus.Canceled)
  }

  predicate HasPaidIntent(b: Books, j: nat) {
    exists i :: 0 <= i < |b.intents| && b.intents[i].job == j && IsPaid(b.intents[i])
  }

  /** Anything but a cancelation is for jobs from a selection whose payment has arrived. */
  predicate PaymentReady(b: Books, j: nat, next: JobStatus)
    requires j < |b.jobs|
  {
    next == JobStatus.Accepted || next == JobStatus.InProgress || next == JobStatus.Completed ==>
      b.jobs[j].request.Some? && b.jobs[j].proposal.Some? && HasPaidIntent(b, j)
  }

  /** A cancelation comes with a reason, and nothing else does. */
  predicate ReasonFits(next: JobStatus, reason: bool) {
    reason <==> next == JobStatus.Canceled
  }

  /** The job's row after the move: each stamp is set by the move it belongs to, once. */
  function Moved(row: Job, next: JobStatus, now: nat): Job {
    row.(status := next,
         acceptedAt := if next == JobStatus.Accepted && row.acceptedAt.None? then Some(now) else row.acceptedAt,
         startedAt := if next == JobStatus.InProgress && row.startedAt.None? then Some(now) else row.startedAt,
         completedAt := if next == JobStatus.Completed && row.completedAt.None? then Some(now) else row.completedAt,
         canceledAt := if next == JobStatus.Canceled && row.canceledAt.None? then Some(now) else row.canceledAt)
  }

  predicate IsUnpaid(row: Intent) {
    || row.status == IntentStatus.Created
    || row.status == IntentStatus.AwaitingPayment
    || row.status == IntentStatus.PendingConfirmation
  }

  /** The move is written, and a cancelation cancels the job's unpaid intents; nothing else changes. */
  predicate MoveShows(b: Books, j: nat, next: JobStatus, now: nat, b': Books)
    requires j < |b.jobs|
  {
    && b' == b.(jobs := b.jobs[j := Moved(b.jobs[j], next, now)], intents := b'.intents)
    && |b'.intents| == |b.intents|
    && forall i :: 0 <= i < |b.intents| ==>
         b'.intents[i] == if next == JobStatus.Canceled && b.intents[i].job == j && IsUnpaid(b.intents[i])
                          then b.intents[i].(status := IntentStatus.Canceled) else b.intents[i]
  }

  lemma MoveBegins(b: Books, j: nat, actor: nat, next: JobStatus, reason: bool, now: nat)
    requires j < |b.jobs|
    ensures var start := BeginUpdateJob(b, j, actor, next, reason, now);
            && (start.Ready? <==>
                (MayMove(b.jobs[j], actor, next) && PaymentReady(b, j, next) && ReasonFits(next, reason)))
            && !start.Settled?
            && (start.Ready? ==>
                  && start.books == b && start.ticket.WriteJob? && start.ticket.job == j
                  && MoveShows(b, j, next, now, CommitJob(b, start.ticket)))
            && (start.Refused? ==>
                  start.fault == if actor != b.jobs[j].client && actor != b.jobs[j].provider then Forbidden
                                 else if !PaymentReady(b, j, next) || !MayMove(b.jobs[j], actor, next) then Conflict
                                 else BadRequest)
  {
    var paid := LastIntent(b.intents, j, PAID);
    assert paid.Some? <==> HasPaidIntent(b, j);
    hide LastIntent;
    hide HasPaidIntent;
    hide CancelUnpaid;
  }

  predicate MoveOutcome(b: Books, j: nat, actor: nat, next: JobStatus, reason: bool, now: nat, b': Books,
                        fault: Option<Fault>) {
    if j >= |b.jobs| then fault == Some(NotFound) && b' == b
    else if MayMove(b.jobs[j], actor, next) && PaymentReady(b, j, next) && ReasonFits(next, reason) then
      fault == None && MoveShows(b, j, next, now, b')
    else
      && b' == b
      && fault == Some(if actor != b.jobs[j].client && actor != b.jobs[j].provider then Forbidden
                       else if !PaymentReady(b, j, next) || !MayMove(b.jobs[j], actor, next) then Conflict
                       else BadRequest)
  }

  lemma MoveMeans(b: Books, j: nat, actor: nat, next: JobStatus, reason: bool, a: Answer, now: nat)
    requires Launchable(BeginUpdateJob(b, j, actor, next, reason, now))
    ensures var (b', fault) := Ends(b, BeginUpdateJob(b, j, actor, next, reason, now), a, now);
            MoveOutcome(b, j, actor, next, reason, now, b', fault)
  {
    if j < |b.jobs| {
      MoveBegins(b, j, actor, next, reason, now);
      hide BeginUpdateJob;
      hide MayMove;
      hide PaymentReady;
      hide ReasonFits;
      hide MoveShows;
      hide CommitJob;
    }
  }

  /**
   * A job moves exactly when the move is one of its party's, the payment gate is open and the reason fits; what the
   * move leaves, and what is answered otherwise.
   */
  lemma MoveIff(b: Books, c: Config, j: nat, actor: nat, next: JobStatus, reason: bool, a: Answer, now: nat)
    requires ValidConfig(c) && Base(b)
    ensures var call := UpdateJob(j, actor, next, reason);
            MoveOutcome(b, j, actor, next, reason, now, Perform(b, c, call, a, now), FaultOf(b, c, call, a, now))
  {
    hide Base;
    hide Perform;
    hide FaultOf;
    hide MoveOutcome;
    hide BeginUpdateJob;
    hide Commit;
    Outcome(b, c, UpdateJob(j, actor, next, reason), a, now);
    MoveMeans(b, j, actor, next, reason, a, now);
  }

  // ----- the timeline of jobs -----

  /** The stamps that the status of a job implies, in order and not in the future. */
  predicate OnTime(row: Job, clock: nat) {
    match row.status
    case Requested => row.acceptedAt.None? && row.startedAt.None? && row.completedAt.None?
    case Accepted =>
      row.acceptedAt.Some? && row.acceptedAt.value <= clock && row.startedAt.None? && row.completedAt.None?
    case InProgress =>
      row.acceptedAt.Some? && row.startedAt.Some? && row.acceptedAt.value <= row.startedAt.value <= clock
      && row.completedAt.None?
    case Completed =>
      row.acceptedAt.Some? && row.startedAt.Some? && row.completedAt.Some?
      && row.acceptedAt.value <= row.startedAt.value <= row.completedAt.value <= clock
    case Canceled => true
  }

  predicate AllOnTime(b: Books, clock: nat) {
    forall j :: 0 <= j < |b.jobs| ==> OnTime(b.jobs[j], clock)
  }

  lemma OtherCommitsOnTime(b: Books, t: Ticket, a: Answer, now: nat)
    requires Linked(b) && TicketOk(b, t) && !t.WriteJob? && AllOnTime(b, now)
    ensures AllOnTime(After(b, Commit(b, t, a, now)), now)
  {
    hide Insertable;
    hide ChargePosted;
  }

  lemma MoveOnTime(b: Books, j: nat, actor: nat, next: JobStatus, now: nat, b': Books)
    requires j < |b.jobs| && MayMove(b.jobs[j], actor, next) && MoveShows(b, j, next, now, b') && AllOnTime(b, now)
    ensures AllOnTime(b', now)
  {
  }

  lemma PerformOnTime(b: Books, c: Config, call: Call, a: Answer, now: nat)
    requires ValidConfig(c) && ValidCall(call) && Base(b) && AllOnTime(b, now)
    ensures AllOnTime(Perform(b, c, call, a, now), now)
  {
    if call.UpdateJob? {
      MoveIff(b, c, call.job, call.actor, call.next, call.reason, a, now);
      hide Base;
      hide Perform;
      hide AllOnTime;
      if call.job < |b.jobs| && MayMove(b.jobs[call.job], call.actor, call.next) && PaymentReady(b, call.job, call.next)
         && ReasonFits(call.next, call.reason) {
        MoveOnTime(b, call.job, call.actor, call.next, now, Perform(b, c, call, a, now));
      }
    } else {
      Outcome(b, c, call, a, now);
      if !Begin(b, c, call, now).Refused? {
        EventsGrow(b, c, call, now);
      }
      NoJobWrites(b, c, call, now);
      hide Base;
      hide Perform;
      hide Begin;
      hide Commit;
      if Begin(b, c, call, now).Ready? {
        OtherCommitsOnTime(Begin(b, c, call, now).books, Begin(b, c, call, now).ticket, a, now);
      }
    }
  }

  lemma NoJobWrites(b: Books, c: Config, call: Call, now: nat)
    requires ValidConfig(c) && ValidCall(call) && Linked(b) && SplitsOk(b.intents) && !call.UpdateJob?
    ensures Begin(b, c, call, now).Ready? ==> !Begin(b, c, call, now).ticket.WriteJob?
  {
  }

  lemma StepOnTime(s: System, c: Config, split: set<Kind>, step: Step)
    requires ValidConfig(c) && Good(s) && PendingOk(s, c, split) && JobWrite !in split && AllOnTime(s.books, s.clock)
    ensures AllOnTime(Next(s, c, split, step).books, Next(s, c, split, step).clock)
  {
    hide Base;
    hide Begin;
    hide Commit;
    hide Perform;
    BaseGives(s.books);
    match step
    case Enter(call, wait) =>
      if ValidCall(call) && !Begin(s.books, c, call, s.clock + wait).Refused? {
        EventsGrow(s.books, c, call, s.clock + wait);
      }
    case Finish(w, a, wait) =>
      if w < |s.pending| {
        OtherCommitsOnTime(s.books, s.pending[w], a, s.clock + wait);
      }
    case Whole(call, a, wait) =>
      if ValidCall(call) {
        PerformOnTime(s.books, c, call, a, s.clock + wait);
      }
    case Drop(_) =>
  }

  /**
   * While job updates run whole, everything else interleaves and each job has the stamps its status implies, in
   * order: nothing completes that was not accepted and started before.
   */
  lemma {:induction false} JobsKeepTheirTimeline(c: Config, split: set<Kind>, steps: seq<Step>)
    requires ValidConfig(c) && JobWrite !in split
    ensures var s := FromStart(c, split, steps);
            forall j :: 0 <= j < |s.books.jobs| ==> OnTime(s.books.jobs[j], s.clock)
  {
    hide Next;
    hide Base;
    hide OnTime;
    if steps != [] {
      var front := steps[..|steps| - 1];
      JobsKeepTheirTimeline(c, split, front);
      FromStartIsSafe(c, split, front);
      StepOnTime(FromStart(c, split, front), c, split, steps[|steps| - 1]);
    }
  }
}
