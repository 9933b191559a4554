/** Expiring a request lazily, when it is next touched, is indistinguishable from sweeping all requests first. */
module LazyExpiry {
  import opened Requests

  /** The same answer, and after a sweep the same board. */
  predicate Agree(x: (Board, Reply), y: (Board, Reply), now: nat) {
    x.1 == y.1 && Sweep(x.0, now) == Sweep(y.0, now)
  }

  lemma SameBoard(x: Board, y: Board)
    requires |x.requests| == |y.requests| && forall r :: 0 <= r < |x.requests| ==> x.requests[r] == y.requests[r]
    requires |x.invitations| == |y.invitations|
    requires forall k :: 0 <= k < |x.invitations| ==> x.invitations[k] == y.invitations[k]
    requires x.proposals == y.proposals && x.jobs == y.jobs
    ensures x == y
  {
    assert x.requests == y.requests && x.invitations == y.invitations;
  }

  /** Sweeping is idempotent, and a later sweep subsumes an earlier one. */
  lemma SweepAgain(b: Board, now: nat, later: nat)
    requires now <= later
    ensures Sweep(Sweep(b, now), later) == Sweep(b, later)
  {
    SameBoard(Sweep(Sweep(b, now), later), Sweep(b, later));
  }

  /** A refresh does part of what the sweep does. */
  lemma RefreshIsPartOfSweep(b: Board, r: nat, now: nat)
    requires r < |b.requests|
    ensures Sweep(Refresh(b, r, now), now) == Sweep(b, now)
    ensures Refresh(b, r, now).requests[r] == Sweep(b, now).requests[r]
    ensures Refresh(Sweep(b, now), r, now) == Sweep(b, now)
  {
    SameBoard(Sweep(Refresh(b, r, now), now), Sweep(b, now));
  }

  /** Appending a request that does not expire yet commutes with the sweep. */
  lemma AppendRequest(x: Board, y: Board, q: Request, now: nat)
    requires Sweep(x, now) == Sweep(y, now) && !PastExpiry(q, now)
    requires forall k :: 0 <= k < |x.invitations| ==> x.invitations[k].request < |x.requests|
    ensures Sweep(x.(requests := x.requests + [q]), now) == Sweep(y.(requests := y.requests + [q]), now)
  {
    var u, v := x.(requests := x.requests + [q]), y.(requests := y.requests + [q]);
    forall k | 0 <= k < |x.invitations| ensures Sweep(u, now).invitations[k] == Sweep(v, now).invitations[k] {
      assert Sweep(x, now).invitations[k] == Sweep(y, now).invitations[k];
    }
    forall r | 0 <= r < |x.requests| ensures Sweep(u, now).requests[r] == Sweep(v, now).requests[r] {
      assert Sweep(x, now).requests[r] == Sweep(y, now).requests[r];
    }
    SameBoard(Sweep(u, now), Sweep(v, now));
  }

  /** References of invitations to requests are intact. */
  predicate Referenced(b: Board) {
    forall k :: 0 <= k < |b.invitations| ==> b.invitations[k].request < |b.requests|
  }

  lemma RecreateAgrees(b: Board, now: nat, c: Call)
    requires c.Recreate? && ValidCall(c) && Referenced(b)
    ensures Agree(Do(b, now, c), Do(Sweep(b, now), now, c), now)
  {
    var s := Sweep(b, now);
    SweepAgain(b, now, now);
    if c.request < |b.requests| {
      RefreshIsPartOfSweep(b, c.request, now);
      AppendRequest(Refresh(b, c.request, now), s, NewRequest(c.actor, c.lifetime, now), now);
    }
  }

  lemma UpdateAgrees(b: Board, now: nat, c: Call)
    requires c.Update? && Referenced(b)
    ensures Agree(Do(b, now, c), Do(Sweep(b, now), now, c), now)
  {
    var s := Sweep(b, now);
    SweepAgain(b, now, now);
    if c.request < |b.requests| {
      RefreshIsPartOfSweep(b, c.request, now);
      var x, y := Do(b, now, c).0, Do(s, now, c).0;
      if Do(b, now, c).1 == Done {
        SameBoard(Sweep(x, now), Sweep(y, now));
      }
    }
  }

  lemma ViewAgrees(b: Board, now: nat, c: Call)
    requires c.View? || c.RunSweep? || c.ListMyInvitations?
    ensures Agree(Do(b, now, c), Do(Sweep(b, now), now, c), now)
  {
    SweepAgain(b, now, now);
    if c.View? && c.request < |b.requests| {
      RefreshIsPartOfSweep(b, c.request, now);
    }
  }

  lemma InviteAgrees(b: Board, now: nat, c: Call)
    requires c.Invite?
    ensures Agree(Do(b, now, c), Do(Sweep(b, now), now, c), now)
  {
    hide FindProposal;
    hide FindInvitation;
    hide ExpireInvitations;
    var s := Sweep(b, now);
    SweepAgain(b, now, now);
    if c.request < |b.requests| {
      RefreshIsPartOfSweep(b, c.request, now);
      SameInvitees(b.invitations, s.invitations, c.request, c.provider);
      if Do(b, now, c).1 == Done {
        AppendInvitation(b, now, Invitation(c.request, c.provider, Sent));
      }
    }
  }

  lemma AppendInvitation(b: Board, now: nat, v: Invitation)
    requires v.request < |b.requests| && !PastExpiry(b.requests[v.request], now)
    ensures var s := Sweep(b, now);
            Sweep(b.(invitations := b.invitations + [v]), now) == Sweep(s.(invitations := s.invitations + [v]), now)
  {
    var s := Sweep(b, now);
    SameBoard(Sweep(b.(invitations := b.invitations + [v]), now), Sweep(s.(invitations := s.invitations + [v]), now));
  }

  lemma SameInvitees(x: seq<Invitation>, y: seq<Invitation>, r: nat, provider: nat)
    requires |x| == |y| && forall k :: 0 <= k < |x| ==> x[k].request == y[k].request && x[k].provider == y[k].provider
    ensures FindInvitation(x, r, provider).Some? == FindInvitation(y, r, provider).Some?
  {
    var u, v := FindInvitation(x, r, provider), FindInvitation(y, r, provider);
    if u.Some? {
      assert y[u.value].request == r && y[u.value].provider == provider;
    }
    if v.Some? {
      assert x[v.value].request == r && x[v.value].provider == provider;
    }
  }

  lemma ListInvitationsAgrees(b: Board, now: nat, c: Call)
    requires c.ListInvitations?
    ensures Agree(Do(b, now, c), Do(Sweep(b, now), now, c), now)
  {
    var s := Sweep(b, now);
    SweepAgain(b, now, now);
    if c.request < |b.requests| {
      RefreshIsPartOfSweep(b, c.request, now);
      SameBoard(Sweep(Do(b, now, c).0, now), Sweep(Do(s, now, c).0, now));
    }
  }

  /** The one case where the two runs take different branches: the sweep has expired the invitation already. */
  lemma DeclineAgrees(b: Board, now: nat, c: Call)
    requires c.Decline?
    ensures Agree(Do(b, now, c), Do(Sweep(b, now), now, c), now)
  {
    var s := Sweep(b, now);
    SweepAgain(b, now, now);
    if c.invitation < |b.invitations| && b.invitations[c.invitation].request < |b.requests| {
      var r := b.invitations[c.invitation].request;
      RefreshIsPartOfSweep(b, r, now);
      if PastExpiry(b.requests[r], now) {
        DeclineTooLate(b, now, c.actor, c.invitation);
      } else {
        DeclineInTime(b, now, c.actor, c.invitation);
      }
    }
  }

  lemma DeclineTooLate(b: Board, now: nat, actor: nat, v: nat)
    requires v < |b.invitations| && b.invitations[v].request < |b.requests|
             && PastExpiry(b.requests[b.invitations[v].request], now)
    ensures Agree(DoDecline(b, now, actor, v), DoDecline(Sweep(b, now), now, actor, v), now)
  {
    var r := b.invitations[v].request;
    RefreshIsPartOfSweep(b, r, now);
    SweepAgain(b, now, now);
    if b.invitations[v].status.Sent? {
      assert Refresh(b, r, now).invitations[v] == b.invitations[v].(status := InvitationStatus.Expired);
      assert DoDecline(b, now, actor, v).0.invitations == Refresh(b, r, now).invitations
             || DoDecline(b, now, actor, v).0 == b;
    }
  }

  lemma DeclineInTime(b: Board, now: nat, actor: nat, v: nat)
    requires v < |b.invitations| && b.invitations[v].request < |b.requests|
             && !PastExpiry(b.requests[b.invitations[v].request], now)
    ensures Agree(DoDecline(b, now, actor, v), DoDecline(Sweep(b, now), now, actor, v), now)
  {
    SweepAgain(b, now, now);
    SameBoard(Sweep(DoDecline(b, now, actor, v).0, now), Sweep(DoDecline(Sweep(b, now), now, actor, v).0, now));
  }

  lemma SubmitAgrees(b: Board, now: nat, c: Call)
    requires c.Submit?
    ensures Agree(Do(b, now, c), Do(Sweep(b, now), now, c), now)
  {
    var s := Sweep(b, now);
    SweepAgain(b, now, now);
    if c.request < |b.requests| {
      RefreshIsPartOfSweep(b, c.request, now);
      if Do(b, now, c).1 == Done {
        SameBoard(Sweep(Do(b, now, c).0, now), Sweep(Do(s, now, c).0, now));
      }
    }
  }

  lemma SelectAgrees(b: Board, now: nat, c: Call)
    requires c.Select? && ValidCall(c)
    ensures Agree(Do(b, now, c), Do(Sweep(b, now), now, c), now)
  {
    var s := Sweep(b, now);
    SweepAgain(b, now, now);
    if c.request < |b.requests| {
      hide CommitSelect;
      RefreshIsPartOfSweep(b, c.request, now);
      var start := BeginSelect(b, now, c.actor, c.request, c.proposal, c.profile, c.percent, c.feeBps);
      if start.Going? {
        SelectionAgrees(b, start.ticket, now);
      }
    }
  }

  lemma SelectionAgrees(b: Board, t: Selection, now: nat)
    requires t.request < |b.requests| && t.proposal < |b.proposals| && b.requests[t.request].status.Open?
    ensures Agree(CommitSelect(b, t, now), CommitSelect(Sweep(b, now), t, now), now)
  {
    SameBoard(Sweep(CommitSelect(b, t, now).0, now), Sweep(CommitSelect(Sweep(b, now), t, now).0, now));
  }

  lemma CreateAgrees(b: Board, now: nat, c: Call)
    requires c.Create? && ValidCall(c) && Referenced(b)
    ensures Agree(Do(b, now, c), Do(Sweep(b, now), now, c), now)
  {
    SweepAgain(b, now, now);
    AppendRequest(b, Sweep(b, now), NewRequest(c.actor, c.lifetime, now), now);
  }

  /** One call: with the sweep first or without it, the same answer and, swept, the same board. */
  lemma LazyIsEager(b: Board, now: nat, c: Call)
    requires ValidCall(c) && Referenced(b)
    ensures Agree(Do(b, now, c), Do(Sweep(b, now), now, c), now)
  {
    match c
    case Create(_, _, _) => CreateAgrees(b, now, c);
    case Recreate(_, _, _, _) => RecreateAgrees(b, now, c);
    case Update(_, _, _) => UpdateAgrees(b, now, c);
    case Invite(_, _, _, _) => InviteAgrees(b, now, c);
    case ListInvitations(_, _) => ListInvitationsAgrees(b, now, c);
    case Decline(_, _) => DeclineAgrees(b, now, c);
    case Submit(_, _, _, _) => SubmitAgrees(b, now, c);
    case Select(_, _, _, _, _, _) => SelectAgrees(b, now, c);
    case _ => ViewAgrees(b, now, c);
  }

  lemma DoKeepsReferences(b: Board, now: nat, c: Call)
    requires ValidCall(c) && Referenced(b)
    ensures Referenced(Do(b, now, c).0)
  {
    if c.Select? {
      SelectKeepsReferences(b, now, c);
    } else if c.Decline? || c.Submit? {
      AnswerKeepsReferences(b, now, c);
    }
  }

  lemma SelectKeepsReferences(b: Board, now: nat, c: Call)
    requires ValidCall(c) && Referenced(b) && c.Select?
    ensures Referenced(Do(b, now, c).0)
  {
  }

  lemma AnswerKeepsReferences(b: Board, now: nat, c: Call)
    requires ValidCall(c) && Referenced(b) && (c.Decline? || c.Submit?)
    ensures Referenced(Do(b, now, c).0)
  {
  }

  // ----- whole runs -----

  /** Calls with the time that passes before each. */
  datatype Timed = Timed(call: Call, wait: nat)

  function Clock(now: nat, calls: seq<Timed>): nat {
    if calls == [] then now else Clock(now, calls[..|calls| - 1]) + calls[|calls| - 1].wait
  }

  /** The board and the answers after the calls; `sweeping` runs the sweep before each of them. */
  function RunCalls(b: Board, now: nat, calls: seq<Timed>, sweeping: bool): (Board, seq<Reply>)
    requires forall k :: 0 <= k < |calls| ==> ValidCall(calls[k].call)
  {
    if calls == [] then (b, [])
    else
      var (before, replies) := RunCalls(b, now, calls[..|calls| - 1], sweeping);
      var at := Clock(now, calls);
      var (after, reply) := Do(if sweeping then Sweep(before, at) else before, at, calls[|calls| - 1].call);
      (after, replies + [reply])
  }

  /** Two boards that only differ by what a sweep would do answer a call alike and stay so. */
  lemma SweptAlike(x: Board, y: Board, now: nat, c: Call)
    requires ValidCall(c) && Referenced(x) && Referenced(y) && Sweep(x, now) == Sweep(y, now)
    ensures Agree(Do(x, now, c), Do(Sweep(y, now), now, c), now)
  {
    LazyIsEager(x, now, c);
  }

  lemma SweepKeepsReferences(b: Board, now: nat)
    requires Referenced(b)
    ensures Referenced(Sweep(b, now))
  {
  }

  /**
   * Lazy expiry refines eager expiry over whole runs: a run that never sweeps and a run that sweeps
   * before every call give the same answers and, after a final sweep, the same board.
   */
  lemma {:induction false} LazyRefinesEager(b: Board, now: nat, calls: seq<Timed>)
    requires Referenced(b) && forall k :: 0 <= k < |calls| ==> ValidCall(calls[k].call)
    ensures Referenced(RunCalls(b, now, calls, false).0) && Referenced(RunCalls(b, now, calls, true).0)
    ensures RunCalls(b, now, calls, false).1 == RunCalls(b, now, calls, true).1
    ensures Sweep(RunCalls(b, now, calls, false).0, Clock(now, calls))
            == Sweep(RunCalls(b, now, calls, true).0, Clock(now, calls))
  {
    if calls != [] {
      hide Do;
      hide Sweep;
      hide Referenced;
      var front, last := calls[..|calls| - 1], calls[|calls| - 1].call;
      LazyRefinesEager(b, now, front);
      var x, y := RunCalls(b, now, front, false).0, RunCalls(b, now, front, true).0;
      var before, at := Clock(now, front), Clock(now, calls);
      SweepAgain(x, before, at);
      SweepAgain(y, before, at);
      SweptAlike(x, y, at, last);
      DoKeepsReferences(x, at, last);
      SweepKeepsReferences(y, at);
      DoKeepsReferences(Sweep(y, at), at, last);
    }
  }
}
