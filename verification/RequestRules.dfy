/** What the calls on requests promise: exactly when each is accepted and what it leaves, and where prices come from. */
module RequestRules {
  import opened Common
  import opened Policy
  import opened Requests
  import opened RequestSafety

  // ----- what a call may leave -----

  predicate IsDue(q: Request, now: nat) {
    q.status == RequestStatus.Open && q.expiresAt <= now
  }

  predicate TakesBids(q: Request, now: nat) {
    q.status == RequestStatus.Open && now < q.expiresAt
  }

  /**
   * Exactly the due requests, or the given one if it is due, have expired, with their waiting invitations;
   * nothing else changes.
   */
  predicate Lapsed(b: Board, now: nat, only: Option<nat>, b': Board)
    requires References(b)
  {
    && b'.proposals == b.proposals && b'.jobs == b.jobs
    && |b'.requests| == |b.requests| && |b'.invitations| == |b.invitations|
    && (forall r :: 0 <= r < |b.requests| ==>
          b'.requests[r] == if only in {None, Some(r)} && IsDue(b.requests[r], now)
                            then b.requests[r].(status := RequestStatus.Expired) else b.requests[r])
    && (forall k :: 0 <= k < |b.invitations| ==>
          var v := b.invitations[k];
          b'.invitations[k] == if only in {None, Some(v.request)} && IsDue(b.requests[v.request], now)
                                  && v.status == InvitationStatus.Sent
                               then v.(status := InvitationStatus.Expired) else v)
  }


  lemma RefreshLapses(b: Board, r: nat, now: nat)
    requires Consistent(b) && r < |b.requests|
    ensures Lapsed(b, now, Some(r), Refresh(b, r, now))
    ensures IsDue(b.requests[r], now) ==> Refresh(b, r, now).requests[r].status.Expired?
    ensures !IsDue(b.requests[r], now) ==> Refresh(b, r, now) == b
  {
    assert RequestOk(b, r);
  }

  /** Exactly a closed request has a selection and a job, and they are of the same proposal. */
  lemma SelectionAndJob(b: Board, r: nat)
    requires Consistent(b) && r < |b.requests|
    ensures var q, job := b.requests[r], FindJob(b.jobs, r);
            if q.status == RequestStatus.Closed then
              && q.selected.Some? && job.Some? && job.value < |b.jobs|
              && b.jobs[job.value].request == r && b.jobs[job.value].proposal == q.selected.value
            else q.selected == None && job == None
  {
    assert RequestOk(b, r);
  }

  /** A sweep, by itself or before a provider's list, expires every due request. */
  lemma SweepRule(b: Board, now: nat, actor: nat)
    requires Consistent(b)
    ensures Do(b, now, RunSweep).1 == Done && Do(b, now, ListMyInvitations(actor)).1 == Done
    ensures Lapsed(b, now, None, Do(b, now, RunSweep).0)
    ensures Lapsed(b, now, None, Do(b, now, ListMyInvitations(actor)).0)
  {
    forall r | 0 <= r < |b.requests| ensures PastExpiry(b.requests[r], now) <==> IsDue(b.requests[r], now) {
      assert RequestOk(b, r);
    }
    SweepKeeps(b, now);
    RepairsNothing(Sweep(b, now), actor);
  }

  // ----- the owner's calls -----

  predicate CreateOutcome(b: Board, now: nat, actor: nat, active: bool, lifetime: nat, b': Board, reply: Reply) {
    if !active then reply == Refused(NotFound) && b' == b
    else
      && reply == Done
      && b' == b.(requests := b.requests + [Request(actor, RequestStatus.Open, None, now + lifetime)])
  }

  predicate RecreateOutcome(b: Board, now: nat, actor: nat, r: nat, active: bool, lifetime: nat, b': Board,
                            reply: Reply)
    requires References(b)
  {
    if r >= |b.requests| then reply == Refused(NotFound) && b' == b
    else if b.requests[r].customer != actor then reply == Refused(Forbidden) && b' == b
    else if b.requests[r].status == RequestStatus.Closed || TakesBids(b.requests[r], now) then
      reply == Refused(Conflict) && b' == b
    else if !active then reply == Refused(NotFound) && Lapsed(b, now, Some(r), b')
    else
      && reply == Done && |b'.requests| == |b.requests| + 1
      && b'.requests[|b.requests|] == Request(actor, RequestStatus.Open, None, now + lifetime)
      && Lapsed(b, now, Some(r), b'.(requests := b'.requests[..|b.requests|]))
  }

  predicate UpdateOutcome(b: Board, now: nat, actor: nat, r: nat, extension: Option<nat>, b': Board, reply: Reply)
    requires References(b)
  {
    if r >= |b.requests| then reply == Refused(NotFound) && b' == b
    else if b.requests[r].customer != actor then reply == Refused(Forbidden) && b' == b
    else if !TakesBids(b.requests[r], now) then reply == Refused(Conflict) && Lapsed(b, now, Some(r), b')
    else
      && reply == Done
      && match extension
         case None => b' == b
         case Some(more) =>
           b' == b.(requests := b.requests[r := b.requests[r].(expiresAt := b.requests[r].expiresAt + more)])
  }

  predicate ViewOutcome(b: Board, now: nat, actor: nat, r: nat, b': Board, reply: Reply)
    requires References(b)
  {
    if r >= |b.requests| then reply == Refused(NotFound) && b' == b
    else if b.requests[r].customer != actor then reply == Refused(Forbidden) && b' == b
    else
      && Lapsed(b, now, Some(r), b')
      && reply == Viewed(if IsDue(b.requests[r], now) then RequestStatus.Expired else b.requests[r].status)
  }

  /** A new request is open until its lifetime has passed. */
  lemma CreateRule(b: Board, now: nat, actor: nat, active: bool, lifetime: nat)
    requires lifetime >= 1
    ensures var (b', reply) := Do(b, now, Create(actor, active, lifetime));
            CreateOutcome(b, now, actor, active, lifetime, b', reply)
  {
  }

  /** Exactly the owner's expired requests, and those due now, can be opened anew. */
  lemma RecreateRule(b: Board, now: nat, actor: nat, r: nat, active: bool, lifetime: nat)
    requires Consistent(b) && lifetime >= 1
    ensures var (b', reply) := Do(b, now, Recreate(actor, r, active, lifetime));
            RecreateOutcome(b, now, actor, r, active, lifetime, b', reply)
  {
    var b' := Do(b, now, Recreate(actor, r, active, lifetime)).0;
    if r < |b.requests| {
      assert RequestOk(b, r);
      RefreshLapses(b, r, now);
      hide Consistent;
      hide Refresh;
      if |b'.requests| == |b.requests| + 1 {
        assert b'.(requests := b'.requests[..|b.requests|]) == Refresh(b, r, now);
      }
    }
  }

  /** Exactly the owner's requests still taking bids can be adjusted; the expiry moves by the extension. */
  lemma UpdateRule(b: Board, now: nat, actor: nat, r: nat, extension: Option<nat>)
    requires Consistent(b)
    ensures var (b', reply) := Do(b, now, Update(actor, r, extension));
            UpdateOutcome(b, now, actor, r, extension, b', reply)
  {
    if r < |b.requests| {
      assert RequestOk(b, r);
      RefreshLapses(b, r, now);
      hide Consistent;
      hide Refresh;
    }
  }

  /** The owner reads the status that the request has after expiring. */
  lemma ViewRule(b: Board, now: nat, actor: nat, r: nat)
    requires Consistent(b)
    ensures var (b', reply) := Do(b, now, View(actor, r));
            ViewOutcome(b, now, actor, r, b', reply)
  {
    if r < |b.requests| {
      RefreshLapses(b, r, now);
      hide Consistent;
    }
  }

  // ----- invitations -----

  predicate Invited(b: Board, r: nat, provider: nat) {
    exists k :: 0 <= k < |b.invitations| && b.invitations[k].request == r && b.invitations[k].provider == provider
  }

  predicate InviteOutcome(b: Board, now: nat, actor: nat, r: nat, provider: nat, profile: Option<bool>, b': Board,
                          reply: Reply)
    requires References(b)
  {
    if provider == actor then reply == Refused(Conflict) && b' == b
    else if r >= |b.requests| then reply == Refused(NotFound) && b' == b
    else if b.requests[r].customer != actor then reply == Refused(Forbidden) && b' == b
    else if !TakesBids(b.requests[r], now) then reply == Refused(Conflict) && Lapsed(b, now, Some(r), b')
    else if profile == None then reply == Refused(NotFound) && b' == b
    else if profile == Some(false) || HasProposal(b.proposals, r, provider) || Invited(b, r, provider) then
      reply == Refused(Conflict) && b' == b
    else reply == Done && b' == b.(invitations := b.invitations + [Invitation(r, provider, InvitationStatus.Sent)])
  }

  predicate ListOutcome(b: Board, now: nat, actor: nat, r: nat, b': Board, reply: Reply)
    requires References(b)
  {
    if r >= |b.requests| then reply == Refused(NotFound) && b' == b
    else if b.requests[r].customer != actor then reply == Refused(Forbidden) && b' == b
    else reply == Done && Lapsed(b, now, Some(r), b')
  }

  /** A provider declines a waiting invitation, unless its request is due, which expires it. */
  predicate DeclineOutcome(b: Board, now: nat, actor: nat, v: nat, b': Board, reply: Reply)
    requires References(b)
  {
    if v >= |b.invitations| then reply == Refused(NotFound) && b' == b
    else if b.invitations[v].provider != actor then reply == Refused(Forbidden) && b' == b
    else
      match b.invitations[v].status
      case Accepted => reply == Refused(Conflict) && b' == b
      case Declined => reply == Done && b' == b
      case Expired => reply == Done && b' == b
      case Sent =>
        && reply == Done
        && if IsDue(b.requests[b.invitations[v].request], now) then Lapsed(b, now, Some(b.invitations[v].request), b')
           else b' == b.(invitations := b.invitations[v := b.invitations[v].(status := InvitationStatus.Declined)])
  }

  lemma FoundProposal(b: Board, r: nat, provider: nat)
    ensures FindProposal(b.proposals, r, provider).Some? <==> HasProposal(b.proposals, r, provider)
  {
    var found := FindProposal(b.proposals, r, provider);
    if found.Some? {
      assert By(b.proposals[found.value], r, provider);
    }
  }

  lemma FoundInvitation(b: Board, r: nat, provider: nat)
    ensures FindInvitation(b.invitations, r, provider).Some? <==> Invited(b, r, provider)
  {
  }

  /** An available provider is invited exactly once, to a request that takes bids and has none of its. */
  lemma InviteRule(b: Board, now: nat, actor: nat, r: nat, provider: nat, profile: Option<bool>)
    requires Consistent(b)
    ensures var (b', reply) := Do(b, now, Invite(actor, r, provider, profile));
            InviteOutcome(b, now, actor, r, provider, profile, b', reply)
  {
    hide Consistent;
    hide Refresh;
    hide Lapsed;
    hide HasProposal;
    hide Invited;
    hide FindProposal;
    hide FindInvitation;
    hide FindJob;
    FoundProposal(b, r, provider);
    FoundInvitation(b, r, provider);
    if r < |b.requests| {
      SelectionAndJob(b, r);
      RefreshLapses(b, r, now);
    }
  }

  lemma ListRule(b: Board, now: nat, actor: nat, r: nat)
    requires Consistent(b)
    ensures var (b', reply) := Do(b, now, ListInvitations(actor, r));
            ListOutcome(b, now, actor, r, b', reply)
  {
    if r < |b.requests| {
      RefreshLapses(b, r, now);
      RefreshKeeps(b, r, now);
      NothingToRepair(Refresh(b, r, now), r, actor);
      hide Consistent;
      hide Refresh;
    }
  }

  lemma DeclineRule(b: Board, now: nat, actor: nat, v: nat)
    requires Consistent(b)
    ensures var (b', reply) := Do(b, now, Decline(actor, v));
            DeclineOutcome(b, now, actor, v, b', reply)
  {
    if v < |b.invitations| {
      var row := b.invitations[v];
      assert InvitationOk(row, b.requests, b.proposals) && RequestOk(b, row.request);
      RefreshLapses(b, row.request, now);
      if IsDue(b.requests[row.request], now) && row.status.Sent? {
        var expired := Refresh(b, row.request, now);
        assert expired.invitations[v := row.(status := InvitationStatus.Expired)] == expired.invitations;
      }
    }
  }

  // ----- proposals -----

  /** The provider's one proposal for the request now carries the price; every other one is as it was. */
  predicate BidShows(b: Board, r: nat, provider: nat, price: nat, b': Board) {
    && b'.requests == b.requests && b'.jobs == b.jobs
    && |b'.proposals| == |b.proposals| + (if HasProposal(b.proposals, r, provider) then 0 else 1)
    && HasProposal(b'.proposals, r, provider)
    && (forall p, q :: 0 <= p < q < |b'.proposals| ==>
          !By(b'.proposals[p], r, provider) || !By(b'.proposals[q], r, provider))
    && (forall p :: 0 <= p < |b'.proposals| && By(b'.proposals[p], r, provider) ==>
          b'.proposals[p] == Proposal(r, provider, price, ProposalStatus.Submitted))
    && (forall p :: 0 <= p < |b.proposals| ==>
          if By(b.proposals[p], r, provider) then By(b'.proposals[p], r, provider)
          else b'.proposals[p] == b.proposals[p])
    && |b'.invitations| == |b.invitations|
    && (forall k :: 0 <= k < |b.invitations| ==>
          var v := b.invitations[k];
          b'.invitations[k] == if v.request == r && v.provider == provider
                               then v.(status := InvitationStatus.Accepted) else v)
  }

  predicate SubmitOutcome(b: Board, now: nat, actor: nat, r: nat, price: nat, profile: Option<bool>, b': Board,
                          reply: Reply)
    requires References(b)
  {
    if r >= |b.requests| || profile == None then reply == Refused(NotFound) && b' == b
    else if profile == Some(false) || b.requests[r].customer == actor then reply == Refused(Conflict) && b' == b
    else if !TakesBids(b.requests[r], now) then reply == Refused(Conflict) && Lapsed(b, now, Some(r), b')
    else if price == 0 then reply == Refused(BadRequest) && b' == b
    else reply == Done && BidShows(b, r, actor, price, b')
  }

  lemma BidIsShown(b: Board, r: nat, provider: nat, price: nat)
    requires Unique(b)
    ensures BidShows(b, r, provider, price, WriteProposal(b, r, provider, price))
  {
    FoundProposal(b, r, provider);
    var b' := WriteProposal(b, r, provider, price);
    var existing := FindProposal(b.proposals, r, provider);
    assert By(b'.proposals[existing.GetOr(|b.proposals|)], r, provider);
  }

  /**
   * A bid is accepted exactly from an available provider other than the owner, for a positive price, while the
   * request takes bids; it leaves that provider's one proposal at that price.
   */
  lemma SubmitRule(b: Board, now: nat, actor: nat, r: nat, price: nat, profile: Option<bool>)
    requires Consistent(b)
    ensures var (b', reply) := Do(b, now, Submit(actor, r, price, profile));
            SubmitOutcome(b, now, actor, r, price, profile, b', reply)
  {
    if r < |b.requests| {
      assert RequestOk(b, r);
      RefreshLapses(b, r, now);
      BidIsShown(b, r, actor, price);
      hide Consistent;
      hide Refresh;
      hide WriteProposal;
      hide BidShows;
    }
  }

  // ----- selection -----

  /** The percentage of the price, rounded to the nearest and at least one unit, with its rounded fee. */
  predicate DepositAt(s: Split, price: nat, percent: nat, feeBps: nat) {
    && s.fee + s.net == s.gross && 1 <= s.gross <= price
    && (s.gross > 1 ==> 200 * s.gross <= 2 * (price * percent) + 100)
    && 2 * (price * percent) + 100 < 200 * (s.gross + 1)
    && 20000 * s.fee <= 2 * s.gross * feeBps + 10000 < 20000 * (s.fee + 1)
  }

  /** The request is closed on the proposal, its rivals are rejected, waiting invitations expire, and its job exists. */
  predicate SelectionShows(b: Board, now: nat, r: nat, p: nat, percent: nat, feeBps: nat, b': Board)
    requires r < |b.requests| && p < |b.proposals|
  {
    && b'.requests == b.requests[r := b.requests[r].(status := RequestStatus.Closed, selected := Some(p))]
    && |b'.proposals| == |b.proposals| && |b'.invitations| == |b.invitations| && |b'.jobs| == |b.jobs| + 1
    && (forall k :: 0 <= k < |b.proposals| ==>
          b'.proposals[k] == if k == p then b.proposals[k].(status := ProposalStatus.Selected)
                             else if b.proposals[k].request == r
                             then b.proposals[k].(status := ProposalStatus.Rejected) else b.proposals[k])
    && (forall k :: 0 <= k < |b.invitations| ==>
          var v := b.invitations[k];
          b'.invitations[k] == if v.request == r && v.status == InvitationStatus.Sent
                               then v.(status := InvitationStatus.Expired) else v)
    && var job := b'.jobs[|b.jobs|];
       && b'.jobs == b.jobs + [job] && job.request == r && job.proposal == p
       && job.client == b.requests[r].customer && job.provider == b.proposals[p].provider
       && job.price == b.proposals[p].price && job.createdAt == now
       && DepositAt(job.deposit, job.price, percent, feeBps)
  }

  predicate SelectOutcome(b: Board, now: nat, actor: nat, r: nat, p: nat, profile: Option<bool>, percent: nat,
                          feeBps: nat, b': Board, reply: Reply)
    requires References(b)
  {
    if r >= |b.requests| then reply == Refused(NotFound) && b' == b
    else if b.requests[r].customer != actor then reply == Refused(Forbidden) && b' == b
    else if b.requests[r].status == RequestStatus.Closed then
      && b' == b
      && if b.requests[r].selected == Some(p)
         then exists j :: 0 <= j < |b.jobs| && b.jobs[j].request == r && b.jobs[j].proposal == p
                       && reply == Chosen(j, p, true)
         else reply == Refused(Conflict)
    else if !TakesBids(b.requests[r], now) then reply == Refused(Conflict) && Lapsed(b, now, Some(r), b')
    else if p >= |b.proposals| || b.proposals[p].request != r then reply == Refused(NotFound) && b' == b
    else if profile != Some(true) then reply == Refused(Conflict) && b' == b
    else if b.proposals[p].price == 0 then reply == Refused(BadRequest) && b' == b
    else reply == Chosen(|b.jobs|, p, false) && SelectionShows(b, now, r, p, percent, feeBps, b')
  }

  lemma SelectionIsShown(b: Board, now: nat, t: Selection, percent: nat, feeBps: nat)
    requires t.request < |b.requests| && t.proposal < |b.proposals| && FindJob(b.jobs, t.request).None?
    requires b.proposals[t.proposal].request == t.request
    requires t.client == b.requests[t.request].customer && t.provider == b.proposals[t.proposal].provider
    requires t.price == b.proposals[t.proposal].price && DepositAt(t.deposit, t.price, percent, feeBps)
    ensures CommitSelect(b, t, now).1 == Chosen(|b.jobs|, t.proposal, false)
    ensures SelectionShows(b, now, t.request, t.proposal, percent, feeBps, CommitSelect(b, t, now).0)
  {
    hide DepositAt;
    hide FindJob;
  }

  lemma OpenTakesAny(b: Board, r: nat, p: nat)
    requires Consistent(b) && r < |b.requests| && b.requests[r].status == RequestStatus.Open
    requires p < |b.proposals| && b.proposals[p].request == r
    ensures b.proposals[p].status == ProposalStatus.Submitted
  {
    assert RequestOk(b, r);
  }

  /** The owner of a request taking bids selects one of its proposals, once. */
  lemma SelectRule(b: Board, now: nat, actor: nat, r: nat, p: nat, profile: Option<bool>, percent: nat, feeBps: nat)
    requires Consistent(b) && 20 <= percent <= 30 && feeBps <= 9000
    ensures var (b', reply) := Do(b, now, Select(actor, r, p, profile, percent, feeBps));
            SelectOutcome(b, now, actor, r, p, profile, percent, feeBps, b', reply)
  {
    hide Consistent;
    hide Refresh;
    hide CommitSelect;
    hide SelectionShows;
    hide ComputeDepositSplit;
    hide DepositAt;
    hide FindJob;
    hide Lapsed;
    if r < |b.requests| {
      SelectionAndJob(b, r);
      RefreshLapses(b, r, now);
      if TakesBids(b.requests[r], now) && p < |b.proposals| && b.proposals[p].request == r {
        OpenTakesAny(b, r, p);
        if b.proposals[p].price >= 1 && actor == b.requests[r].customer {
          var deposit := ComputeDepositSplit(b.proposals[p].price, percent, feeBps);
          DepositIsAt(b.proposals[p].price, percent, feeBps);
          SelectionIsShown(b, now, Selection(r, p, actor, b.proposals[p].provider, b.proposals[p].price, deposit),
                           percent, feeBps);
        }
      }
    }
  }

  lemma DepositIsAt(price: nat, percent: nat, feeBps: nat)
    requires price >= 1 && 20 <= percent <= 30 && feeBps <= 9000
    ensures DepositAt(ComputeDepositSplit(price, percent, feeBps), price, percent, feeBps)
  {
  }

  // ----- prices over runs -----

  predicate IsBid(s: Race, step: Step) {
    step.Whole? && step.call.Submit? && Do(s.board, s.clock + step.wait, step.call).1 == Done
  }

  /** The price of the last bid that the provider had accepted for the request in the run. */
  function LastBid(steps: seq<Step>, r: nat, provider: nat): Option<nat> {
    if steps == [] then None
    else
      var front, last := steps[..|steps| - 1], steps[|steps| - 1];
      if IsBid(Run(START, front), last) && last.call.request == r && last.call.actor == provider
      then Some(last.call.price) else LastBid(front, r, provider)
  }

  /** Proposals as they were, but for their status. */
  predicate SamePrices(b: Board, b': Board) {
    && |b'.proposals| == |b.proposals|
    && forall p :: 0 <= p < |b.proposals| ==> b'.proposals[p].(status := b.proposals[p].status) == b.proposals[p]
  }

  lemma CommitLeavesPrices(b: Board, t: Selection, now: nat)
    requires t.request < |b.requests| && t.proposal < |b.proposals|
    ensures SamePrices(b, CommitSelect(b, t, now).0)
  {
  }

  lemma CallLeavesPrices(b: Board, now: nat, c: Call)
    requires ValidCall(c) && Consistent(b) && (c.Submit? ==> Do(b, now, c).1 != Done)
    ensures SamePrices(b, Do(b, now, c).0)
  {
    if c.Select? {
      BeginSelectIsOk(b, now, c);
      var start := BeginSelect(b, now, c.actor, c.request, c.proposal, c.profile, c.percent, c.feeBps);
      if start.Going? {
        CommitLeavesPrices(b, start.ticket, now);
      }
    } else {
      OthersLeavePrices(b, now, c);
    }
  }

  lemma OthersLeavePrices(b: Board, now: nat, c: Call)
    requires ValidCall(c) && !c.Select? && (c.Submit? ==> Do(b, now, c).1 != Done)
    ensures SamePrices(b, Do(b, now, c).0)
  {
  }

  /** No step but an accepted bid makes a proposal or changes a price. */
  lemma StepLeavesPrices(s: Race, step: Step)
    requires RaceOk(s) && !IsBid(s, step)
    ensures SamePrices(s.board, Next(s, step).board)
  {
    hide Consistent;
    hide Do;
    hide CommitSelect;
    if step.Whole? && ValidCall(step.call) {
      CallLeavesPrices(s.board, s.clock + step.wait, step.call);
    } else if step.Finish? && step.worker < |s.pending| {
      CommitLeavesPrices(s.board, s.pending[step.worker], s.clock + step.wait);
    }
  }

  lemma BidLeaves(s: Race, step: Step)
    requires RaceOk(s) && IsBid(s, step)
    ensures BidShows(s.board, step.call.request, step.call.actor, step.call.price, Next(s, step).board)
  {
    hide Consistent;
    hide BidShows;
    hide Do;
    var c := step.call;
    SubmitRule(s.board, s.clock + step.wait, c.actor, c.request, c.price, c.profile);
  }

  predicate Follows(b: Board, steps: seq<Step>) {
    forall p :: 0 <= p < |b.proposals| ==>
      LastBid(steps, b.proposals[p].request, b.proposals[p].provider) == Some(b.proposals[p].price)
  }

  lemma LastBidNext(steps: seq<Step>, step: Step, r: nat, provider: nat)
    ensures LastBid(steps + [step], r, provider)
         == if IsBid(Run(START, steps), step) && step.call.request == r && step.call.actor == provider
            then Some(step.call.price) else LastBid(steps, r, provider)
  {
    assert (steps + [step])[..|steps|] == steps;
  }

  lemma FollowsBid(steps: seq<Step>, step: Step, b: Board, b': Board)
    requires Follows(b, steps) && IsBid(Run(START, steps), step)
    requires BidShows(b, step.call.request, step.call.actor, step.call.price, b')
    ensures Follows(b', steps + [step])
  {
    hide Run;
    hide LastBid;
    hide HasProposal;
    forall p | 0 <= p < |b'.proposals|
      ensures LastBid(steps + [step], b'.proposals[p].request, b'.proposals[p].provider) == Some(b'.proposals[p].price)
    {
      LastBidNext(steps, step, b'.proposals[p].request, b'.proposals[p].provider);
      OldOrBid(b, step.call.request, step.call.actor, step.call.price, b', p);
    }
  }

  lemma OldOrBid(b: Board, r: nat, provider: nat, price: nat, b': Board, p: nat)
    requires BidShows(b, r, provider, price, b') && p < |b'.proposals|
    ensures if By(b'.proposals[p], r, provider) then b'.proposals[p].price == price
            else p < |b.proposals| && b'.proposals[p] == b.proposals[p]
  {
    if !By(b'.proposals[p], r, provider) {
      var own :| 0 <= own < |b'.proposals| && By(b'.proposals[own], r, provider);
    }
  }

  lemma FollowsOther(steps: seq<Step>, step: Step, b: Board, b': Board)
    requires Follows(b, steps) && !IsBid(Run(START, steps), step) && SamePrices(b, b')
    ensures Follows(b', steps + [step])
  {
    hide Run;
    hide LastBid;
    forall p | 0 <= p < |b'.proposals|
      ensures LastBid(steps + [step], b'.proposals[p].request, b'.proposals[p].provider) == Some(b'.proposals[p].price)
    {
      LastBidNext(steps, step, b'.proposals[p].request, b'.proposals[p].provider);
      assert b'.proposals[p].(status := b.proposals[p].status) == b.proposals[p];
    }
  }

  lemma ReachableIsOk(steps: seq<Step>)
    ensures RaceOk(Run(START, steps))
  {
    RunIsOk(START, steps);
  }

  lemma FollowsNext(steps: seq<Step>, step: Step)
    requires Follows(Run(START, steps).board, steps)
    ensures Follows(Run(START, steps + [step]).board, steps + [step])
  {
    hide Run;
    hide Next;
    hide IsBid;
    hide RaceOk;
    hide Follows;
    hide BidShows;
    hide SamePrices;
    var s := Run(START, steps);
    ReachableIsOk(steps);
    RunNext(steps, step);
    if IsBid(s, step) {
      BidLeaves(s, step);
      FollowsBid(steps, step, s.board, Next(s, step).board);
    } else {
      StepLeavesPrices(s, step);
      FollowsOther(steps, step, s.board, Next(s, step).board);
    }
  }

  /**
   * In every run, with selections racing each other, each proposal carries the price of the last bid its provider had
   * accepted for its request.
   */
  lemma {:induction false} PricesAreLastBids(steps: seq<Step>)
    ensures Follows(Run(START, steps).board, steps)
  {
    if steps != [] {
      var front, last := steps[..|steps| - 1], steps[|steps| - 1];
      PricesAreLastBids(front);
      FollowsNext(front, last);
      assert front + [last] == steps;
    }
  }

  lemma JobMeansClosed(b: Board, r: nat)
    requires Consistent(b) && FindJob(b.jobs, r).Some?
    ensures r < |b.requests| && b.requests[r].status == RequestStatus.Closed
  {
    assert RequestOk(b, r);
  }

  lemma NoBidWithJob(s: Race, step: Step, r: nat)
    requires Consistent(s.board) && FindJob(s.board.jobs, r).Some?
    ensures IsBid(s, step) ==> step.call.request != r
  {
    JobMeansClosed(s.board, r);
    if step.Whole? && step.call.Submit? && step.call.request == r {
      var c := step.call;
      SubmitRule(s.board, s.clock + step.wait, c.actor, r, c.price, c.profile);
      hide Consistent;
      hide Do;
    }
  }

  /** Bidding ends with the selection: no bid for a request that has its job is accepted. */
  lemma BiddingEnds(steps: seq<Step>, step: Step, r: nat, provider: nat)
    requires FindJob(Run(START, steps).board.jobs, r).Some?
    ensures LastBid(steps + [step], r, provider) == LastBid(steps, r, provider)
  {
    hide Consistent;
    hide IsBid;
    ReachableIsOk(steps);
    LastBidNext(steps, step, r, provider);
    NoBidWithJob(Run(START, steps), step, r);
  }

  lemma JobCarriesProposal(b: Board, j: nat)
    requires Consistent(b) && Exact(b) && j < |b.jobs|
    ensures var job := b.jobs[j];
            && job.proposal < |b.proposals| && By(b.proposals[job.proposal], job.request, job.provider)
            && b.proposals[job.proposal].price == job.price
  {
    assert RequestOk(b, b.jobs[j].request);
    assert FindJob(b.jobs, b.jobs[j].request) == Some(j);
  }

  /**
   * While selections run whole, a job's price is the last one its provider had accepted, and by BiddingEnds that is
   * the last one before the selection.
   */
  lemma JobPriceIsTheLastBid(steps: seq<Step>, j: nat)
    requires forall k :: 0 <= k < |steps| ==> steps[k].Whole?
    requires j < |Run(START, steps).board.jobs|
    ensures var job := Run(START, steps).board.jobs[j];
            LastBid(steps, job.request, job.provider) == Some(job.price)
  {
    JobsAreExact(steps);
    RequestsStayConsistent(steps);
    PricesAreLastBids(steps);
    hide Run;
    hide LastBid;
    JobCarriesProposal(Run(START, steps).board, j);
    hide Consistent;
    hide Exact;
  }

  /** The price was the provider's last accepted bid at some point of the run. */
  ghost predicate Offered(steps: seq<Step>, r: nat, provider: nat, price: nat) {
    exists k :: 0 <= k <= |steps| && LastBid(steps[..k], r, provider) == Some(price)
  }

  ghost predicate AllOffered(s: Race, steps: seq<Step>) {
    && (forall j :: 0 <= j < |s.board.jobs| ==>
          Offered(steps, s.board.jobs[j].request, s.board.jobs[j].provider, s.board.jobs[j].price))
    && (forall w :: 0 <= w < |s.pending| ==>
          Offered(steps, s.pending[w].request, s.pending[w].provider, s.pending[w].price))
  }

  lemma OfferedStays(steps: seq<Step>, step: Step, r: nat, provider: nat, price: nat)
    requires Offered(steps, r, provider, price)
    ensures Offered(steps + [step], r, provider, price)
  {
    var k :| 0 <= k <= |steps| && LastBid(steps[..k], r, provider) == Some(price);
    assert (steps + [step])[..k] == steps[..k];
  }

  lemma OfferedNow(steps: seq<Step>, step: Step, r: nat, provider: nat, price: nat)
    requires LastBid(steps, r, provider) == Some(price)
    ensures Offered(steps + [step], r, provider, price)
  {
    assert (steps + [step])[..|steps|] == steps;
  }

  /** A job or selection that is new after a step carries the price of a proposal that was there before it. */
  predicate FromProposal(b: Board, r: nat, provider: nat, price: nat) {
    exists p :: 0 <= p < |b.proposals| && By(b.proposals[p], r, provider) && b.proposals[p].price == price
  }

  predicate FromBefore(s: Race, s': Race) {
    && (forall j :: 0 <= j < |s'.board.jobs| ==>
          var job := s'.board.jobs[j];
          || (j < |s.board.jobs| && job == s.board.jobs[j])
          || FromProposal(s.board, job.request, job.provider, job.price)
          || (exists w :: 0 <= w < |s.pending| && s.pending[w].request == job.request
                && s.pending[w].provider == job.provider && s.pending[w].price == job.price))
    && (forall w :: 0 <= w < |s'.pending| ==>
          var t := s'.pending[w];
          t in s.pending || FromProposal(s.board, t.request, t.provider, t.price))
  }

  lemma CommitsFrom(b: Board, t: Selection, now: nat)
    requires t.request < |b.requests| && t.proposal < |b.proposals|
    ensures var b' := CommitSelect(b, t, now).0;
            forall j :: 0 <= j < |b'.jobs| ==>
              || (j < |b.jobs| && b'.jobs[j] == b.jobs[j])
              || (b'.jobs[j].request == t.request && b'.jobs[j].provider == t.provider && b'.jobs[j].price == t.price)
  {
  }

  lemma CallsFrom(b: Board, now: nat, c: Call)
    requires ValidCall(c) && Consistent(b)
    ensures var b' := Do(b, now, c).0;
            forall j :: 0 <= j < |b'.jobs| ==>
              || (j < |b.jobs| && b'.jobs[j] == b.jobs[j])
              || FromProposal(b, b'.jobs[j].request, b'.jobs[j].provider, b'.jobs[j].price)
  {
    if c.Select? {
      var start := BeginSelect(b, now, c.actor, c.request, c.proposal, c.profile, c.percent, c.feeBps);
      SelectsFrom(b, now, c);
      if start.Going? {
        CommitsFrom(start.board, start.ticket, now);
      }
    }
  }

  lemma SelectsFrom(b: Board, now: nat, c: Call)
    requires ValidCall(c) && Consistent(b) && c.Select?
    ensures var start := BeginSelect(b, now, c.actor, c.request, c.proposal, c.profile, c.percent, c.feeBps);
            && start.board.jobs == b.jobs
            && (start.Going? ==>
                  var t := start.ticket;
                  && start.board == b && t.request < |b.requests| && t.proposal < |b.proposals|
                  && FromProposal(b, t.request, t.provider, t.price))
  {
    BeginSelectIsOk(b, now, c);
    var start := BeginSelect(b, now, c.actor, c.request, c.proposal, c.profile, c.percent, c.feeBps);
    if start.Going? {
      assert By(b.proposals[start.ticket.proposal], start.ticket.request, start.ticket.provider);
    }
  }

  lemma FinishFrom(s: Race, w: nat, wait: nat)
    requires RaceOk(s) && w < |s.pending|
    ensures FromBefore(s, Next(s, Finish(w, wait)))
  {
    hide Consistent;
    hide FromProposal;
    hide CommitSelect;
    CommitsFrom(s.board, s.pending[w], s.clock + wait);
  }

  lemma EnterFrom(s: Race, c: Call, wait: nat)
    requires RaceOk(s) && ValidCall(c) && c.Select?
    ensures FromBefore(s, Next(s, Enter(c, wait)))
  {
    hide Consistent;
    hide FromProposal;
    hide BeginSelect;
    SelectsFrom(s.board, s.clock + wait, c);
  }

  lemma WholeFrom(s: Race, c: Call, wait: nat)
    requires RaceOk(s) && ValidCall(c)
    ensures FromBefore(s, Next(s, Whole(c, wait)))
  {
    hide Consistent;
    hide FromProposal;
    hide Do;
    CallsFrom(s.board, s.clock + wait, c);
  }

  lemma StepFrom(s: Race, step: Step)
    requires RaceOk(s)
    ensures FromBefore(s, Next(s, step))
  {
    hide RaceOk;
    hide FromProposal;
    hide Do;
    hide BeginSelect;
    hide CommitSelect;
    match step
    case Whole(c, wait) => if ValidCall(c) { WholeFrom(s, c, wait); }
    case Enter(c, wait) => if ValidCall(c) && c.Select? { EnterFrom(s, c, wait); }
    case Finish(w, wait) => if w < |s.pending| { FinishFrom(s, w, wait); }
  }

  lemma OfferedFrom(steps: seq<Step>, step: Step, b: Board, r: nat, provider: nat, price: nat)
    requires Follows(b, steps) && FromProposal(b, r, provider, price)
    ensures Offered(steps + [step], r, provider, price)
  {
    var p :| 0 <= p < |b.proposals| && By(b.proposals[p], r, provider) && b.proposals[p].price == price;
    OfferedNow(steps, step, r, provider, price);
  }

  lemma AllOfferedNext(steps: seq<Step>, step: Step, s: Race, s': Race)
    requires AllOffered(s, steps) && Follows(s.board, steps) && FromBefore(s, s')
    ensures AllOffered(s', steps + [step])
  {
    hide Offered;
    hide Follows;
    hide FromProposal;
    forall j | 0 <= j < |s'.board.jobs|
      ensures Offered(steps + [step], s'.board.jobs[j].request, s'.board.jobs[j].provider, s'.board.jobs[j].price)
    {
      var job := s'.board.jobs[j];
      if FromProposal(s.board, job.request, job.provider, job.price) {
        OfferedFrom(steps, step, s.board, job.request, job.provider, job.price);
      } else {
        OfferedStays(steps, step, job.request, job.provider, job.price);
      }
    }
    forall w | 0 <= w < |s'.pending|
      ensures Offered(steps + [step], s'.pending[w].request, s'.pending[w].provider, s'.pending[w].price)
    {
      var t := s'.pending[w];
      if t in s.pending {
        OfferedStays(steps, step, t.request, t.provider, t.price);
      } else {
        OfferedFrom(steps, step, s.board, t.request, t.provider, t.price);
      }
    }
  }

  lemma {:induction false} AllAreOffered(steps: seq<Step>)
    ensures AllOffered(Run(START, steps), steps)
  {
    hide Next;
    hide Follows;
    hide FromBefore;
    hide Offered;
    hide RaceOk;
    if steps != [] {
      var front, last := steps[..|steps| - 1], steps[|steps| - 1];
      AllAreOffered(front);
      ReachableIsOk(front);
      PricesAreLastBids(front);
      StepFrom(Run(START, front), last);
      AllOfferedNext(front, last, Run(START, front), Run(START, steps));
      assert front + [last] == steps;
    }
  }

  /** With selections racing each other and later bids, no job is ever created at a price its provider did not bid. */
  lemma JobPriceWasBid(steps: seq<Step>, j: nat)
    requires j < |Run(START, steps).board.jobs|
    ensures var job := Run(START, steps).board.jobs[j];
            exists k :: 0 <= k <= |steps| && LastBid(steps[..k], job.request, job.provider) == Some(job.price)
  {
    hide Run;
    hide LastBid;
    AllAreOffered(steps);
    var job := Run(START, steps).board.jobs[j];
    assert Offered(steps, job.request, job.provider, job.price);
  }
}
