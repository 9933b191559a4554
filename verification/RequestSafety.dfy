/** What every run over requests, proposals, invitations and jobs keeps, with selections racing each other. */
module RequestSafety {
  import opened Common
  import opened Policy
  import opened Requests

  // ----- the invariant -----

  predicate References(b: Board) {
    && (forall p :: 0 <= p < |b.proposals| ==> b.proposals[p].request < |b.requests|)
    && (forall k :: 0 <= k < |b.invitations| ==> b.invitations[k].request < |b.requests|)
    && (forall j :: 0 <= j < |b.jobs| ==> b.jobs[j].request < |b.requests|)
  }

  /** One proposal and one invitation for each provider and request, one job for each request. */
  predicate Unique(b: Board) {
    && (forall p, q :: 0 <= p < q < |b.proposals| ==>
          || b.proposals[p].request != b.proposals[q].request
          || b.proposals[p].provider != b.proposals[q].provider)
    && (forall k, m :: 0 <= k < m < |b.invitations| ==>
          || b.invitations[k].request != b.invitations[m].request
          || b.invitations[k].provider != b.invitations[m].provider)
    && (forall i, j :: 0 <= i < j < |b.jobs| ==> b.jobs[i].request != b.jobs[j].request)
  }

  predicate Serves(job: JobRow, q: Request, r: nat, p: nat, row: Proposal) {
    && job.request == r && job.proposal == p && job.provider == row.provider && job.client == q.customer
    && Balanced(job.deposit) && 1 <= job.deposit.gross <= job.price
  }

  /**
   * A closed request has one selected proposal, all others rejected, and its job with a deposit between
   * one unit and the price; any other request has only submitted proposals and no job.
   */
  predicate RequestOk(b: Board, r: nat)
    requires r < |b.requests|
  {
    var q := b.requests[r];
    if q.status.Closed? then
      && q.selected.Some? && q.selected.value < |b.proposals|
      && b.proposals[q.selected.value].request == r && b.proposals[q.selected.value].status.Selected?
      && (forall k :: 0 <= k < |b.proposals| && b.proposals[k].request == r && k != q.selected.value ==>
          b.proposals[k].status.Rejected?)
      && FindJob(b.jobs, r).Some?
      && Serves(b.jobs[FindJob(b.jobs, r).value], q, r, q.selected.value, b.proposals[q.selected.value])
    else
      && q.selected.None? && FindJob(b.jobs, r).None?
      && (forall k :: 0 <= k < |b.proposals| && b.proposals[k].request == r ==> b.proposals[k].status.Submitted?)
  }

  predicate By(p: Proposal, r: nat, provider: nat) {
    p.request == r && p.provider == provider
  }

  predicate HasProposal(proposals: seq<Proposal>, r: nat, provider: nat) {
    exists p :: 0 <= p < |proposals| && By(proposals[p], r, provider)
  }

  /** Waiting means the request is open, expired that it is not, accepted that the provider made a proposal. */
  predicate InvitationOk(v: Invitation, requests: seq<Request>, proposals: seq<Proposal>) {
    && v.request < |requests|
    && (v.status.Sent? ==> requests[v.request].status.Open?)
    && (v.status.Expired? ==> !requests[v.request].status.Open?)
    && (v.status.Accepted? <==> HasProposal(proposals, v.request, v.provider))
  }

  predicate Consistent(b: Board) {
    && References(b) && Unique(b)
    && (forall r :: 0 <= r < |b.requests| ==> RequestOk(b, r))
    && (forall k :: 0 <= k < |b.invitations| ==> InvitationOk(b.invitations[k], b.requests, b.proposals))
  }

  /** Every job carries the price of its proposal and was created before its request's expiry. */
  predicate Exact(b: Board) {
    forall j :: 0 <= j < |b.jobs| ==>
      && b.jobs[j].request < |b.requests| && b.jobs[j].proposal < |b.proposals|
      && b.jobs[j].price == b.proposals[b.jobs[j].proposal].price
      && b.jobs[j].createdAt < b.requests[b.jobs[j].request].expiresAt
      && b.requests[b.jobs[j].request].status.Closed? && b.proposals[b.jobs[j].proposal].request == b.jobs[j].request
  }

  /** A selection in flight names a proposal of its request. */
  predicate SelectionOk(b: Board, t: Selection) {
    && t.request < |b.requests| && t.proposal < |b.proposals|
    && b.proposals[t.proposal].request == t.request && b.proposals[t.proposal].provider == t.provider
    && b.requests[t.request].customer == t.client
    && Balanced(t.deposit) && 1 <= t.deposit.gross <= t.price
  }

  // ----- edits -----

  lemma FindJobAppend(jobs: seq<JobRow>, job: JobRow, r: nat)
    ensures FindJob(jobs + [job], r) == if job.request == r then Some(|jobs|) else FindJob(jobs, r)
  {
    assert (jobs + [job])[..|jobs|] == jobs;
  }

  lemma RefreshKeeps(b: Board, r: nat, now: nat)
    requires Consistent(b) && r < |b.requests|
    ensures Consistent(Refresh(b, r, now))
  {
    var b' := Refresh(b, r, now);
    forall s | 0 <= s < |b'.requests| ensures RequestOk(b', s) {
      assert RequestOk(b, s);
    }
  }

  lemma SweepKeeps(b: Board, now: nat)
    requires Consistent(b)
    ensures Consistent(Sweep(b, now))
  {
    var b' := Sweep(b, now);
    forall s | 0 <= s < |b'.requests| ensures RequestOk(b', s) {
      assert RequestOk(b, s);
    }
  }

  /** In a consistent board the repair sweeps have nothing to repair. */
  lemma NothingToRepair(b: Board, r: nat, provider: nat)
    requires Consistent(b) && r < |b.requests|
    ensures RepairProvider(b, provider) == b
    ensures !b.requests[r].status.Open? ==> ExpireInvitations(b.invitations, (x: nat) => x == r) == b.invitations
  {
    assert RepairProvider(b, provider).invitations == b.invitations;
  }

  lemma NewRequestKeeps(b: Board, q: Request)
    requires Consistent(b) && q.status.Open? && q.selected.None?
    ensures Consistent(b.(requests := b.requests + [q]))
  {
    var b' := b.(requests := b.requests + [q]);
    forall s | 0 <= s < |b'.requests| ensures RequestOk(b', s) {
      if s < |b.requests| {
        assert RequestOk(b, s);
      }
    }
  }

  lemma ExtendKeeps(b: Board, r: nat, expiresAt: nat)
    requires Consistent(b) && r < |b.requests|
    ensures Consistent(b.(requests := b.requests[r := b.requests[r].(expiresAt := expiresAt)]))
  {
    var b' := b.(requests := b.requests[r := b.requests[r].(expiresAt := expiresAt)]);
    forall s | 0 <= s < |b'.requests| ensures RequestOk(b', s) {
      assert RequestOk(b, s);
    }
  }

  /** A new invitation keeps the board consistent exactly when its request is open and the provider is new to it. */
  lemma InvitationKeeps(b: Board, r: nat, provider: nat)
    requires Consistent(b) && r < |b.requests|
    ensures Consistent(b.(invitations := b.invitations + [Invitation(r, provider, Sent)]))
       <==> (b.requests[r].status.Open? && FindProposal(b.proposals, r, provider).None?
             && FindInvitation(b.invitations, r, provider).None?)
  {
    var v := Invitation(r, provider, Sent);
    var b' := b.(invitations := b.invitations + [v]);
    if b.requests[r].status.Open? && FindProposal(b.proposals, r, provider).None?
        && FindInvitation(b.invitations, r, provider).None? {
      forall s | 0 <= s < |b'.requests| ensures RequestOk(b', s) {
        assert RequestOk(b, s);
      }
    } else {
      var p, earlier := FindProposal(b.proposals, r, provider), FindInvitation(b.invitations, r, provider);
      if p.Some? {
        assert By(b.proposals[p.value], r, provider);
      }
      assert b'.invitations[|b.invitations|] == v;
      if earlier.Some? {
        assert b'.invitations[earlier.value].request == r && b'.invitations[earlier.value].provider == provider;
      }
      assert !InvitationOk(v, b'.requests, b'.proposals) || !Unique(b');
    }
  }

  lemma AnswerKeeps(b: Board, k: nat, status: InvitationStatus)
    requires Consistent(b) && k < |b.invitations| && b.invitations[k].status.Sent? && status.Declined?
    ensures Consistent(b.(invitations := b.invitations[k := b.invitations[k].(status := status)]))
  {
    var b' := b.(invitations := b.invitations[k := b.invitations[k].(status := status)]);
    forall s | 0 <= s < |b'.requests| ensures RequestOk(b', s) {
      assert RequestOk(b, s);
    }
  }

  /** A written proposal keeps the board consistent exactly when its request was not closed meanwhile. */
  lemma ProposalKeeps(b: Board, r: nat, provider: nat, price: nat)
    requires Consistent(b) && r < |b.requests|
    ensures Consistent(WriteProposal(b, r, provider, price)) <==> !b.requests[r].status.Closed?
  {
    var b' := WriteProposal(b, r, provider, price);
    var existing := FindProposal(b.proposals, r, provider);
    var p := if existing.Some? then existing.value else |b.proposals|;
    assert RequestOk(b, r);
    assert By(b'.proposals[p], r, provider) && b'.proposals[p].status.Submitted?;
    if b.requests[r].status.Closed? {
      assert !RequestOk(b', r);
    } else {
      forall s | 0 <= s < |b'.requests| ensures RequestOk(b', s) {
        assert RequestOk(b, s);
      }
      forall k | 0 <= k < |b'.invitations| ensures InvitationOk(b'.invitations[k], b'.requests, b'.proposals) {
        ProposersAfter(b, r, provider, price, b.invitations[k].request, b.invitations[k].provider);
      }
    }
  }

  lemma ProposersAfter(b: Board, r: nat, provider: nat, price: nat, s: nat, other: nat)
    ensures HasProposal(WriteProposal(b, r, provider, price).proposals, s, other)
       <==> HasProposal(b.proposals, s, other) || (s == r && other == provider)
  {
    var b' := WriteProposal(b, r, provider, price);
    var existing := FindProposal(b.proposals, r, provider);
    var n := if existing.Some? then existing.value else |b.proposals|;
    assert By(b'.proposals[n], r, provider);
    if HasProposal(b.proposals, s, other) {
      var p :| 0 <= p < |b.proposals| && By(b.proposals[p], s, other);
      assert By(b'.proposals[p], s, other);
    }
    if HasProposal(b'.proposals, s, other) {
      var p :| 0 <= p < |b'.proposals| && By(b'.proposals[p], s, other);
      assert p < |b.proposals| ==> By(b.proposals[p], s, other);
    }
  }

  lemma ClosingKeeps(b: Board, t: Selection, now: nat)
    requires Consistent(b) && SelectionOk(b, t)
    ensures Consistent(CommitSelect(b, t, now).0)
  {
    var b' := CommitSelect(b, t, now).0;
    assert RequestOk(b, t.request);
    if FindJob(b.jobs, t.request).Some? {
      NothingToRepair(b, t.request, 0);
      assert b' == b;
    } else {
      SelectedRequests(b, t, now);
      SelectedInvitations(b, t, now);
    }
  }

  lemma SelectedRequests(b: Board, t: Selection, now: nat)
    requires Consistent(b) && SelectionOk(b, t) && FindJob(b.jobs, t.request).None?
    ensures var b' := CommitSelect(b, t, now).0;
            References(b') && Unique(b') && forall s :: 0 <= s < |b'.requests| ==> RequestOk(b', s)
  {
    var b' := CommitSelect(b, t, now).0;
    forall s | 0 <= s < |b'.requests| ensures RequestOk(b', s) {
      assert RequestOk(b, s);
      FindJobAppend(b.jobs, b'.jobs[|b.jobs|], s);
    }
  }

  lemma SelectedInvitations(b: Board, t: Selection, now: nat)
    requires Consistent(b) && SelectionOk(b, t) && FindJob(b.jobs, t.request).None?
    ensures var b' := CommitSelect(b, t, now).0;
            forall k :: 0 <= k < |b'.invitations| ==> InvitationOk(b'.invitations[k], b'.requests, b'.proposals)
  {
    var b' := CommitSelect(b, t, now).0;
    forall k | 0 <= k < |b'.invitations| ensures InvitationOk(b'.invitations[k], b'.requests, b'.proposals) {
      SameProposers(b.proposals, b'.proposals, b.invitations[k].request, b.invitations[k].provider);
    }
  }

  lemma SameProposers(x: seq<Proposal>, y: seq<Proposal>, r: nat, provider: nat)
    requires |x| == |y| && forall p :: 0 <= p < |x| ==> x[p].request == y[p].request && x[p].provider == y[p].provider
    ensures HasProposal(x, r, provider) <==> HasProposal(y, r, provider)
  {
    if HasProposal(x, r, provider) {
      var p :| 0 <= p < |x| && By(x[p], r, provider);
      assert By(y[p], r, provider);
    }
    if HasProposal(y, r, provider) {
      var p :| 0 <= p < |y| && By(y[p], r, provider);
      assert By(x[p], r, provider);
    }
  }

  // ----- calls -----

  lemma SubmitKeeps(b: Board, now: nat, c: Call)
    requires Consistent(b) && c.Submit?
    ensures Consistent(Do(b, now, c).0)
  {
    hide Consistent;
    if c.request < |b.requests| {
      RefreshKeeps(b, c.request, now);
      ProposalKeeps(Refresh(b, c.request, now), c.request, c.actor, c.price);
    }
  }

  lemma InviteKeeps(b: Board, now: nat, c: Call)
    requires Consistent(b) && c.Invite?
    ensures Consistent(Do(b, now, c).0)
  {
    hide Consistent;
    if c.request < |b.requests| {
      RefreshKeeps(b, c.request, now);
      if !PastExpiry(b.requests[c.request], now) {
        InvitationKeeps(b, c.request, c.provider);
      }
    }
  }

  lemma DeclineKeeps(b: Board, now: nat, c: Call)
    requires Consistent(b) && c.Decline?
    ensures Consistent(Do(b, now, c).0)
  {
    if c.invitation < |b.invitations| && b.invitations[c.invitation].request < |b.requests| {
      var row := b.invitations[c.invitation];
      assert RequestOk(b, row.request);
      RefreshKeeps(b, row.request, now);
      var b' := Refresh(b, row.request, now);
      if row.status.Sent? {
        if PastExpiry(b.requests[row.request], now) {
          assert b'.invitations[c.invitation := row.(status := InvitationStatus.Expired)] == b'.invitations;
        } else {
          AnswerKeeps(b, c.invitation, Declined);
        }
      }
    }
  }

  lemma OwnerKeeps(b: Board, now: nat, c: Call)
    requires ValidCall(c) && Consistent(b) && (c.Create? || c.Recreate? || c.Update? || c.View?)
    ensures Consistent(Do(b, now, c).0)
  {
    hide Consistent;
    if c.Create? {
      NewRequestKeeps(b, NewRequest(c.actor, c.lifetime, now));
    } else if c.request < |b.requests| {
      RefreshKeeps(b, c.request, now);
      var b' := Refresh(b, c.request, now);
      if c.Recreate? {
        NewRequestKeeps(b', NewRequest(c.actor, c.lifetime, now));
      } else if c.Update? {
        ExtendKeeps(b', c.request, b'.requests[c.request].expiresAt + c.extension.GetOr(0));
      }
    }
  }

  lemma ListKeeps(b: Board, now: nat, c: Call)
    requires Consistent(b) && (c.ListInvitations? || c.ListMyInvitations? || c.RunSweep?)
    ensures Consistent(Do(b, now, c).0)
  {
    hide Consistent;
    SweepKeeps(b, now);
    if c.ListInvitations? && c.request < |b.requests| {
      RefreshKeeps(b, c.request, now);
      NothingToRepair(Refresh(b, c.request, now), c.request, 0);
    } else if c.ListMyInvitations? {
      RepairsNothing(Sweep(b, now), c.actor);
    }
  }

  lemma RepairsNothing(b: Board, provider: nat)
    requires Consistent(b)
    ensures RepairProvider(b, provider) == b
  {
    assert RepairProvider(b, provider).invitations == b.invitations;
  }

  lemma BeginSelectIsOk(b: Board, now: nat, c: Call)
    requires ValidCall(c) && Consistent(b) && c.Select?
    ensures match BeginSelect(b, now, c.actor, c.request, c.proposal, c.profile, c.percent, c.feeBps)
            case Over(b', _) => Consistent(b')
            case Going(b', t) =>
              && Consistent(b') && b' == b && SelectionOk(b, t) && FindJob(b.jobs, t.request).None?
              && t.price == b.proposals[t.proposal].price && now < b.requests[t.request].expiresAt
              && b.requests[t.request].status.Open?
  {
    if c.request < |b.requests| {
      RefreshKeeps(b, c.request, now);
      assert RequestOk(b, c.request);
    }
  }

  /** Every atomic call keeps the board consistent. */
  lemma DoKeeps(b: Board, now: nat, c: Call)
    requires ValidCall(c) && Consistent(b)
    ensures Consistent(Do(b, now, c).0)
  {
    hide Consistent;
    if c.Submit? {
      SubmitKeeps(b, now, c);
    } else if c.Invite? {
      InviteKeeps(b, now, c);
    } else if c.Decline? {
      DeclineKeeps(b, now, c);
    } else if c.Select? {
      BeginSelectIsOk(b, now, c);
      var start := BeginSelect(b, now, c.actor, c.request, c.proposal, c.profile, c.percent, c.feeBps);
      if start.Going? {
        ClosingKeeps(b, start.ticket, now);
      }
    } else if c.Create? || c.Recreate? || c.Update? || c.View? {
      OwnerKeeps(b, now, c);
    } else {
      ListKeeps(b, now, c);
    }
  }

  /** An expired invitation stays expired under every call. */
  lemma ExpiredInvitationStays(b: Board, now: nat, c: Call, k: nat)
    requires ValidCall(c) && Consistent(b) && k < |b.invitations| && b.invitations[k].status.Expired?
    ensures k < |Do(b, now, c).0.invitations| && Do(b, now, c).0.invitations[k] == b.invitations[k]
  {
    assert InvitationOk(b.invitations[k], b.requests, b.proposals);
    if c.Select? {
      ExpiredUnderSelect(b, now, c, k);
    } else if c.Submit? {
      ExpiredUnderSubmit(b, now, c, k);
    } else {
      ExpiredUnderOthers(b, now, c, k);
    }
  }

  lemma ExpiredUnderSelect(b: Board, now: nat, c: Call, k: nat)
    requires ValidCall(c) && c.Select? && k < |b.invitations| && b.invitations[k].status.Expired?
    ensures k < |Do(b, now, c).0.invitations| && Do(b, now, c).0.invitations[k] == b.invitations[k]
  {
    hide ComputeDepositSplit;
  }

  /**
   * The invitation of the proposing provider is overwritten, but an expired one is of a request that takes
   * no proposals.
   */
  lemma ExpiredUnderSubmit(b: Board, now: nat, c: Call, k: nat)
    requires c.Submit? && k < |b.invitations| && b.invitations[k].status.Expired?
    requires b.invitations[k].request < |b.requests| && !b.requests[b.invitations[k].request].status.Open?
    ensures k < |Do(b, now, c).0.invitations| && Do(b, now, c).0.invitations[k] == b.invitations[k]
  {
  }

  lemma ExpiredUnderOthers(b: Board, now: nat, c: Call, k: nat)
    requires ValidCall(c) && !c.Select? && !c.Submit? && k < |b.invitations| && b.invitations[k].status.Expired?
    ensures k < |Do(b, now, c).0.invitations| && Do(b, now, c).0.invitations[k] == b.invitations[k]
  {
  }

  // ----- exactness -----

  /** A closed request stays closed with the same selection, and its job stays its job. */
  lemma ClosedStays(b: Board, now: nat, c: Call, r: nat)
    requires ValidCall(c) && Consistent(b) && r < |b.requests| && b.requests[r].status.Closed?
    ensures var b' := Do(b, now, c).0;
            r < |b'.requests| && b'.requests[r] == b.requests[r] && FindJob(b'.jobs, r) == FindJob(b.jobs, r)
                && b.jobs <= b'.jobs
  {
    assert RequestOk(b, r);
    if c.Select? {
      BeginSelectIsOk(b, now, c);
      var start := BeginSelect(b, now, c.actor, c.request, c.proposal, c.profile, c.percent, c.feeBps);
      if start.Going? {
        SelectionLeaves(b, start.ticket, now, r);
      }
    } else {
      OthersLeave(b, now, c, r);
    }
  }

  lemma OthersLeave(b: Board, now: nat, c: Call, r: nat)
    requires ValidCall(c) && !c.Select? && r < |b.requests| && b.requests[r].status.Closed?
    ensures var b' := Do(b, now, c).0; b'.jobs == b.jobs && r < |b'.requests| && b'.requests[r] == b.requests[r]
  {
  }

  lemma SelectionLeaves(b: Board, t: Selection, now: nat, r: nat)
    requires Consistent(b) && SelectionOk(b, t) && r < |b.requests| && b.requests[r].status.Closed?
    ensures var b' := CommitSelect(b, t, now).0;
            r < |b'.requests| && b'.requests[r] == b.requests[r] && FindJob(b'.jobs, r) == FindJob(b.jobs, r)
                && b.jobs <= b'.jobs
  {
    assert RequestOk(b, r) && RequestOk(b, t.request);
    if FindJob(b.jobs, t.request).None? {
      FindJobAppend(b.jobs, CommitSelect(b, t, now).0.jobs[|b.jobs|], r);
    }
  }

  /**
   * Selection happens once: wherever a request has been selected, its owner selecting the same proposal
   * again changes nothing and gets the same job, and selecting another one is refused.
   */
  lemma SelectionHappensOnce(b: Board, now: nat, r: nat, p: nat, profile: Option<bool>, percent: nat, feeBps: nat)
    requires Consistent(b) && r < |b.requests| && b.requests[r].status.Closed? && 20 <= percent <= 30
             && feeBps <= MAX_FEE_BPS
    ensures var outcome := DoSelect(b, now, b.requests[r].customer, r, p, profile, percent, feeBps);
            && outcome.0 == b
            && if b.requests[r].selected == Some(p)
               then outcome.1.Chosen? && outcome.1.idempotent && outcome.1.selected == p && outcome.1.job < |b.jobs|
                    && b.jobs[outcome.1.job].request == r && b.jobs[outcome.1.job].proposal == p
               else outcome.1 == Refused(Conflict)
  {
    assert RequestOk(b, r);
  }

  lemma CommitExact(b: Board, t: Selection, now: nat)
    requires Consistent(b) && Exact(b) && SelectionOk(b, t)
    requires FindJob(b.jobs, t.request).None? ==>
               t.price == b.proposals[t.proposal].price && now < b.requests[t.request].expiresAt
    ensures Exact(CommitSelect(b, t, now).0)
  {
    assert RequestOk(b, t.request);
  }

  lemma ProposalExact(b: Board, r: nat, provider: nat, price: nat)
    requires Exact(b) && r < |b.requests| && !b.requests[r].status.Closed?
    ensures Exact(WriteProposal(b, r, provider, price))
  {
  }

  lemma DoExact(b: Board, now: nat, c: Call)
    requires ValidCall(c) && Consistent(b) && Exact(b)
    ensures Exact(Do(b, now, c).0)
  {
    if c.Select? {
      SelectExact(b, now, c);
    } else if c.Submit? {
      SubmitExact(b, now, c);
    } else {
      RowsExact(b, now, c);
    }
  }

  lemma SelectExact(b: Board, now: nat, c: Call)
    requires ValidCall(c) && Consistent(b) && Exact(b) && c.Select?
    ensures Exact(Do(b, now, c).0)
  {
    BeginSelectIsOk(b, now, c);
    var start := BeginSelect(b, now, c.actor, c.request, c.proposal, c.profile, c.percent, c.feeBps);
    if start.Going? {
      CommitExact(b, start.ticket, now);
    }
  }

  lemma SubmitExact(b: Board, now: nat, c: Call)
    requires Exact(b) && c.Submit?
    ensures Exact(Do(b, now, c).0)
  {
    if c.request < |b.requests| {
      var b' := Refresh(b, c.request, now);
      assert Exact(b');
      if b'.requests[c.request].status.Open? {
        ProposalExact(b', c.request, c.actor, c.price);
      }
    }
  }

  lemma RowsExact(b: Board, now: nat, c: Call)
    requires ValidCall(c) && Exact(b) && !c.Select? && !c.Submit?
    ensures Exact(Do(b, now, c).0)
  {
    var b' := Do(b, now, c).0;
    assert b'.jobs == b.jobs && b'.proposals == b.proposals;
    forall j | 0 <= j < |b.jobs|
      ensures b.jobs[j].request < |b'.requests| && b'.requests[b.jobs[j].request] == b.requests[b.jobs[j].request]
    {
      OthersLeave(b, now, c, b.jobs[j].request);
    }
  }

  // ----- runs with racing selections -----

  datatype Race = Race(board: Board, pending: seq<Selection>, clock: nat)

  /** `Enter` leaves a selection between its checks and its transaction; every other call is atomic. */
  datatype Step = Whole(call: Call, wait: nat) | Enter(select: Call, wait: nat) | Finish(worker: nat, wait: nat)

  function Next(s: Race, step: Step): Race {
    match step
    case Whole(c, wait) =>
      if ValidCall(c) then Race(Do(s.board, s.clock + wait, c).0, s.pending, s.clock + wait) else s
    case Enter(c, wait) =>
      if ValidCall(c) && c.Select? then
        match BeginSelect(s.board, s.clock + wait, c.actor, c.request, c.proposal, c.profile, c.percent, c.feeBps)
        case Over(b, _) => Race(b, s.pending, s.clock + wait)
        case Going(b, t) => Race(b, s.pending + [t], s.clock + wait)
      else s
    case Finish(w, wait) =>
      if w < |s.pending| && s.pending[w].request < |s.board.requests|
          && s.pending[w].proposal < |s.board.proposals| then
        Race(CommitSelect(s.board, s.pending[w], s.clock + wait).0, s.pending[..w] + s.pending[w + 1..], s.clock + wait)
      else s
  }

  function Run(s: Race, steps: seq<Step>): Race {
    if steps == [] then s else Next(Run(s, steps[..|steps| - 1]), steps[|steps| - 1])
  }

  predicate RaceOk(s: Race) {
    Consistent(s.board) && forall k :: 0 <= k < |s.pending| ==> SelectionOk(s.board, s.pending[k])
  }

  /** Identities of rows never change. */
  predicate SameRows(x: Board, y: Board) {
    && |x.requests| <= |y.requests|
    && (forall r :: 0 <= r < |x.requests| ==> y.requests[r].customer == x.requests[r].customer)
    && |x.proposals| <= |y.proposals|
    && (forall p :: 0 <= p < |x.proposals| ==>
          y.proposals[p].request == x.proposals[p].request && y.proposals[p].provider == x.proposals[p].provider)
  }

  lemma DoSameRows(b: Board, now: nat, c: Call)
    requires ValidCall(c)
    ensures SameRows(b, Do(b, now, c).0)
  {
    hide SameRows;
    match c
    case Submit(_, _, _, _) => SubmitSameRows(b, now, c);
    case Select(_, _, _, _, _, _) => SelectSameRows(b, now, c);
    case _ => OthersSameRows(b, now, c);
  }

  lemma SubmitSameRows(b: Board, now: nat, c: Call)
    requires c.Submit?
    ensures SameRows(b, Do(b, now, c).0)
  {
  }

  lemma SelectSameRows(b: Board, now: nat, c: Call)
    requires ValidCall(c) && c.Select?
    ensures SameRows(b, Do(b, now, c).0)
  {
  }

  lemma OthersSameRows(b: Board, now: nat, c: Call)
    requires ValidCall(c) && !c.Submit? && !c.Select?
    ensures SameRows(b, Do(b, now, c).0)
  {
  }

  lemma PendingStays(b: Board, b': Board, pending: seq<Selection>)
    requires SameRows(b, b') && forall k :: 0 <= k < |pending| ==> SelectionOk(b, pending[k])
    ensures forall k :: 0 <= k < |pending| ==> SelectionOk(b', pending[k])
  {
  }

  lemma CommitSameRows(b: Board, t: Selection, now: nat)
    requires SelectionOk(b, t)
    ensures SameRows(b, CommitSelect(b, t, now).0)
  {
  }

  lemma WholeIsOk(s: Race, c: Call, wait: nat)
    requires RaceOk(s) && ValidCall(c)
    ensures RaceOk(Next(s, Whole(c, wait)))
  {
    hide Consistent;
    hide Do;
    DoKeeps(s.board, s.clock + wait, c);
    DoSameRows(s.board, s.clock + wait, c);
    PendingStays(s.board, Do(s.board, s.clock + wait, c).0, s.pending);
  }

  lemma EnterIsOk(s: Race, c: Call, wait: nat)
    requires RaceOk(s) && ValidCall(c) && c.Select?
    ensures RaceOk(Next(s, Enter(c, wait)))
  {
    hide Consistent;
    hide BeginSelect;
    BeginSelectIsOk(s.board, s.clock + wait, c);
    BeginSameRows(s.board, s.clock + wait, c);
    PendingStays(s.board, Next(s, Enter(c, wait)).board, s.pending);
  }

  lemma FinishIsOk(s: Race, w: nat, wait: nat)
    requires RaceOk(s) && w < |s.pending|
    ensures RaceOk(Next(s, Finish(w, wait)))
  {
    hide Consistent;
    hide CommitSelect;
    ClosingKeeps(s.board, s.pending[w], s.clock + wait);
    CommitSameRows(s.board, s.pending[w], s.clock + wait);
    PendingStays(s.board, Next(s, Finish(w, wait)).board, s.pending);
  }

  lemma NextIsOk(s: Race, step: Step)
    requires RaceOk(s)
    ensures RaceOk(Next(s, step))
  {
    hide RaceOk;
    hide Do;
    hide BeginSelect;
    hide CommitSelect;
    match step
    case Whole(c, wait) => if ValidCall(c) { WholeIsOk(s, c, wait); }
    case Enter(c, wait) => if ValidCall(c) && c.Select? { EnterIsOk(s, c, wait); }
    case Finish(w, wait) => if w < |s.pending| { FinishIsOk(s, w, wait); }
  }

  lemma BeginSameRows(b: Board, now: nat, c: Call)
    requires ValidCall(c) && c.Select?
    ensures SameRows(b, BeginSelect(b, now, c.actor, c.request, c.proposal, c.profile, c.percent, c.feeBps).board)
  {
  }

  lemma {:induction false} RunIsOk(s: Race, steps: seq<Step>)
    requires RaceOk(s)
    ensures RaceOk(Run(s, steps))
  {
    hide Next;
    hide RaceOk;
    if steps != [] {
      RunIsOk(s, steps[..|steps| - 1]);
      NextIsOk(Run(s, steps[..|steps| - 1]), steps[|steps| - 1]);
    }
  }

  const START := Race(EMPTY_BOARD, [], 0)

  /**
   * Request consistency and one job per request in every reachable state, with any number of selections
   * racing each other and everything else.
   */
  lemma RequestsStayConsistent(steps: seq<Step>)
    ensures var b := Run(START, steps).board;
            Consistent(b) && forall i, j :: 0 <= i < j < |b.jobs| ==> b.jobs[i].request != b.jobs[j].request
  {
    RunIsOk(START, steps);
  }

  /**
   * While selections run whole too, jobs also carry their proposal's price and are created before the
   * request's expiry.
   */
  lemma {:induction false} JobsAreExact(steps: seq<Step>)
    requires forall k :: 0 <= k < |steps| ==> steps[k].Whole?
    ensures Exact(Run(START, steps).board)
  {
    hide Next;
    hide Exact;
    hide Consistent;
    if steps != [] {
      var front := steps[..|steps| - 1];
      JobsAreExact(front);
      RequestsStayConsistent(front);
      WholeIsExact(Run(START, front), steps[|steps| - 1]);
    } else {
      NoJobsAreExact();
    }
  }

  lemma NoJobsAreExact()
    ensures Exact(EMPTY_BOARD)
  {
  }

  lemma WholeIsExact(s: Race, step: Step)
    requires step.Whole? && Consistent(s.board) && Exact(s.board)
    ensures Exact(Next(s, step).board)
  {
    hide Do;
    hide Exact;
    hide Consistent;
    if ValidCall(step.call) {
      DoExact(s.board, s.clock + step.wait, step.call);
    }
  }

  // ----- late writes -----

  /** An owner and two providers who bid for a request of the owner's. */
  datatype Rivals = Rivals(owner: nat, one: nat, two: nat, price: nat, other: nat, lifetime: nat, percent: nat,
                           feeBps: nat)

  predicate ValidRivals(v: Rivals) {
    && v.owner != v.one && v.owner != v.two && v.one != v.two && v.price >= 1 && v.other >= 1 && v.lifetime >= 1
    && 20 <= v.percent <= 30 && v.feeBps <= MAX_FEE_BPS
  }

  function Choosing(v: Rivals, p: nat): Call {
    Select(v.owner, 0, p, Some(true), v.percent, v.feeBps)
  }

  function BidRun(v: Rivals): seq<Step> {
    [Whole(Create(v.owner, true, v.lifetime), 0)] + [Whole(Submit(v.one, 0, v.price, Some(true)), 0)]
    + [Whole(Submit(v.two, 0, v.other, Some(true)), 0)]
  }

  /** A selection of each proposal checks before either is written; the first is written. */
  function RaceRun(v: Rivals): seq<Step> {
    BidRun(v) + [Enter(Choosing(v, 0), 0)] + [Enter(Choosing(v, 1), 0)] + [Finish(0, 0)]
  }

  /** The request with the first of the given proposals. */
  function BidBoard(v: Rivals, proposals: seq<Proposal>): Board {
    Board([Request(v.owner, Open, None, v.lifetime)], proposals, [], [])
  }

  function Bids(v: Rivals): seq<Proposal> {
    [Proposal(0, v.one, v.price, Submitted), Proposal(0, v.two, v.other, Submitted)]
  }

  function Choice(v: Rivals, p: nat): Selection
    requires ValidRivals(v)
  {
    var price := if p == 0 then v.price else v.other;
    Selection(0, p, v.owner, if p == 0 then v.one else v.two, price, ComputeDepositSplit(price, v.percent, v.feeBps))
  }

  function WonBoard(v: Rivals): Board
    requires ValidRivals(v)
  {
    var b, t := BidBoard(v, Bids(v)), Choice(v, 0);
    Board([b.requests[0].(status := Closed, selected := Some(0))],
          [Bids(v)[0].(status := Selected), Bids(v)[1].(status := Rejected)], [],
          [JobRow(0, 0, v.owner, v.one, v.price, t.deposit, 0)])
  }

  lemma RunNext(steps: seq<Step>, step: Step)
    ensures Run(START, steps + [step]) == Next(Run(START, steps), step)
  {
    assert (steps + [step])[..|steps|] == steps;
  }

  lemma FirstBid(v: Rivals)
    requires ValidRivals(v)
    ensures Do(BidBoard(v, []), 0, Submit(v.one, 0, v.price, Some(true))).0 == BidBoard(v, Bids(v)[..1])
  {
    assert WriteProposal(BidBoard(v, []), 0, v.one, v.price).proposals == Bids(v)[..1];
  }

  lemma SecondBid(v: Rivals)
    requires ValidRivals(v)
    ensures Do(BidBoard(v, Bids(v)[..1]), 0, Submit(v.two, 0, v.other, Some(true))).0 == BidBoard(v, Bids(v))
  {
    assert FindProposal(Bids(v)[..1], 0, v.two).None?;
    assert WriteProposal(BidBoard(v, Bids(v)[..1]), 0, v.two, v.other).proposals == Bids(v);
  }

  lemma ReachesBids(v: Rivals)
    requires ValidRivals(v)
    ensures Run(START, BidRun(v)) == Race(BidBoard(v, Bids(v)), [], 0)
  {
    var create := Whole(Create(v.owner, true, v.lifetime), 0);
    RunNext([], create);
    assert Run(START, []) == START;
    assert Do(EMPTY_BOARD, 0, create.call).0 == BidBoard(v, []);
    assert [] + [create] == [create];
    FirstBid(v);
    SecondBid(v);
    hide Run;
    hide Do;
    RunNext([create], Whole(Submit(v.one, 0, v.price, Some(true)), 0));
    RunNext([create] + [Whole(Submit(v.one, 0, v.price, Some(true)), 0)],
            Whole(Submit(v.two, 0, v.other, Some(true)), 0));
  }

  lemma BothEnter(v: Rivals, p: nat)
    requires ValidRivals(v) && p < 2
    ensures BeginSelect(BidBoard(v, Bids(v)), 0, v.owner, 0, p, Some(true), v.percent, v.feeBps)
         == Going(BidBoard(v, Bids(v)), Choice(v, p))
  {
    hide ComputeDepositSplit;
  }

  lemma FirstWins(v: Rivals)
    requires ValidRivals(v)
    ensures CommitSelect(BidBoard(v, Bids(v)), Choice(v, 0), 0).0 == WonBoard(v)
  {
    var b := CommitSelect(BidBoard(v, Bids(v)), Choice(v, 0), 0).0;
    assert b.proposals == WonBoard(v).proposals && b.requests == WonBoard(v).requests;
    assert b.jobs == WonBoard(v).jobs && b.invitations == WonBoard(v).invitations;
  }

  lemma ReachesRace(v: Rivals)
    requires ValidRivals(v)
    ensures Run(START, RaceRun(v)) == Race(WonBoard(v), [Choice(v, 1)], 0)
  {
    hide Run;
    hide BidRun;
    hide BidBoard;
    hide Choice;
    hide WonBoard;
    hide BeginSelect;
    hide CommitSelect;
    ReachesBids(v);
    BothEnter(v, 0);
    BothEnter(v, 1);
    FirstWins(v);
    OneRequest(v);
    RunNext(BidRun(v), Enter(Choosing(v, 0), 0));
    RunNext(BidRun(v) + [Enter(Choosing(v, 0), 0)], Enter(Choosing(v, 1), 0));
    RunNext(BidRun(v) + [Enter(Choosing(v, 0), 0)] + [Enter(Choosing(v, 1), 0)], Finish(0, 0));
  }

  lemma OneRequest(v: Rivals)
    requires ValidRivals(v)
    ensures var b := BidBoard(v, Bids(v)); |b.requests| == 1 && |b.proposals| == 2
    ensures Choice(v, 0).request == 0 && Choice(v, 0).proposal == 0
  {
  }

  /** The answer of a selection's transaction names the stored selection exactly when no other had won before. */
  lemma AnswerIsStoredIff(b: Board, t: Selection, now: nat)
    requires Consistent(b) && SelectionOk(b, t)
    ensures var (b', reply) := CommitSelect(b, t, now);
            && reply.Chosen? && reply.selected == t.proposal && reply.job < |b'.jobs|
                 && b'.jobs[reply.job].request == t.request
            && (b'.requests[t.request].selected == Some(reply.selected)
                <==> b.requests[t.request].selected in {None, Some(t.proposal)})
            && b'.requests[t.request].selected == Some(b'.jobs[reply.job].proposal)
  {
    assert RequestOk(b, t.request);
  }

  /** The loser of a race is told that its own proposal is selected, together with the job of the other one. */
  lemma LoserIsMisinformed(v: Rivals)
    requires ValidRivals(v)
    ensures var s := Run(START, RaceRun(v));
            && s == Race(WonBoard(v), [Choice(v, 1)], 0) && s.board.requests[0].selected == Some(0)
            && CommitSelect(s.board, Choice(v, 1), 0).1 == Chosen(0, 1, true)
  {
    ReachesRace(v);
    hide Run;
    assert FindJob(WonBoard(v).jobs, 0) == Some(0);
  }

  /** A proposal checked while the request was open, written after the selection: no proposal is selected any more. */
  lemma LateProposal(v: Rivals, price: nat)
    requires ValidRivals(v)
    ensures Run(START, RaceRun(v)).board == WonBoard(v)
    ensures Consistent(WonBoard(v)) && !Consistent(WriteProposal(WonBoard(v), 0, v.one, price))
  {
    ReachesRace(v);
    RequestsStayConsistent(RaceRun(v));
    hide Run;
    ProposalKeeps(WonBoard(v), 0, v.one, price);
  }

  /**
   * Once a selection is split, exactness holds after its commit exactly when a job existed already, or the
   * price is still that of the proposal and the request has not run out.
   */
  lemma LateSelection(b: Board, t: Selection, now: nat)
    requires Consistent(b) && Exact(b) && SelectionOk(b, t)
    ensures Exact(CommitSelect(b, t, now).0)
       <==> (FindJob(b.jobs, t.request).Some?
             || (t.price == b.proposals[t.proposal].price && now < b.requests[t.request].expiresAt))
  {
    var b' := CommitSelect(b, t, now).0;
    if FindJob(b.jobs, t.request).Some?
       || (t.price == b.proposals[t.proposal].price && now < b.requests[t.request].expiresAt) {
      CommitExact(b, t, now);
    } else {
      assert b'.jobs[|b.jobs|].request == t.request;
    }
  }

  /** A selection checked in time and written when the request has run out: its job is created at the expiry. */
  lemma LateWin(v: Rivals)
    requires ValidRivals(v)
    ensures var b := Run(START, BidRun(v) + [Enter(Choosing(v, 0), 0)] + [Finish(0, v.lifetime)]).board;
            |b.jobs| == 1 && |b.requests| == 1 && b.jobs[0].createdAt == b.requests[0].expiresAt && !Exact(b)
  {
    hide Run;
    hide BidRun;
    hide BeginSelect;
    ReachesBids(v);
    BothEnter(v, 0);
    RunNext(BidRun(v), Enter(Choosing(v, 0), 0));
    RunNext(BidRun(v) + [Enter(Choosing(v, 0), 0)], Finish(0, v.lifetime));
  }
}
