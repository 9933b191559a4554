/**
 * Service requests, proposals, invitations and the jobs that selections create, as values:
 * service-requests.service.ts. Every operation takes the time at which it runs.
 */
module Requests {
  import opened Common
  import opened Policy

  datatype RequestStatus = Open | Closed | Expired

  datatype Request = Request(customer: nat, status: RequestStatus, selected: Option<nat>, expiresAt: nat)

  datatype ProposalStatus = Submitted | Selected | Rejected

  datatype Proposal = Proposal(request: nat, provider: nat, price: nat, status: ProposalStatus)

  datatype InvitationStatus = Sent | Accepted | Declined | Expired

  datatype Invitation = Invitation(request: nat, provider: nat, status: InvitationStatus)

  /** A job, with the deposit intent that is created in the same transaction. */
  datatype JobRow = JobRow(request: nat, proposal: nat, client: nat, provider: nat, price: nat, deposit: Split,
                           createdAt: nat)

  datatype Board = Board(requests: seq<Request>, proposals: seq<Proposal>, invitations: seq<Invitation>,
                         jobs: seq<JobRow>)

  const EMPTY_BOARD := Board([], [], [], [])

  /**
   * What a call answers: nothing in particular, the status it read, or the job and the proposal it says is
   * selected.
   */
  datatype Reply =
    | Refused(fault: Fault)
    | Done
    | Viewed(status: RequestStatus)
    | Chosen(job: nat, selected: nat, idempotent: bool)

  // ----- queries -----

  function FindProposal(proposals: seq<Proposal>, r: nat, provider: nat): (p: Option<nat>)
    ensures p.Some? ==>
              p.value < |proposals| && proposals[p.value].request == r && proposals[p.value].provider == provider
    ensures p.None? ==> forall k :: 0 <= k < |proposals| ==>
              proposals[k].request != r || proposals[k].provider != provider
  {
    if proposals == [] then None
    else
      var n := |proposals| - 1;
      if proposals[n].request == r && proposals[n].provider == provider then Some(n)
      else FindProposal(proposals[..n], r, provider)
  }

  function FindInvitation(invitations: seq<Invitation>, r: nat, provider: nat): (v: Option<nat>)
    ensures v.Some? ==>
              v.value < |invitations| && invitations[v.value].request == r && invitations[v.value].provider == provider
    ensures v.None? ==> forall k :: 0 <= k < |invitations| ==>
              invitations[k].request != r || invitations[k].provider != provider
  {
    if invitations == [] then None
    else
      var n := |invitations| - 1;
      if invitations[n].request == r && invitations[n].provider == provider then Some(n)
      else FindInvitation(invitations[..n], r, provider)
  }

  function FindJob(jobs: seq<JobRow>, r: nat): (j: Option<nat>)
    ensures j.Some? ==> j.value < |jobs| && jobs[j.value].request == r
    ensures j.None? ==> forall k :: 0 <= k < |jobs| ==> jobs[k].request != r
  {
    if jobs == [] then None
    else
      var n := |jobs| - 1;
      if jobs[n].request == r then Some(n) else FindJob(jobs[..n], r)
  }

  // ----- expiry -----

  predicate PastExpiry(q: Request, now: nat) {
    q.status.Open? && q.selected.None? && q.expiresAt <= now
  }

  function ExpireRow(q: Request, now: nat): Request {
    if PastExpiry(q, now) then q.(status := RequestStatus.Expired) else q
  }

  /** An invitation still waiting expires. */
  function ExpireInvitation(v: Invitation): Invitation {
    if v.status.Sent? then v.(status := InvitationStatus.Expired) else v
  }

  /** The waiting invitations of the requests that `which` picks, expired. */
  function ExpireInvitations(invitations: seq<Invitation>, which: nat -> bool): (s: seq<Invitation>)
    ensures |s| == |invitations|
    ensures forall k :: 0 <= k < |s| ==>
              s[k] == if which(invitations[k].request) then ExpireInvitation(invitations[k]) else invitations[k]
  {
    seq(|invitations|, k requires 0 <= k < |invitations| =>
      if which(invitations[k].request) then ExpireInvitation(invitations[k]) else invitations[k])
  }

  /** `expireStaleOpenRequests`: the sweep. */
  function Sweep(b: Board, now: nat): (s: Board)
    ensures |s.requests| == |b.requests|
    ensures forall r :: 0 <= r < |s.requests| ==> s.requests[r] == ExpireRow(b.requests[r], now)
    ensures s.proposals == b.proposals && s.jobs == b.jobs && |s.invitations| == |b.invitations|
    ensures forall k :: 0 <= k < |s.invitations| ==>
              s.invitations[k] == if b.invitations[k].request < |b.requests|
                  && PastExpiry(b.requests[b.invitations[k].request], now)
                                  then ExpireInvitation(b.invitations[k]) else b.invitations[k]
  {
    b.(requests := seq(|b.requests|, r requires 0 <= r < |b.requests| => ExpireRow(b.requests[r], now)),
       invitations := ExpireInvitations(b.invitations, (r: nat) => r < |b.requests| && PastExpiry(b.requests[r], now)))
  }

  /** `refreshRequestStatusIfExpired`: the same for the request at hand only. */
  function Refresh(b: Board, r: nat, now: nat): Board
    requires r < |b.requests|
  {
    if PastExpiry(b.requests[r], now)
    then b.(requests := b.requests[r := b.requests[r].(status := RequestStatus.Expired)],
            invitations := ExpireInvitations(b.invitations, (x: nat) => x == r))
    else b
  }

  // ----- calls -----

  /**
   * `profile` is the worker profile found for the provider concerned: None if there is none, else its
   * availability. `active` tells whether the category exists and is active.
   */
  datatype Call =
    | Create(actor: nat, active: bool, lifetime: nat)
    | Recreate(actor: nat, request: nat, active: bool, lifetime: nat)
    | Update(actor: nat, request: nat, extension: Option<nat>)
    | View(actor: nat, request: nat)
    | Invite(actor: nat, request: nat, provider: nat, profile: Option<bool>)
    | ListInvitations(actor: nat, request: nat)
    | ListMyInvitations(actor: nat)
    | Decline(actor: nat, invitation: nat)
    | Submit(actor: nat, request: nat, price: nat, profile: Option<bool>)
    | Select(actor: nat, request: nat, proposal: nat, profile: Option<bool>, percent: nat, feeBps: nat)
    | RunSweep

  /** The bounds of DTOs and environment: lifetimes and percentages. */
  predicate ValidCall(c: Call) {
    && (c.Create? || c.Recreate? ==> c.lifetime >= 1)
    && (c.Select? ==> 20 <= c.percent <= 30 && c.feeBps <= MAX_FEE_BPS)
  }

  function NewRequest(actor: nat, lifetime: nat, now: nat): Request {
    Request(actor, Open, None, now + lifetime)
  }

  function DoRecreate(b: Board, now: nat, actor: nat, r: nat, active: bool, lifetime: nat): (Board, Reply) {
    if r >= |b.requests| then (b, Refused(NotFound))
    else if b.requests[r].customer != actor then (b, Refused(Forbidden))
    else
      var b' := Refresh(b, r, now);
      if !b'.requests[r].status.Expired? || b.requests[r].selected.Some? || FindJob(b.jobs, r).Some?
          then (b', Refused(Conflict))
      else if !active then (b', Refused(NotFound))
      else (b'.(requests := b'.requests + [NewRequest(actor, lifetime, now)]), Done)
  }

  function DoUpdate(b: Board, now: nat, actor: nat, r: nat, extension: Option<nat>): (Board, Reply) {
    if r >= |b.requests| then (b, Refused(NotFound))
    else if b.requests[r].customer != actor then (b, Refused(Forbidden))
    else
      var b' := Refresh(b, r, now);
      if !b'.requests[r].status.Open? || b.requests[r].selected.Some? || FindJob(b.jobs, r).Some?
          then (b', Refused(Conflict))
      else
        var row := b'.requests[r];
        (b'.(requests := b'.requests[r := row.(expiresAt := row.expiresAt + extension.GetOr(0))]), Done)
  }

  function DoView(b: Board, now: nat, actor: nat, r: nat): (Board, Reply) {
    if r >= |b.requests| then (b, Refused(NotFound))
    else if b.requests[r].customer != actor then (b, Refused(Forbidden))
    else
      var b' := Refresh(b, r, now);
      (b', Viewed(b'.requests[r].status))
  }

  function DoInvite(b: Board, now: nat, actor: nat, r: nat, provider: nat, profile: Option<bool>): (Board, Reply) {
    if provider == actor then (b, Refused(Conflict))
    else if r >= |b.requests| then (b, Refused(NotFound))
    else if b.requests[r].customer != actor then (b, Refused(Forbidden))
    else
      var b' := Refresh(b, r, now);
      if !b'.requests[r].status.Open? || b.requests[r].selected.Some? then (b', Refused(Conflict))
      else if profile.None? then (b', Refused(NotFound))
      else if !profile.value then (b', Refused(Conflict))
      else if FindProposal(b.proposals, r, provider).Some? then (b', Refused(Conflict))
      else if FindInvitation(b.invitations, r, provider).Some? then (b', Refused(Conflict))
      else (b'.(invitations := b'.invitations + [Invitation(r, provider, Sent)]), Done)
  }

  /** `listRequestInvitations`, with its repair of waiting invitations on a request that is not open. */
  function DoListInvitations(b: Board, now: nat, actor: nat, r: nat): (Board, Reply) {
    if r >= |b.requests| then (b, Refused(NotFound))
    else if b.requests[r].customer != actor then (b, Refused(Forbidden))
    else
      var b' := Refresh(b, r, now);
      if b'.requests[r].status.Open? then (b', Done)
      else (b'.(invitations := ExpireInvitations(b'.invitations, (x: nat) => x == r)), Done)
  }

  /** The repair of one provider's waiting invitations on requests that are not open. */
  function RepairProvider(b: Board, provider: nat): (s: Board)
    ensures s.requests == b.requests && s.proposals == b.proposals && s.jobs == b.jobs
            && |s.invitations| == |b.invitations|
    ensures forall k :: 0 <= k < |s.invitations| ==>
              s.invitations[k] == if b.invitations[k].provider == provider && b.invitations[k].request < |b.requests|
                                     && !b.requests[b.invitations[k].request].status.Open?
                                  then ExpireInvitation(b.invitations[k]) else b.invitations[k]
  {
    b.(invitations := seq(|b.invitations|, k requires 0 <= k < |b.invitations| =>
         if b.invitations[k].provider == provider && b.invitations[k].request < |b.requests|
            && !b.requests[b.invitations[k].request].status.Open?
         then ExpireInvitation(b.invitations[k]) else b.invitations[k]))
  }

  /** `declineInvitation`; the decision rests on the invitation as it was read, before the refresh. */
  function DoDecline(b: Board, now: nat, actor: nat, v: nat): (Board, Reply) {
    if v >= |b.invitations| || b.invitations[v].request >= |b.requests| then (b, Refused(NotFound))
    else
      var row := b.invitations[v];
      if row.provider != actor then (b, Refused(Forbidden))
      else if row.status.Accepted? then (b, Refused(Conflict))
      else if row.status.Declined? then (b, Done)
      else
        var b' := Refresh(b, row.request, now);
        if row.status.Expired? then (b', Done)
        else if !b'.requests[row.request].status.Open? || b.requests[row.request].selected.Some?
        then (b'.(invitations := b'.invitations[v := row.(status := InvitationStatus.Expired)]), Done)
        else (b'.(invitations := b'.invitations[v := row.(status := Declined)]), Done)
  }

  /** `markInvitationAccepted` */
  function MarkAccepted(invitations: seq<Invitation>, r: nat, provider: nat): (s: seq<Invitation>)
    ensures |s| == |invitations|
    ensures forall k :: 0 <= k < |s| ==>
              s[k] == if invitations[k].request == r && invitations[k].provider == provider
                      then invitations[k].(status := Accepted) else invitations[k]
  {
    seq(|invitations|, k requires 0 <= k < |invitations| =>
      if invitations[k].request == r && invitations[k].provider == provider
      then invitations[k].(status := Accepted) else invitations[k])
  }

  /** What `submitProposal` writes once its checks have passed. */
  function WriteProposal(b: Board, r: nat, provider: nat, price: nat): Board {
    var existing := FindProposal(b.proposals, r, provider);
    b.(proposals := if existing.Some? then b.proposals[existing.value := Proposal(r, provider, price, Submitted)]
                    else b.proposals + [Proposal(r, provider, price, Submitted)],
       invitations := MarkAccepted(b.invitations, r, provider))
  }

  function DoSubmit(b: Board, now: nat, actor: nat, r: nat, price: nat, profile: Option<bool>): (Board, Reply) {
    if r >= |b.requests| || profile.None? then (b, Refused(NotFound))
    else if !profile.value then (b, Refused(Conflict))
    else if b.requests[r].customer == actor then (b, Refused(Conflict))
    else
      var b' := Refresh(b, r, now);
      if !b'.requests[r].status.Open? || b.requests[r].selected.Some? then (b', Refused(Conflict))
      else if price == 0 then (b', Refused(BadRequest))
      else (WriteProposal(b', r, actor, price), Done)
  }

  // ----- selection, in two phases -----

  /** What a selection has read when it reaches its transaction. */
  datatype Selection = Selection(request: nat, proposal: nat, client: nat, provider: nat, price: nat, deposit: Split)

  datatype SelectStart = Over(board: Board, reply: Reply) | Going(board: Board, ticket: Selection)

  function BeginSelect(b: Board, now: nat, actor: nat, r: nat, p: nat, profile: Option<bool>, percent: nat,
                       feeBps: nat): SelectStart
    requires 20 <= percent <= 30 && feeBps <= MAX_FEE_BPS
  {
    if r >= |b.requests| then Over(b, Refused(NotFound))
    else if b.requests[r].customer != actor then Over(b, Refused(Forbidden))
    else
      var b' := Refresh(b, r, now);
      var q := b.requests[r];
      var job := FindJob(b.jobs, r);
      if q.selected.Some? && q.selected.value != p then Over(b', Refused(Conflict))
      else if q.selected == Some(p) && job.Some? then Over(b', Chosen(job.value, p, true))
      else if !b'.requests[r].status.Open? then Over(b', Refused(Conflict))
      else if p >= |b.proposals| || b.proposals[p].request != r then Over(b', Refused(NotFound))
      else if b.proposals[p].status.Rejected? then Over(b', Refused(Conflict))
      else if profile != Some(true) then Over(b', Refused(Conflict))
      else if b.proposals[p].price == 0 then Over(b', Refused(BadRequest))
      else Going(b', Selection(r, p, actor, b.proposals[p].provider, b.proposals[p].price,
                               ComputeDepositSplit(b.proposals[p].price, percent, feeBps)))
  }

  function RejectOthers(proposals: seq<Proposal>, r: nat, p: nat): (s: seq<Proposal>)
    ensures |s| == |proposals|
    ensures forall k :: 0 <= k < |s| ==>
              s[k] == if proposals[k].request == r && k != p then proposals[k].(status := Rejected) else proposals[k]
  {
    seq(|proposals|, k requires 0 <= k < |proposals| =>
      if proposals[k].request == r && k != p then proposals[k].(status := Rejected) else proposals[k])
  }

  /** The transaction of `selectProposal`. */
  function CommitSelect(b: Board, t: Selection, now: nat): (Board, Reply)
    requires t.request < |b.requests| && t.proposal < |b.proposals|
  {
    var closing := ExpireInvitations(b.invitations, (x: nat) => x == t.request);
    var job := FindJob(b.jobs, t.request);
    if job.Some? then (b.(invitations := closing), Chosen(job.value, t.proposal, true))
    else
      var proposals := RejectOthers(b.proposals, t.request, t.proposal);
      (Board(b.requests[t.request := b.requests[t.request].(status := Closed, selected := Some(t.proposal))],
             proposals[t.proposal := proposals[t.proposal].(status := Selected)],
             closing,
             b.jobs + [JobRow(t.request, t.proposal, t.client, t.provider, t.price, t.deposit, now)]),
       Chosen(|b.jobs|, t.proposal, false))
  }

  function DoSelect(b: Board, now: nat, actor: nat, r: nat, p: nat, profile: Option<bool>, percent: nat,
                    feeBps: nat): (Board, Reply)
    requires 20 <= percent <= 30 && feeBps <= MAX_FEE_BPS
  {
    match BeginSelect(b, now, actor, r, p, profile, percent, feeBps)
    case Over(b', reply) => (b', reply)
    case Going(b', t) => CommitSelect(b', t, now)
  }

  /** One call, atomically. */
  function Do(b: Board, now: nat, c: Call): (Board, Reply)
    requires ValidCall(c)
  {
    match c
    case Create(actor, active, lifetime) =>
      if active then (b.(requests := b.requests + [NewRequest(actor, lifetime, now)]), Done) else (b, Refused(NotFound))
    case Recreate(actor, r, active, lifetime) => DoRecreate(b, now, actor, r, active, lifetime)
    case Update(actor, r, extension) => DoUpdate(b, now, actor, r, extension)
    case View(actor, r) => DoView(b, now, actor, r)
    case Invite(actor, r, provider, profile) => DoInvite(b, now, actor, r, provider, profile)
    case ListInvitations(actor, r) => DoListInvitations(b, now, actor, r)
    case ListMyInvitations(actor) => (RepairProvider(Sweep(b, now), actor), Done)
    case Decline(actor, v) => DoDecline(b, now, actor, v)
    case Submit(actor, r, price, profile) => DoSubmit(b, now, actor, r, price, profile)
    case Select(actor, r, p, profile, percent, feeBps) => DoSelect(b, now, actor, r, p, profile, percent, feeBps)
    case RunSweep => (Sweep(b, now), Done)
  }
}
