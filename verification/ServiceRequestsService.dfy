/** ServiceRequestsService in its own, step-by-step form: each method does what `Requests.Do` says of its call. */
module ServiceRequestsService {
  import opened Common
  import opened Policy
  import opened Requests

  class ServiceRequestsService {
    const depositPercent: nat
    const feeBps: nat
    var requests: seq<Request>
    var proposals: seq<Proposal>
    var invitations: seq<Invitation>
    var jobs: seq<JobRow>

    constructor (depositPercent: nat, feeBps: nat)
      ensures Rows() == EMPTY_BOARD && this.depositPercent == depositPercent && this.feeBps == feeBps
    {
      this.depositPercent, this.feeBps := depositPercent, feeBps;
      requests, proposals, invitations, jobs := [], [], [], [];
    }

    ghost predicate Valid() {
      20 <= depositPercent <= 30 && feeBps <= MAX_FEE_BPS
    }

    function Rows(): Board
      reads this
    {
      Board(requests, proposals, invitations, jobs)
    }

    /** `expireRequestsByIds`: the open ones among the requests, and every waiting invitation of any of them. */
    method ExpireRequestsByIds(ids: set<nat>)
      modifies this
      ensures proposals == old(proposals) && jobs == old(jobs)
      ensures |requests| == |old(requests)| && forall r :: 0 <= r < |requests| ==>
                requests[r] == if r in ids && old(requests)[r].status.Open?
                    then old(requests)[r].(status := RequestStatus.Expired) else old(requests)[r]
      ensures |invitations| == |old(invitations)| && forall k :: 0 <= k < |invitations| ==>
                invitations[k] == if old(invitations)[k].request in ids then ExpireInvitation(old(invitations)[k])
                    else old(invitations)[k]
    {
      for r := 0 to |requests|
        invariant proposals == old(proposals) && jobs == old(jobs) && invitations == old(invitations)
                  && |requests| == |old(requests)|
        invariant forall x :: 0 <= x < r ==>
                    requests[x] == if x in ids && old(requests)[x].status.Open?
                        then old(requests)[x].(status := RequestStatus.Expired) else old(requests)[x]
        invariant forall x :: r <= x < |requests| ==> requests[x] == old(requests)[x]
      {
        if r in ids && requests[r].status == Open {
          requests := requests[r := requests[r].(status := RequestStatus.Expired)];
        }
      }
      ExpireWaiting(ids);
    }

    /** `updateMany` over the waiting invitations of some requests. */
    method ExpireWaiting(ids: set<nat>)
      modifies this`invitations
      ensures |invitations| == |old(invitations)| && forall k :: 0 <= k < |invitations| ==>
                invitations[k] == if old(invitations)[k].request in ids then ExpireInvitation(old(invitations)[k])
                    else old(invitations)[k]
    {
      for k := 0 to |invitations|
        invariant |invitations| == |old(invitations)|
        invariant forall x :: 0 <= x < k ==>
                    invitations[x] == if old(invitations)[x].request in ids then ExpireInvitation(old(invitations)[x])
                        else old(invitations)[x]
        invariant forall x :: k <= x < |invitations| ==> invitations[x] == old(invitations)[x]
      {
        if invitations[k].request in ids && invitations[k].status == Sent {
          invitations := invitations[k := invitations[k].(status := InvitationStatus.Expired)];
        }
      }
    }

    /** `expireStaleOpenRequests`: find the stale requests, then expire them by id. */
    method ExpireStaleOpenRequests(now: nat) returns (count: nat)
      modifies this
      ensures Rows() == Sweep(old(Rows()), now)
      ensures count == |set r | 0 <= r < |old(requests)| && PastExpiry(old(requests)[r], now)|
    {
      var stale: set<nat> := {};
      for r := 0 to |requests|
        invariant Rows() == old(Rows())
        invariant stale == set x | 0 <= x < r && PastExpiry(requests[x], now)
      {
        if PastExpiry(requests[r], now) {
          stale := stale + {r};
        }
      }
      count := |stale|;
      if stale == {} {
        assert forall r :: 0 <= r < |requests| && PastExpiry(requests[r], now) ==> r in stale;
        assert requests == Sweep(old(Rows()), now).requests;
        assert invitations == Sweep(old(Rows()), now).invitations;
        return;
      }
      ExpireRequestsByIds(stale);
      assert requests == Sweep(old(Rows()), now).requests;
      assert invitations == Sweep(old(Rows()), now).invitations;
    }

    /** `refreshRequestStatusIfExpired` */
    method RefreshRequestStatusIfExpired(r: nat, now: nat) returns (status: RequestStatus)
      requires r < |requests|
      modifies this
      ensures Rows() == Refresh(old(Rows()), r, now) && status == requests[r].status
    {
      if !PastExpiry(requests[r], now) {
        return requests[r].status;
      }
      ExpireRequestsByIds({r});
      assert requests == Refresh(old(Rows()), r, now).requests;
      assert invitations == Refresh(old(Rows()), r, now).invitations;
      status := RequestStatus.Expired;
    }

    method Create(actor: nat, active: bool, lifetime: nat, now: nat) returns (reply: Reply)
      requires lifetime >= 1
      modifies this
      ensures (Rows(), reply) == Do(old(Rows()), now, Call.Create(actor, active, lifetime))
    {
      if !active {
        return Refused(NotFound);
      }
      requests := requests + [Request(actor, Open, None, now + lifetime)];
      reply := Done;
    }

    method Recreate(actor: nat, r: nat, active: bool, lifetime: nat, now: nat) returns (reply: Reply)
      requires lifetime >= 1
      modifies this
      ensures (Rows(), reply) == Do(old(Rows()), now, Call.Recreate(actor, r, active, lifetime))
    {
      if r >= |requests| {
        return Refused(NotFound);
      }
      if requests[r].customer != actor {
        return Refused(Forbidden);
      }
      var read := requests[r];
      var status := RefreshRequestStatusIfExpired(r, now);
      if status != RequestStatus.Expired || read.selected.Some? || FindJob(jobs, r).Some? {
        return Refused(Conflict);
      }
      if !active {
        return Refused(NotFound);
      }
      requests := requests + [Request(actor, Open, None, now + lifetime)];
      reply := Done;
    }

    /** `update`: only an extension of the expiry concerns the protocol. */
    method Update(actor: nat, r: nat, extension: Option<nat>, now: nat) returns (reply: Reply)
      modifies this
      ensures (Rows(), reply) == Do(old(Rows()), now, Call.Update(actor, r, extension))
    {
      if r >= |requests| {
        return Refused(NotFound);
      }
      if requests[r].customer != actor {
        return Refused(Forbidden);
      }
      var read := requests[r];
      var status := RefreshRequestStatusIfExpired(r, now);
      if status != Open || read.selected.Some? || FindJob(jobs, r).Some? {
        return Refused(Conflict);
      }
      if extension.Some? {
        requests := requests[r := requests[r].(expiresAt := read.expiresAt + extension.value)];
      }
      assert requests == Do(old(Rows()), now, Call.Update(actor, r, extension)).0.requests;
      reply := Done;
    }

    method CreateInvitation(actor: nat, r: nat, provider: nat, profile: Option<bool>, now: nat) returns (reply: Reply)
      modifies this
      ensures (Rows(), reply) == Do(old(Rows()), now, Invite(actor, r, provider, profile))
    {
      if provider == actor {
        return Refused(Conflict);
      }
      if r >= |requests| {
        return Refused(NotFound);
      }
      var read := requests[r];
      var proposed, invited := FindProposal(proposals, r, provider), FindInvitation(invitations, r, provider);
      if read.customer != actor {
        return Refused(Forbidden);
      }
      var status := RefreshRequestStatusIfExpired(r, now);
      if status != Open || read.selected.Some? {
        return Refused(Conflict);
      }
      if profile.None? {
        return Refused(NotFound);
      }
      if !profile.value || proposed.Some? || invited.Some? {
        return Refused(Conflict);
      }
      invitations := invitations + [Invitation(r, provider, Sent)];
      reply := Done;
    }

    method ListRequestInvitations(actor: nat, r: nat, now: nat) returns (reply: Reply)
      modifies this
      ensures (Rows(), reply) == Do(old(Rows()), now, ListInvitations(actor, r))
    {
      if r >= |requests| {
        return Refused(NotFound);
      }
      if requests[r].customer != actor {
        return Refused(Forbidden);
      }
      var status := RefreshRequestStatusIfExpired(r, now);
      if status != Open {
        ghost var before := invitations;
        ExpireWaiting({r});
        assert invitations == ExpireInvitations(before, (x: nat) => x == r);
      }
      reply := Done;
    }

    method ListMineInvitations(actor: nat, now: nat) returns (reply: Reply)
      modifies this
      ensures (Rows(), reply) == Do(old(Rows()), now, ListMyInvitations(actor))
    {
      var _ := ExpireStaleOpenRequests(now);
      ghost var swept := Rows();
      for k := 0 to |invitations|
        invariant requests == swept.requests && proposals == swept.proposals && jobs == swept.jobs
                  && |invitations| == |swept.invitations|
        invariant forall x :: 0 <= x < k ==> invitations[x] == RepairProvider(swept, actor).invitations[x]
        invariant forall x :: k <= x < |invitations| ==> invitations[x] == swept.invitations[x]
      {
        var row := invitations[k];
        if row.provider == actor && row.status == Sent && row.request < |requests|
            && requests[row.request].status != Open {
          invitations := invitations[k := row.(status := InvitationStatus.Expired)];
        }
      }
      assert invitations == RepairProvider(swept, actor).invitations;
      reply := Done;
    }

    method DeclineInvitation(v: nat, actor: nat, now: nat) returns (reply: Reply)
      modifies this
      ensures (Rows(), reply) == Do(old(Rows()), now, Decline(actor, v))
    {
      if v >= |invitations| || invitations[v].request >= |requests| {
        return Refused(NotFound);
      }
      var read := invitations[v];
      var request := requests[read.request];
      if read.provider != actor {
        return Refused(Forbidden);
      }
      if read.status == Accepted {
        return Refused(Conflict);
      }
      if read.status == Declined {
        return Done;
      }
      var status := RefreshRequestStatusIfExpired(read.request, now);
      reply := Done;
      if read.status == InvitationStatus.Expired || status != Open || request.selected.Some? {
        if read.status == InvitationStatus.Expired {
          return;
        }
        invitations := invitations[v := read.(status := InvitationStatus.Expired)];
        return;
      }
      invitations := invitations[v := read.(status := Declined)];
    }

    method SubmitProposal(actor: nat, r: nat, price: nat, profile: Option<bool>, now: nat) returns (reply: Reply)
      modifies this
      ensures (Rows(), reply) == Do(old(Rows()), now, Submit(actor, r, price, profile))
    {
      if r >= |requests| || profile.None? {
        return Refused(NotFound);
      }
      var read := requests[r];
      if !profile.value || read.customer == actor {
        return Refused(Conflict);
      }
      var status := RefreshRequestStatusIfExpired(r, now);
      if status != Open || read.selected.Some? {
        return Refused(Conflict);
      }
      if price <= 0 {
        return Refused(BadRequest);
      }
      var existing := FindProposal(proposals, r, actor);
      if existing.Some? {
        proposals := proposals[existing.value := proposals[existing.value].(price := price, status := Submitted)];
      } else {
        proposals := proposals + [Proposal(r, actor, price, Submitted)];
      }
      MarkInvitationAccepted(r, actor);
      reply := Done;
    }

    method MarkInvitationAccepted(r: nat, provider: nat)
      modifies this`invitations
      ensures invitations == MarkAccepted(old(invitations), r, provider)
    {
      for k := 0 to |invitations|
        invariant |invitations| == |old(invitations)|
        invariant forall x :: 0 <= x < k ==> invitations[x] == MarkAccepted(old(invitations), r, provider)[x]
        invariant forall x :: k <= x < |invitations| ==> invitations[x] == old(invitations)[x]
      {
        var row := invitations[k];
        if row.request == r && row.provider == provider && row.status != Accepted {
          invitations := invitations[k := row.(status := Accepted)];
        }
      }
    }

    method SelectProposal(r: nat, p: nat, actor: nat, profile: Option<bool>, percent: Option<nat>,
                          now: nat) returns (reply: Reply)
      requires Valid() && (percent.Some? ==> 20 <= percent.value <= 30)
      modifies this
      ensures (Rows(), reply) == Do(old(Rows()), now, Select(actor, r, p, profile, percent.GetOr(depositPercent),
                                                             feeBps))
    {
      if r >= |requests| {
        return Refused(NotFound);
      }
      var read, job := requests[r], FindJob(jobs, r);
      if read.customer != actor {
        return Refused(Forbidden);
      }
      var status := RefreshRequestStatusIfExpired(r, now);
      if read.selected.Some? && read.selected.value != p {
        return Refused(Conflict);
      }
      if read.selected == Some(p) && job.Some? {
        return Chosen(job.value, p, true);
      }
      if status != Open {
        return Refused(Conflict);
      }
      if p >= |proposals| || proposals[p].request != r {
        return Refused(NotFound);
      }
      var proposal := proposals[p];
      if proposal.status != Submitted && proposal.status != Selected {
        return Refused(Conflict);
      }
      if profile.None? || !profile.value {
        return Refused(Conflict);
      }
      if proposal.price <= 0 {
        return Refused(BadRequest);
      }
      var deposit := ComputeDepositSplit(proposal.price, percent.GetOr(depositPercent), feeBps);
      reply := CloseRequest(Selection(r, p, actor, proposal.provider, proposal.price, deposit), now);
    }

    /** The transaction of `selectProposal`. */
    method CloseRequest(t: Selection, now: nat) returns (reply: Reply)
      requires t.request < |requests| && t.proposal < |proposals|
      modifies this
      ensures (Rows(), reply) == CommitSelect(old(Rows()), t, now)
    {
      var existing := FindJob(jobs, t.request);
      if existing.Some? {
        ExpireWaiting({t.request});
        assert invitations == CommitSelect(old(Rows()), t, now).0.invitations;
        return Chosen(existing.value, t.proposal, true);
      }
      for k := 0 to |proposals|
        invariant |proposals| == |old(proposals)| && requests == old(requests) && invitations == old(invitations)
                  && jobs == old(jobs)
        invariant forall x :: 0 <= x < k ==> proposals[x] == RejectOthers(old(proposals), t.request, t.proposal)[x]
        invariant forall x :: k <= x < |proposals| ==> proposals[x] == old(proposals)[x]
      {
        if proposals[k].request == t.request && k != t.proposal {
          proposals := proposals[k := proposals[k].(status := Rejected)];
        }
      }
      assert proposals == RejectOthers(old(proposals), t.request, t.proposal);
      proposals := proposals[t.proposal := proposals[t.proposal].(status := Selected)];
      requests := requests[t.request := requests[t.request].(status := Closed, selected := Some(t.proposal))];
      ExpireWaiting({t.request});
      assert invitations == CommitSelect(old(Rows()), t, now).0.invitations;
      jobs := jobs + [JobRow(t.request, t.proposal, t.client, t.provider, t.price, t.deposit, now)];
      reply := Chosen(|jobs| - 1, t.proposal, false);
    }
  }
}
