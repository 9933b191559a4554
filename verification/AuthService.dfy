/** AuthService in its own, step-by-step form; `issueTokens` is its own method because awaits precede it. */
module AuthService {
  import opened Common
  import opened Sessions

  class AuthService {
    var sessions: seq<Session>
    var inactive: set<nat>
    var ids: nat
    ghost var permits: seq<Permit>
    ghost var issued: seq<Claims>

    constructor ()
      ensures State() == EMPTY
    {
      sessions, inactive, ids, permits, issued := [], {}, 0, [], [];
    }

    ghost function State(): Auth
      reads this
    {
      Auth(sessions, inactive, ids, permits, issued)
    }

    /** `session.updateMany` with a filter, setting revokedAt where it is null. */
    method RevokeWhere(filter: Step)
      modifies this`sessions
      ensures State() == Revoke(old(State()), filter)
    {
      ghost var goal := Revoke(State(), filter).sessions;
      for n := 0 to |sessions|
        invariant |sessions| == |goal|
        invariant forall k :: n <= k < |sessions| ==> sessions[k] == old(sessions)[k]
        invariant forall k :: 0 <= k < n ==> sessions[k] == goal[k]
      {
        if Selected(filter, n, sessions[n]) && !sessions[n].revoked {
          sessions := sessions[n := sessions[n].(revoked := true)];
        }
      }
      assert sessions == goal;
    }

    method Logout(presented: Option<Text>)
      modifies this`sessions
      ensures State() == Do(old(State()), Step.Logout(presented))
    {
      if presented.None? {
        assert sessions == Revoke(State(), Step.Logout(presented)).sessions;
        return;
      }
      RevokeWhere(Step.Logout(presented));
    }

    method LogoutAll(user: nat)
      modifies this`sessions
      ensures State() == Do(old(State()), Step.LogoutAll(user))
    {
      RevokeWhere(Step.LogoutAll(user));
    }

    method RevokeSession(user: nat, sid: nat)
      modifies this`sessions
      ensures State() == Do(old(State()), Step.RevokeSession(user, sid))
    {
      RevokeWhere(Step.RevokeSession(user, sid));
    }

    method RevokeSessionChain(sid: nat, user: nat)
      requires sid < |sessions| && sessions[sid].user == user
      modifies this`sessions
      ensures sessions == old(sessions)[sid := old(sessions)[sid].(revoked := true)]
    {
      RevokeWhere(Step.RevokeSession(user, sid));
    }

    /** `updateUserStatus` of the admin operations: the user row, then the sessions of a suspended user. */
    method UpdateUserStatus(user: nat, active: bool)
      modifies this`inactive, this`sessions
      ensures var suspended := Do(old(State()), SetActive(user, active));
              State() == if active then suspended else Do(suspended, Step.LogoutAll(user))
    {
      if active {
        inactive := inactive - {user};
      } else {
        inactive := inactive + {user};
        LogoutAll(user);
      }
    }

    /** `issueTokens` from the signing on: for the session of an open permit. */
    method IssueTokens(sid: nat, ghost permit: nat, at: nat) returns (token: Text)
      requires Open(State(), permit) && permits[permit].sid == sid
      modifies this
      ensures State() == Do(old(State()), Finish(permit, at))
      ensures token == Signed(TokenFor(old(State()), sid, at))
    {
      var claims := Claims(sessions[sid].user, sid, sessions[sid].device, ids, at + REFRESH_LIFETIME);
      token := Signed(claims);
      ids := ids + 1;
      sessions := sessions[sid := sessions[sid].(refreshTokenHash := Digest(token), revoked := false)];
      issued, permits := issued + [claims], permits[permit := permits[permit].(finished := true)];
    }

    /** `login` after the password check: a session with a placeholder hash, then its token. */
    method Login(user: nat, device: string, at: nat) returns (token: Text)
      modifies this
      ensures State() == Whole(old(State()), Step.Login(user, device), at)
    {
      var sid := |sessions|;
      sessions := sessions + [Session(user, device, Digest(Unsigned(ids)), false)];
      ids := ids + 1;
      permits := permits + [Permit(sid, None, false)];
      token := IssueTokens(sid, |permits| - 1, at);
    }

    /** The checks of `refresh`; an accepted token leaves the right to sign the next one. */
    method CheckRefresh(text: Option<Text>, now: nat) returns (sid: Option<nat>)
      requires AuthOk(State())
      modifies this
      ensures State() == Do(old(State()), Step.Refresh(text, now))
      ensures sid.Some? <==> Judge(old(State()), text, now) == Accept
      ensures sid.Some? ==> |permits| == |old(permits)| + 1
      ensures sid.Some? ==> permits[|old(permits)|] == Permit(sid.value, Some(text.value.claims), false)
    {
      if text.None? || text.value.Unsigned? || text.value.claims.exp <= now {
        return None;
      }
      var payload := text.value.claims;
      if payload.sid >= |sessions| {
        return None;
      }
      var session := sessions[payload.sid];
      if session.revoked {
        return None;
      }
      if session.user in inactive || session.user != payload.sub {
        return None;
      }
      if payload.did != session.device {
        RevokeSessionChain(payload.sid, session.user);
        return None;
      }
      if Digest(text.value) != session.refreshTokenHash {
        RevokeSessionChain(payload.sid, session.user);
        return None;
      }
      permits := permits + [Permit(payload.sid, Some(payload), false)];
      return Some(payload.sid);
    }

    /** A refresh that nothing interleaves with. */
    method Refresh(text: Option<Text>, now: nat) returns (token: Option<Text>)
      requires AuthOk(State())
      modifies this
      ensures State() == Whole(old(State()), Step.Refresh(text, now), now)
      ensures token.Some? <==> Judge(old(State()), text, now) == Accept
    {
      token := None;
      var sid := CheckRefresh(text, now);
      if sid.Some? {
        var next := IssueTokens(sid.value, |permits| - 1, now);
        token := Some(next);
      }
    }
  }
}
