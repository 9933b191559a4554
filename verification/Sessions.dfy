/**
 * Refresh-token rotation of auth.service.ts, as values. Issuing tokens writes the session row after the
 * checks that led to it, so a login or refresh is two steps with a permit in between; in an atomic run
 * the two steps follow each other.
 */
module Sessions {
  import opened Common

  const REFRESH_LIFETIME: nat := 604800

  /** What a refresh token says; `jti` comes from a source of unique ids. */
  datatype Claims = Claims(sub: nat, sid: nat, did: string, jti: nat, exp: nat)

  /** A presented text: signed with the refresh secret, or anything else. */
  datatype Text = Signed(claims: Claims) | Unsigned(text: nat)

  /** SHA-256, taken to be injective. */
  datatype Digest = Digest(of: Text)

  datatype Session = Session(user: nat, device: string, refreshTokenHash: Digest, revoked: bool)

  /** The right to sign a token for a session: from a login (`used` is None) or from an accepted refresh. */
  datatype Permit = Permit(sid: nat, used: Option<Claims>, finished: bool)

  /** `ids` is the next unique id; `permits` and `issued` also record the past. */
  datatype Auth = Auth(sessions: seq<Session>, inactive: set<nat>, ids: nat, permits: seq<Permit>, issued: seq<Claims>)

  const EMPTY := Auth([], {}, 0, [], [])

  datatype Verdict = Accept | Refuse | Reuse

  /** The checks of `refresh`, in its order. */
  function Judge(s: Auth, text: Option<Text>, now: nat): Verdict {
    if text.None? || text.value.Unsigned? || text.value.claims.exp <= now then Refuse
    else
      var c := text.value.claims;
      if c.sid >= |s.sessions| then Refuse
      else
        var session := s.sessions[c.sid];
        if session.revoked then Refuse
        else if session.user in s.inactive || session.user != c.sub then Refuse
        else if c.did != session.device then Reuse
        else if Digest(text.value) != session.refreshTokenHash then Reuse
        else Accept
  }

  datatype Step =
    | Login(user: nat, device: string)
    | Refresh(text: Option<Text>, now: nat)
    | Finish(permit: nat, at: nat)
    | Logout(presented: Option<Text>)
    | LogoutAll(owner: nat)
    | RevokeSession(actor: nat, sid: nat)
    | SetActive(target: nat, active: bool)

  /** An `updateMany` that stamps revokedAt on the sessions a filter selects. */
  predicate Selected(step: Step, sid: nat, session: Session) {
    match step
    case Logout(presented) => presented.Some? && session.refreshTokenHash == Digest(presented.value)
    case LogoutAll(owner) => session.user == owner
    case RevokeSession(actor, target) => sid == target && session.user == actor
    case _ => false
  }

  function Revoke(s: Auth, step: Step): (r: Auth)
    ensures |r.sessions| == |s.sessions|
  {
    s.(sessions := seq(|s.sessions|, k requires 0 <= k < |s.sessions| =>
      if Selected(step, k, s.sessions[k]) then s.sessions[k].(revoked := true) else s.sessions[k]))
  }

  predicate Open(s: Auth, permit: nat) {
    permit < |s.permits| && !s.permits[permit].finished && s.permits[permit].sid < |s.sessions|
  }

  function TokenFor(s: Auth, sid: nat, at: nat): Claims
    requires sid < |s.sessions|
  {
    Claims(s.sessions[sid].user, sid, s.sessions[sid].device, s.ids, at + REFRESH_LIFETIME)
  }

  function Do(s: Auth, step: Step): Auth {
    match step
    case Login(user, device) =>
      s.(sessions := s.sessions + [Session(user, device, Digest(Unsigned(s.ids)), false)],
         permits := s.permits + [Permit(|s.sessions|, None, false)], ids := s.ids + 1)
    case Refresh(text, now) =>
      (match Judge(s, text, now)
       case Refuse => s
       case Reuse =>
         var sid := text.value.claims.sid;
         s.(sessions := s.sessions[sid := s.sessions[sid].(revoked := true)])
       case Accept => s.(permits := s.permits + [Permit(text.value.claims.sid, Some(text.value.claims), false)]))
    case Finish(permit, at) =>
      if !Open(s, permit) then s
      else
        var sid := s.permits[permit].sid;
        var token := TokenFor(s, sid, at);
        s.(sessions := s.sessions[sid := s.sessions[sid].(refreshTokenHash := Digest(Signed(token)), revoked := false)],
           ids := s.ids + 1, issued := s.issued + [token],
           permits := s.permits[permit := s.permits[permit].(finished := true)])
    case Logout(_) => Revoke(s, step)
    case LogoutAll(_) => Revoke(s, step)
    case RevokeSession(_, _) => Revoke(s, step)
    case SetActive(target, active) =>
      s.(inactive := if active then s.inactive - {target} else s.inactive + {target})
  }

  /** Any interleaving of logins, refreshes, revocations and their pending writes. */
  function Run(steps: seq<Step>): Auth {
    if steps == [] then EMPTY else Do(Run(steps[..|steps| - 1]), steps[|steps| - 1])
  }

  // ----- what holds in every reachable state -----

  predicate IssuedOk(s: Auth) {
    && (forall j :: 0 <= j < |s.issued| ==>
          && s.issued[j].jti < s.ids && s.issued[j].sid < |s.sessions|
          && s.issued[j].sub == s.sessions[s.issued[j].sid].user
               && s.issued[j].did == s.sessions[s.issued[j].sid].device)
    && (forall i, j :: 0 <= i < j < |s.issued| ==> s.issued[i].jti < s.issued[j].jti)
  }

  /** No later token was issued for the same session. */
  predicate Newest(s: Auth, c: Claims) {
    forall j :: 0 <= j < |s.issued| && s.issued[j].sid == c.sid ==> s.issued[j].jti <= c.jti
  }

  predicate HashesOk(s: Auth) {
    forall k :: 0 <= k < |s.sessions| && s.sessions[k].refreshTokenHash.of.Signed? ==>
      var c := s.sessions[k].refreshTokenHash.of.claims;
      && c in s.issued && c.sid == k
      && Newest(s, c)
  }

  /** A session for which a token was issued holds the digest of an issued token. */
  predicate SignedOk(s: Auth) {
    forall j :: 0 <= j < |s.issued| && s.issued[j].sid < |s.sessions| ==>
        s.sessions[s.issued[j].sid].refreshTokenHash.of.Signed?
  }

  predicate PermitsOk(s: Auth) {
    forall p :: 0 <= p < |s.permits| ==>
      && s.permits[p].sid < |s.sessions|
      && (s.permits[p].used.Some? ==>
            && s.permits[p].used.value in s.issued && s.permits[p].used.value.sid == s.permits[p].sid
            && (s.permits[p].finished ==>
                  s.sessions[s.permits[p].sid].refreshTokenHash != Digest(Signed(s.permits[p].used.value))))
  }

  predicate AuthOk(s: Auth) {
    IssuedOk(s) && HashesOk(s) && SignedOk(s) && PermitsOk(s)
  }

  lemma FinishKeepsIssued(s: Auth, permit: nat, at: nat)
    requires AuthOk(s) && Open(s, permit)
    ensures IssuedOk(Do(s, Finish(permit, at))) && SignedOk(Do(s, Finish(permit, at)))
  {
  }

  lemma FinishKeepsHashes(s: Auth, permit: nat, at: nat)
    requires AuthOk(s) && Open(s, permit)
    ensures HashesOk(Do(s, Finish(permit, at))) && PermitsOk(Do(s, Finish(permit, at)))
  {
    var t := Do(s, Finish(permit, at));
    var token := TokenFor(s, s.permits[permit].sid, at);
    assert t.issued[|s.issued|] == token;
    assert forall c :: c in s.issued ==> c in t.issued && c != token;
  }

  lemma FinishIsOk(s: Auth, permit: nat, at: nat)
    requires AuthOk(s)
    ensures AuthOk(Do(s, Finish(permit, at)))
  {
    if Open(s, permit) {
      FinishKeepsIssued(s, permit, at);
      FinishKeepsHashes(s, permit, at);
    }
  }

  lemma LoginIsOk(s: Auth, user: nat, device: string)
    requires AuthOk(s)
    ensures AuthOk(Do(s, Login(user, device)))
  {
  }

  lemma RefreshIsOk(s: Auth, text: Option<Text>, now: nat)
    requires AuthOk(s)
    ensures AuthOk(Do(s, Refresh(text, now)))
  {
  }

  lemma RevokeIsOk(s: Auth, step: Step)
    requires AuthOk(s)
    ensures AuthOk(Revoke(s, step))
  {
    hide Selected;
    var t := Revoke(s, step);
    assert forall k :: 0 <= k < |s.sessions| ==> t.sessions[k] == s.sessions[k].(revoked := t.sessions[k].revoked);
    hide Revoke;
  }

  lemma DoIsOk(s: Auth, step: Step)
    requires AuthOk(s)
    ensures AuthOk(Do(s, step))
  {
    hide Revoke;
    match step
    case Login(user, device) => LoginIsOk(s, user, device);
    case Refresh(text, now) => RefreshIsOk(s, text, now);
    case Finish(permit, at) => FinishIsOk(s, permit, at);
    case SetActive(_, _) =>
    case _ => RevokeIsOk(s, step);
  }

  lemma {:induction false} RunIsOk(steps: seq<Step>)
    ensures AuthOk(Run(steps))
  {
    if steps != [] {
      RunIsOk(steps[..|steps| - 1]);
      DoIsOk(Run(steps[..|steps| - 1]), steps[|steps| - 1]);
    }
  }

  /**
   * In any interleaving, a token is accepted exactly when it was issued here, no later one was issued for
   * its session, it has not expired, the session is not revoked and its user is active.
   */
  lemma AcceptedIff(steps: seq<Step>, c: Claims, now: nat)
    ensures var s := Run(steps);
            Judge(s, Some(Signed(c)), now) == Accept
            <==> (c in s.issued && Newest(s, c) && now < c.exp && c.sid < |s.sessions|
                  && !s.sessions[c.sid].revoked && s.sessions[c.sid].user !in s.inactive)
  {
    RunIsOk(steps);
    var s := Run(steps);
    if c in s.issued && Newest(s, c) {
      NewestIsCurrent(s, c);
    }
  }

  lemma NewestIsCurrent(s: Auth, c: Claims)
    requires AuthOk(s) && c in s.issued && Newest(s, c)
    ensures c.sid < |s.sessions| && s.sessions[c.sid].refreshTokenHash == Digest(Signed(c))
  {
    var j :| 0 <= j < |s.issued| && s.issued[j] == c;
    var current := s.sessions[c.sid].refreshTokenHash.of.claims;
    var k :| 0 <= k < |s.issued| && s.issued[k] == current;
    assert current.jti == c.jti;
  }

  /**
   * In any interleaving no refresh that used an accepted token has finished; so a token is accepted once
   * more only while its first use is pending.
   */
  lemma AcceptedIsUnspent(steps: seq<Step>, c: Claims, now: nat)
    requires Judge(Run(steps), Some(Signed(c)), now) == Accept
    ensures var s := Run(steps);
            forall p :: 0 <= p < |s.permits| && s.permits[p].used == Some(c) ==> !s.permits[p].finished
  {
    RunIsOk(steps);
  }

  /**
   * In any interleaving: presenting an issued token that is not the session's current one leaves the
   * session revoked iff it already was or the user is active and the token has not expired.
   */
  lemma ReplayRevokes(steps: seq<Step>, c: Claims, now: nat)
    requires c in Run(steps).issued
    requires c.sid < |Run(steps).sessions| && Run(steps).sessions[c.sid].refreshTokenHash != Digest(Signed(c))
    ensures var s := Run(steps);
            var t := Do(s, Refresh(Some(Signed(c)), now));
            && t.permits == s.permits
            && (t.sessions[c.sid].revoked
                <==> (s.sessions[c.sid].revoked || (s.sessions[c.sid].user !in s.inactive && now < c.exp)))
  {
    RunIsOk(steps);
  }

  /** So the token of a finished refresh, presented again in time for an active user, ends the session. */
  lemma UsedTokenRevokes(steps: seq<Step>, permit: nat, now: nat)
    requires var s := Run(steps);
             permit < |s.permits| && s.permits[permit].finished && s.permits[permit].used.Some?
                 && s.permits[permit].sid < |s.sessions|
    ensures var s := Run(steps);
            var sid, c := s.permits[permit].sid, s.permits[permit].used.value;
            Do(s, Refresh(Some(Signed(c)), now)).sessions[sid].revoked
            <==> s.sessions[sid].revoked || (s.sessions[sid].user !in s.inactive && now < c.exp)
  {
    RunIsOk(steps);
    ReplayRevokes(steps, Run(steps).permits[permit].used.value, now);
  }

  /** In any interleaving, a revoked session comes back exactly by a pending token write for it. */
  lemma RevivedIff(s: Auth, step: Step, sid: nat)
    requires sid < |s.sessions| && s.sessions[sid].revoked
    ensures |Do(s, step).sessions| >= |s.sessions|
    ensures !Do(s, step).sessions[sid].revoked
       <==> (step.Finish? && Open(s, step.permit) && s.permits[step.permit].sid == sid)
  {
  }

  // ----- atomic runs: a token write directly follows the checks that allowed it -----

  function Whole(s: Auth, step: Step, at: nat): Auth {
    var t := Do(s, step);
    if |t.permits| > |s.permits| then Do(t, Finish(|s.permits|, at)) else t
  }

  datatype Call = Call(step: Step, at: nat)

  function Calls(s: Auth, calls: seq<Call>): Auth {
    if calls == [] then s else Whole(Calls(s, calls[..|calls| - 1]), calls[|calls| - 1].step, calls[|calls| - 1].at)
  }

  /** Atomic runs are among the interleavings, so what holds of those holds of these. */
  lemma {:induction false} CallsAreRuns(calls: seq<Call>) returns (steps: seq<Step>)
    ensures Calls(EMPTY, calls) == Run(steps)
  {
    steps := [];
    if calls != [] {
      var front := CallsAreRuns(calls[..|calls| - 1]);
      var last := calls[|calls| - 1];
      steps := front + [last.step];
      assert steps[..|front|] == front;
      if |Run(steps).permits| > |Run(front).permits| {
        var more := steps + [Finish(|Run(front).permits|, last.at)];
        assert more[..|steps|] == steps;
        steps := more;
      }
    }
  }

  predicate UsedOnce(s: Auth) {
    && (forall p :: 0 <= p < |s.permits| ==> s.permits[p].finished)
    && (forall p, q :: 0 <= p < q < |s.permits| && s.permits[p].used.Some? ==> s.permits[p].used != s.permits[q].used)
  }

  lemma StepUsesOnce(s: Auth, step: Step)
    requires AuthOk(s) && UsedOnce(s)
    ensures var t := Do(s, step);
            && |t.sessions| >= |s.sessions|
            && (t.permits == s.permits
                || (t.permits[..|t.permits| - 1] == s.permits && !t.permits[|s.permits|].finished
                    && forall p :: 0 <= p < |s.permits| && s.permits[p].used.Some? ==>
                         s.permits[p].used != t.permits[|s.permits|].used))
  {
  }

  lemma WholeIsOk(s: Auth, step: Step, at: nat)
    requires AuthOk(s) && UsedOnce(s)
    ensures AuthOk(Whole(s, step, at)) && UsedOnce(Whole(s, step, at))
    ensures |Whole(s, step, at).sessions| >= |s.sessions|
  {
    hide AuthOk;
    StepUsesOnce(s, step);
    DoIsOk(s, step);
    FinishIsOk(Do(s, step), |s.permits|, at);
    NewPermitIsOpen(s, step);
    var t := Do(s, step);
    hide Judge;
    hide Revoke;
    assert forall p :: 0 <= p < |s.permits| ==> t.permits[p] == s.permits[p];
  }

  lemma NewPermitIsOpen(s: Auth, step: Step)
    requires AuthOk(s)
    ensures |Do(s, step).permits| > |s.permits| ==> Open(Do(s, step), |s.permits|)
  {
  }

  lemma {:induction false} CallsAreOk(s: Auth, calls: seq<Call>)
    requires AuthOk(s) && UsedOnce(s)
    ensures AuthOk(Calls(s, calls)) && UsedOnce(Calls(s, calls)) && |Calls(s, calls).sessions| >= |s.sessions|
  {
    if calls != [] {
      var last := calls[|calls| - 1];
      CallsAreOk(s, calls[..|calls| - 1]);
      hide AuthOk;
      hide UsedOnce;
      WholeIsOk(Calls(s, calls[..|calls| - 1]), last.step, last.at);
    }
  }

  /** In atomic runs no refresh token is ever accepted twice. */
  lemma AcceptedOnce(calls: seq<Call>)
    ensures var s := Calls(EMPTY, calls);
            forall p, q :: 0 <= p < q < |s.permits| && s.permits[p].used.Some? ==>
                s.permits[p].used != s.permits[q].used
  {
    CallsAreOk(EMPTY, calls);
  }

  lemma WholeKeepsRevoked(s: Auth, step: Step, at: nat, sid: nat)
    requires AuthOk(s) && UsedOnce(s) && sid < |s.sessions| && s.sessions[sid].revoked
    ensures var t := Whole(s, step, at);
            && |t.sessions| >= |s.sessions| && t.sessions[sid].revoked && |t.permits| >= |s.permits|
            && (forall p :: 0 <= p < |s.permits| ==> t.permits[p].sid == s.permits[p].sid)
            && (forall p :: |s.permits| <= p < |t.permits| ==> t.permits[p].sid != sid)
  {
  }

  /** In atomic runs a revoked session stays revoked, and nothing signs a token for it any more. */
  lemma {:induction false} RevokedForever(calls: seq<Call>, more: seq<Call>, sid: nat)
    requires sid < |Calls(EMPTY, calls).sessions| && Calls(EMPTY, calls).sessions[sid].revoked
    ensures var s, t := Calls(EMPTY, calls), Calls(Calls(EMPTY, calls), more);
            && |t.sessions| >= |s.sessions| && t.sessions[sid].revoked && |t.permits| >= |s.permits|
            && (forall p :: |s.permits| <= p < |t.permits| ==> t.permits[p].sid != sid)
  {
    if more != [] {
      var front := more[..|more| - 1];
      RevokedForever(calls, front, sid);
      CallsAreOk(EMPTY, calls);
      CallsAreOk(Calls(EMPTY, calls), front);
      hide AuthOk;
      hide UsedOnce;
      WholeKeepsRevoked(Calls(Calls(EMPTY, calls), front), more[|more| - 1].step, more[|more| - 1].at, sid);
    }
  }

  // ----- what the split runs allow: two concrete runs -----

  const ONE_LOGIN := Do(Do(EMPTY, Login(0, "d")), Finish(0, 0))
  const FIRST_TOKEN := Claims(0, 0, "d", 1, REFRESH_LIFETIME)

  /** Two refreshes race with one token: both are accepted. */
  lemma RacingRefreshes()
    ensures var s := Do(Do(ONE_LOGIN, Refresh(Some(Signed(FIRST_TOKEN)), 1)), Refresh(Some(Signed(FIRST_TOKEN)), 1));
            |s.permits| == 3 && s.permits[1].used == s.permits[2].used == Some(FIRST_TOKEN)
  {
    var a := Do(EMPTY, Login(0, "d"));
    assert ONE_LOGIN.sessions == [Session(0, "d", Digest(Signed(FIRST_TOKEN)), false)];
  }

  /** A logout of all sessions between the checks and the write of a refresh is undone. */
  lemma LogoutDuringRefresh()
    ensures var s := Do(Do(ONE_LOGIN, Refresh(Some(Signed(FIRST_TOKEN)), 1)), LogoutAll(0));
            |s.sessions| == 1 && s.sessions[0].revoked && !Do(s, Finish(1, 2)).sessions[0].revoked
  {
    assert ONE_LOGIN.sessions == [Session(0, "d", Digest(Signed(FIRST_TOKEN)), false)];
  }
}
