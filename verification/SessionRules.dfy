/**
 * What the calls on sessions promise: which sessions each revokes, which token it issues, and what is
 * accepted after.
 */
module SessionRules {
  import opened Common
  import opened Sessions

  /** Nothing changes but that sessions may be revoked. */
  predicate OnlyRevokes(s: Auth, t: Auth) {
    && t == s.(sessions := t.sessions) && |t.sessions| == |s.sessions|
    && forall k :: 0 <= k < |s.sessions| ==> t.sessions[k].(revoked := s.sessions[k].revoked) == s.sessions[k]
  }

  /** The verdict on every token of the session at every time is the same. */
  ghost predicate SameVerdicts(s: Auth, t: Auth, sid: nat) {
    forall x: Claims, now: nat :: x.sid == sid ==> Judge(t, Some(Signed(x)), now) == Judge(s, Some(Signed(x)), now)
  }

  /** No token of the session is accepted or taken for a reuse at any time. */
  ghost predicate Shut(t: Auth, sid: nat) {
    forall x: Claims, now: nat :: x.sid == sid ==> Judge(t, Some(Signed(x)), now) == Refuse
  }

  predicate IsCurrent(s: Auth, c: Claims) {
    c.sid < |s.sessions| && s.sessions[c.sid].refreshTokenHash == Digest(Signed(c))
  }

  lemma RevokedIsShut(t: Auth, sid: nat)
    requires sid < |t.sessions| && t.sessions[sid].revoked
    ensures Shut(t, sid)
  {
  }

  lemma UntouchedIsSame(s: Auth, t: Auth, sid: nat)
    requires OnlyRevokes(s, t) && (sid < |s.sessions| ==> t.sessions[sid].revoked == s.sessions[sid].revoked)
    ensures SameVerdicts(s, t, sid)
  {
    if sid < |s.sessions| {
      assert t.sessions[sid].(revoked := s.sessions[sid].revoked) == s.sessions[sid];
    }
  }

  // ----- revocations -----

  /** A logout revokes exactly the sessions with the digest of the presented token; without a token, none. */
  lemma LogoutRule(s: Auth, presented: Option<Text>)
    ensures var t := Do(s, Logout(presented));
            && OnlyRevokes(s, t)
            && (presented == None ==> t == s)
            && (forall k :: 0 <= k < |s.sessions| && presented != None ==>
                  (t.sessions[k].revoked
                   <==> s.sessions[k].revoked || s.sessions[k].refreshTokenHash == Digest(presented.value)))
  {
    var t := Do(s, Logout(presented));
    if presented == None {
      assert t.sessions == s.sessions;
    }
  }

  /** A logout everywhere revokes exactly the sessions of its user. */
  lemma LogoutAllRule(s: Auth, owner: nat)
    ensures var t := Do(s, LogoutAll(owner));
            && OnlyRevokes(s, t)
            && (forall k :: 0 <= k < |s.sessions| ==>
                  (t.sessions[k].revoked <==> s.sessions[k].revoked || s.sessions[k].user == owner))
  {
  }

  /** Revoking one session revokes it for its own user, and nothing for anybody else. */
  lemma RevokeSessionRule(s: Auth, actor: nat, sid: nat)
    ensures var t := Do(s, RevokeSession(actor, sid));
            && OnlyRevokes(s, t)
            && (forall k :: 0 <= k < |s.sessions| ==>
                  (t.sessions[k].revoked
                   <==> s.sessions[k].revoked || (k == sid && s.sessions[k].user == actor)))
  {
  }

  /** Suspending or reactivating concerns the one user only. */
  lemma SetActiveRule(s: Auth, target: nat, active: bool)
    ensures var t := Do(s, SetActive(target, active));
            && t == s.(inactive := t.inactive)
            && (forall user: nat ::
                  user in t.inactive <==> if user == target then !active else user in s.inactive)
  {
  }

  /**
   * In every interleaving: logging out with a session's current token shuts that session and leaves the verdict on
   * every token of every other session; logging out with any other token changes nothing.
   */
  lemma LogoutShutsItsSession(steps: seq<Step>, c: Claims)
    ensures var s := Run(steps);
            var t := Do(s, Logout(Some(Signed(c))));
            if IsCurrent(s, c) then
              && t.sessions[c.sid].revoked && Shut(t, c.sid)
              && (forall sid: nat :: sid != c.sid ==> SameVerdicts(s, t, sid))
            else t == s
  {
    RunIsOk(steps);
    var s := Run(steps);
    var t := Do(s, Logout(Some(Signed(c))));
    LogoutRule(s, Some(Signed(c)));
    assert forall k :: 0 <= k < |s.sessions| && s.sessions[k].refreshTokenHash == Digest(Signed(c)) ==> c.sid == k;
    if IsCurrent(s, c) {
      RevokedIsShut(t, c.sid);
      forall sid: nat | sid != c.sid ensures SameVerdicts(s, t, sid) {
        UntouchedIsSame(s, t, sid);
      }
    } else {
      assert t.sessions == s.sessions by {
        forall k | 0 <= k < |s.sessions| ensures t.sessions[k] == s.sessions[k] {
          assert t.sessions[k].(revoked := s.sessions[k].revoked) == s.sessions[k];
        }
      }
    }
  }

  /** Logging out everywhere shuts every session of the user, and leaves every verdict on anybody else's tokens. */
  lemma LogoutAllShuts(s: Auth, owner: nat)
    ensures var t := Do(s, LogoutAll(owner));
            && OnlyRevokes(s, t)
            && (forall sid: nat :: sid < |s.sessions| && s.sessions[sid].user == owner ==>
                  t.sessions[sid].revoked && Shut(t, sid))
            && (forall sid: nat :: sid < |s.sessions| && s.sessions[sid].user != owner ==>
                  t.sessions[sid] == s.sessions[sid] && SameVerdicts(s, t, sid))
  {
    var t := Do(s, LogoutAll(owner));
    LogoutAllRule(s, owner);
    forall sid: nat | sid < |s.sessions|
      ensures if s.sessions[sid].user == owner then Shut(t, sid) else SameVerdicts(s, t, sid)
    {
      if s.sessions[sid].user == owner {
        RevokedIsShut(t, sid);
      } else {
        UntouchedIsSame(s, t, sid);
      }
    }
  }

  /** Revoking a session shuts it exactly for its own user, and leaves the verdicts on all others. */
  lemma RevokeSessionShuts(s: Auth, actor: nat, target: nat)
    ensures var t := Do(s, RevokeSession(actor, target));
            && OnlyRevokes(s, t)
            && (target < |s.sessions| && s.sessions[target].user == actor ==>
                  t.sessions[target].revoked && Shut(t, target))
            && (forall sid: nat :: sid < |s.sessions| && (sid != target || s.sessions[sid].user != actor) ==>
                  t.sessions[sid] == s.sessions[sid] && SameVerdicts(s, t, sid))
  {
    var t := Do(s, RevokeSession(actor, target));
    RevokeSessionRule(s, actor, target);
    if target < |s.sessions| && s.sessions[target].user == actor {
      RevokedIsShut(t, target);
    }
    forall sid: nat | sid < |s.sessions| && (sid != target || s.sessions[sid].user != actor)
      ensures SameVerdicts(s, t, sid)
    {
      UntouchedIsSame(s, t, sid);
    }
  }

  /** In atomic runs a logout is final: whatever follows, no token of the session is accepted again. */
  lemma LogoutIsFinal(calls: seq<Call>, c: Claims, at: nat, more: seq<Call>)
    requires IsCurrent(Calls(EMPTY, calls), c)
    ensures var out := calls + [Call(Logout(Some(Signed(c))), at)];
            Shut(Calls(Calls(EMPTY, out), more), c.sid)
  {
    var out := calls + [Call(Logout(Some(Signed(c))), at)];
    assert out[..|calls|] == calls;
    LogoutRule(Calls(EMPTY, calls), Some(Signed(c)));
    hide Do;
    RevokedForever(out, more, c.sid);
    RevokedIsShut(Calls(Calls(EMPTY, out), more), c.sid);
  }

  // ----- tokens -----

  /** The token is new, for the given session, and lives a week. */
  predicate Issues(s: Auth, t: Auth, sid: nat, user: nat, device: string, at: nat) {
    && |t.issued| == |s.issued| + 1 && t.issued[..|s.issued|] == s.issued
    && var token := t.issued[|s.issued|];
       && token.sub == user && token.sid == sid && token.did == device && token.exp == at + 604800
       && forall j :: 0 <= j < |s.issued| ==> s.issued[j].jti < token.jti
  }

  /** Exactly the given token of the session is accepted, until it expires, if the user is active. */
  ghost predicate AcceptsOnly(t: Auth, sid: nat, token: Claims) {
    forall x: Claims, now: nat :: x.sid == sid ==>
      (Judge(t, Some(Signed(x)), now) == Accept
       <==> x == token && now < token.exp && token.sub !in t.inactive)
  }

  /** A login opens a session of its own, whose one token is accepted; every other session is as it was. */
  lemma LoginRule(s: Auth, user: nat, device: string, at: nat)
    requires AuthOk(s)
    ensures var t := Whole(s, Login(user, device), at);
            && |t.sessions| == |s.sessions| + 1 && t.sessions[..|s.sessions|] == s.sessions && t.inactive == s.inactive
            && Issues(s, t, |s.sessions|, user, device, at)
            && t.sessions[|s.sessions|] == Session(user, device, Digest(Signed(t.issued[|s.issued|])), false)
            && AcceptsOnly(t, |s.sessions|, t.issued[|s.issued|])
  {
    var a := Do(s, Login(user, device));
    assert Open(a, |s.permits|);
    assert a.permits[|s.permits|] == Permit(|s.sessions|, None, false);
    assert Whole(s, Login(user, device), at).sessions[..|s.sessions|] == s.sessions;
  }

  /**
   * An accepted refresh replaces the session's token: the new one is accepted for a week, the old one is from then
   * on taken for a reuse until it would have expired, and every other session is as it was.
   */
  lemma RotationRule(s: Auth, c: Claims, at: nat)
    requires AuthOk(s) && Judge(s, Some(Signed(c)), at) == Accept
    ensures var t := Whole(s, Refresh(Some(Signed(c)), at), at);
            && Issues(s, t, c.sid, c.sub, c.did, at) && c.sid < |s.sessions|
            && t.sessions
               == s.sessions[c.sid := s.sessions[c.sid].(refreshTokenHash := Digest(Signed(t.issued[|s.issued|])))]
            && t.inactive == s.inactive
            && AcceptsOnly(t, c.sid, t.issued[|s.issued|])
            && forall now: nat :: Judge(t, Some(Signed(c)), now) == if now < c.exp then Reuse else Refuse
  {
    var a := Do(s, Refresh(Some(Signed(c)), at));
    assert Open(a, |s.permits|);
    assert a.permits[|s.permits|] == Permit(c.sid, Some(c), false);
    assert c in s.issued;
  }

  /**
   * A signed and unexpired token that names an unrevoked session of an active user, but not with its device and
   * current digest.
   */
  predicate IsSuspicious(s: Auth, text: Option<Text>, now: nat) {
    && text.Some? && text.value.Signed? && now < text.value.claims.exp && text.value.claims.sid < |s.sessions|
    && var c := text.value.claims;
       var session := s.sessions[c.sid];
       && !session.revoked && session.user == c.sub && c.sub !in s.inactive
       && (session.device != c.did || session.refreshTokenHash != Digest(text.value))
  }

  /** A refresh that is not accepted issues nothing; it revokes the session that the token names if it is suspicious. */
  lemma RefusalRule(s: Auth, text: Option<Text>, at: nat)
    requires Judge(s, text, at) != Accept
    ensures var t := Whole(s, Refresh(text, at), at);
            && (!IsSuspicious(s, text, at) ==> t == s)
            && (IsSuspicious(s, text, at) ==>
                  var sid := text.value.claims.sid;
                  && t == s.(sessions := s.sessions[sid := s.sessions[sid].(revoked := true)])
                  && Shut(t, sid))
  {
    if IsSuspicious(s, text, at) {
      RevokedIsShut(Whole(s, Refresh(text, at), at), text.value.claims.sid);
    }
  }

  /**
   * Suspending a user shuts all the user's sessions for good: reactivating opens none of them. Nothing changes for
   * anybody else.
   */
  lemma SuspensionShuts(s: Auth, user: nat)
    ensures var t := Do(Do(s, SetActive(user, false)), LogoutAll(user));
            var u := Do(t, SetActive(user, true));
            forall sid: nat :: sid < |s.sessions| ==>
              if s.sessions[sid].user == user then Shut(t, sid) && Shut(u, sid)
              else SameVerdicts(s, t, sid) && SameVerdicts(s, u, sid)
  {
    var a := Do(s, SetActive(user, false));
    var t := Do(a, LogoutAll(user));
    var u := Do(t, SetActive(user, true));
    LogoutAllShuts(a, user);
    SetActiveRule(s, user, false);
    SetActiveRule(t, user, true);
    hide Do;
    hide OnlyRevokes;
    forall sid: nat | sid < |s.sessions|
      ensures if s.sessions[sid].user == user then Shut(t, sid) && Shut(u, sid)
              else SameVerdicts(s, t, sid) && SameVerdicts(s, u, sid)
    {
      if s.sessions[sid].user == user {
        RevokedIsShut(u, sid);
      }
    }
  }
}
