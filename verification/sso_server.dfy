/** Logout, login and step-up transactions as they run on the tables. */
module SsoServer {
  import opened Outcome
  import opened Sso
  import S = StepUp
  import T = SsoTables

  /** The logout's event, in the form logouts are recorded. */
  predicate OnRecord(events: map<EventKey, Event>, c: Claims, client: string, jti: string, retain: int) {
    EventKey(c.issuer, client, jti) in events && events[EventKey(c.issuer, client, jti)] == EventOf(c, retain)
  }

  lemma RecordedIsFence(s: State, id: Identity, c: Claims, jti: string, retain: int, now: int)
    requires OnRecord(s.events, c, id.client, jti, retain) && retain >= Unix(now) && !Fenced(s, id, now) &&
      c.issuer == id.issuer
    ensures !RevocationScope(c, id.subject, id.sid, Unix(id.issuedAt))
  {
    ScopeIsFence(c, retain, id.subject, id.sid, Unix(id.issuedAt));
  }

  lemma LogoutIsStep(s: State, c: Claims, client: string, now: int)
    ensures Logout(s, c, client, now).Some? <==> T.MayCommit(s, OpLogout(c, client), now)
    ensures var r := Logout(s, c, client, now); r.Some? ==> T.Follows(s, OpLogout(c, client), now, r.value)
  {
    T.StepFollows(s, OpLogout(c, client), now);
    hide Logout, T.Follows, T.MayCommit;
  }

  class Server {
    var settings: Settings
    var users: map<UserId, User>
    var cutoffs: map<Account, int>
    var sessions: map<SessionId, Session>
    var devices: map<DeviceId, Device>
    var events: map<EventKey, Event>
    var challenges: map<S.ChallengeId, S.Challenge>

    function Accounts(): State
      reads this
    {
      State(settings, users, cutoffs, sessions, devices, events)
    }

    function Snapshot(): S.State
      reads this
    {
      S.State(Accounts(), challenges)
    }

    constructor (settings: Settings)
      ensures Snapshot() == S.State(State(settings, map[], map[], map[], map[], map[]), map[])
    {
      this.settings, users, cutoffs, sessions, devices, events, challenges := settings, map[], map[], map[], map[],
        map[], map[];
    }

    /** ApplySSOLogout: prune, admit once, revoke sessions, then the devices derived from them. */
    method ApplyLogout(c: Claims, client: string, now: int) returns (ok: bool)
      modifies `events, `sessions, `devices
      ensures ok == Logout(old(Accounts()), c, client, now).Some?
      ensures Accounts() == After(old(Accounts()), Logout(old(Accounts()), c, client, now))
      ensures ok == T.MayCommit(old(Accounts()), OpLogout(c, client), now)
      ensures ok ==> T.Follows(old(Accounts()), OpLogout(c, client), now, Accounts())
    {
      LogoutIsStep(Accounts(), c, client, now);
      hide RevocationScope, Unix, T.Follows, T.MayCommit, Apply;
      if now >= c.replayUntil {
        return false;
      }
      if settings.issuer != c.issuer || settings.client != client {
        return false;
      }
      ghost var before := Accounts();
      var saved := events;
      var retain := now + LOGIN_LIFETIME;
      if c.replayUntil > retain {
        retain := c.replayUntil;
      }
      events := map k | k in events && events[k].retainUntil >= Unix(now) :: events[k];
      assert events == Pruned(before, now);
      var key := EventKey(c.issuer, client, c.jti);
      if key in events {
        events := saved;
        return false;
      }
      events := events[key := Event(c.subject, c.sid, Unix(c.issuedAt), Unix(retain) + 1)];
      sessions := map x | x in sessions ::
        if InScope(c, client, sessions[x]) then sessions[x].(revoked := true) else sessions[x];
      assert sessions == RevokedSessions(before, c, client);
      devices := map d | d in devices ::
        if DerivedInScope(sessions, c, client, devices[d]) then devices[d].(revoked := true) else devices[d];
      return true;
    }

    /** MintSSOSession: the session it makes is live and in the scope of no logout on record. */
    method MintSession(session: SessionId, user: UserId, id: Identity, sessionExpires: int, now: int) returns (ok: bool)
      modifies `sessions
      ensures ok == Mint(old(Accounts()), session, user, id, sessionExpires, now).Some?
      ensures Accounts() == After(old(Accounts()), Mint(old(Accounts()), session, user, id, sessionExpires, now))
      ensures ok == T.MayCommit(old(Accounts()), OpMint(session, user, id, now, sessionExpires), now)
      ensures ok ==> session in Live(Accounts()) && session !in old(sessions)
      ensures ok ==>
        forall c: Claims, jti, retain :: OnRecord(events, c, id.client, jti, retain) && retain >= Unix(now) ==>
        !InScope(c, id.client, sessions[session])
    {
      T.StepFollows(Accounts(), OpMint(session, user, id, now, sessionExpires), now);
      hide Fenced, T.Follows, T.MayCommit;
      if id.issuer == "" || id.client == "" || id.subject == "" || now >= id.expires {
        return false;
      }
      if !IdentityOk(Accounts(), user, id, now) {
        return false;
      }
      if session in sessions {
        return false;
      }
      ghost var before := Accounts();
      sessions := sessions[session :=
        Session(user, id.issuer, id.client, id.subject, id.sid, Unix(id.issuedAt), id.appAdmin, sessionExpires, false)];
      forall c: Claims, jti, retain | OnRecord(events, c, id.client, jti, retain) && retain >= Unix(now)
        ensures !InScope(c, id.client, sessions[session])
      {
        if c.issuer == id.issuer {
          RecordedIsFence(before, id, c, jti, retain, now);
        }
      }
      return true;
    }

    /** requireSSOStepUp without a grant */
    method AskStepUp(session: SessionId, id: S.ChallengeId, action: string, scope: S.Scope, allowed: bool, now: int)
        returns (asked: bool)
      modifies `challenges
      ensures var r := S.Ask(old(Snapshot()), session, id, action, scope, allowed, now);
        asked == r.Some? && Snapshot() == if asked then r.value else old(Snapshot())
    {
      hide Unix;
      var pending := false;
      var ids := challenges.Keys;
      while ids != {}
        invariant ids <= challenges.Keys
        invariant pending == exists k :: k in challenges.Keys - ids && S.Pending(Snapshot(), k, session, now)
        decreases ids
      {
        var k :| k in ids;
        if challenges[k].session == session && challenges[k].started && challenges[k].expires > Unix(now) {
          pending := true;
        }
        assert challenges.Keys - (ids - {k}) == challenges.Keys - ids + {k};
        ids := ids - {k};
      }
      if pending || !allowed {
        return false;
      }
      var saved := challenges;
      challenges := map k | k in challenges &&
        !(challenges[k].session == session || challenges[k].expires <= Unix(now)) :: challenges[k];
      if id in challenges {
        challenges := saved;
        return false;
      }
      challenges :=
        challenges[id :=
        S.Challenge(session, action, scope, Unix(now), Unix(now + LOGIN_LIFETIME), false, false, "", 0)];
      return true;
    }

    /** CompleteSSOStepUp */
    method CompleteStepUp(session: SessionId, id: S.ChallengeId, identity: Identity, authTime: int, now: int)
        returns (ok: bool)
      modifies `challenges
      ensures var r := S.Complete(old(Snapshot()), session, id, identity, authTime, now);
        ok == r.Some? && Snapshot() == if ok then r.value else old(Snapshot())
    {
      hide Fenced, IdentityOk, Unix;
      if session !in sessions {
        return false;
      }
      var row := sessions[session];
      if identity.issuer != row.issuer || identity.client != row.client || identity.subject != row.subject ||
          now >= identity.expires
      {
        return false;
      }
      if id !in challenges || challenges[id].session != session {
        return false;
      }
      var challenge := challenges[id];
      if challenge.scope.AdminScope? && !identity.appAdmin {
        return false;
      }
      if !S.LiveSession(Snapshot(), session, now, challenge.scope) || !IdentityOk(Accounts(), row.user, identity, now) {
        return false;
      }
      if !challenge.started || challenge.verified || challenge.expires <= Unix(now) ||
          challenge.created > Unix(authTime)
      {
        return false;
      }
      var minute := Unix(now + 60 * SECOND);
      challenges :=
        challenges[id := challenge.(verified := true, proofSid := identity.sid, proofIat := Unix(identity.issuedAt),
        expires := if challenge.expires < minute then challenge.expires else minute)];
      return true;
    }

    /** consumeSSOStepUp: the challenge is deleted first, and restored when the session or proof fails. */
    method ConsumeStepUp(session: SessionId, id: S.ChallengeId, action: string, scope: S.Scope,
        now: int) returns (ok: bool)
      modifies `challenges
      ensures var r := S.Consume(old(Snapshot()), session, id, action, scope, now);
        ok == r.Some? && Snapshot() == if ok then r.value else old(Snapshot())
    {
      hide Fenced, IdentityOk, Unix;
      if id !in challenges || challenges[id].session != session || challenges[id].action != action ||
        challenges[id].scope != scope
        || !challenges[id].verified || challenges[id].expires <= Unix(now) {
        return false;
      }
      var saved, proof := challenges, challenges[id];
      challenges := challenges - {id};
      if !S.LiveSession(Snapshot(), session, now, scope) {
        challenges := saved;
        return false;
      }
      var identity := S.ProvenIdentity(sessions[session], proof);
      if !IdentityOk(Accounts(), sessions[session].user, identity, now) {
        challenges := saved;
        return false;
      }
      return true;
    }
  }
}
