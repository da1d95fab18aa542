/**
 * Sign-on, logout and step-up row by row: when each transaction commits, and what every row holds after it. The
 * transactions, each written over all the tables, are proved to agree with these.
 */
module SsoTables {
  import opened Outcome
  import opened Sso
  import S = StepUp

  function At<K, V>(m: map<K, V>, k: K): Option<V> {
    if k in m then Some(m[k]) else None
  }

  /**
   * Whom a logout token names (its subject and session ID, either possibly empty, and its second of issue): where
   * both it and the login carry a session ID, that session, of that subject if it gives one; else its subject's, as
   * far as issued by then. A token with a session ID alone reaches nobody who has none.
   */
  predicate Names(tokenSubject: string, tokenSid: string, tokenIssued: int, subject: string, sid: string,
      issuedAt: int) {
    if tokenSid != "" && sid != "" then tokenSid == sid && (tokenSubject == "" || tokenSubject == subject)
    else tokenSubject == subject && issuedAt <= tokenIssued && (tokenSid != "" ==> tokenSubject != "")
  }

  lemma NamesIsScope(c: Claims, subject: string, sid: string, issuedAt: int)
    ensures RevocationScope(c, subject, sid, issuedAt) <==>
      Names(c.subject, c.sid, Unix(c.issuedAt), subject, sid, issuedAt)
  {
    hide Unix;
  }

  lemma NamesIsFence(e: Event, subject: string, sid: string, issuedAt: int)
    ensures FencedBy(e, subject, sid, issuedAt) <==> Names(e.subject, e.sid, e.issuedAt, subject, sid, issuedAt)
  {
  }

  // ---- When a transaction commits -----------------------------------------------------------------

  /** An account the directory knows as that subject, not cut off since the login, under the configured issuer. */
  predicate Accepted(s: State, user: UserId, id: Identity) {
    && user in s.users && s.users[user].active && s.users[user].issuer == id.issuer &&
      s.users[user].subject == id.subject
    && (match At(s.cutoffs, Account(id.issuer, id.subject)) case None => true case Some(t) => t < Unix(id.issuedAt))
    && s.settings == Settings(true, id.issuer, id.client)
  }

  /** A logout on record, kept until now at least, names the login. */
  ghost predicate LoggedOut(s: State, id: Identity, now: int) {
    exists k <- s.events ::
      k.issuer == id.issuer && k.client == id.client && Unix(now) <= s.events[k].retainUntil &&
      Names(s.events[k].subject, s.events[k].sid, s.events[k].issuedAt, id.subject, id.sid, Unix(id.issuedAt))
  }

  ghost predicate MayCommit(s: State, op: Op, now: int) {
    match op
    case OpMint(session, user, id, _, _) =>
      && id.issuer != "" && id.client != "" && id.subject != "" && now < id.expires && session !in s.sessions
      && Accepted(s, user, id) && !LoggedOut(s, id, now)
    case OpLogout(c, client) =>
      && now < c.replayUntil && s.settings.issuer == c.issuer && s.settings.client == client
      && (match At(s.events, EventKey(c.issuer, client, c.jti)) case None => true case Some(e) =>
           e.retainUntil < Unix(now))
    case OpPair(d, session) =>
      && session in s.sessions && !s.sessions[session].revoked
      && (d in s.devices ==> s.devices[d].user == s.sessions[session].user)
    case OpEnd(session) => session in s.sessions
    case OpUsers(_) => true
    case OpSettings(_) => true
    case OpCutoffs(_) => true
  }

  // ---- Reference: one row after one committed transaction -----------------------------------------

  /** The logout ends the session. */
  predicate EndsSession(op: Op, row: Session) {
    op.OpLogout? && row.issuer == op.claims.issuer && row.client == op.client &&
      Names(op.claims.subject, op.claims.sid, Unix(op.claims.issuedAt), row.subject, row.sid, row.issuedAt)
  }

  function SessionAfter(s: State, op: Op, x: SessionId): Option<Session> {
    if op.OpMint? && x == op.session then
      var id := op.identity;
      Some(Session(op.user, id.issuer, id.client, id.subject, id.sid, Unix(id.issuedAt), id.appAdmin,
        op.sessionExpires, false))
    else if x !in s.sessions then None
    else
      var row := s.sessions[x];
      Some(row.(revoked := row.revoked || EndsSession(op, row) || (op.OpEnd? && x == op.session)))
  }

  /** A device is ended with the session of its user that authorized it. */
  function DeviceAfter(s: State, op: Op, d: DeviceId): Option<Device> {
    if op.OpPair? && d == op.device && op.session in s.sessions
    then Some(Device(s.sessions[op.session].user, Some(op.session), false))
    else if d !in s.devices then None
    else
      var row := s.devices[d];
      var ends := row.origin.Some? && row.origin.value in s.sessions &&
        s.sessions[row.origin.value].user == row.user && EndsSession(op, s.sessions[row.origin.value]);
      Some(row.(revoked := row.revoked || ends))
  }

  /** A logout is recorded until its token expires or every login begun before it has, whichever is later; records
      past their time go then. */
  function EventAfter(s: State, op: Op, now: int, k: EventKey): Option<Event> {
    if !op.OpLogout? then At(s.events, k)
    else if k == EventKey(op.claims.issuer, op.client, op.claims.jti) then
      var last := if op.claims.replayUntil > now + LOGIN_LIFETIME then op.claims.replayUntil
        else now + LOGIN_LIFETIME;
      Some(Event(op.claims.subject, op.claims.sid, Unix(op.claims.issuedAt), Unix(last) + 1))
    else if k in s.events && s.events[k].retainUntil < Unix(now) then None
    else At(s.events, k)
  }

  ghost predicate Follows(s: State, op: Op, now: int, s': State) {
    && s'.users == (if op.OpUsers? then op.users else s.users)
    && s'.settings == (if op.OpSettings? then op.settings else s.settings)
    && s'.cutoffs == (if op.OpCutoffs? then op.cutoffs else s.cutoffs)
    && (forall x :: At(s'.sessions, x) == SessionAfter(s, op, x))
    && (forall d :: At(s'.devices, d) == DeviceAfter(s, op, d))
    && (forall k :: At(s'.events, k) == EventAfter(s, op, now, k))
  }

  // ---- The transactions agree ---------------------------------------------------------------------

  lemma FencedIff(s: State, id: Identity, now: int)
    ensures Fenced(s, id, now) <==> LoggedOut(s, id, now)
  {
    forall e, subject, sid, t: int
      ensures FencedBy(e, subject, sid, t) <==> Names(e.subject, e.sid, e.issuedAt, subject, sid, t)
    {
      NamesIsFence(e, subject, sid, t);
    }
    hide FencedBy, Names, Unix;
  }

  lemma LogoutFollows(s: State, op: Op, now: int)
    requires op.OpLogout? && Logout(s, op.claims, op.client, now).Some?
    ensures Follows(s, op, now, Logout(s, op.claims, op.client, now).value)
  {
    forall subject, sid, t: int
      ensures RevocationScope(op.claims, subject, sid, t) <==>
        Names(op.claims.subject, op.claims.sid, Unix(op.claims.issuedAt), subject, sid, t)
    {
      NamesIsScope(op.claims, subject, sid, t);
    }
    hide RevocationScope, Names, Unix;
  }

  /** Every transaction commits exactly when it may, and then leaves every row as its column says. */
  lemma StepFollows(s: State, op: Op, now: int)
    ensures Apply(s, op, now).Some? <==> MayCommit(s, op, now)
    ensures Apply(s, op, now).Some? ==> Follows(s, op, now, Apply(s, op, now).value)
  {
    if op.OpMint? {
      FencedIff(s, op.identity, now);
      hide Fenced, LoggedOut, Names, Unix;
    } else if op.OpLogout? {
      hide Follows;
      if Logout(s, op.claims, op.client, now).Some? {
        LogoutFollows(s, op, now);
      }
      hide Names, Unix;
    } else {
      hide Names, Unix;
    }
  }

  // ---- What a logout means for a session and for a login ------------------------------------------

  /** An applied logout that gives a session ID ends every session with that ID and, if it gives one, that subject;
      of those without a session ID it ends its subject's that were issued by then; it spares every other. */
  lemma LogoutBySession(s: State, c: Claims, client: string, now: int, x: SessionId)
    requires Logout(s, c, client, now).Some? && x in s.sessions && c.sid != ""
    requires s.sessions[x].issuer == c.issuer && s.sessions[x].client == client
    ensures var row, sessions := s.sessions[x], Logout(s, c, client, now).value.sessions;
      && x in sessions
      && (row.sid == c.sid && (c.subject == "" || c.subject == row.subject) ==> sessions[x] == row.(revoked := true))
      && (row.sid == c.sid && c.subject != "" && c.subject != row.subject ==> sessions[x] == row)
      && (row.sid != "" && row.sid != c.sid ==> sessions[x] == row)
      && (row.sid == "" && c.subject != "" && c.subject == row.subject && row.issuedAt <= Unix(c.issuedAt) ==>
           sessions[x] == row.(revoked := true))
      && (row.sid == "" && (c.subject == "" || c.subject != row.subject || row.issuedAt > Unix(c.issuedAt)) ==>
           sessions[x] == row)
  {
    StepFollows(s, OpLogout(c, client), now);
    assert At(Logout(s, c, client, now).value.sessions, x) == SessionAfter(s, OpLogout(c, client), x);
    hide Logout, Unix;
  }

  /** One that gives none ends all its subject's sessions that were issued by then, with a session ID or without. */
  lemma LogoutBySubject(s: State, c: Claims, client: string, now: int, x: SessionId)
    requires Logout(s, c, client, now).Some? && x in s.sessions && c.sid == ""
    requires s.sessions[x].issuer == c.issuer && s.sessions[x].client == client
    ensures var row, sessions := s.sessions[x], Logout(s, c, client, now).value.sessions;
      && x in sessions
      && (c.subject == row.subject && row.issuedAt <= Unix(c.issuedAt) ==> sessions[x] == row.(revoked := true))
      && (c.subject != row.subject || row.issuedAt > Unix(c.issuedAt) ==> sessions[x] == row)
  {
    StepFollows(s, OpLogout(c, client), now);
    assert At(Logout(s, c, client, now).value.sessions, x) == SessionAfter(s, OpLogout(c, client), x);
    hide Logout, Unix;
  }

  /** At a reading by which every login begun before the logout must have committed, its record still stands. */
  lemma RecordStands(s: State, c: Claims, client: string, at: int, now: int)
    requires Logout(s, c, client, at).Some? && at <= now <= at + LOGIN_LIFETIME
    ensures var s', k := Logout(s, c, client, at).value, EventKey(c.issuer, client, c.jti);
      k in s'.events && s'.events[k].subject == c.subject && s'.events[k].sid == c.sid &&
      s'.events[k].issuedAt == Unix(c.issuedAt) && Unix(now) <= s'.events[k].retainUntil
  {
    StepFollows(s, OpLogout(c, client), at);
    var k := EventKey(c.issuer, client, c.jti);
    assert At(Logout(s, c, client, at).value.events, k) == EventAfter(s, OpLogout(c, client), at, k);
    hide Logout;
  }

  /** After a logout that gives a session ID no login that was under way commits with that ID and, if it gives one,
      that subject; nor, without a session ID, for its subject if issued by then. */
  lemma LoginRefusedBySession(s: State, c: Claims, client: string, at: int, now: int, session: SessionId,
      user: UserId, id: Identity, sessionExpires: int)
    requires Logout(s, c, client, at).Some? && at <= now <= at + LOGIN_LIFETIME && c.sid != ""
    requires id.issuer == c.issuer && id.client == client
    requires (id.sid == c.sid && (c.subject == "" || c.subject == id.subject)) ||
      (id.sid == "" && c.subject != "" && c.subject == id.subject && Unix(id.issuedAt) <= Unix(c.issuedAt))
    ensures Mint(Logout(s, c, client, at).value, session, user, id, sessionExpires, now).None?
  {
    RecordStands(s, c, client, at, now);
    var s', k := Logout(s, c, client, at).value, EventKey(c.issuer, client, c.jti);
    StepFollows(s', OpMint(session, user, id, now, sessionExpires), now);
    assert k in s'.events;
    hide Logout, Mint, Unix;
  }

  /** After one that gives none, no login that was under way commits for its subject if issued by then. */
  lemma LoginRefusedBySubject(s: State, c: Claims, client: string, at: int, now: int, session: SessionId,
      user: UserId, id: Identity, sessionExpires: int)
    requires Logout(s, c, client, at).Some? && at <= now <= at + LOGIN_LIFETIME && c.sid == ""
    requires id.issuer == c.issuer && id.client == client && c.subject == id.subject
    requires Unix(id.issuedAt) <= Unix(c.issuedAt)
    ensures Mint(Logout(s, c, client, at).value, session, user, id, sessionExpires, now).None?
  {
    RecordStands(s, c, client, at, now);
    var s', k := Logout(s, c, client, at).value, EventKey(c.issuer, client, c.jti);
    StepFollows(s', OpMint(session, user, id, now, sessionExpires), now);
    assert k in s'.events;
    hide Logout, Mint, Unix;
  }

  /** Every other login is as free as it was. */
  lemma LoginSpared(s: State, c: Claims, client: string, at: int, now: int, session: SessionId, user: UserId,
      id: Identity, sessionExpires: int)
    requires Logout(s, c, client, at).Some? && at <= now
    requires id.issuer != c.issuer || id.client != client ||
      (c.sid != "" && id.sid != "" && id.sid != c.sid) || (c.sid != "" && id.sid == "" && c.subject == "") ||
      (c.subject != "" && c.subject != id.subject) || (id.sid != c.sid && Unix(id.issuedAt) > Unix(c.issuedAt)) ||
      (c.sid == "" && (c.subject != id.subject || Unix(id.issuedAt) > Unix(c.issuedAt)))
    ensures Mint(Logout(s, c, client, at).value, session, user, id, sessionExpires, now).Some? <==>
      Mint(s, session, user, id, sessionExpires, now).Some?
  {
    var s', op := Logout(s, c, client, at).value, OpLogout(c, client);
    StepFollows(s, op, at);
    StepFollows(s, OpMint(session, user, id, now, sessionExpires), now);
    StepFollows(s', OpMint(session, user, id, now, sessionExpires), now);
    assert At(s'.sessions, session).Some? == At(s.sessions, session).Some? by {
      assert At(s'.sessions, session) == SessionAfter(s, op, session);
    }
    SpareRecord(s, c, client, at, now, id);
    hide Logout, Mint, Unix, Names, LoggedOut;
  }

  /** The logout's record is none of such a login's business, and no other record that still stands is lost. */
  lemma SpareRecord(s: State, c: Claims, client: string, at: int, now: int, id: Identity)
    requires Logout(s, c, client, at).Some? && at <= now
    requires id.issuer != c.issuer || id.client != client ||
      !Names(c.subject, c.sid, Unix(c.issuedAt), id.subject, id.sid, Unix(id.issuedAt))
    ensures LoggedOut(Logout(s, c, client, at).value, id, now) == LoggedOut(s, id, now)
  {
    var s', op := Logout(s, c, client, at).value, OpLogout(c, client);
    StepFollows(s, op, at);
    assert Unix(at) <= Unix(now);
    hide Logout, Unix, LOGIN_LIFETIME, Names;
    forall k ensures (k in s'.events && Unix(now) <= s'.events[k].retainUntil && k.issuer == id.issuer &&
      k.client == id.client && Names(s'.events[k].subject, s'.events[k].sid, s'.events[k].issuedAt, id.subject, id.sid,
        Unix(id.issuedAt))) <==>
      (k in s.events && Unix(now) <= s.events[k].retainUntil && k.issuer == id.issuer && k.client == id.client &&
        Names(s.events[k].subject, s.events[k].sid, s.events[k].issuedAt, id.subject, id.sid, Unix(id.issuedAt)))
    {
      assert At(s'.events, k) == EventAfter(s, op, at, k);
    }
  }

  // ---- Step-up challenges -------------------------------------------------------------------------

  /** The session is live and its user active, both administrators where the action is one's. */
  predicate Standing(s: S.State, x: SessionId, scope: S.Scope, now: int) {
    x in s.sso.sessions && s.sso.sessions[x].user in s.sso.users &&
    var row, user := s.sso.sessions[x], s.sso.users[s.sso.sessions[x].user];
    !row.revoked && Unix(now) < row.expires && user.active &&
      (scope.AdminScope? ==> row.appAdmin && user.admin)
  }

  predicate HasOpen(s: S.State, x: SessionId, now: int, k: S.ChallengeId) {
    k in s.challenges && s.challenges[k].session == x && s.challenges[k].started && Unix(now) < s.challenges[k].expires
  }

  predicate Owned(s: S.State, x: SessionId, k: S.ChallengeId) {
    k in s.challenges && s.challenges[k].session == x
  }

  /** What a challenge of the session proves: a sign-on of its account, in the session the service then reported. */
  function Proven(row: Session, proof: S.Challenge): Identity {
    Identity(row.issuer, row.client, row.subject, proof.proofSid, proof.proofIat * SECOND, 0, false)
  }

  ghost predicate MayStep(s: S.State, op: S.Op, now: int) {
    match op
    case OpAsk(x, k, _, _, allowed) =>
      allowed && (forall j :: !HasOpen(s, x, now, j)) &&
        (k in s.challenges ==> s.challenges[k].session == x || s.challenges[k].expires <= Unix(now))
    case OpBegin(x, k) => Owned(s, x, k) && !s.challenges[k].started && Unix(now) < s.challenges[k].expires
    case OpCancel(x, k) => Owned(s, x, k)
    case OpComplete(x, k, id, authTime) =>
      && Owned(s, x, k) && s.challenges[k].started && !s.challenges[k].verified
      && Unix(now) < s.challenges[k].expires && s.challenges[k].created <= Unix(authTime) && now < id.expires
      && Standing(s, x, s.challenges[k].scope, now) && (s.challenges[k].scope.AdminScope? ==> id.appAdmin)
      && var row := s.sso.sessions[x];
      && id.issuer == row.issuer && id.client == row.client && id.subject == row.subject
      && Accepted(s.sso, row.user, id) && !LoggedOut(s.sso, id, now)
    case OpConsume(x, k, action, scope) =>
      && Owned(s, x, k) && s.challenges[k].action == action && s.challenges[k].scope == scope
      && s.challenges[k].verified && Unix(now) < s.challenges[k].expires && Standing(s, x, scope, now)
      && var row, id := s.sso.sessions[x], Proven(s.sso.sessions[x], s.challenges[k]);
      Accepted(s.sso, row.user, id) && !LoggedOut(s.sso, id, now)
    case OpSso(change) => MayCommit(s.sso, change, now)
    case OpForget(_) => true
  }

  function ChallengeAfter(s: S.State, op: S.Op, now: int, k: S.ChallengeId): Option<S.Challenge> {
    if op.OpAsk? && k == op.id then
      Some(S.Challenge(op.session, op.action, op.scope, Unix(now), Unix(now + LOGIN_LIFETIME), false, false, "", 0))
    else if k !in s.challenges then None
    else
      var row := s.challenges[k];
      if (op.OpAsk? && (row.session == op.session || row.expires <= Unix(now))) ||
        ((op.OpCancel? || op.OpConsume?) && k == op.id) || (op.OpForget? && row.session in op.gone) then None
      else if op.OpBegin? && k == op.id then Some(row.(started := true))
      else if op.OpComplete? && k == op.id then
        var minute := Unix(now + 60 * SECOND);
        Some(row.(verified := true, proofSid := op.identity.sid, proofIat := Unix(op.identity.issuedAt),
          expires := if minute < row.expires then minute else row.expires))
      else Some(row)
  }

  lemma AskIff(s: S.State, op: S.Op, now: int)
    requires op.OpAsk?
    ensures S.Apply(s, op, now).Some? <==> MayStep(s, op, now)
  {
    assert S.HasPending(s, op.session, now) <==> exists j :: HasOpen(s, op.session, now, j) by {
      forall j ensures HasOpen(s, op.session, now, j) <==> S.Pending(s, j, op.session, now) {
      }
    }
    hide HasOpen, S.HasPending, Unix;
  }

  lemma StandingIff(s: S.State, x: SessionId, scope: S.Scope, now: int)
    ensures S.LiveSession(s, x, now, scope) <==> Standing(s, x, scope, now)
  {
  }

  lemma IdentityIff(s: State, user: UserId, id: Identity, now: int)
    ensures IdentityOk(s, user, id, now) <==> Accepted(s, user, id) && !LoggedOut(s, id, now)
  {
    FencedIff(s, id, now);
    hide Fenced, LoggedOut, Unix;
  }

  /** Every step of a challenge commits exactly when it may, and changes no more than its own. */
  lemma ChallengeFollows(s: S.State, op: S.Op, now: int)
    ensures S.Apply(s, op, now).Some? <==> MayStep(s, op, now)
    ensures S.Apply(s, op, now).Some? ==>
      forall k :: At(S.Apply(s, op, now).value.challenges, k) == ChallengeAfter(s, op, now, k)
  {
    if op.OpSso? {
      hide Unix;
      StepFollows(s.sso, op.change, now);
      hide Apply, MayCommit;
    } else if op.OpAsk? {
      AskIff(s, op, now);
      hide MayStep, S.HasPending, Unix;
    } else if op.OpComplete? || op.OpConsume? {
      hide Unix;
      if op.session in s.sso.sessions && op.id in s.challenges {
        StandingIff(s, op.session, if op.OpComplete? then s.challenges[op.id].scope else op.scope, now);
        var row := s.sso.sessions[op.session];
        IdentityIff(s.sso, row.user, if op.OpComplete? then op.identity else Proven(row, s.challenges[op.id]), now);
      }
      hide S.LiveSession, Standing, IdentityOk, Accepted, LoggedOut;
    } else {
      hide Unix;
    }
  }
}
