/**
 * Confirming one action with a fresh sign-on: a one-shot challenge, opened, verified and consumed by
 * the session that was asked for it.
 */
module StepUp {
  import opened Outcome
  import Sso

  newtype ChallengeId = n: int | 0 <= n

  datatype Scope = AdminScope | UserScope

  datatype Challenge = Challenge(
    session: Sso.SessionId, action: string, scope: Scope, created: int, expires: int, started: bool, verified: bool,
      proofSid: string, proofIat: int)

  datatype State = State(sso: Sso.State, challenges: map<ChallengeId, Challenge>)

  // ---- Transactions -------------------------------------------------------------------------------

  /** The session's challenge the user has open at the sign-on service. */
  predicate Pending(s: State, k: ChallengeId, session: Sso.SessionId, now: int) {
    k in s.challenges && s.challenges[k].session == session && s.challenges[k].started &&
      s.challenges[k].expires > Sso.Unix(now)
  }

  predicate HasPending(s: State, session: Sso.SessionId, now: int) {
    exists k <- s.challenges :: Pending(s, k, session, now)
  }

  /** requireSSOStepUp without a grant: an opened challenge refuses the new one, anything else yields to it. */
  function Ask(s: State, session: Sso.SessionId, id: ChallengeId, action: string, scope: Scope, allowed: bool,
      now: int): Option<State> {
    if HasPending(s, session, now) || !allowed then None
    else
      var kept := map k | k in s.challenges &&
        !(s.challenges[k].session == session || s.challenges[k].expires <= Sso.Unix(now)) :: s.challenges[k];
      if id in kept then None
      else Some(s.(challenges :=
        kept[id := Challenge(session, action, scope, Sso.Unix(now), Sso.Unix(now + Sso.LOGIN_LIFETIME), false, false,
        "", 0)]))
  }

  predicate Owns(s: State, session: Sso.SessionId, id: ChallengeId) {
    id in s.challenges && s.challenges[id].session == session
  }

  function Begin(s: State, session: Sso.SessionId, id: ChallengeId, now: int): Option<State> {
    if !(Owns(s, session, id) && !s.challenges[id].started && s.challenges[id].expires > Sso.Unix(now)) then None
    else Some(s.(challenges := s.challenges[id := s.challenges[id].(started := true)]))
  }

  function Cancel(s: State, session: Sso.SessionId, id: ChallengeId): Option<State> {
    if !Owns(s, session, id) then None else Some(s.(challenges := s.challenges - {id}))
  }

  /** liveStepUpSession */
  predicate LiveSession(s: State, session: Sso.SessionId, now: int, scope: Scope) {
    && session in s.sso.sessions && !s.sso.sessions[session].revoked && s.sso.sessions[session].expires > Sso.Unix(now)
    && s.sso.sessions[session].user in s.sso.users && s.sso.users[s.sso.sessions[session].user].active
    && (scope.AdminScope? ==> s.sso.sessions[session].appAdmin && s.sso.users[s.sso.sessions[session].user].admin)
  }

  predicate CompleteAdmitted(s: State, session: Sso.SessionId, id: ChallengeId, identity: Sso.Identity, authTime: int,
      now: int) {
    && session in s.sso.sessions && Owns(s, session, id)
    && var row := s.sso.sessions[session];
    && identity.issuer == row.issuer && identity.client == row.client && identity.subject == row.subject &&
      now < identity.expires
    && (s.challenges[id].scope.AdminScope? ==> identity.appAdmin)
    && LiveSession(s, session, now, s.challenges[id].scope) && Sso.IdentityOk(s.sso, row.user, identity, now)
    && s.challenges[id].started && !s.challenges[id].verified && s.challenges[id].expires > Sso.Unix(now) &&
      s.challenges[id].created <= Sso.Unix(authTime)
  }

  function Complete(s: State, session: Sso.SessionId, id: ChallengeId, identity: Sso.Identity, authTime: int,
      now: int): Option<State> {
    if !CompleteAdmitted(s, session, id, identity, authTime, now) then None
    else
      var minute := Sso.Unix(now + 60 * Sso.SECOND);
      var row := s.challenges[id];
      Some(s.(challenges :=
        s.challenges[id := row.(verified := true, proofSid := identity.sid, proofIat := Sso.Unix(identity.issuedAt),
        expires := if row.expires < minute then row.expires else minute)]))
  }

  /** The identity a verified challenge proves for its session. */
  function ProvenIdentity(row: Sso.Session, proof: Challenge): Sso.Identity {
    Sso.Identity(row.issuer, row.client, row.subject, proof.proofSid, proof.proofIat * Sso.SECOND, 0, false)
  }

  predicate ConsumeAdmitted(s: State, session: Sso.SessionId, id: ChallengeId, action: string, scope: Scope, now: int) {
    && Owns(s, session, id) && s.challenges[id].action == action && s.challenges[id].scope == scope
    && s.challenges[id].verified && s.challenges[id].expires > Sso.Unix(now)
    && LiveSession(s, session, now, scope)
    && Sso.IdentityOk(s.sso, s.sso.sessions[session].user, ProvenIdentity(s.sso.sessions[session], s.challenges[id]),
      now)
  }

  /** consumeSSOStepUp: the request is admitted and its challenge is gone, or nothing changes. */
  function Consume(s: State, session: Sso.SessionId, id: ChallengeId, action: string, scope: Scope,
      now: int): Option<State> {
    if !ConsumeAdmitted(s, session, id, action, scope, now) then None else Some(s.(challenges := s.challenges - {id}))
  }

  datatype Op =
    | OpAsk(session: Sso.SessionId, id: ChallengeId, action: string, scope: Scope, allowed: bool)
    | OpBegin(session: Sso.SessionId, id: ChallengeId)
    | OpCancel(session: Sso.SessionId, id: ChallengeId)
    | OpComplete(session: Sso.SessionId, id: ChallengeId, identity: Sso.Identity, authTime: int)
    | OpConsume(session: Sso.SessionId, id: ChallengeId, action: string, scope: Scope)
    | OpSso(change: Sso.Op)
    | OpForget(gone: set<Sso.SessionId>)

  /** A deleted session takes its challenge with it. */
  function Forget(s: State, gone: set<Sso.SessionId>): State {
    s.(sso := s.sso.(sessions := s.sso.sessions - gone), challenges := map k | k in s.challenges &&
      s.challenges[k].session !in gone :: s.challenges[k])
  }

  function Apply(s: State, op: Op, now: int): Option<State> {
    match op
    case OpAsk(session, id, action, scope, allowed) => Ask(s, session, id, action, scope, allowed, now)
    case OpBegin(session, id) => Begin(s, session, id, now)
    case OpCancel(session, id) => Cancel(s, session, id)
    case OpComplete(session, id, identity, authTime) => Complete(s, session, id, identity, authTime, now)
    case OpConsume(session, id, action, scope) => Consume(s, session, id, action, scope, now)
    case OpSso(change) => (match Sso.Apply(s.sso, change, now) case Some(sso) => Some(s.(sso := sso)) case None => None)
    case OpForget(gone) => Some(Forget(s, gone))
  }

  // ---- One step ---------------------------------------------------------------------------------------

  ghost predicate OnePerSession(s: State) {
    forall k, l :: k in s.challenges && l in s.challenges && s.challenges[k].session == s.challenges[l].session ==>
      k == l
  }

  ghost predicate VerifiedWasStarted(s: State) {
    forall k <- s.challenges :: s.challenges[k].verified ==> s.challenges[k].started
  }

  lemma StepKeepsInv(s: State, op: Op, now: int)
    requires OnePerSession(s) && VerifiedWasStarted(s) && Apply(s, op, now).Some?
    ensures OnePerSession(Apply(s, op, now).value) && VerifiedWasStarted(Apply(s, op, now).value)
  {
    hide HasPending, LiveSession, Sso.IdentityOk, Sso.Apply, Sso.Unix;
  }

  /** Challenge k is closed by op: cancelled or consumed by its own session, or gone with it. */
  predicate Closes(s: State, op: Op, k: ChallengeId)
    requires k in s.challenges
  {
    || ((op.OpCancel? || op.OpConsume?) && op.id == k && op.session == s.challenges[k].session)
    || (op.OpForget? && s.challenges[k].session in op.gone)
  }

  /** An opened, unexpired challenge outlasts every step that does not close it; a new one for its
      session is refused while it does. */
  lemma OpenedIsNeverReplaced(s: State, op: Op, now: int, k: ChallengeId)
    requires OnePerSession(s) && k in s.challenges && s.challenges[k].started &&
      s.challenges[k].expires > Sso.Unix(now) && Apply(s, op, now).Some?
    ensures !Closes(s, op, k) ==> var s' := Apply(s, op, now).value;
      k in s'.challenges && s'.challenges[k].started && s'.challenges[k].session == s.challenges[k].session &&
        s'.challenges[k].action == s.challenges[k].action
    ensures !(op.OpAsk? && op.session == s.challenges[k].session)
  {
    hide LiveSession, Sso.IdentityOk, Sso.Apply, Sso.Unix;
    assert Pending(s, k, s.challenges[k].session, now);
  }

  /** What the request minted: a challenge for what was asked, alive for a login's lifetime, neither opened nor
      verified. */
  ghost predicate Fresh(op: Op, now: int, k: ChallengeId, row: Challenge) {
    && op == OpAsk(row.session, k, row.action, row.scope, true) && !row.started && !row.verified
    && row.created == Sso.Unix(now) && row.expires == Sso.Unix(now + Sso.LOGIN_LIFETIME)
  }

  /** Verification by a sign-on no older than the challenge: good for a minute more at most. */
  ghost predicate Verifies(op: Op, now: int, k: ChallengeId, was: Challenge, row: Challenge) {
    && op.OpComplete? && op.id == k && op.session == was.session && was.started
    && was.created <= Sso.Unix(op.authTime) && Sso.Unix(now) < was.expires
    && row.expires <= was.expires && row.expires <= Sso.Unix(now + 60 * Sso.SECOND)
  }

  /** Where challenge k came from in one step, and what the step may have changed of it. */
  ghost predicate ChallengeStep(s: State, op: Op, now: int, s': State, k: ChallengeId)
    requires k in s'.challenges
  {
    var row := s'.challenges[k];
    Fresh(op, now, k, row) || (k in s.challenges &&
      var was := s.challenges[k];
      && row.session == was.session && row.action == was.action && row.scope == was.scope && row.created == was.created
      && (row.started == was.started || op == OpBegin(was.session, k))
      && ((row.verified == was.verified && row.expires == was.expires) || Verifies(op, now, k, was, row)))
  }

  lemma StepTraces(s: State, op: Op, now: int, k: ChallengeId)
    requires Apply(s, op, now).Some? && k in Apply(s, op, now).value.challenges
    ensures ChallengeStep(s, op, now, Apply(s, op, now).value, k)
  {
    hide HasPending, LiveSession, Sso.IdentityOk, Sso.Apply, Sso.Unix;
  }

  // ---- Runs -------------------------------------------------------------------------------------------

  /** The state and every challenge ID ever minted. */
  datatype World = World(s: State, minted: set<ChallengeId>)

  datatype Tick = Tick(op: Op, now: int)

  ghost predicate Start(w: World) {
    w.s.challenges == map[] && w.minted == {}
  }

  /** One committed transaction; challenge IDs are minted once. */
  ghost predicate Step(w: World, t: Tick, w': World) {
    && Apply(w.s, t.op, t.now) == Some(w'.s)
    && (t.op.OpAsk? ==> t.op.id !in w.minted)
    && w'.minted == w.minted + if t.op.OpAsk? then {t.op.id} else {}
  }

  ghost predicate Run(ws: seq<World>, ticks: seq<Tick>) {
    |ws| == |ticks| + 1 && Start(ws[0]) && forall i :: 0 <= i < |ticks| ==> Step(ws[i], ticks[i], ws[i + 1])
  }

  ghost predicate WorldInv(w: World) {
    w.s.challenges.Keys <= w.minted && OnePerSession(w.s) && VerifiedWasStarted(w.s)
  }

  lemma {:induction false} RunKeepsInv(ws: seq<World>, ticks: seq<Tick>, i: nat)
    requires Run(ws, ticks) && i < |ws|
    ensures WorldInv(ws[i])
  {
    hide Apply, OnePerSession, VerifiedWasStarted;
    if i == 0 {
      NoChallenges(ws[0].s);
    } else {
      RunKeepsInv(ws, ticks, i - 1);
      assert Step(ws[i - 1], ticks[i - 1], ws[i]);
      StepKeepsInv(ws[i - 1].s, ticks[i - 1].op, ticks[i - 1].now);
      forall k | k in ws[i].s.challenges ensures k in ws[i].minted {
        StepTraces(ws[i - 1].s, ticks[i - 1].op, ticks[i - 1].now, k);
      }
    }
  }

  lemma NoChallenges(s: State)
    requires s.challenges == map[]
    ensures OnePerSession(s) && VerifiedWasStarted(s)
  {
  }

  /** A stored challenge was asked for at i with what it holds, opened at b if started, verified at v if verified, by
      a sign-on after it was asked for; and when it ends. */
  ghost predicate Traced(ticks: seq<Tick>, j: nat, k: ChallengeId, row: Challenge, i: nat, b: nat, v: nat) {
    && i < j <= |ticks| && ticks[i].op == OpAsk(row.session, k, row.action, row.scope, true)
    && row.created == Sso.Unix(ticks[i].now) && row.expires <= Sso.Unix(ticks[i].now + Sso.LOGIN_LIFETIME)
    && (row.started ==> i < b < j && ticks[b].op == OpBegin(row.session, k))
    && (row.verified ==>
      i < b < v < j && ticks[v].op.OpComplete? && ticks[v].op.id == k && ticks[v].op.session == row.session &&
      row.created <= Sso.Unix(ticks[v].op.authTime) && row.expires <= Sso.Unix(ticks[v].now + 60 * Sso.SECOND))
  }

  lemma {:induction false} Trace(ws: seq<World>, ticks: seq<Tick>, j: nat, k: ChallengeId) returns (i: nat, b: nat,
      v: nat)
    requires Run(ws, ticks) && j < |ws| && k in ws[j].s.challenges
    ensures Traced(ticks, j, k, ws[j].s.challenges[k], i, b, v)
  {
    hide Apply, OnePerSession, Sso.Unix;
    var p := j - 1;
    assert Step(ws[p], ticks[p], ws[j]);
    StepTraces(ws[p].s, ticks[p].op, ticks[p].now, k);
    RunKeepsInv(ws, ticks, p);
    if k !in ws[p].s.challenges {
      i, b, v := p, 0, 0;
    } else {
      i, b, v := Trace(ws, ticks, p, k);
      if ws[j].s.challenges[k].started && !ws[p].s.challenges[k].started {
        b := p;
      }
      if Verifies(ticks[p].op, ticks[p].now, k, ws[p].s.challenges[k], ws[j].s.challenges[k]) &&
        !(ws[j].s.challenges[k].verified == ws[p].s.challenges[k].verified &&
          ws[j].s.challenges[k].expires == ws[p].s.challenges[k].expires)
      {
        v := p;
      }
    }
  }

  lemma {:induction false} GoneStaysGone(ws: seq<World>, ticks: seq<Tick>, i: nat, j: nat, k: ChallengeId)
    requires Run(ws, ticks) && i <= j < |ws| && k in ws[i].minted && k !in ws[i].s.challenges
    ensures k in ws[j].minted && k !in ws[j].s.challenges
    decreases j
  {
    hide Apply;
    if i < j {
      GoneStaysGone(ws, ticks, i, j - 1, k);
      assert Step(ws[j - 1], ticks[j - 1], ws[j]);
      if k in ws[j].s.challenges {
        StepTraces(ws[j - 1].s, ticks[j - 1].op, ticks[j - 1].now, k);
      }
    }
  }

  /**
   * Every admitted request consumes a challenge that the same session asked for, for the same action
   * and scope, then opened, then had verified, in that order, by signing on to its own account after it had asked
   * and less than a minute before; and no challenge admits a second one.
   */
  lemma GrantIsOneShot(ws: seq<World>, ticks: seq<Tick>, j: nat) returns (i: nat, b: nat, v: nat)
    requires Run(ws, ticks) && j < |ticks| && ticks[j].op.OpConsume?
    ensures i < b < v < j &&
      ticks[i].op == OpAsk(ticks[j].op.session, ticks[j].op.id, ticks[j].op.action, ticks[j].op.scope, true)
    ensures ticks[b].op == OpBegin(ticks[j].op.session, ticks[j].op.id)
    ensures ticks[v].op.OpComplete? && ticks[v].op.id == ticks[j].op.id && ticks[v].op.session == ticks[j].op.session
    ensures Sso.Unix(ticks[i].now) <= Sso.Unix(ticks[v].op.authTime) &&
      Sso.Unix(ticks[j].now) < Sso.Unix(ticks[v].now + 60 * Sso.SECOND) &&
      Sso.Unix(ticks[j].now) < Sso.Unix(ticks[i].now + Sso.LOGIN_LIFETIME)
    ensures ticks[j].op.session in ws[v].s.sso.sessions &&
      var own, shown := ws[v].s.sso.sessions[ticks[j].op.session], ticks[v].op.identity;
      shown.issuer == own.issuer && shown.client == own.client && shown.subject == own.subject && !own.revoked
    ensures forall m :: 0 <= m < |ticks| && m != j && ticks[m].op.OpConsume? ==> ticks[m].op.id != ticks[j].op.id
  {
    hide Sso.IdentityOk, Sso.Unix;
    var op := ticks[j].op;
    assert Step(ws[j], ticks[j], ws[j + 1]);
    RunKeepsInv(ws, ticks, j);
    i, b, v := Trace(ws, ticks, j, op.id);
    assert Step(ws[v], ticks[v], ws[v + 1]);
    hide LiveSession;
    forall m | 0 <= m < |ticks| && m != j && ticks[m].op.OpConsume? && ticks[m].op.id == op.id ensures false {
      assert Step(ws[m], ticks[m], ws[m + 1]);
      RunKeepsInv(ws, ticks, m);
      GoneStaysGone(ws, ticks, if m < j then m + 1 else j + 1, if m < j then j else m, op.id);
    }
  }
}
