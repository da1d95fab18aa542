/**
 * The device-link relay: a new session commits to a key, another session of that user claims the
 * request, the key is revealed and checked, the trusted session approves with a sealed bundle, and the
 * new session collects it once. Times are whole seconds, as the table keeps them. The commitment hash
 * is collision-free, so a commitment is modelled by the key it commits to.
 */
module Link {
  import opened Outcome

  newtype UserId = n: int | 0 <= n
  newtype SessionId = n: int | 0 <= n
  newtype LinkId = n: int | 0 <= n
  newtype Key = n: int | 0 <= n
  newtype Bundle = n: int | 0 <= n

  const LINK_TTL := 600
  const MAX_PENDING := 3

  datatype User = User(hasIdentity: bool, adminKnown: bool)
  datatype Session = Session(user: UserId, sso: bool, revoked: bool, expires: int)
  datatype Commitment = Commits(key: Key) | OtherBytes
  datatype Request = Request(
    user: UserId, newcomer: SessionId, commitment: Commitment, expires: int,
    approver: Option<SessionId>, approverKey: Option<Key>, newcomerKey: Option<Key>, bundle: Option<Bundle>)

  datatype State = State(users: map<UserId, User>, sessions: map<SessionId, Session>, requests: map<LinkId, Request>)

  // ---- Guards -------------------------------------------------------------------------------------

  predicate LiveSession(s: State, x: SessionId, now: int) {
    x in s.sessions && !s.sessions[x].revoked && s.sessions[x].expires > now && s.sessions[x].user in s.users
  }

  /** Either side of a link: live, and not a local session on a password an administrator knows. */
  predicate PartyLive(s: State, x: SessionId, now: int) {
    LiveSession(s, x, now) && (s.sessions[x].sso || !s.users[s.sessions[x].user].adminKnown)
  }

  predicate NewcomerLive(s: State, r: Request, now: int) {
    r.newcomer in s.sessions && !s.sessions[r.newcomer].revoked && s.sessions[r.newcomer].expires > now
  }

  predicate ApproverLive(s: State, r: Request, now: int) {
    r.approver.Some? && r.approver.value in s.sessions && !s.sessions[r.approver.value].revoked &&
      s.sessions[r.approver.value].expires > now
  }

  /** Request k of x's own account, not yet expired. */
  predicate Reachable(s: State, x: SessionId, k: LinkId, now: int)
    requires x in s.sessions
  {
    k in s.requests && s.requests[k].user == s.sessions[x].user && s.requests[k].expires > now
  }

  function PendingOf(requests: map<LinkId, Request>, u: UserId, now: int): set<LinkId> {
    set k | k in requests && requests[k].user == u && requests[k].expires > now
  }

  // ---- Steps --------------------------------------------------------------------------------------

  /** A session has one request: creating a second drops the first before the limit is checked. */
  function Create(s: State, x: SessionId, k: LinkId, commitment: Commitment, now: int): Option<State> {
    if !PartyLive(s, x, now) || !s.users[s.sessions[x].user].hasIdentity then None
    else
      var u := s.sessions[x].user;
      var kept := map r | r in s.requests && s.requests[r].newcomer != x :: s.requests[r];
      if |PendingOf(kept, u, now)| >= MAX_PENDING || k in kept then None
      else Some(s.(requests := kept[k := Request(u, x, commitment, now + LINK_TTL, None, None, None, None)]))
  }

  function Claim(s: State, x: SessionId, k: LinkId, key: Key, now: int): Option<State> {
    if !PartyLive(s, x, now) || !Reachable(s, x, k, now) || s.requests[k].newcomer == x ||
      s.requests[k].approver.Some? || !NewcomerLive(s, s.requests[k], now) then None
    else Some(s.(requests := s.requests[k := s.requests[k].(approver := Some(x), approverKey := Some(key))]))
  }

  /** The wrong key ends the request. */
  function Reveal(s: State, x: SessionId, k: LinkId, key: Key, now: int): Option<State> {
    if !PartyLive(s, x, now) || !Reachable(s, x, k, now) || s.requests[k].newcomer != x ||
      s.requests[k].approverKey.None?
      || s.requests[k].newcomerKey.Some? || !ApproverLive(s, s.requests[k], now) then None
    else if s.requests[k].commitment != Commits(key) then Some(s.(requests := s.requests - {k}))
    else Some(s.(requests := s.requests[k := s.requests[k].(newcomerKey := Some(key))]))
  }

  /** Approval stands behind a fresh step-up, and no local session on a known password passes it. */
  function Approve(s: State, x: SessionId, k: LinkId, bundle: Bundle, steppedUp: bool, now: int): Option<State> {
    if !steppedUp || !PartyLive(s, x, now) || !Reachable(s, x, k, now) || s.requests[k].approver != Some(x)
      || s.requests[k].newcomerKey.None? || s.requests[k].bundle.Some? || !NewcomerLive(s, s.requests[k], now) then None
    else Some(s.(requests := s.requests[k := s.requests[k].(bundle := Some(bundle))]))
  }

  function Cancel(s: State, x: SessionId, k: LinkId, now: int): Option<State> {
    if !LiveSession(s, x, now) || k !in s.requests || s.requests[k].user != s.sessions[x].user then None
    else Some(s.(requests := s.requests - {k}))
  }

  predicate Collectable(s: State, x: SessionId, k: LinkId, now: int) {
    PartyLive(s, x, now) && Reachable(s, x, k, now) && s.requests[k].newcomer == x && s.requests[k].bundle.Some?
  }

  /** The bundle leaves with its row. */
  function Collect(s: State, x: SessionId, k: LinkId, now: int): Option<State> {
    if !Collectable(s, x, k, now) then None else Some(s.(requests := s.requests - {k}))
  }

  function Purge(s: State, now: int): State {
    s.(requests := map k | k in s.requests && s.requests[k].expires > now :: s.requests[k])
  }

  function DropSessions(s: State, gone: set<SessionId>): State {
    s.(sessions := s.sessions - gone, requests := map k | k in s.requests && s.requests[k].newcomer !in gone &&
      (s.requests[k].approver.Some? ==> s.requests[k].approver.value !in gone) :: s.requests[k])
  }

  /** An identity reset, and stripping an identity of its password copy, end the user's requests. */
  function DropUser(s: State, u: UserId): State {
    s.(requests := map k | k in s.requests && s.requests[k].user != u :: s.requests[k])
  }

  /** Logins add sessions, and sessions may end; a session's user and kind never change. */
  predicate SessionsMove(s: State, sessions: map<SessionId, Session>) {
    forall x <- s.sessions ::
      x in sessions && sessions[x].user == s.sessions[x].user && sessions[x].sso == s.sessions[x].sso
  }

  datatype Op =
    | OpCreate(x: SessionId, k: LinkId, commitment: Commitment)
    | OpClaim(x: SessionId, k: LinkId, key: Key)
    | OpReveal(x: SessionId, k: LinkId, key: Key)
    | OpApprove(x: SessionId, k: LinkId, bundle: Bundle, steppedUp: bool)
    | OpCancel(x: SessionId, k: LinkId)
    | OpCollect(x: SessionId, k: LinkId)
    | OpPurge
    | OpDropSessions(gone: set<SessionId>)
    | OpDropUser(user: UserId)
    | OpSessions(sessions: map<SessionId, Session>)
    | OpUsers(users: map<UserId, User>)

  function Apply(s: State, op: Op, now: int): Option<State> {
    match op
    case OpCreate(x, k, commitment) => Create(s, x, k, commitment, now)
    case OpClaim(x, k, key) => Claim(s, x, k, key, now)
    case OpReveal(x, k, key) => Reveal(s, x, k, key, now)
    case OpApprove(x, k, bundle, steppedUp) => Approve(s, x, k, bundle, steppedUp, now)
    case OpCancel(x, k) => Cancel(s, x, k, now)
    case OpCollect(x, k) => Collect(s, x, k, now)
    case OpPurge => Some(Purge(s, now))
    case OpDropSessions(gone) => Some(DropSessions(s, gone))
    case OpDropUser(u) => Some(DropUser(s, u))
    case OpSessions(sessions) => if SessionsMove(s, sessions) then Some(s.(sessions := sessions)) else None
    case OpUsers(users) => Some(s.(users := users))
  }

  // ---- One step's effect on one request ---------------------------------------------------------------

  /** Fields are set once and in order: approver, newcomer key, bundle. */
  ghost predicate RequestOk(r: Request) {
    && (r.approver.Some? <==> r.approverKey.Some?) && (r.approver.Some? ==> r.approver.value != r.newcomer)
    && (r.newcomerKey.Some? ==> r.approver.Some? && r.commitment == Commits(r.newcomerKey.value))
    && (r.bundle.Some? ==> r.newcomerKey.Some?)
  }

  /** By session x of the request's own user, before its expiry. */
  ghost predicate ByOwnSession(s: State, x: SessionId, user: UserId, expires: int, now: int) {
    x in s.sessions && s.sessions[x].user == user && now < expires
  }

  ghost predicate RequestStep(s: State, op: Op, now: int, s': State, k: LinkId)
    requires k in s'.requests
  {
    var r := s'.requests[k];
    if k !in s.requests || (op.OpCreate? && op.k == k) then
      op == OpCreate(r.newcomer, k, r.commitment) && ByOwnSession(s, r.newcomer, r.user, r.expires, now) &&
        r.approver.None? && r.approverKey.None? && r.newcomerKey.None? && r.bundle.None?
    else
      var was := s.requests[k];
      && r.user == was.user && r.newcomer == was.newcomer && r.commitment == was.commitment && r.expires == was.expires
      && ((r.approver == was.approver && r.approverKey == was.approverKey) ||
        (was.approver.None? && op.OpClaim? && op.k == k && r.approver == Some(op.x) && r.approverKey == Some(op.key) &&
        ByOwnSession(s, op.x, r.user, r.expires, now) && op.x != r.newcomer))
      && (r.newcomerKey == was.newcomerKey || (was.newcomerKey.None? && was.approver.Some? && r.newcomerKey.Some? &&
           op == OpReveal(r.newcomer, k, r.newcomerKey.value) && r.commitment == Commits(r.newcomerKey.value) &&
             ByOwnSession(s, op.x, r.user, r.expires, now)))
      && (r.bundle == was.bundle ||
        (was.bundle.None? && was.newcomerKey.Some? && r.bundle.Some? && was.approver.Some? &&
           op == OpApprove(was.approver.value, k, r.bundle.value, true) &&
             ByOwnSession(s, op.x, r.user, r.expires, now)))
  }

  lemma StepOfRequest(s: State, op: Op, now: int, k: LinkId)
    requires Apply(s, op, now).Some? && k in Apply(s, op, now).value.requests
    ensures RequestStep(s, op, now, Apply(s, op, now).value, k)
  {
    hide PendingOf, SessionsMove;
  }

  lemma StepKeepsRequest(s: State, op: Op, now: int, k: LinkId)
    requires Apply(s, op, now).Some? && k in Apply(s, op, now).value.requests
    requires k in s.requests ==> RequestOk(s.requests[k])
    ensures RequestOk(Apply(s, op, now).value.requests[k])
  {
    hide PendingOf, SessionsMove;
  }

  // ---- No more than three pending ---------------------------------------------------------------------

  /** Fewer rows, or a later reading, never more pending. */
  lemma PendingShrinks(requests: map<LinkId, Request>, fewer: map<LinkId, Request>, u: UserId, now: int, later: int)
    requires now <= later
    requires forall k <- fewer ::
      k in requests && fewer[k].user == requests[k].user && fewer[k].expires == requests[k].expires
    ensures |PendingOf(fewer, u, later)| <= |PendingOf(requests, u, now)|
  {
    Subset(PendingOf(fewer, u, later), PendingOf(requests, u, now));
  }

  lemma {:induction false} Subset(a: set<LinkId>, b: set<LinkId>)
    requires a <= b
    ensures |a| <= |b|
  {
    if a != {} {
      var x :| x in a;
      Subset(a - {x}, b - {x});
    }
  }

  /** What creating a request leaves pending, from what replacing the newcomer's earlier one left. */
  lemma CreatedPending(s: State, x: SessionId, k: LinkId, commitment: Commitment, now: int, u: UserId)
    requires Create(s, x, k, commitment, now).Some?
    ensures var kept := map r | r in s.requests && s.requests[r].newcomer != x :: s.requests[r];
      && PendingOf(Create(s, x, k, commitment, now).value.requests, u, now) ==
          PendingOf(kept, u, now) + (if u == s.sessions[x].user then {k} else {})
      && (u == s.sessions[x].user ==> |PendingOf(kept, u, now)| < MAX_PENDING)
  {
    hide PartyLive;
  }

  lemma CreateKeepsPendingBound(s: State, x: SessionId, k: LinkId, commitment: Commitment, clock: int, now: int,
      u: UserId)
    requires clock <= now && |PendingOf(s.requests, u, clock)| <= MAX_PENDING && Create(s, x, k, commitment, now).Some?
    ensures |PendingOf(Create(s, x, k, commitment, now).value.requests, u, now)| <= MAX_PENDING
  {
    var kept := map r | r in s.requests && s.requests[r].newcomer != x :: s.requests[r];
    CreatedPending(s, x, k, commitment, now, u);
    PendingShrinks(s.requests, kept, u, clock, now);
    hide PendingOf, Create;
  }

  lemma StepKeepsPendingBound(s: State, op: Op, clock: int, now: int, u: UserId)
    requires clock <= now && |PendingOf(s.requests, u, clock)| <= MAX_PENDING && Apply(s, op, now).Some?
    ensures |PendingOf(Apply(s, op, now).value.requests, u, now)| <= MAX_PENDING
  {
    hide PendingOf, SessionsMove, RequestOk;
    if op.OpCreate? {
      CreateKeepsPendingBound(s, op.x, op.k, op.commitment, clock, now, u);
    } else {
      hide Create;
      PendingShrinks(s.requests, Apply(s, op, now).value.requests, u, clock, now);
    }
  }

  // ---- Runs -------------------------------------------------------------------------------------------

  /** The state, every request ID ever minted, and the last clock reading. */
  datatype World = World(s: State, minted: set<LinkId>, clock: int)

  datatype Tick = Tick(op: Op, now: int)

  ghost predicate Start(w: World) {
    w.s.requests == map[] && w.minted == {}
  }

  ghost predicate Step(w: World, t: Tick, w': World) {
    && w.clock <= t.now == w'.clock && Apply(w.s, t.op, t.now) == Some(w'.s)
    && (t.op.OpCreate? ==> t.op.k !in w.minted) && w'.minted == w.minted + if t.op.OpCreate? then {t.op.k} else {}
  }

  ghost predicate Run(ws: seq<World>, ticks: seq<Tick>) {
    |ws| == |ticks| + 1 && Start(ws[0]) && forall i :: 0 <= i < |ticks| ==> Step(ws[i], ticks[i], ws[i + 1])
  }

  ghost predicate WorldInv(w: World) {
    w.s.requests.Keys <= w.minted && (forall k <- w.s.requests :: RequestOk(w.s.requests[k])) &&
    forall u :: |PendingOf(w.s.requests, u, w.clock)| <= MAX_PENDING
  }

  lemma StepKeepsWorld(w: World, t: Tick, w': World)
    requires WorldInv(w) && Step(w, t, w')
    ensures WorldInv(w')
  {
    hide Apply, RequestOk, PendingOf;
    forall k | k in w'.s.requests ensures RequestOk(w'.s.requests[k]) && k in w'.minted {
      StepKeepsRequest(w.s, t.op, t.now, k);
      StepOfRequest(w.s, t.op, t.now, k);
    }
    forall u ensures |PendingOf(w'.s.requests, u, w'.clock)| <= MAX_PENDING {
      StepKeepsPendingBound(w.s, t.op, w.clock, t.now, u);
    }
  }

  lemma {:induction false} RunKeepsWorld(ws: seq<World>, ticks: seq<Tick>, i: nat)
    requires Run(ws, ticks) && i < |ws|
    ensures WorldInv(ws[i])
  {
    hide Apply, RequestOk, WorldInv;
    if i == 0 {
      StartInv(ws[0]);
    } else {
      RunKeepsWorld(ws, ticks, i - 1);
      assert Step(ws[i - 1], ticks[i - 1], ws[i]);
      StepKeepsWorld(ws[i - 1], ticks[i - 1], ws[i]);
    }
  }

  lemma StartInv(w: World)
    requires Start(w)
    ensures WorldInv(w)
  {
    assert forall u :: PendingOf(w.s.requests, u, w.clock) == {};
  }

  /** At no time in any run does a user have more than three unexpired requests. */
  lemma AtMostThreePending(ws: seq<World>, ticks: seq<Tick>, i: nat, u: UserId, now: int)
    requires Run(ws, ticks) && i < |ws| && ws[i].clock <= now
    ensures |PendingOf(ws[i].s.requests, u, now)| <= 3
  {
    hide Apply, RequestOk;
    RunKeepsWorld(ws, ticks, i);
    PendingShrinks(ws[i].s.requests, ws[i].s.requests, u, ws[i].clock, now);
  }

  /** Request r was created at c, claimed at m if claimed, revealed at v if revealed, approved at p if approved. */
  ghost predicate Traced(ws: seq<World>, ticks: seq<Tick>, j: nat, k: LinkId, r: Request, c: nat, m: nat, v: nat,
      p: nat)
    requires |ws| == |ticks| + 1
  {
    && c < j <= |ticks| && ticks[c].op == OpCreate(r.newcomer, k, r.commitment) &&
      ByOwnSession(ws[c].s, r.newcomer, r.user, r.expires, ticks[c].now)
    && (r.approver.Some? ==>
      c < m < j && ticks[m].op.OpClaim? && ticks[m].op.k == k && ticks[m].op.x == r.approver.value &&
      r.approverKey == Some(ticks[m].op.key) &&
      ByOwnSession(ws[m].s, r.approver.value, r.user, r.expires, ticks[m].now))
    && (r.newcomerKey.Some? ==>
      c < m < v < j && ticks[v].op == OpReveal(r.newcomer, k, r.newcomerKey.value) &&
      ByOwnSession(ws[v].s, r.newcomer, r.user, r.expires, ticks[v].now))
    && (r.bundle.Some? ==>
      r.approver.Some? && c < m < v < p < j && ticks[p].op == OpApprove(r.approver.value, k, r.bundle.value, true) &&
      ByOwnSession(ws[p].s, r.approver.value, r.user, r.expires, ticks[p].now))
  }

  lemma {:induction false} Trace(ws: seq<World>, ticks: seq<Tick>, j: nat, k: LinkId) returns (c: nat, m: nat, v: nat,
      p: nat)
    requires Run(ws, ticks) && j < |ws| && k in ws[j].s.requests
    ensures Traced(ws, ticks, j, k, ws[j].s.requests[k], c, m, v, p)
  {
    hide Apply, PendingOf, ByOwnSession;
    var q := j - 1;
    assert Step(ws[q], ticks[q], ws[j]);
    StepOfRequest(ws[q].s, ticks[q].op, ticks[q].now, k);
    RunKeepsWorld(ws, ticks, q);
    if k !in ws[q].s.requests {
      c, m, v, p := q, 0, 0, 0;
    } else {
      c, m, v, p := Trace(ws, ticks, q, k);
      var r, was := ws[j].s.requests[k], ws[q].s.requests[k];
      if r.approver != was.approver || r.approverKey != was.approverKey {
        m := q;
      }
      if r.newcomerKey != was.newcomerKey {
        v := q;
      }
      if r.bundle != was.bundle {
        p := q;
      }
    }
  }

  lemma {:induction false} GoneStaysGone(ws: seq<World>, ticks: seq<Tick>, i: nat, j: nat, k: LinkId)
    requires Run(ws, ticks) && i <= j < |ws| && k in ws[i].minted && k !in ws[i].s.requests
    ensures k in ws[j].minted && k !in ws[j].s.requests
    decreases j
  {
    hide Apply;
    if i < j {
      GoneStaysGone(ws, ticks, i, j - 1, k);
      assert Step(ws[j - 1], ticks[j - 1], ws[j]);
      if k in ws[j].s.requests {
        StepOfRequest(ws[j - 1].s, ticks[j - 1].op, ticks[j - 1].now, k);
      }
    }
  }

  /**
   * A bundle that leaves goes to the session that created the request, after a claim by a different session of the
   * same user, whose key the request shows, the revealing of the very key committed to, and approval, stepped up, by
   * that claiming session, in that order and all before expiry.
   */
  lemma BundleWasEarned(ws: seq<World>, ticks: seq<Tick>, j: nat) returns (c: nat, m: nat, v: nat, p: nat)
    requires Run(ws, ticks) && j < |ticks| && ticks[j].op.OpCollect?
    ensures ticks[j].op.k in ws[j].s.requests && ws[j].s.requests[ticks[j].op.k].bundle.Some?
    ensures var x, k := ticks[j].op.x, ticks[j].op.k; var r := ws[j].s.requests[k];
      c < m < v < p < j && ticks[c].op.OpCreate? && ticks[c].op.x == x && ticks[c].op.k == k &&
      ticks[m].op.OpClaim? && ticks[m].op.k == k && ticks[m].op.x != x && r.approverKey == Some(ticks[m].op.key) &&
        ByOwnSession(ws[m].s, ticks[m].op.x, r.user, r.expires, ticks[m].now) &&
      ticks[v].op.OpReveal? && ticks[v].op.x == x && ticks[v].op.k == k &&
        ticks[c].op.commitment == Commits(ticks[v].op.key) &&
      ticks[p].op == OpApprove(ticks[m].op.x, k, r.bundle.value, true) && ticks[p].now < r.expires &&
        ticks[j].now < r.expires &&
      ByOwnSession(ws[c].s, x, r.user, r.expires, ticks[c].now) &&
        ByOwnSession(ws[j].s, x, r.user, r.expires, ticks[j].now)
  {
    hide PendingOf;
    var k := ticks[j].op.k;
    assert Step(ws[j], ticks[j], ws[j + 1]);
    RunKeepsWorld(ws, ticks, j);
    c, m, v, p := Trace(ws, ticks, j, k);
    assert RequestOk(ws[j].s.requests[k]);
  }

  /** And it leaves at most once. */
  lemma BundleLeavesOnce(ws: seq<World>, ticks: seq<Tick>, i: nat, j: nat)
    requires Run(ws, ticks) && i < j < |ticks| && ticks[i].op.OpCollect? && ticks[j].op.OpCollect?
    ensures ticks[i].op.k != ticks[j].op.k
  {
    hide PendingOf, PartyLive;
    assert Step(ws[i], ticks[i], ws[i + 1]);
    assert Step(ws[j], ticks[j], ws[j + 1]);
    RunKeepsWorld(ws, ticks, i);
    GoneStaysGone(ws, ticks, i + 1, j, ticks[i].op.k);
  }
}
