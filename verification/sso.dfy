/**
 * Sign-on through an OpenID Connect issuer and its back-channel logout (OpenID Connect Back-Channel
 * Logout 1.0, section 2.7): a logout revokes what exists and fences off what is still on its way.
 * Clock readings are nanoseconds; the tables keep whole seconds.
 */
module Sso {
  import opened Outcome

  newtype UserId = n: int | 0 <= n
  newtype SessionId = n: int | 0 <= n
  newtype DeviceId = n: int | 0 <= n

  const SECOND := 1_000_000_000
  const LOGIN_LIFETIME := 300 * SECOND

  /** time.Unix of a clock reading. */
  function Unix(t: int): int {
    t / SECOND
  }

  datatype Settings = Settings(enabled: bool, issuer: string, client: string)
  datatype User = User(active: bool, admin: bool, issuer: string, subject: string)
  datatype Session = Session(
    user: UserId, issuer: string, client: string, subject: string, sid: string, issuedAt: int, appAdmin: bool,
      expires: int, revoked: bool)
  datatype Device = Device(user: UserId, origin: Option<SessionId>, revoked: bool)
  datatype Account = Account(issuer: string, subject: string)
  datatype EventKey = EventKey(issuer: string, client: string, jti: string)
  datatype Event = Event(subject: string, sid: string, issuedAt: int, retainUntil: int)

  /** An issuer-verified login, with the reading by which it must have committed. */
  datatype Identity = Identity(issuer: string, client: string, subject: string, sid: string, issuedAt: int,
    expires: int, appAdmin: bool)

  /** A verified logout token. */
  datatype Claims = Claims(issuer: string, jti: string, subject: string, sid: string, issuedAt: int, replayUntil: int)

  datatype State = State(
    settings: Settings,
    users: map<UserId, User>,
    cutoffs: map<Account, int>,
    sessions: map<SessionId, Session>,
    devices: map<DeviceId, Device>,
    events: map<EventKey, Event>)

  // ---- The two predicates -------------------------------------------------------------------------

  /** What the logout's UPDATE matches among sessions of its issuer and client. */
  predicate RevocationScope(c: Claims, subject: string, sid: string, issuedAt: int) {
    || (c.sid != "" && sid == c.sid && (c.subject == "" || subject == c.subject))
    || (c.subject != "" && sid == "" && subject == c.subject && issuedAt <= Unix(c.issuedAt))
    || (c.sid == "" && subject == c.subject && issuedAt <= Unix(c.issuedAt))
  }

  /** What a recorded event keeps a login from committing. */
  predicate FencedBy(e: Event, subject: string, sid: string, issuedAt: int) {
    || (e.sid != "" && e.sid == sid && (e.subject == "" || e.subject == subject))
    || (sid == "" && e.subject != "" && e.subject == subject && e.issuedAt >= issuedAt)
    || (e.sid == "" && e.subject == subject && e.issuedAt >= issuedAt)
  }

  function EventOf(c: Claims, retainUntil: int): Event {
    Event(c.subject, c.sid, Unix(c.issuedAt), retainUntil)
  }

  /** For all values the two say the same. */
  lemma ScopeIsFence(c: Claims, retainUntil: int, subject: string, sid: string, issuedAt: int)
    ensures RevocationScope(c, subject, sid, issuedAt) <==> FencedBy(EventOf(c, retainUntil), subject, sid, issuedAt)
  {
  }

  // ---- Transactions -------------------------------------------------------------------------------

  predicate Fenced(s: State, id: Identity, now: int) {
    exists k <- s.events :: k.issuer == id.issuer && k.client == id.client && s.events[k].retainUntil >= Unix(now) &&
      FencedBy(s.events[k], id.subject, id.sid, Unix(id.issuedAt))
  }

  /** checkSSOIdentityTx; the directory's revocations and role-change cutoffs are one table here. */
  predicate IdentityOk(s: State, user: UserId, id: Identity, now: int) {
    && user in s.users && s.users[user].active && s.users[user].issuer == id.issuer &&
      s.users[user].subject == id.subject
    && (Account(id.issuer, id.subject) in s.cutoffs ==> s.cutoffs[Account(id.issuer, id.subject)] < Unix(id.issuedAt))
    && s.settings.enabled && s.settings.issuer == id.issuer && s.settings.client == id.client
    && !Fenced(s, id, now)
  }

  function SessionOf(user: UserId, id: Identity, sessionExpires: int): Session {
    Session(user, id.issuer, id.client, id.subject, id.sid, Unix(id.issuedAt), id.appAdmin, sessionExpires, false)
  }

  /** MintSSOSession */
  function Mint(s: State, session: SessionId, user: UserId, id: Identity, sessionExpires: int,
      now: int): Option<State> {
    if id.issuer == "" || id.client == "" || id.subject == "" || now >= id.expires || !IdentityOk(s, user, id, now) ||
      session in s.sessions then None
    else Some(s.(sessions := s.sessions[session := SessionOf(user, id, sessionExpires)]))
  }

  predicate InScope(c: Claims, client: string, row: Session) {
    row.issuer == c.issuer && row.client == client && RevocationScope(c, row.subject, row.sid, row.issuedAt)
  }

  function Retain(c: Claims, now: int): int {
    Unix(if c.replayUntil > now + LOGIN_LIFETIME then c.replayUntil else now + LOGIN_LIFETIME) + 1
  }

  function Pruned(s: State, now: int): map<EventKey, Event> {
    map k | k in s.events && s.events[k].retainUntil >= Unix(now) :: s.events[k]
  }

  function RevokedSessions(s: State, c: Claims, client: string): map<SessionId, Session> {
    map x | x in s.sessions ::
      if InScope(c, client, s.sessions[x]) then s.sessions[x].(revoked := true) else s.sessions[x]
  }

  /** A device whose authorizing session of the same user is in scope, and revoked. */
  predicate DerivedInScope(sessions: map<SessionId, Session>, c: Claims, client: string, d: Device) {
    d.origin.Some? && d.origin.value in sessions && sessions[d.origin.value].user == d.user &&
      sessions[d.origin.value].revoked &&
    InScope(c, client, sessions[d.origin.value])
  }

  predicate LogoutAdmitted(s: State, c: Claims, client: string, now: int) {
    now < c.replayUntil && s.settings.issuer == c.issuer && s.settings.client == client &&
      EventKey(c.issuer, client, c.jti) !in Pruned(s, now)
  }

  /** ApplySSOLogout */
  function Logout(s: State, c: Claims, client: string, now: int): Option<State> {
    if !LogoutAdmitted(s, c, client, now) then None
    else
      var sessions := RevokedSessions(s, c, client);
      Some(s.(events := Pruned(s, now)[EventKey(c.issuer, client, c.jti) := EventOf(c, Retain(c, now))],
        sessions := sessions,
        devices := map d | d in s.devices ::
          if DerivedInScope(sessions, c, client, s.devices[d]) then s.devices[d].(revoked := true) else s.devices[d]))
  }

  /** Pairing binds the device to the live session that authorized it. */
  function Pair(s: State, d: DeviceId, session: SessionId): Option<State> {
    if !(session in s.sessions && !s.sessions[session].revoked) then None
    else if d in s.devices && s.devices[d].user != s.sessions[session].user then None
    else Some(s.(devices := s.devices[d := Device(s.sessions[session].user, Some(session), false)]))
  }

  function EndSession(s: State, session: SessionId): Option<State> {
    if session !in s.sessions then None
      else Some(s.(sessions := s.sessions[session := s.sessions[session].(revoked := true)]))
  }

  datatype Op =
    | OpMint(session: SessionId, user: UserId, identity: Identity, begun: int, sessionExpires: int)
    | OpLogout(claims: Claims, client: string)
    | OpPair(device: DeviceId, session: SessionId)
    | OpEnd(session: SessionId)
    | OpUsers(users: map<UserId, User>)
    | OpSettings(settings: Settings)
    | OpCutoffs(cutoffs: map<Account, int>)

  function Apply(s: State, op: Op, now: int): Option<State> {
    match op
    case OpMint(session, user, id, _, sessionExpires) => Mint(s, session, user, id, sessionExpires, now)
    case OpLogout(c, client) => Logout(s, c, client, now)
    case OpPair(d, session) => Pair(s, d, session)
    case OpEnd(session) => EndSession(s, session)
    case OpUsers(users) => Some(s.(users := users))
    case OpSettings(settings) => Some(s.(settings := settings))
    case OpCutoffs(cutoffs) => Some(s.(cutoffs := cutoffs))
  }

  // ---- Login and logout commute ---------------------------------------------------------------------

  function Live(s: State): map<SessionId, Session> {
    map x | x in s.sessions && !s.sessions[x].revoked :: s.sessions[x]
  }

  function After(s: State, r: Option<State>): State {
    if r.Some? then r.value else s
  }

  /** The live sessions outside a logout's scope. */
  function Outside(s: State, c: Claims, client: string): map<SessionId, Session> {
    map x | x in s.sessions && !s.sessions[x].revoked && !InScope(c, client, s.sessions[x]) :: s.sessions[x]
  }

  /** A logout leaves exactly them. */
  lemma LogoutLeaves(s: State, c: Claims, client: string, now: int)
    requires LogoutAdmitted(s, c, client, now)
    ensures Live(After(s, Logout(s, c, client, now))) == Outside(s, c, client)
  {
    hide InScope;
  }

  /** A login adds its session to them, unless that is in the scope itself. */
  lemma MintOutside(s: State, session: SessionId, user: UserId, id: Identity, sessionExpires: int, c: Claims,
      client: string, now: int)
    requires session !in s.sessions && Mint(s, session, user, id, sessionExpires, now).Some?
    ensures var row := SessionOf(user, id, sessionExpires);
      Outside(Mint(s, session, user, id, sessionExpires, now).value, c, client) ==
        if InScope(c, client, row) then Outside(s, c, client) else Outside(s, c, client)[session := row]
  {
    hide IdentityOk, InScope;
  }

  /** For a login begun no later than the logout, the logout's fence is all that stands between. */
  lemma FenceAfterLogout(s: State, id: Identity, c: Claims, client: string, begun: int, at: int, now: int)
    requires LogoutAdmitted(s, c, client, at) && begun <= at <= now < id.expires <= begun + LOGIN_LIFETIME
    requires id.issuer != "" && id.client != ""
    ensures var s' := After(s, Logout(s, c, client, at));
      Fenced(s', id, now) <==> (Fenced(s, id, now) ||
        (c.issuer == id.issuer && client == id.client && RevocationScope(c, id.subject, id.sid, Unix(id.issuedAt))))
  {
    var s', key := After(s, Logout(s, c, client, at)), EventKey(c.issuer, client, c.jti);
    ScopeIsFence(c, Retain(c, at), id.subject, id.sid, Unix(id.issuedAt));
    RetainsPast(c, at, now);
    assert Unix(at) <= Unix(now);
    hide FencedBy, RevocationScope, Retain, Unix;
    forall k | k in s.events && s.events[k].retainUntil >= Unix(now)
      ensures k in s'.events && (k != key ==> s'.events[k] == s.events[k])
    {
    }
    if Fenced(s, id, now) {
      var k :| k in s.events && k.issuer == id.issuer && k.client == id.client &&
        s.events[k].retainUntil >= Unix(now) &&
        FencedBy(s.events[k], id.subject, id.sid, Unix(id.issuedAt));
      assert k in Pruned(s, at) && k != key;
      assert s'.events[k] == s.events[k];
    }
    if c.issuer == id.issuer && client == id.client && RevocationScope(c, id.subject, id.sid, Unix(id.issuedAt)) {
      assert s'.events[key] == EventOf(c, Retain(c, at));
    }
  }

  /** A fence outlasts every reading up to a login lifetime after its logout. */
  lemma RetainsPast(c: Claims, now: int, later: int)
    requires later <= now + LOGIN_LIFETIME
    ensures Retain(c, now) > Unix(later)
  {
  }

  lemma MintLive(s: State, session: SessionId, user: UserId, id: Identity, sessionExpires: int, now: int)
    requires session !in s.sessions
    ensures var r := Mint(s, session, user, id, sessionExpires, now);
      Live(After(s, r)) == if r.Some? then Live(s)[session := SessionOf(user, id, sessionExpires)] else Live(s)
  {
    hide IdentityOk;
  }

  /** After the logout the login is refused if it would be without it, or if it is in the logout's scope. */
  lemma MintAfterLogout(s: State, session: SessionId, user: UserId, id: Identity, sessionExpires: int, c: Claims,
      client: string, begun: int, at: int, now: int)
    requires LogoutAdmitted(s, c, client, at) && begun <= at <= now && id.expires <= begun + LOGIN_LIFETIME &&
      session !in s.sessions
    ensures Mint(After(s, Logout(s, c, client, at)), session, user, id, sessionExpires, now).Some? <==>
      Mint(s, session, user, id, sessionExpires, now).Some? && !InScope(c, client, SessionOf(user, id, sessionExpires))
  {
    hide Fenced, RevocationScope, Pruned, Retain, RevokedSessions;
    KeepsSessionKeys(s, c, client, session);
    if id.issuer != "" && id.client != "" && now < id.expires {
      FenceAfterLogout(s, id, c, client, begun, at, now);
    }
  }

  lemma KeepsSessionKeys(s: State, c: Claims, client: string, session: SessionId)
    requires session !in s.sessions
    ensures session !in RevokedSessions(s, c, client)
  {
  }

  /** A login changes nothing a logout's admission looks at. */
  lemma MintSparesLogout(s: State, session: SessionId, user: UserId, id: Identity, sessionExpires: int, c: Claims,
      client: string, now: int, at: int)
    ensures LogoutAdmitted(After(s, Mint(s, session, user, id, sessionExpires, now)), c, client, at) ==
      LogoutAdmitted(s, c, client, at)
  {
    hide IdentityOk;
  }

  lemma CommuteWhenAdmitted(s: State, session: SessionId, user: UserId, id: Identity, sessionExpires: int, c: Claims,
      client: string, begun: int, login: int, thenLogout: int, logout: int, thenLogin: int)
    requires begun <= logout <= thenLogin && id.expires <= begun + LOGIN_LIFETIME && session !in s.sessions
    requires Mint(s, session, user, id, sessionExpires, login).Some? ==
      Mint(s, session, user, id, sessionExpires, thenLogin).Some?
    requires LogoutAdmitted(s, c, client, thenLogout) && LogoutAdmitted(s, c, client, logout)
    ensures var loginFirst := After(s, Mint(s, session, user, id, sessionExpires, login));
      var logoutFirst := After(s, Logout(s, c, client, logout));
      Live(After(loginFirst, Logout(loginFirst, c, client, thenLogout))) ==
        Live(After(logoutFirst, Mint(logoutFirst, session, user, id, sessionExpires, thenLogin)))
  {
    var loginFirst := After(s, Mint(s, session, user, id, sessionExpires, login));
    var logoutFirst := After(s, Logout(s, c, client, logout));
    assert session !in logoutFirst.sessions by { KeepsSessionKeys(s, c, client, session); }
    hide Mint, Logout, Live, Outside, InScope, LogoutAdmitted;
    MintSparesLogout(s, session, user, id, sessionExpires, c, client, login, thenLogout);
    LogoutLeaves(loginFirst, c, client, thenLogout);
    MintLive(logoutFirst, session, user, id, sessionExpires, thenLogin);
    LogoutLeaves(s, c, client, logout);
    MintAfterLogout(s, session, user, id, sessionExpires, c, client, begun, logout, thenLogin);
    if Mint(s, session, user, id, sessionExpires, login).Some? {
      MintOutside(s, session, user, id, sessionExpires, c, client, login);
    }
  }

  /** Two clock readings fall on the same side of the login's deadline and of the end of each fence of its kind. */
  predicate SameForLogin(s: State, id: Identity, a: int, b: int) {
    (a < id.expires <==> b < id.expires) &&
    forall k <- s.events :: k.issuer == id.issuer && k.client == id.client ==>
      (s.events[k].retainUntil >= Unix(a) <==> s.events[k].retainUntil >= Unix(b))
  }

  /** Two readings fall on the same side of the token's deadline and of the end of its own record. */
  predicate SameForLogout(s: State, c: Claims, client: string, a: int, b: int) {
    var key := EventKey(c.issuer, client, c.jti);
    (a < c.replayUntil <==> b < c.replayUntil) &&
    (key in s.events ==> (s.events[key].retainUntil >= Unix(a) <==> s.events[key].retainUntil >= Unix(b)))
  }

  lemma SameMint(s: State, session: SessionId, user: UserId, id: Identity, sessionExpires: int, a: int, b: int)
    requires SameForLogin(s, id, a, b)
    ensures Mint(s, session, user, id, sessionExpires, a).Some? == Mint(s, session, user, id, sessionExpires, b).Some?
  {
    hide Unix;
    assert Fenced(s, id, a) == Fenced(s, id, b) by { hide FencedBy; }
    hide Fenced;
  }

  lemma SameAdmission(s: State, c: Claims, client: string, a: int, b: int)
    requires SameForLogout(s, c, client, a, b)
    ensures LogoutAdmitted(s, c, client, a) == LogoutAdmitted(s, c, client, b)
  {
    hide Unix;
  }

  /**
   * Whichever commits first, a login begun before the logout and the logout leave the same live sessions: the new
   * one is revoked in one order and refused in the other, or untouched in both. Each order has its own two clock
   * readings; all that is asked is that between the orders no deadline, and no earlier fence's end, is passed.
   */
  lemma LoginAndLogoutCommute(s: State, session: SessionId, user: UserId, id: Identity, sessionExpires: int, c: Claims,
      client: string, begun: int, login: int, thenLogout: int, logout: int, thenLogin: int)
    requires begun <= logout <= thenLogin && id.expires <= begun + LOGIN_LIFETIME && session !in s.sessions
    requires SameForLogin(s, id, login, thenLogin) && SameForLogout(s, c, client, thenLogout, logout)
    ensures var loginFirst := After(s, Mint(s, session, user, id, sessionExpires, login));
      var logoutFirst := After(s, Logout(s, c, client, logout));
      Live(After(loginFirst, Logout(loginFirst, c, client, thenLogout))) ==
        Live(After(logoutFirst, Mint(logoutFirst, session, user, id, sessionExpires, thenLogin)))
  {
    hide Mint, LogoutAdmitted, SameForLogin, SameForLogout, Live;
    SameMint(s, session, user, id, sessionExpires, login, thenLogin);
    SameAdmission(s, c, client, thenLogout, logout);
    if LogoutAdmitted(s, c, client, logout) {
      CommuteWhenAdmitted(s, session, user, id, sessionExpires, c, client, begun, login, thenLogout, logout, thenLogin);
    } else {
      MintSparesLogout(s, session, user, id, sessionExpires, c, client, login, thenLogout);
      MintLive(s, session, user, id, sessionExpires, login);
      MintLive(s, session, user, id, sessionExpires, thenLogin);
    }
  }

  // ---- Runs -------------------------------------------------------------------------------------------

  /** A logout that was applied, and when. */
  datatype Applied = Applied(claims: Claims, client: string, at: int)

  /** The tables, every logout ever applied, when each session's login began, and the last clock reading. */
  datatype World = World(s: State, applied: set<Applied>, begun: map<SessionId, int>, clock: int)

  ghost predicate Start(w: World) {
    w.s.sessions == map[] && w.s.devices == map[] && w.s.events == map[] && w.applied == {} && w.begun == map[]
  }

  /** One committed transaction at a clock reading no earlier than the last. A login began before it
      commits and its deadline is within a login lifetime of its beginning. */
  ghost predicate Step(w: World, op: Op, now: int, w': World) {
    && w.clock <= now && w'.clock == now && Apply(w.s, op, now) == Some(w'.s)
    && (op.OpMint? ==> op.begun <= now && op.identity.expires <= op.begun + LOGIN_LIFETIME)
    && w'.applied == w.applied + (if op.OpLogout? then {Applied(op.claims, op.client, now)} else {})
    && w'.begun == if op.OpMint? then w.begun[op.session := op.begun] else w.begun
  }

  datatype Tick = Tick(op: Op, now: int)

  ghost predicate Run(ws: seq<World>, ticks: seq<Tick>) {
    |ws| == |ticks| + 1 && Start(ws[0]) &&
      forall i :: 0 <= i < |ticks| ==> Step(ws[i], ticks[i].op, ticks[i].now, ws[i + 1])
  }

  /** The logout's scope covers the session, whose login had begun by then. */
  ghost predicate Ended(w: World, a: Applied, x: SessionId)
    requires x in w.s.sessions && x in w.begun
  {
    InScope(a.claims, a.client, w.s.sessions[x]) && w.begun[x] <= a.at
  }

  /** An applied logout is in the past, and its event is kept while any login begun before it can commit
      and while its own token can still be presented. */
  ghost predicate Recorded(w: World, a: Applied) {
    var key := EventKey(a.claims.issuer, a.client, a.claims.jti);
    && a.at <= w.clock
    && (Unix(w.clock) < Unix(a.at + LOGIN_LIFETIME) + 1 || w.clock < a.claims.replayUntil ==>
      key in w.s.events && w.s.events[key] == EventOf(a.claims, Retain(a.claims, a.at)))
  }

  ghost predicate SessionOk(w: World, x: SessionId)
    requires x in w.s.sessions
  {
    x in w.begun && forall a <- w.applied :: Ended(w, a, x) ==> w.s.sessions[x].revoked
  }

  /** A live device's session was live when it was paired; a logout that ended the session ended it. */
  ghost predicate DeviceOk(w: World, d: DeviceId)
    requires d in w.s.devices
  {
    w.s.devices[d].origin.Some? ==>
      var x := w.s.devices[d].origin.value;
      x in w.s.sessions && x in w.begun && w.s.sessions[x].user == w.s.devices[d].user &&
        forall a <- w.applied :: Ended(w, a, x) ==> w.s.devices[d].revoked
  }

  ghost predicate WorldInv(w: World) {
    && (forall a <- w.applied :: Recorded(w, a))
    && (forall x <- w.s.sessions :: SessionOk(w, x))
    && (forall d <- w.s.devices :: DeviceOk(w, d))
  }

  lemma StepRecords(w: World, op: Op, now: int, w': World)
    requires WorldInv(w) && Step(w, op, now, w')
    ensures forall a <- w'.applied :: Recorded(w', a)
  {
    hide InScope, IdentityOk, SessionOk, DeviceOk, RevokedSessions;
    forall a | a in w'.applied ensures Recorded(w', a) {
      if a in w.applied {
        assert Recorded(w, a);
        UnixMonotone(w.clock, now);
        RetainCovers(a.claims, a.at, now);
      }
    }
  }

  lemma UnixMonotone(a: int, b: int)
    requires a <= b
    ensures Unix(a) <= Unix(b)
  {
  }

  lemma RetainCovers(c: Claims, at: int, now: int)
    ensures Unix(now) < Unix(at + LOGIN_LIFETIME) + 1 || now < c.replayUntil ==> Unix(now) <= Retain(c, at)
  {
  }

  lemma StepKeepsSessions(w: World, op: Op, now: int, w': World)
    requires WorldInv(w) && Step(w, op, now, w')
    ensures forall x <- w'.s.sessions :: SessionOk(w', x)
  {
    hide InScope, Recorded, DeviceOk, Pruned, Retain, Unix;
    if op.OpMint? {
      MintedIsNotEnded(w, op, now, w');
      hide IdentityOk;
    }
    forall x | x in w'.s.sessions ensures SessionOk(w', x) {
      assert x in w.s.sessions ==> SessionOk(w, x);
    }
  }

  /** A login that commits is in the scope of no logout applied since it began. */
  lemma MintedIsNotEnded(w: World, op: Op, now: int, w': World)
    requires WorldInv(w) && Step(w, op, now, w') && op.OpMint?
    ensures op.session in w'.s.sessions && op.session in w'.begun && forall a <- w.applied :: !Ended(w', a, op.session)
  {
    hide SessionOk, DeviceOk;
    forall a | a in w.applied ensures !Ended(w', a, op.session) {
      var key := EventKey(a.claims.issuer, a.client, a.claims.jti);
      assert Recorded(w, a);
      ScopeIsFence(a.claims, Retain(a.claims, a.at), op.identity.subject, op.identity.sid, Unix(op.identity.issuedAt));
      if op.begun <= a.at {
        UnixMonotone(w.clock, a.at + LOGIN_LIFETIME);
        RetainsPast(a.claims, a.at, now);
        hide FencedBy, RevocationScope, Retain, Unix;
        assert key in w.s.events;
      }
    }
  }

  lemma StepKeepsDevices(w: World, op: Op, now: int, w': World)
    requires WorldInv(w) && Step(w, op, now, w')
    ensures forall d <- w'.s.devices :: DeviceOk(w', d)
  {
    hide RevocationScope, Recorded, IdentityOk, Pruned, Retain, Unix, LogoutAdmitted;
    forall d | d in w'.s.devices ensures DeviceOk(w', d) {
      assert d in w.s.devices ==> DeviceOk(w, d);
      if op.OpPair? && d == op.device {
        assert SessionOk(w, op.session);
      }
    }
  }

  lemma {:induction false} RunKeepsWorld(ws: seq<World>, ticks: seq<Tick>, i: nat)
    requires Run(ws, ticks) && i < |ws|
    ensures WorldInv(ws[i])
  {
    hide Recorded, SessionOk, DeviceOk, Apply;
    if i > 0 {
      RunKeepsWorld(ws, ticks, i - 1);
      assert Step(ws[i - 1], ticks[i - 1].op, ticks[i - 1].now, ws[i]);
      StepRecords(ws[i - 1], ticks[i - 1].op, ticks[i - 1].now, ws[i]);
      StepKeepsSessions(ws[i - 1], ticks[i - 1].op, ticks[i - 1].now, ws[i]);
      StepKeepsDevices(ws[i - 1], ticks[i - 1].op, ticks[i - 1].now, ws[i]);
    }
  }

  /**
   * In no order of commits, ever, is a session live, or a device paired from it, that an applied
   * logout covers and whose login had begun when the logout was applied.
   */
  lemma NoSessionSurvivesItsLogout(ws: seq<World>, ticks: seq<Tick>, i: nat, a: Applied, x: SessionId)
    requires Run(ws, ticks) && i < |ws| && a in ws[i].applied && x in ws[i].s.sessions
    ensures x in ws[i].begun
    ensures InScope(a.claims, a.client, ws[i].s.sessions[x]) && ws[i].begun[x] <= a.at ==>
      ws[i].s.sessions[x].revoked &&
        forall d <- ws[i].s.devices :: ws[i].s.devices[d].origin == Some(x) ==> ws[i].s.devices[d].revoked
  {
    hide Step, InScope;
    RunKeepsWorld(ws, ticks, i);
    assert SessionOk(ws[i], x);
    forall d | d in ws[i].s.devices && ws[i].s.devices[d].origin == Some(x) && Ended(ws[i], a, x)
      ensures ws[i].s.devices[d].revoked
    {
      assert DeviceOk(ws[i], d);
    }
  }

  /** A logout token is applied at most once, whatever is pruned in between. */
  lemma LogoutTokenAppliesOnce(ws: seq<World>, ticks: seq<Tick>, i: nat, j: nat)
    requires Run(ws, ticks) && i < j < |ticks| && ticks[i].op.OpLogout? && ticks[j].op.OpLogout?
    ensures ticks[i].op.claims != ticks[j].op.claims || ticks[i].op.client != ticks[j].op.client
  {
    hide WorldInv, InScope, RevokedSessions;
    var a := Applied(ticks[i].op.claims, ticks[i].op.client, ticks[i].now);
    assert Step(ws[i], ticks[i].op, ticks[i].now, ws[i + 1]);
    AppliedStays(ws, ticks, i + 1, j, a);
    assert Step(ws[j], ticks[j].op, ticks[j].now, ws[j + 1]);
    RunKeepsWorld(ws, ticks, j);
    RecordedOf(ws[j], a);
    RetainCovers(a.claims, a.at, ticks[j].now);
  }

  lemma RecordedOf(w: World, a: Applied)
    requires WorldInv(w) && a in w.applied
    ensures Recorded(w, a)
  {
  }

  lemma {:induction false} AppliedStays(ws: seq<World>, ticks: seq<Tick>, i: nat, j: nat, a: Applied)
    requires Run(ws, ticks) && i <= j < |ws| && a in ws[i].applied
    ensures a in ws[j].applied
    decreases j
  {
    hide Apply;
    if i < j {
      AppliedStays(ws, ticks, i, j - 1, a);
      assert Step(ws[j - 1], ticks[j - 1].op, ticks[j - 1].now, ws[j]);
    }
  }
}
