/**
 * The relay request by request: when each step commits, what it leaves of every request, and that a link carried
 * through in time by its two sessions succeeds.
 */
module LinkTables {
  import opened Outcome
  import opened Link

  function At<K, V>(m: map<K, V>, k: K): Option<V> {
    if k in m then Some(m[k]) else None
  }

  // ---- When a step commits ------------------------------------------------------------------------

  /** A session neither revoked nor expired. */
  predicate Up(s: State, x: SessionId, now: int) {
    x in s.sessions && !s.sessions[x].revoked && now < s.sessions[x].expires
  }

  predicate Known(s: State, x: SessionId) {
    x in s.sessions && s.sessions[x].user in s.users
  }

  /** Whoever signed on, or has a password no administrator knows. */
  predicate Private(s: State, x: SessionId)
    requires Known(s, x)
  {
    s.sessions[x].sso || !s.users[s.sessions[x].user].adminKnown
  }

  /** An unexpired request of the session's user. */
  predicate Sees(s: State, x: SessionId, k: LinkId, now: int) {
    x in s.sessions && k in s.requests && s.requests[k].user == s.sessions[x].user && now < s.requests[k].expires
  }

  /** The requests of u that are still on once x has given up its own. */
  ghost function Others(s: State, u: UserId, x: SessionId, now: int): set<LinkId> {
    set k | k in s.requests && s.requests[k].user == u && s.requests[k].newcomer != x && now < s.requests[k].expires
  }

  ghost predicate MayCommit(s: State, op: Op, now: int) {
    match op
    case OpCreate(x, k, _) =>
      && Known(s, x) && Up(s, x, now) && Private(s, x) && s.users[s.sessions[x].user].hasIdentity
      && |Others(s, s.sessions[x].user, x, now)| < 3 && (k in s.requests ==> s.requests[k].newcomer == x)
    case OpClaim(x, k, _) =>
      && Known(s, x) && Up(s, x, now) && Private(s, x) && Sees(s, x, k, now)
      && x != s.requests[k].newcomer && s.requests[k].approver.None? && Up(s, s.requests[k].newcomer, now)
    case OpReveal(x, k, _) =>
      && Known(s, x) && Up(s, x, now) && Private(s, x) && Sees(s, x, k, now)
      && x == s.requests[k].newcomer && s.requests[k].approverKey.Some? && s.requests[k].newcomerKey.None?
      && s.requests[k].approver.Some? && Up(s, s.requests[k].approver.value, now)
    case OpApprove(x, k, _, steppedUp) =>
      && steppedUp && Known(s, x) && Up(s, x, now) && Private(s, x) && Sees(s, x, k, now)
      && s.requests[k].approver == Some(x) && s.requests[k].newcomerKey.Some? && s.requests[k].bundle.None?
      && Up(s, s.requests[k].newcomer, now)
    case OpCancel(x, k) =>
      Known(s, x) && Up(s, x, now) && k in s.requests && s.requests[k].user == s.sessions[x].user
    case OpCollect(x, k) =>
      && Known(s, x) && Up(s, x, now) && Private(s, x) && Sees(s, x, k, now)
      && x == s.requests[k].newcomer && s.requests[k].bundle.Some?
    case OpSessions(sessions) =>
      forall x <- s.sessions ::
        x in sessions && sessions[x].user == s.sessions[x].user && sessions[x].sso == s.sessions[x].sso
    case OpPurge => true
    case OpDropSessions(_) => true
    case OpDropUser(_) => true
    case OpUsers(_) => true
  }

  // ---- Reference: one request after one committed step --------------------------------------------

  /** What takes the request away. */
  predicate Ends(op: Op, now: int, k: LinkId, r: Request) {
    || ((op.OpCancel? || op.OpCollect?) && op.k == k)
    || (op.OpReveal? && op.k == k && r.commitment != Commits(op.key))
    || (op.OpCreate? && r.newcomer == op.x)
    || (op.OpPurge? && r.expires <= now)
    || (op.OpDropSessions? && (r.newcomer in op.gone || (r.approver.Some? && r.approver.value in op.gone)))
    || (op.OpDropUser? && r.user == op.user)
  }

  function RequestAfter(s: State, op: Op, now: int, k: LinkId): Option<Request> {
    if op.OpCreate? && op.k == k && op.x in s.sessions then
      Some(Request(s.sessions[op.x].user, op.x, op.commitment, now + 600, None, None, None, None))
    else if k !in s.requests || Ends(op, now, k, s.requests[k]) then None
    else
      var r := s.requests[k];
      if op.OpClaim? && op.k == k then Some(r.(approver := Some(op.x), approverKey := Some(op.key)))
      else if op.OpReveal? && op.k == k then Some(r.(newcomerKey := Some(op.key)))
      else if op.OpApprove? && op.k == k then Some(r.(bundle := Some(op.bundle)))
      else Some(r)
  }

  ghost predicate Follows(s: State, op: Op, now: int, s': State) {
    && s'.users == (if op.OpUsers? then op.users else s.users)
    && (if op.OpSessions? then s'.sessions == op.sessions
        else forall x :: At(s'.sessions, x) == if op.OpDropSessions? && x in op.gone then None else At(s.sessions, x))
    && forall k :: At(s'.requests, k) == RequestAfter(s, op, now, k)
  }

  lemma CreateIff(s: State, op: Op, now: int)
    requires op.OpCreate?
    ensures Apply(s, op, now).Some? <==> MayCommit(s, op, now)
  {
    if op.x in s.sessions {
      var kept := map r | r in s.requests && s.requests[r].newcomer != op.x :: s.requests[r];
      assert PendingOf(kept, s.sessions[op.x].user, now) == Others(s, s.sessions[op.x].user, op.x, now);
    }
    hide Others, PendingOf;
  }

  lemma HandlerFollows(s: State, op: Op, now: int)
    requires op.OpClaim? || op.OpReveal? || op.OpApprove? || op.OpCancel? || op.OpCollect?
    ensures Apply(s, op, now).Some? <==> MayCommit(s, op, now)
    ensures Apply(s, op, now).Some? ==> Follows(s, op, now, Apply(s, op, now).value)
  {
    hide Create, Purge, DropSessions, DropUser, SessionsMove, Others, PendingOf;
  }

  /** Every step commits exactly when it may, and leaves every request as that step should. */
  lemma StepFollows(s: State, op: Op, now: int)
    ensures Apply(s, op, now).Some? <==> MayCommit(s, op, now)
    ensures Apply(s, op, now).Some? ==> Follows(s, op, now, Apply(s, op, now).value)
  {
    if op.OpClaim? || op.OpReveal? || op.OpApprove? || op.OpCancel? || op.OpCollect? {
      hide Apply, MayCommit, Follows;
      HandlerFollows(s, op, now);
    } else {
      if op.OpCreate? {
        CreateIff(s, op, now);
      }
      hide Claim, Reveal, Approve, Cancel, Collect, Others, PendingOf;
    }
  }

  // ---- A link carried through ---------------------------------------------------------------------

  /** Both sessions of the user stay live, private and known. */
  predicate BothUp(s: State, x: SessionId, y: SessionId, now: int) {
    Known(s, x) && Known(s, y) && Up(s, x, now) && Up(s, y, now) && Private(s, x) && Private(s, y) &&
      s.sessions[x].user == s.sessions[y].user
  }

  /**
   * When a session asks, another of the same user claims, the first reveals the key it committed to, the second
   * approves, stepped up, and the first collects, all within the request's ten minutes and nothing else between, every
   * step commits, and what is collected is the bundle approved. In between each side saw the other's key.
   */
  lemma LinkSucceeds(s: State, x: SessionId, y: SessionId, k: LinkId, mine: Key, theirs: Key, bundle: Bundle,
      t: seq<int>) returns (s1: State, s2: State, s3: State, s4: State, s5: State)
    requires |t| == 5 && (forall i :: 0 <= i < 4 ==> t[i] <= t[i + 1]) && t[4] < t[0] + 600
    requires x != y && BothUp(s, x, y, t[0]) && forall i :: 0 < i < 5 ==> BothUp(s, x, y, t[i])
    requires s.users[s.sessions[x].user].hasIdentity && k !in s.requests
    requires |Others(s, s.sessions[x].user, x, t[0])| < 3
    ensures Create(s, x, k, Commits(mine), t[0]) == Some(s1) && Claim(s1, y, k, theirs, t[1]) == Some(s2)
    ensures Reveal(s2, x, k, mine, t[2]) == Some(s3) && Approve(s3, y, k, bundle, true, t[3]) == Some(s4)
    ensures Collect(s4, x, k, t[4]) == Some(s5)
    ensures k in s2.requests && s2.requests[k].approverKey == Some(theirs)
    ensures k in s3.requests && s3.requests[k].newcomerKey == Some(mine)
    ensures k in s4.requests && s4.requests[k].bundle == Some(bundle) && k !in s5.requests
  {
    assert BothUp(s, x, y, t[1]) && BothUp(s, x, y, t[2]) && BothUp(s, x, y, t[3]) && BothUp(s, x, y, t[4]);
    StepFollows(s, OpCreate(x, k, Commits(mine)), t[0]);
    s1 := Create(s, x, k, Commits(mine), t[0]).value;
    assert s1.sessions == s.sessions && s1.users == s.users;
    s2 := Claim(s1, y, k, theirs, t[1]).value;
    s3 := Reveal(s2, x, k, mine, t[2]).value;
    s4 := Approve(s3, y, k, bundle, true, t[3]).value;
    s5 := Collect(s4, x, k, t[4]).value;
  }
}
