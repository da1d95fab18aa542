/** The relay's handlers as guarded updates of the request table. */
module LinkServer {
  import opened Outcome
  import opened Link

  class Server {
    var users: map<UserId, User>
    var sessions: map<SessionId, Session>
    var requests: map<LinkId, Request>

    function Snapshot(): State
      reads this
    {
      State(users, sessions, requests)
    }

    /** The step committed as specified, or was refused and changed nothing. */
    twostate predicate Did(spec: Option<State>, ok: bool)
      reads this
    {
      ok == spec.Some? && Snapshot() == if ok then spec.value else old(Snapshot())
    }

    constructor ()
      ensures Snapshot() == State(map[], map[], map[])
    {
      users, sessions, requests := map[], map[], map[];
    }

    method CreateLink(x: SessionId, k: LinkId, commitment: Commitment, now: int) returns (ok: bool)
      modifies `requests
      ensures Did(Create(old(Snapshot()), x, k, commitment, now), ok)
    {
      if !PartyLive(Snapshot(), x, now) {
        return false;
      }
      var user := sessions[x].user;
      if !users[user].hasIdentity {
        return false;
      }
      var saved := requests;
      requests := map r | r in requests && requests[r].newcomer != x :: requests[r];
      if |PendingOf(requests, user, now)| >= MAX_PENDING || k in requests {
        requests := saved;
        return false;
      }
      requests := requests[k := Request(user, x, commitment, now + LINK_TTL, None, None, None, None)];
      return true;
    }

    /** A claim is by another live session of the same user, and the last one. */
    method ClaimLink(x: SessionId, k: LinkId, key: Key, now: int) returns (ok: bool)
      modifies `requests
      ensures Did(Claim(old(Snapshot()), x, k, key, now), ok)
      ensures (forall i <- old(requests) :: RequestOk(old(requests)[i])) ==>
        forall i <- requests :: RequestOk(requests[i])
      ensures ok ==>
        LiveSession(Snapshot(), x, now) && sessions[x].user == requests[k].user && x != requests[k].newcomer
      ensures ok ==> forall y, key', later :: Claim(Snapshot(), y, k, key', later).None?
    {
      if !PartyLive(Snapshot(), x, now) {
        return false;
      }
      if !Reachable(Snapshot(), x, k, now) || requests[k].newcomer == x || requests[k].approver.Some? ||
          !NewcomerLive(Snapshot(), requests[k], now)
      {
        return false;
      }
      requests := requests[k := requests[k].(approver := Some(x), approverKey := Some(key))];
      return true;
    }

    /** refused tells the caller that the key was wrong and the request is over. */
    method RevealLink(x: SessionId, k: LinkId, key: Key, now: int) returns (ok: bool, refused: bool)
      modifies `requests
      ensures Did(Reveal(old(Snapshot()), x, k, key, now), ok)
      ensures refused == (ok && k !in requests)
    {
      refused := false;
      if !PartyLive(Snapshot(), x, now) {
        return false, false;
      }
      if !Reachable(Snapshot(), x, k, now) || requests[k].newcomer != x || requests[k].approverKey.None?
        || requests[k].newcomerKey.Some? || !ApproverLive(Snapshot(), requests[k], now) {
        return false, false;
      }
      if requests[k].commitment != Commits(key) {
        requests := requests - {k};
        return true, true;
      }
      requests := requests[k := requests[k].(newcomerKey := Some(key))];
      return true, false;
    }

    /** What is approved was revealed as committed to, and from then on only its creator can take the bundle. */
    method ApproveLink(x: SessionId, k: LinkId, bundle: Bundle, steppedUp: bool, now: int) returns (ok: bool)
      modifies `requests
      ensures Did(Approve(old(Snapshot()), x, k, bundle, steppedUp, now), ok)
      ensures (forall i <- old(requests) :: RequestOk(old(requests)[i])) ==>
        forall i <- requests :: RequestOk(requests[i])
      ensures ok && RequestOk(old(requests)[k]) ==>
        requests[k].commitment == Commits(requests[k].newcomerKey.value) && x != requests[k].newcomer
      ensures ok ==> forall y, later :: Collectable(Snapshot(), y, k, later) ==>
        y == requests[k].newcomer && later < requests[k].expires && requests[k].bundle == Some(bundle)
      ensures ok ==> forall y, other, later :: Approve(Snapshot(), y, k, other, true, later).None?
    {
      if !steppedUp || !PartyLive(Snapshot(), x, now) {
        return false;
      }
      if !Reachable(Snapshot(), x, k, now) || requests[k].approver != Some(x) || requests[k].newcomerKey.None?
        || requests[k].bundle.Some? || !NewcomerLive(Snapshot(), requests[k], now) {
        return false;
      }
      requests := requests[k := requests[k].(bundle := Some(bundle))];
      return true;
    }

    /** The bundle is handed out exactly when its row goes. */
    method CollectLink(x: SessionId, k: LinkId, now: int) returns (bundle: Option<Bundle>)
      modifies `requests
      ensures Did(Collect(old(Snapshot()), x, k, now), bundle.Some?)
      ensures bundle.Some? ==> k in old(requests) && old(requests)[k].bundle == bundle && k !in requests
    {
      if !PartyLive(Snapshot(), x, now) || !Reachable(Snapshot(), x, k, now) || requests[k].newcomer != x {
        return None;
      }
      bundle := requests[k].bundle;
      if bundle.Some? {
        requests := requests - {k};
      }
    }
  }
}
