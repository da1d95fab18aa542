/** Who may do what: for every team-key transaction, exactly when it commits. */
module TeamAccess {
  import opened Outcome
  import opened TeamModel
  import opened TeamInvariant
  import opened TeamEffects
  import opened TeamRuns
  import opened TeamTables

  /** The user's role in a live notebook whose team, if it has one, is live. */
  function RoleIn(s: State, c: ContainerId, u: UserId): Option<Role> {
    if Sits(s, c, u) && Open(s, c) && (s.containers[c].team.None? || Open(s, s.containers[c].team.value))
    then Some(s.members[Seat(c, u)].role) else None
  }

  predicate Leads(role: Role) {
    role.Owner? || role.Admin?
  }

  predicate Steward(s: State, c: ContainerId, u: UserId) {
    RoleIn(s, c, u).Some? && Leads(RoleIn(s, c, u).value)
  }

  predicate On(s: State, u: UserId) {
    u in s.active && s.active[u]
  }

  /** Nobody in the scope of c seats the user. */
  ghost predicate Absent(s: State, c: ContainerId, u: UserId) {
    forall x <- s.containers :: Under(s, c, x) ==> !Sits(s, x, u)
  }

  /** Entry n of an invitation: for a live notebook in scope the inviter leads, at its generation, sealed for a live
      identity of the invitee, and no second one for that notebook. */
  predicate MaySend(s: State, id: InvitationId, row: Invitation, vs: seq<InviteEnvelopeIn>, n: nat)
    requires n < |vs|
  {
    var x, e := vs[n].container, vs[n].envelope;
    && (e.sealed.alg.HpkeAuth? || e.sealed.alg.LegacyX25519?) && 0 < |e.sealed.bytes| <= 4096
    && Under(s, row.container, x) && Open(s, x) && Sits(s, x, row.inviter) &&
      Leads(s.members[Seat(x, row.inviter)].role)
    && 0 < s.containers[x].shared && e.generation == s.containers[x].generation
    && e.device in s.devices && s.devices[e.device].user == row.invitee && s.devices[e.device].identity &&
      !s.devices[e.device].revoked
    && InviteKey(id, x) !in s.inviteEnvelopes && forall m :: 0 <= m < n ==> vs[m].container != x
  }

  /** A creator may delete what is still empty: no key, name, rows, envelopes, invitations, children or company. */
  ghost predicate Untouched(s: State, c: ContainerId, u: UserId)
    requires c in s.containers
  {
    && s.containers[c].owner == u && s.containers[c].shared == 0 && s.containers[c].nameVersion == 0
    && (forall k <- s.envelopes :: k.container != c) && (forall i <- s.invitations :: s.invitations[i].container != c)
    && (forall x <- s.containers :: s.containers[x].team == Some(c) ==> s.containers[x].deleted)
    && (s.containers[c].isTeam ==> forall v :: v != u ==> !Sits(s, c, v))
  }

  /** The write gate: a live member of a live keyed notebook, writing at its generation, whose own identity has the
      key. */
  ghost predicate Gate(s: State, c: ContainerId, u: UserId, generation: nat, scheme: bool) {
    && Sits(s, c, u) && Open(s, c) && scheme && 0 < s.containers[c].shared && generation == s.containers[c].generation
    && exists k <- s.envelopes :: k.container == c && k.generation == generation && k.device in s.devices &&
         s.devices[k.device].user == u && s.devices[k.device].identity && !s.devices[k.device].revoked
  }

  predicate Edits(s: State, c: ContainerId, u: UserId) {
    Sits(s, c, u) && var role := s.members[Seat(c, u)].role; role.Owner? || role.Admin? || role.Editor?
  }

  ghost predicate MayJoin(s: State, op: Op)
    requires op.OpInvite? || op.OpAccept? || op.OpAdminAdd? || op.OpApprove?
  {
    match op
    case OpInvite(u, i, row, vs) =>
      && i !in s.invitations && row.pending && row.inviter == u && !row.role.Owner? && Steward(s, row.container, u)
      && forall n :: 0 <= n < |vs| ==> MaySend(s, i, row, vs, n)
    case OpAccept(u, i, token, now) =>
      i in s.invitations &&
      var row := s.invitations[i];
      && row.token == token && row.invitee == u && row.pending && now < row.expires && On(s, row.inviter)
      && Sits(s, row.container, row.inviter) && Leads(s.members[Seat(row.container, row.inviter)].role)
      && Open(s, row.container) && Absent(s, row.container, u)
    case OpAdminAdd(c, u, role) => !Leads(role) && Open(s, c) && s.containers[c].isTeam && On(s, u) && Absent(s, c, u)
    case OpApprove(u, c, target) =>
      && Sits(s, c, u) && s.members[Seat(c, u)].approved && Leads(s.members[Seat(c, u)].role)
      && Open(s, c) && s.containers[c].team.None?
      && exists x <- s.containers :: Under(s, c, x) && Open(s, x) && Sits(s, x, target)
  }

  ghost predicate MayLeave(s: State, op: Op)
    requires Drops(op) || op.OpDelete?
  {
    match op
    case OpStewardRemove(u, c, target) =>
      && u != target && c in s.containers && Sits(s, c, u) && Sits(s, c, target)
      && var mine, theirs := s.members[Seat(c, u)].role, s.members[Seat(c, target)];
      && Leads(mine) && !theirs.role.Owner? && (mine.Admin? && theirs.role.Admin? ==> theirs.invitedBy == Some(u))
    case OpAdminRemove(c, target) =>
      c in s.containers && Sits(s, c, target) && !s.members[Seat(c, target)].role.Owner?
    case OpDelete(u, c, noRows) =>
      && Sits(s, c, u) && Open(s, c)
      && var role := s.members[Seat(c, u)].role;
      role.Owner? || (noRows && Leads(role) && Untouched(s, c, u))
  }

  predicate IsIdentity(s: State, u: UserId, d: DeviceId) {
    d in s.devices && s.devices[d].user == u && s.devices[d].identity
  }

  ghost predicate MayChangeDevice(s: State, op: Op)
    requires IsDeviceOp(op) || op.OpReset?
  {
    match op
    case OpIdentity(u, d, fingerprint) =>
      d !in s.devices && forall e <- s.devices :: s.devices[e].user == u ==>
        !s.devices[e].identity && s.devices[e].fingerprint != fingerprint
    case OpReset(u, listed, d, fingerprint) =>
      && (listed.None? ==> forall e <- s.devices :: s.devices[e].user == u ==> !s.devices[e].identity)
      && (listed.Some? ==> IsIdentity(s, u, listed.value) && s.devices[listed.value].fingerprint != fingerprint)
      && (d in s.devices ==> IsIdentity(s, u, d))
      && forall e <- s.devices :: s.devices[e].user == u && !s.devices[e].identity ==>
           s.devices[e].fingerprint != fingerprint
    case OpPair(u, d, fingerprint) =>
      On(s, u) && d !in s.devices && forall e <- s.devices :: s.devices[e].user == u && s.devices[e].identity ==>
        s.devices[e].fingerprint != fingerprint
    case OpRevokeDevice(u, d) => d in s.devices && s.devices[d].user == u && !s.devices[d].identity
    case OpRevokePaired(_) => true
    case OpLogout(_) => true
    case OpSetActive(_, _) => true
  }

  ghost predicate MayWrite(s: State, op: Op)
    requires IsContentOp(op)
  {
    match op
    case OpWrite(u, c, kind, generation, scheme) =>
      && (kind.Version? || kind.Conflict? || kind.Comment?)
      && Gate(s, c, u, generation, scheme) && (kind.Comment? || Edits(s, c, u))
    case OpAttach(u, c, _, generation, scheme) => Gate(s, c, u, generation, scheme) && Edits(s, c, u)
    case OpRename(u, c, base, generation, scheme) =>
      && Edits(s, c, u) && Open(s, c) && scheme && 0 < s.containers[c].shared
      && generation == s.containers[c].generation && base == s.containers[c].nameVersion
    case OpPurge(_) => true
    case OpTombstone(_) => true
  }

  ghost predicate MayCommit(s: State, op: Op) {
    if IsContentOp(op) then MayWrite(s, op)
    else if IsDeviceOp(op) || op.OpReset? then MayChangeDevice(s, op)
    else if Drops(op) || op.OpDelete? then MayLeave(s, op)
    else if op.OpCreate? then op.id !in s.containers
    else if op.OpChild? then op.id !in s.containers && Steward(s, op.team, op.caller) && s.containers[op.team].isTeam
    else if op.OpRotate? then
      && Steward(s, op.c, op.caller) && s.containers[op.c].generation == op.expected
      && (forall i, j :: 0 <= i < j < |op.envelopes| ==> op.envelopes[i].device != op.envelopes[j].device)
      && Complete(s, op.caller, op.c, s.members[Seat(op.c, op.caller)].role, op.expected + 1, op.envelopes)
    else if op.OpPut? then
      RoleIn(s, op.c, op.caller).Some? && forall i :: 0 <= i < |op.envelopes| ==>
        Extendable(s, op.c, op.envelopes[i].generation) &&
          Fits(s, op.c, op.caller, s.members[Seat(op.c, op.caller)].role, op.envelopes, i)
    else MayJoin(s, op)
  }

  // ---- The transactions agree ---------------------------------------------------------------------

  lemma RoleInIsMemberRole(s: State, c: ContainerId, u: UserId)
    ensures MemberRole(s, c, u).Ok? <==> RoleIn(s, c, u).Some?
    ensures RoleIn(s, c, u).Some? ==> MemberRole(s, c, u) == Ok(RoleIn(s, c, u).value)
    ensures StewardRole(s, c, u).Ok? <==> Steward(s, c, u)
  {
  }

  lemma ChildIff(s: State, op: Op)
    requires op.OpChild?
    ensures CreateChild(s, op.caller, op.id, op.team).Ok? <==>
      op.id !in s.containers && Steward(s, op.team, op.caller) && s.containers[op.team].isTeam
  {
    RoleInIsMemberRole(s, op.team, op.caller);
    hide Steward, StewardRole;
    if Steward(s, op.team, op.caller) {
      StewardIsThere(s, op.team, op.caller);
    }
  }

  lemma StewardIsThere(s: State, c: ContainerId, u: UserId)
    requires Steward(s, c, u)
    ensures c in s.containers && StewardRole(s, c, u).Ok?
  {
  }

  lemma {:induction false} InviteAllIff(s: State, id: InvitationId, row: Invitation, vs: seq<InviteEnvelopeIn>)
    ensures InsertInviteAll(s, id, row.container, row.inviter, row.invitee, vs).Ok? <==>
      forall n :: 0 <= n < |vs| ==> MaySend(s, id, row, vs, n)
    decreases |vs|
  {
    if vs != [] {
      var n, v, less := |vs| - 1, vs[|vs| - 1], vs[..|vs| - 1];
      InviteAllIff(s, id, row, less);
      forall m | 0 <= m < n ensures MaySend(s, id, row, vs, m) <==> MaySend(s, id, row, less, m) {
        hide Under, Open, Sits, Leads;
      }
      if InsertInviteAll(s, id, row.container, row.inviter, row.invitee, less).Ok? {
        InviteOneIff(s, id, row, vs);
      }
      hide InsertInviteEnvelope, MaySend;
    }
  }

  lemma InviteOneIff(s: State, id: InvitationId, row: Invitation, vs: seq<InviteEnvelopeIn>)
    requires vs != [] && InsertInviteAll(s, id, row.container, row.inviter, row.invitee, vs[..|vs| - 1]).Ok?
    ensures var before := InsertInviteAll(s, id, row.container, row.inviter, row.invitee, vs[..|vs| - 1]).value;
      InsertInviteEnvelope(before, id, row.container, row.inviter, row.invitee, vs[|vs| - 1]).Ok? <==>
        MaySend(s, id, row, vs, |vs| - 1)
  {
    var less, x := vs[..|vs| - 1], vs[|vs| - 1].container;
    var before := InsertInviteAll(s, id, row.container, row.inviter, row.invitee, less).value;
    InsertInviteAllWrites(s, id, row.container, row.inviter, row.invitee, less);
    InviteTaken(s, id, row, less, x);
    hide InsertInviteAll;
  }

  /** An invitation's slot for a notebook is taken if it was, or by an earlier entry. */
  lemma {:induction false} InviteTaken(s: State, id: InvitationId, row: Invitation, vs: seq<InviteEnvelopeIn>,
      x: ContainerId)
    requires InsertInviteAll(s, id, row.container, row.inviter, row.invitee, vs).Ok?
    ensures
      (InviteKey(id, x) in InsertInviteAll(s, id, row.container, row.inviter, row.invitee, vs).value.inviteEnvelopes)
      <==> (InviteKey(id, x) in s.inviteEnvelopes || exists v <- vs :: v.container == x)
    decreases |vs|
  {
    if vs != [] {
      InviteTaken(s, id, row, vs[..|vs| - 1], x);
      assert vs == vs[..|vs| - 1] + [vs[|vs| - 1]];
    }
  }

  lemma JoinIff(s: State, op: Op)
    requires op.OpInvite? || op.OpAccept? || op.OpAdminAdd? || op.OpApprove?
    ensures Apply(s, op).Ok? <==> MayJoin(s, op)
  {
    hide Apply;
    KeyOpsApply(s, op);
    MembershipOpsApply(s, op);
    if op.OpInvite? {
      InviteIff(s, op);
    } else if op.OpAccept? {
      AcceptIff(s, op);
    } else {
      hide Invite, Accept;
    }
  }

  lemma InviteIff(s: State, op: Op)
    requires op.OpInvite?
    ensures Invite(s, op.caller, op.invite, op.invitation, op.inviteIn).Ok? <==> MayJoin(s, op)
  {
    var row := op.invitation;
    RoleInIsMemberRole(s, row.container, op.caller);
    var sent := s.(invitations := s.invitations[op.invite := row]);
    InviteAllIff(sent, op.invite, row, op.inviteIn);
    forall n | 0 <= n < |op.inviteIn|
      ensures MaySend(sent, op.invite, row, op.inviteIn, n) <==> MaySend(s, op.invite, row, op.inviteIn, n)
    {
    }
    hide MaySend, InsertInviteAll, Steward, StewardRole;
  }

  lemma AcceptIff(s: State, op: Op)
    requires op.OpAccept?
    ensures Accept(s, op.caller, op.invite, op.token, op.now).Ok? <==> MayJoin(s, op)
  {
    hide MovedRows, AdmittedRows;
  }

  lemma LeaveIff(s: State, op: Op)
    requires Drops(op) || op.OpDelete?
    ensures Apply(s, op).Ok? <==> MayLeave(s, op)
  {
    hide Apply;
    LeavingApplies(s, op);
    if Drops(op) {
      RemovalAllowed(s, op.c, op.target);
      hide RemoveMember;
    } else {
      DeleteIff(s, op);
    }
  }

  lemma RemovalAllowed(s: State, c: ContainerId, target: UserId)
    ensures RemoveMember(s, c, target).Ok? <==>
      c in s.containers && Sits(s, c, target) && !s.members[Seat(c, target)].role.Owner?
  {
    hide DropStaleInvites;
  }

  lemma LeavingApplies(s: State, op: Op)
    ensures op.OpAdminRemove? ==> Apply(s, op) == RemoveMember(s, op.c, op.target)
    ensures op.OpStewardRemove? ==> Apply(s, op) == StewardRemove(s, op.caller, op.c, op.target)
    ensures op.OpDelete? ==> Apply(s, op) == DeleteContainer(s, op.caller, op.c, op.noRows)
  {
    hide RemoveMember, StewardRemove, DeleteContainer, ApplyContent, ApplyDevice;
  }

  lemma Company(s: State, c: ContainerId, u: UserId)
    ensures (forall v :: v != u ==> !Sits(s, c, v)) <==>
      forall k <- s.members :: k.container == c && k.user != u ==> s.members[k].revoked
  {
    if forall v :: v != u ==> !Sits(s, c, v) {
      forall k | k in s.members && k.container == c && k.user != u ensures s.members[k].revoked {
        assert k == Seat(c, k.user) && !Sits(s, c, k.user);
      }
    }
  }

  lemma DeleteIff(s: State, op: Op)
    requires op.OpDelete?
    ensures DeleteContainer(s, op.caller, op.c, op.noRows).Ok? <==> MayLeave(s, op)
  {
    Company(s, op.c, op.caller);
    assert Sits(s, op.c, op.caller) == LiveMember(s.members, op.c, op.caller);
    hide Sits;
  }

  lemma DeviceIff(s: State, op: Op)
    requires IsDeviceOp(op)
    ensures Apply(s, op).Ok? <==> MayChangeDevice(s, op)
  {
    hide Apply, PairedDevices;
    DeviceOpsApply(s, op);
  }

  /** The devices a reset has before it adds the new identity. */
  lemma ResetLeaves(s: State, u: UserId, e: DeviceId)
    ensures var left := DeleteIdentity(RetireKeys(RevokePaired(s, u), u), u).devices;
      (e in left <==> e in s.devices && !IsIdentity(s, u, e)) &&
      (e in left ==> left[e] == s.devices[e].(revoked := left[e].revoked))
  {
    hide DropStaleInvites, Retired, WithoutPairedEnvelopes;
  }

  lemma ResetIff(s: State, op: Op)
    requires op.OpReset?
    ensures ResetIdentity(s, op.caller, op.listed, op.device, op.fingerprint).Ok? <==> MayChangeDevice(s, op)
  {
    var left := DeleteIdentity(RetireKeys(RevokePaired(s, op.caller), op.caller), op.caller).devices;
    forall e: DeviceId
      ensures e in left <==> e in s.devices && !IsIdentity(s, op.caller, e)
      ensures e in left ==> left[e] == s.devices[e].(revoked := left[e].revoked)
    {
      ResetLeaves(s, op.caller, e);
    }
    hide DeleteIdentity, RetireKeys, RevokePaired;
  }

  lemma WriteIff(s: State, op: Op)
    requires IsContentOp(op)
    ensures Apply(s, op).Ok? <==> MayWrite(s, op)
  {
  }

  lemma RotateIff(s: State, op: Op)
    requires Inv(s) && op.OpRotate?
    ensures Rotate(s, op.caller, op.c, op.expected, op.envelopes).Ok? <==> MayCommit(s, op)
  {
    RoleInIsMemberRole(s, op.c, op.caller);
    RotateSucceedsIff(s, op.caller, op.c, op.expected, op.envelopes);
    hide Rotate, Inv, Complete, MemberRole;
  }

  lemma PutIff(s: State, op: Op)
    requires op.OpPut?
    ensures PutEnvelopes(s, op.caller, op.c, op.envelopes).Ok? <==> MayCommit(s, op)
  {
    RoleInIsMemberRole(s, op.c, op.caller);
    PutSucceedsIff(s, op.caller, op.c, op.envelopes);
    hide PutEnvelopes, Extendable, Fits, MemberRole;
  }

  /** In a sound state every transaction commits exactly when its caller may make it. */
  lemma CommitsIff(s: State, op: Op)
    requires Inv(s)
    ensures Apply(s, op).Ok? <==> MayCommit(s, op)
  {
    hide Inv, Apply, MayJoin, MayLeave, MayWrite, MayChangeDevice, Complete, Extendable, Fits;
    hide CreateContainer, CreateChild, Rotate, PutEnvelopes, ResetIdentity, Steward, RoleIn;
    KeyOpsApply(s, op);
    MembershipOpsApply(s, op);
    if IsContentOp(op) {
      WriteIff(s, op);
    } else if IsDeviceOp(op) {
      DeviceIff(s, op);
    } else if op.OpReset? {
      ResetIff(s, op);
    } else if Drops(op) || op.OpDelete? {
      LeaveIff(s, op);
    } else if op.OpCreate? {
      CreateIff(s, op);
    } else if op.OpChild? {
      ChildIff(s, op);
    } else if op.OpRotate? {
      RotateIff(s, op);
    } else if op.OpPut? {
      PutIff(s, op);
    } else {
      JoinIff(s, op);
    }
  }

  lemma CreateIff(s: State, op: Op)
    requires op.OpCreate?
    ensures CreateContainer(s, op.caller, op.id, op.isTeam).Ok? <==> op.id !in s.containers
  {
  }

  /** Which transactions approve: by the column of seats alone. */
  lemma ApprovingOps(s: State, op: Op, after: map<Seat, Membership>, c: ContainerId, u: UserId)
    requires At(after, Seat(c, u)) == SeatAfter(s, op, Seat(c, u)) && c in s.containers
    requires op.OpCreate? || op.OpChild? ==> op.id !in s.containers
    requires ApprovedMember(after, c, u) && !ApprovedMember(s.members, c, u)
    ensures
      || (op.OpAccept? && op.caller == u && op.invite in s.invitations &&
          Under(s, s.invitations[op.invite].container, c))
      || (op.OpApprove? && op.target == u && Under(s, op.c, c))
  {
  }

  lemma StepSeats(s: State, op: Op, k: Seat)
    requires Apply(s, op).Ok?
    ensures At(Apply(s, op).value.members, k) == SeatAfter(s, op, k)
  {
    StepFollows(s, op);
    hide Apply, ContainersFollow, DevicesFollow, EnvelopesFollow, InvitationsFollow, InviteEnvelopesFollow;
    hide ContentFollows, SeatAfter;
  }

  /** Approval in an existing notebook is given in one of two ways: the member accepts an invitation from someone who
      still leads the notebook invited to, or an approved steward approves; an administrator's add gives none. */
  lemma ApprovalIsGiven(s: State, op: Op, c: ContainerId, u: UserId)
    requires Inv(s) && Apply(s, op).Ok? && c in s.containers
    requires ApprovedMember(Apply(s, op).value.members, c, u) && !ApprovedMember(s.members, c, u)
    ensures
      || (op.OpAccept? && op.caller == u && op.invite in s.invitations &&
          var row := s.invitations[op.invite];
          Under(s, row.container, c) && Sits(s, row.container, row.inviter) &&
            Leads(s.members[Seat(row.container, row.inviter)].role))
      || (op.OpApprove? && op.target == u && Under(s, op.c, c) && Sits(s, op.c, op.caller) &&
          s.members[Seat(op.c, op.caller)].approved && Leads(s.members[Seat(op.c, op.caller)].role))
  {
    hide Apply, Inv, SeatAfter, ApprovedMember;
    StepSeats(s, op, Seat(c, u));
    CommitsIff(s, op);
    ApprovingOps(s, op, Apply(s, op).value.members, c, u);
  }
}
