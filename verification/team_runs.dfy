/** Safety over whole runs of the team-key transactions, with the history of who held which key. */
module TeamRuns {
  import opened Outcome
  import opened TeamModel
  import opened TeamInvariant

  // ---- One step: what it may raise, lose and write ------------------------------------------------

  /** Generations never fall, the first shared one is set once, by a rotation, and deletion is final. */
  ghost predicate Rises(s: State, op: Op, s': State, c: ContainerId)
    requires c in s.containers
  {
    c in s'.containers &&
    s'.containers[c].team == s.containers[c].team &&
    s.containers[c].generation <= s'.containers[c].generation <= s.containers[c].generation + 1 &&
    (s.containers[c].deleted ==> s'.containers[c].deleted) &&
    (s'.containers[c].shared == s.containers[c].shared ||
      (s.containers[c].shared == 0 && op.OpRotate? && op.c == c &&
        s'.containers[c].shared == s'.containers[c].generation))
  }

  lemma RotateRises(s: State, u: UserId, c: ContainerId, expected: nat, vs: seq<EnvelopeIn>)
    requires Rotate(s, u, c, expected, vs).Ok?
    ensures Rotate(s, u, c, expected, vs).value.containers == s.containers[c := Minted(s.containers[c])]
    ensures Rotate(s, u, c, expected, vs).value.members == s.members
    ensures Rotate(s, u, c, expected, vs).value.devices == s.devices
    ensures Rotate(s, u, c, expected, vs).value.written == s.written
  {
    RotateShape(s, u, c, expected, vs);
  }

  lemma InviteFrame(s: State, u: UserId, id: InvitationId, row: Invitation, vs: seq<InviteEnvelopeIn>)
    requires Invite(s, u, id, row, vs).Ok?
    ensures var s' := Invite(s, u, id, row, vs).value;
      s' == s.(invitations := s'.invitations, inviteEnvelopes := s'.inviteEnvelopes)
  {
    InsertInviteAllWrites(s.(invitations := s.invitations[id := row]), id, row.container, u, row.invitee, vs);
  }

  lemma AcceptFrame(s: State, u: UserId, id: InvitationId, token: nat, now: nat)
    requires Accept(s, u, id, token, now).Ok?
    ensures var s' := Accept(s, u, id, token, now).value;
      && s' == s.(members := s'.members, envelopes := s'.envelopes, invitations := s'.invitations,
        inviteEnvelopes := s'.inviteEnvelopes)
      && (forall k <- s.members :: !s.members[k].revoked ==> k in s'.members && s'.members[k] == s.members[k])
  {
    var row := s.invitations[id];
    AcceptShape(s, u, id, token, now);
    AdmitEffect(s, row.container, u, row.role, Some(row.inviter), true);
  }

  /** The reset retires the user's keyed containers and touches only the user's own devices. */
  lemma ResetFrame(s: State, u: UserId, listed: Option<DeviceId>, d: DeviceId, fingerprint: nat)
    requires ResetIdentity(s, u, listed, d, fingerprint).Ok?
    ensures var s' := ResetIdentity(s, u, listed, d, fingerprint).value;
      && s' == s.(devices := s'.devices, containers := RetireKeys(s, u).containers, envelopes := s'.envelopes,
        inviteEnvelopes := s'.inviteEnvelopes)
      && s'.devices.Keys <= s.devices.Keys + {d}
      && (forall e <- s.devices :: s.devices[e].user != u ==> e in s'.devices && s'.devices[e] == s.devices[e])
      && (forall e <- s.devices :: IdentityOf(s.devices, u, e) && e != d ==> e !in s'.devices)
      && (forall k <- s'.envelopes :: k in s.envelopes && s'.envelopes[k] == s.envelopes[k])
  {
  }

  /** op makes u a member of c: an accepted invitation to, or an administrator's add in, a scope with c. */
  predicate Admits(s: State, op: Op, c: ContainerId, u: UserId) {
    || (op.OpAccept? && op.caller == u && op.invite in s.invitations &&
        InScope(s.containers, s.invitations[op.invite].container, c))
    || (op.OpAdminAdd? && op.target == u && InScope(s.containers, op.c, c))
  }

  /** Membership transactions: keys only go, and a lost member loses the current generation with the seat. */
  ghost predicate MembershipShape(s: State, op: Op, s': State) {
    && s'.devices == s.devices && s'.written == s.written
    && (forall k <- s'.envelopes :: k in s.envelopes && s'.envelopes[k] == s.envelopes[k])
    && (forall c <- s.containers :: c in s'.containers && s'.containers[c].team == s.containers[c].team &&
         s.containers[c].generation <= s'.containers[c].generation <= s.containers[c].generation + 1 &&
         (s.containers[c].deleted ==> s'.containers[c].deleted) && s'.containers[c].shared == s.containers[c].shared)
    && (forall k <- s.members :: k.container in s.containers && !s.members[k].revoked && s.members[k].approved ==>
         (k in s'.members && !s'.members[k].revoked && s'.members[k].approved) ||
         s'.containers[k.container].generation > s.containers[k.container].generation ||
           s'.containers[k.container].deleted)
    && (forall k <- s'.members :: k.container in s.containers && !s'.members[k].revoked ==>
         (k in s.members && !s.members[k].revoked) || Admits(s, op, k.container, k.user))
  }

  lemma CreateShape(s: State, op: Op)
    requires op.OpCreate? && CreateContainer(s, op.caller, op.id, op.isTeam).Ok?
    ensures MembershipShape(s, op, CreateContainer(s, op.caller, op.id, op.isTeam).value)
  {
  }

  lemma ChildShape(s: State, op: Op)
    requires MembersOk(s) && op.OpChild? && CreateChild(s, op.caller, op.id, op.team).Ok?
    ensures MembershipShape(s, op, CreateChild(s, op.caller, op.id, op.team).value)
  {
  }

  lemma AdminAddShape(s: State, op: Op)
    requires op.OpAdminAdd? && AdminAdd(s, op.c, op.target, op.role).Ok?
    ensures MembershipShape(s, op, AdminAdd(s, op.c, op.target, op.role).value)
  {
    AdmitEffect(s, op.c, op.target, op.role, None, false);
  }

  lemma ApproveShape(s: State, op: Op)
    requires op.OpApprove? && Approve(s, op.caller, op.c, op.target).Ok?
    ensures MembershipShape(s, op, Approve(s, op.caller, op.c, op.target).value)
  {
  }

  lemma DeleteShape(s: State, op: Op)
    requires op.OpDelete? && DeleteContainer(s, op.caller, op.c, op.noRows).Ok?
    ensures MembershipShape(s, op, DeleteContainer(s, op.caller, op.c, op.noRows).value)
  {
  }

  lemma RemovalIsMembershipShape(s: State, op: Op, s': State, c: ContainerId, target: UserId)
    requires Removal(s, s', c, target) && s'.written == s.written
    ensures MembershipShape(s, op, s')
  {
  }

  /** What the membership transactions are, without the rest of the dispatch. */
  lemma MembershipOpsApply(s: State, op: Op)
    ensures op.OpCreate? ==> Apply(s, op) == CreateContainer(s, op.caller, op.id, op.isTeam)
    ensures op.OpChild? ==> Apply(s, op) == CreateChild(s, op.caller, op.id, op.team)
    ensures op.OpAdminAdd? ==> Apply(s, op) == AdminAdd(s, op.c, op.target, op.role)
    ensures op.OpApprove? ==> Apply(s, op) == Approve(s, op.caller, op.c, op.target)
    ensures op.OpDelete? ==> Apply(s, op) == DeleteContainer(s, op.caller, op.c, op.noRows)
    ensures op.OpAdminRemove? ==> Apply(s, op) == RemoveMember(s, op.c, op.target)
    ensures op.OpStewardRemove? && Apply(s, op).Ok? ==> Apply(s, op) == RemoveMember(s, op.c, op.target)
  {
    hide ApplyContent, ApplyDevice, CreateContainer, CreateChild, AdminAdd, Approve, DeleteContainer, RemoveMember;
  }

  lemma MembershipStepShape(s: State, op: Op)
    requires MembersOk(s) && Apply(s, op).Ok? && IsMembershipOp(op)
    ensures MembershipShape(s, op, Apply(s, op).value)
  {
    hide Apply, CreateContainer, CreateChild, AdminAdd, Approve, DeleteContainer, RemoveMember, MembershipShape;
    MembershipOpsApply(s, op);
    if op.OpCreate? {
      CreateShape(s, op);
    } else if op.OpChild? {
      ChildShape(s, op);
    } else if op.OpAdminAdd? {
      AdminAddShape(s, op);
    } else if op.OpApprove? {
      ApproveShape(s, op);
    } else if op.OpDelete? {
      DeleteShape(s, op);
    } else {
      RemoveShape(s, op.c, op.target);
      RemovedShape(s, op);
    }
  }

  lemma RemovedShape(s: State, op: Op)
    requires (op.OpStewardRemove? || op.OpAdminRemove?) && RemoveMember(s, op.c, op.target).Ok?
    requires Removal(s, RemoveMember(s, op.c, op.target).value, op.c, op.target)
    ensures MembershipShape(s, op, RemoveMember(s, op.c, op.target).value)
  {
    var s' := RemoveMember(s, op.c, op.target).value;
    assert s'.written == s.written by { hide DropStaleInvites; }
    hide RemoveMember, Removal, MembershipShape;
    RemovalIsMembershipShape(s, op, s', op.c, op.target);
  }

  /** Generation discipline of every transaction. */
  lemma StepRises(s: State, op: Op, c: ContainerId)
    requires MembersOk(s) && Apply(s, op).Ok? && c in s.containers
    ensures Rises(s, op, Apply(s, op).value, c)
  {
    hide ApplyMembership, ApplyDevice, ApplyContent, Invite, Accept, Rotate, ResetIdentity;
    if IsContentOp(op) {
      ContentStepShape(s, op);
    } else if IsDeviceOp(op) {
      DeviceStepShape(s, op);
    } else if IsMembershipOp(op) {
      MembershipStepShape(s, op);
    } else {
      match op
      case OpInvite(u, i, invitation, vs) => InviteFrame(s, u, i, invitation, vs);
      case OpAccept(u, i, token, now) => AcceptFrame(s, u, i, token, now);
      case OpRotate(u, x, expected, vs) => RotateRises(s, u, x, expected, vs);
      case OpPut(u, x, vs) =>
      case OpReset(u, listed, d, fingerprint) => ResetFrame(s, u, listed, d, fingerprint);
    }
  }

  /** At an unchanged generation of a live, keyed container no approved member or member's device is lost. */
  ghost predicate Keeps(s: State, s': State, c: ContainerId, u: UserId, d: DeviceId)
    requires c in s.containers && c in s'.containers
  {
    0 < s.containers[c].shared && Live(s'.containers, c) && s'.containers[c].generation == s.containers[c].generation &&
    ApprovedMember(s.members, c, u) && OwnedBy(s.devices, d, u) ==>
      ApprovedMember(s'.members, c, u) && OwnedBy(s'.devices, d, u)
  }

  /** What the key transactions are, without the rest of the dispatch. */
  lemma KeyOpsApply(s: State, op: Op)
    ensures op.OpInvite? ==> Apply(s, op) == Invite(s, op.caller, op.invite, op.invitation, op.inviteIn)
    ensures op.OpAccept? ==> Apply(s, op) == Accept(s, op.caller, op.invite, op.token, op.now)
    ensures op.OpRotate? ==> Apply(s, op) == Rotate(s, op.caller, op.c, op.expected, op.envelopes)
    ensures op.OpPut? ==> Apply(s, op) == PutEnvelopes(s, op.caller, op.c, op.envelopes)
    ensures op.OpReset? ==> Apply(s, op) == ResetIdentity(s, op.caller, op.listed, op.device, op.fingerprint)
  {
    hide ApplyContent, ApplyDevice, ApplyMembership, Invite, Accept, Rotate, PutEnvelopes, ResetIdentity;
  }

  lemma PutFrame(s: State, u: UserId, c: ContainerId, vs: seq<EnvelopeIn>)
    requires PutEnvelopes(s, u, c, vs).Ok?
    ensures var s' := PutEnvelopes(s, u, c, vs).value; s' == s.(envelopes := s'.envelopes)
  {
    hide InsertEnvelope;
  }

  lemma StepKeepsMembers(s: State, op: Op, c: ContainerId, u: UserId, d: DeviceId)
    requires MembersOk(s) && Apply(s, op).Ok? && c in s.containers
    ensures c in Apply(s, op).value.containers && Keeps(s, Apply(s, op).value, c, u, d)
  {
    hide Apply, Invite, Accept, Rotate, PutEnvelopes, ResetIdentity;
    KeyOpsApply(s, op);
    if IsContentOp(op) {
      ContentStepShape(s, op);
    } else if IsDeviceOp(op) {
      DeviceStepShape(s, op);
    } else if IsMembershipOp(op) {
      MembershipStepShape(s, op);
    } else {
      match op
      case OpInvite(x, i, invitation, vs) => InviteFrame(s, x, i, invitation, vs);
      case OpAccept(x, i, token, now) => AcceptFrame(s, x, i, token, now);
      case OpRotate(x, y, expected, vs) => RotateRises(s, x, y, expected, vs);
      case OpPut(x, y, vs) => PutFrame(s, x, y, vs);
      case OpReset(x, listed, e, fingerprint) => ResetFrame(s, x, listed, e, fingerprint);
    }
  }

  /** op is a steward's rotation or PUT, or the owner's PUT for a paired device, with these bytes for k. */
  ghost predicate Submits(s: State, op: Op, k: EnvelopeKey, sealed: Sealed) {
    (op.OpRotate? || op.OpPut?) && op.c == k.container && k.device in s.devices &&
    EnvelopeIn(k.device, k.generation, sealed) in op.envelopes &&
    (s.devices[k.device].identity || s.devices[k.device].user != op.caller ==>
      StewardMember(s.members, k.container, op.caller))
  }

  /** op accepts the invitation that carried k's bytes in row e, for an identity, from a member still a steward. */
  ghost predicate Carries(s: State, op: Op, e: InviteKey, k: EnvelopeKey, sealed: Sealed) {
    op.OpAccept? && op.invite in s.invitations && MovedFrom(s, op.invite, op.caller, e, k, sealed) &&
    StewardMember(s.members, k.container, s.invitations[op.invite].inviter)
  }

  /** Where an envelope's first bytes come from. */
  ghost predicate FirstWrite(s: State, op: Op, k: EnvelopeKey, sealed: Sealed) {
    k.device in s.devices && (Submits(s, op, k, sealed) || exists e :: Carries(s, op, e, k, sealed))
  }

  lemma NewByAccept(s: State, op: Op, k: EnvelopeKey)
    requires Inv(s) && op.OpAccept? && Accept(s, op.caller, op.invite, op.token, op.now).Ok?
    requires k in Accept(s, op.caller, op.invite, op.token, op.now).value.envelopes && k !in s.envelopes
    ensures FirstWrite(s, op, k, Accept(s, op.caller, op.invite, op.token, op.now).value.envelopes[k])
  {
    AcceptMoves(s, op.caller, op.invite, op.token, op.now);
    AcceptShape(s, op.caller, op.invite, op.token, op.now);
    var s' := Accept(s, op.caller, op.invite, op.token, op.now).value;
    var e :| MovedFrom(s, op.invite, op.caller, e, k, s'.envelopes[k]);
    assert InviteOk(s, e);
    hide Accept, Admit, MoveInvites;
    assert Carries(s, op, e, k, s'.envelopes[k]);
  }

  lemma NewByRotate(s: State, op: Op, k: EnvelopeKey)
    requires op.OpRotate? && Rotate(s, op.caller, op.c, op.expected, op.envelopes).Ok?
    requires k in Rotate(s, op.caller, op.c, op.expected, op.envelopes).value.envelopes && k !in s.envelopes
    ensures FirstWrite(s, op, k, Rotate(s, op.caller, op.c, op.expected, op.envelopes).value.envelopes[k])
  {
    RotateShape(s, op.caller, op.c, op.expected, op.envelopes);
    var minted := s.(containers := s.containers[op.c := Minted(s.containers[op.c])]);
    InsertAllStores(minted, op.c, op.expected + 1, op.caller, StewardRole(s, op.c, op.caller).value, op.envelopes, k);
  }

  lemma NewByPut(s: State, op: Op, k: EnvelopeKey)
    requires op.OpPut? && PutEnvelopes(s, op.caller, op.c, op.envelopes).Ok?
    requires k in PutEnvelopes(s, op.caller, op.c, op.envelopes).value.envelopes && k !in s.envelopes
    ensures FirstWrite(s, op, k, PutEnvelopes(s, op.caller, op.c, op.envelopes).value.envelopes[k])
    ensures GenerationHeld(s, k.container, k.generation)
  {
    var role, current := MemberRole(s, op.c, op.caller).value, s.containers[op.c].generation;
    PutAllWrites(s, op.c, current, op.caller, role, op.envelopes);
    PutAllStores(s, op.c, current, op.caller, role, op.envelopes, k);
    PutAllExtendsHeld(s, op.c, current, op.caller, role, op.envelopes, k);
  }

  /** A new envelope's bytes came from its writer's request or from the accepted invitation's row, and only a
      rotation or an accepted invitation gives a generation its first envelope. */
  lemma NewEnvelope(s: State, op: Op, k: EnvelopeKey)
    requires Inv(s) && Apply(s, op).Ok?
    requires k in Apply(s, op).value.envelopes && k !in s.envelopes
    ensures FirstWrite(s, op, k, Apply(s, op).value.envelopes[k])
    ensures !GenerationHeld(s, k.container, k.generation) ==> op.OpRotate? || op.OpAccept?
  {
    hide ApplyMembership, ApplyDevice, ApplyContent, Invite, Accept, Rotate, PutEnvelopes, ResetIdentity, FirstWrite;
    if IsContentOp(op) {
      ContentStepShape(s, op);
    } else if IsDeviceOp(op) {
      DeviceStepShape(s, op);
    } else if IsMembershipOp(op) {
      MembershipStepShape(s, op);
    } else {
      match op
      case OpInvite(u, i, invitation, vs) => InviteFrame(s, u, i, invitation, vs);
      case OpAccept(u, i, token, now) => NewByAccept(s, op, k);
      case OpRotate(u, c, expected, vs) => NewByRotate(s, op, k);
      case OpPut(u, c, vs) => NewByPut(s, op, k);
      case OpReset(u, listed, d, fingerprint) => ResetFrame(s, u, listed, d, fingerprint);
    }
  }

  /** op is the invitation by which a steward stored row e. */
  ghost predicate Sends(s: State, op: Op, e: InviteKey, row: InviteEnvelope, inviter: UserId) {
    op.OpInvite? && op.invite == e.invitation && op.caller == inviter &&
      StewardMember(s.members, e.container, inviter) &&
    InviteEntry(e, row) in op.inviteIn
  }

  /** An invitation envelope is new by its inviter's hand, or is what it was, from the same inviter. */
  ghost predicate InviteTraced(s: State, op: Op, s': State, e: InviteKey)
    requires e in s'.inviteEnvelopes
  {
    e.invitation in s'.invitations &&
    if e in s.inviteEnvelopes then
      s'.inviteEnvelopes[e] == s.inviteEnvelopes[e] && e.invitation in s.invitations &&
      s'.invitations[e.invitation].inviter == s.invitations[e.invitation].inviter
    else
      Sends(s, op, e, s'.inviteEnvelopes[e], s'.invitations[e.invitation].inviter)
  }

  lemma InviteSends(s: State, op: Op, e: InviteKey)
    requires Inv(s) && op.OpInvite? && Invite(s, op.caller, op.invite, op.invitation, op.inviteIn).Ok?
    requires e in Invite(s, op.caller, op.invite, op.invitation, op.inviteIn).value.inviteEnvelopes
    ensures InviteTraced(s, op, Invite(s, op.caller, op.invite, op.invitation, op.inviteIn).value, e)
  {
    var c, row := op.invitation.container, s.(invitations := s.invitations[op.invite := op.invitation]);
    InsertInviteAllWrites(row, op.invite, c, op.caller, op.invitation.invitee, op.inviteIn);
    if e in s.inviteEnvelopes {
      assert InviteOk(s, e);
    } else {
      InsertInviteAllStores(row, op.invite, c, op.caller, op.invitation.invitee, op.inviteIn, e);
    }
  }

  /** No transaction alters an invitation or its envelopes other than to close or drop them. */
  ghost predicate InvitesOnlyClose(s: State, s': State) {
    && (forall e <- s'.inviteEnvelopes :: e in s.inviteEnvelopes && s'.inviteEnvelopes[e] == s.inviteEnvelopes[e])
    && (forall i <- s'.invitations :: i in s.invitations && s'.invitations[i].inviter == s.invitations[i].inviter)
  }

  lemma OpeningsSpareInvites(s: State, op: Op)
    requires Apply(s, op).Ok? && (op.OpCreate? || op.OpChild? || op.OpAdminAdd? || op.OpApprove? || op.OpDelete?)
    ensures Apply(s, op).value.invitations == s.invitations && Apply(s, op).value.inviteEnvelopes == s.inviteEnvelopes
  {
    hide AdmittedRows, LiveInScope, InScope, Blank, ApplyContent, ApplyDevice, RemoveMember;
  }

  lemma MembershipInvites(s: State, op: Op)
    requires Apply(s, op).Ok? && IsMembershipOp(op)
    ensures InvitesOnlyClose(s, Apply(s, op).value)
  {
    hide Apply, RemoveMember;
    if op.OpStewardRemove? || op.OpAdminRemove? {
      MembershipOpsApply(s, op);
      RemoveShape(s, op.c, op.target);
    } else {
      OpeningsSpareInvites(s, op);
    }
  }

  lemma AcceptInvites(s: State, u: UserId, id: InvitationId, token: nat, now: nat)
    requires Accept(s, u, id, token, now).Ok?
    ensures InvitesOnlyClose(s, Accept(s, u, id, token, now).value)
  {
    hide Admit, MovedRows;
    AcceptShape(s, u, id, token, now);
    var row := s.invitations[id];
    AdmitEffect(s, row.container, u, row.role, Some(row.inviter), true);
  }

  lemma ResetInvites(s: State, u: UserId, listed: Option<DeviceId>, d: DeviceId, fingerprint: nat)
    requires ResetIdentity(s, u, listed, d, fingerprint).Ok?
    ensures InvitesOnlyClose(s, ResetIdentity(s, u, listed, d, fingerprint).value)
  {
  }

  lemma StepInvites(s: State, op: Op)
    requires Apply(s, op).Ok? && MembersOk(s) && !op.OpInvite?
    ensures InvitesOnlyClose(s, Apply(s, op).value)
  {
    hide ApplyMembership, ApplyDevice, ApplyContent, Invite, Accept, Rotate, ResetIdentity;
    if IsContentOp(op) {
      ContentStepShape(s, op);
    } else if IsDeviceOp(op) {
      DeviceStepShape(s, op);
    } else if IsMembershipOp(op) {
      MembershipInvites(s, op);
    } else if op.OpAccept? {
      AcceptInvites(s, op.caller, op.invite, op.token, op.now);
    } else if op.OpRotate? {
      RotateShape(s, op.caller, op.c, op.expected, op.envelopes);
    } else if op.OpReset? {
      ResetInvites(s, op.caller, op.listed, op.device, op.fingerprint);
    }
  }

  lemma StepTracesInvites(s: State, op: Op, e: InviteKey)
    requires Inv(s) && Apply(s, op).Ok? && e in Apply(s, op).value.inviteEnvelopes
    ensures InviteTraced(s, op, Apply(s, op).value, e)
  {
    StepKeepsInv(s, op);
    assert InviteOk(Apply(s, op).value, e);
    if op.OpInvite? {
      InviteSends(s, op, e);
    } else {
      StepInvites(s, op);
      assert InviteOk(s, e);
    }
    hide Apply, Inv, InviteOk;
  }

  /** An existing envelope changes only when its owner re-wraps its own identity. */
  lemma ChangedEnvelope(s: State, op: Op, k: EnvelopeKey)
    requires MembersOk(s) && Apply(s, op).Ok?
    requires k in s.envelopes && k in Apply(s, op).value.envelopes && Apply(s, op).value.envelopes[k] != s.envelopes[k]
    ensures (op.OpRotate? || op.OpPut?) && IdentityOf(s.devices, op.caller, k.device)
  {
    hide Covered, OwnIdentityEnvelope, ApplyMembership, ApplyDevice, ApplyContent, Invite, Accept, Rotate;
    hide ResetIdentity;
    if IsContentOp(op) {
      ContentStepShape(s, op);
    } else if IsDeviceOp(op) {
      DeviceStepShape(s, op);
    } else if IsMembershipOp(op) {
      MembershipStepShape(s, op);
    } else {
      match op
      case OpInvite(u, i, invitation, vs) => InviteFrame(s, u, i, invitation, vs);
      case OpAccept(u, i, token, now) => AcceptShape(s, u, i, token, now);
      case OpRotate(u, c, expected, vs) => RotateShape(s, u, c, expected, vs);
      case OpPut(u, c, vs) => PutAllWrites(s, c, s.containers[c].generation, u, MemberRole(s, c, u).value, vs);
      case OpReset(u, listed, d, fingerprint) => ResetFrame(s, u, listed, d, fingerprint);
    }
  }

  lemma NoMembershipWithoutAdmission(s: State, op: Op, c: ContainerId, u: UserId)
    requires MembersOk(s) && Apply(s, op).Ok? && c in s.containers && !LiveMember(s.members, c, u) &&
      !Admits(s, op, c, u)
    ensures !LiveMember(Apply(s, op).value.members, c, u)
  {
    hide ApplyMembership, ApplyDevice, ApplyContent, Invite, Rotate, ResetIdentity;
    if IsContentOp(op) {
      ContentStepShape(s, op);
    } else if IsDeviceOp(op) {
      DeviceStepShape(s, op);
    } else if op.OpInvite? {
      InviteFrame(s, op.caller, op.invite, op.invitation, op.inviteIn);
    } else if op.OpAccept? {
      AcceptShape(s, op.caller, op.invite, op.token, op.now);
      var row := s.invitations[op.invite];
      AdmitEffect(s, row.container, op.caller, row.role, Some(row.inviter), true);
    } else if op.OpRotate? {
      RotateRises(s, op.caller, op.c, op.expected, op.envelopes);
    } else if op.OpReset? {
      ResetFrame(s, op.caller, op.listed, op.device, op.fingerprint);
    } else if IsMembershipOp(op) {
      MembershipStepShape(s, op);
    }
  }

  // ---- Runs and the history of holders --------------------------------------------------------------

  /** User's device held, at some time, an envelope of container at generation. */
  datatype Hold = Hold(container: ContainerId, device: DeviceId, user: UserId, generation: nat)

  /** The tables, everything ever held, and every device ID ever minted. */
  datatype World = World(s: State, held: set<Hold>, minted: set<DeviceId>)

  ghost function Holds(s: State): set<Hold> {
    set k | k in s.envelopes && k.device in s.devices ::
      Hold(k.container, k.device, s.devices[k.device].user, k.generation)
  }

  ghost predicate Start(w: World) {
    w.s.containers == map[] && w.s.members == map[] && w.s.devices == map[] && w.s.envelopes == map[] &&
    w.s.invitations == map[] && w.s.inviteEnvelopes == map[] && w.s.attachments == map[] && w.s.written == [] &&
    w.held == {} && w.minted == {}
  }

  /** One committed transaction; a refused one leaves the tables and the history as they were. */
  ghost predicate Step(w: World, op: Op, w': World) {
    Apply(w.s, op) == Ok(w'.s) && NewDevice(op) !! w.minted &&
    w'.minted == w.minted + NewDevice(op) && w'.held == w.held + Holds(w'.s)
  }

  ghost predicate Run(ws: seq<World>, ops: seq<Op>) {
    |ws| == |ops| + 1 && Start(ws[0]) && forall i :: 0 <= i < |ops| ==> Step(ws[i], ops[i], ws[i + 1])
  }

  /** Whoever ever held a live container's current generation is an approved member with that device still. */
  ghost predicate HoldOk(s: State, h: Hold) {
    h.container in s.containers &&
    0 < s.containers[h.container].shared && h.generation <= s.containers[h.container].generation &&
    (Live(s.containers, h.container) && h.generation == s.containers[h.container].generation ==>
      OwnedBy(s.devices, h.device, h.user) && ApprovedMember(s.members, h.container, h.user))
  }

  ghost predicate WorldInv(w: World) {
    Inv(w.s) && w.s.devices.Keys <= w.minted && forall h <- w.held :: HoldOk(w.s, h)
  }

  lemma StepMintsDevices(s: State, op: Op)
    requires MembersOk(s) && Apply(s, op).Ok?
    ensures Apply(s, op).value.devices.Keys <= s.devices.Keys + NewDevice(op)
  {
    hide ApplyMembership, ApplyContent, ApplyDevice, Invite, Accept, Rotate, ResetIdentity;
    if IsContentOp(op) {
      ContentStepShape(s, op);
    } else if IsDeviceOp(op) {
      DeviceStepShape(s, op);
    } else if op.OpReset? {
      ResetFrame(s, op.caller, op.listed, op.device, op.fingerprint);
    } else if IsMembershipOp(op) {
      MembershipStepShape(s, op);
    } else if op.OpAccept? {
      AcceptFrame(s, op.caller, op.invite, op.token, op.now);
    } else if op.OpRotate? {
      RotateRises(s, op.caller, op.c, op.expected, op.envelopes);
    } else if op.OpInvite? {
      InviteFrame(s, op.caller, op.invite, op.invitation, op.inviteIn);
    }
  }

  lemma StepKeepsWorld(w: World, op: Op, w': World)
    requires WorldInv(w) && Step(w, op, w')
    ensures WorldInv(w')
  {
    StepKeepsInv(w.s, op);
    StepMintsDevices(w.s, op);
    forall h | h in w'.held ensures HoldOk(w'.s, h) {
      if h in w.held {
        assert HoldOk(w.s, h);
        StepRises(w.s, op, h.container);
        StepKeepsMembers(w.s, op, h.container, h.user, h.device);
      } else {
        var k :| k in w'.s.envelopes && k.device in w'.s.devices &&
          h == Hold(k.container, k.device, w'.s.devices[k.device].user, k.generation);
        assert EnvelopeOk(w'.s, k);
      }
    }
  }

  // What one step of a run guarantees, without the transaction's own text.

  ghost predicate MembersSummary(w: World, op: Op, w': World) {
    forall c, u :: c in w.s.containers && !LiveMember(w.s.members, c, u) && !Admits(w.s, op, c, u) ==>
      !LiveMember(w'.s.members, c, u)
  }

  ghost predicate EnvelopesSummary(w: World, op: Op, w': World) {
    && (forall k <- w'.s.envelopes :: k !in w.s.envelopes ==>
         FirstWrite(w.s, op, k, w'.s.envelopes[k]))
    && (forall k <- w'.s.envelopes :: k in w.s.envelopes && w'.s.envelopes[k] != w.s.envelopes[k] ==>
         (op.OpRotate? || op.OpPut?) && IdentityOf(w.s.devices, op.caller, k.device))
  }

  ghost predicate InvitesSummary(w: World, op: Op, w': World) {
    forall e <- w'.s.inviteEnvelopes :: InviteTraced(w.s, op, w'.s, e)
  }

  ghost predicate Summary(w: World, op: Op, w': World) {
    && WorldInv(w) && WorldInv(w')
    && (forall c <- w.s.containers :: Rises(w.s, op, w'.s, c))
    && w.minted <= w'.minted && w'.s.devices.Keys <= w.s.devices.Keys + (w'.minted - w.minted)
    && MembersSummary(w, op, w') && EnvelopesSummary(w, op, w') && InvitesSummary(w, op, w')
  }

  lemma StepMembersSummary(w: World, op: Op, w': World)
    requires MembersOk(w.s) && Step(w, op, w')
    ensures MembersSummary(w, op, w')
  {
    hide Apply, MembersOk, LiveMember;
    forall c, u | c in w.s.containers && !LiveMember(w.s.members, c, u) && !Admits(w.s, op, c, u)
      ensures !LiveMember(w'.s.members, c, u)
    {
      NoMembershipWithoutAdmission(w.s, op, c, u);
    }
  }

  lemma StepNewEnvelopes(w: World, op: Op, w': World)
    requires Inv(w.s) && Step(w, op, w')
    ensures forall k <- w'.s.envelopes :: k !in w.s.envelopes ==> FirstWrite(w.s, op, k, w'.s.envelopes[k])
  {
    hide Apply, Inv, FirstWrite;
    forall k | k in w'.s.envelopes && k !in w.s.envelopes ensures FirstWrite(w.s, op, k, w'.s.envelopes[k]) {
      NewEnvelope(w.s, op, k);
    }
  }

  lemma StepChangedEnvelopes(w: World, op: Op, w': World)
    requires MembersOk(w.s) && Step(w, op, w')
    ensures forall k <- w'.s.envelopes :: k in w.s.envelopes && w'.s.envelopes[k] != w.s.envelopes[k] ==>
      (op.OpRotate? || op.OpPut?) && IdentityOf(w.s.devices, op.caller, k.device)
  {
    hide Apply, MembersOk, IdentityOf;
    forall k | k in w'.s.envelopes && k in w.s.envelopes && w'.s.envelopes[k] != w.s.envelopes[k]
      ensures (op.OpRotate? || op.OpPut?) && IdentityOf(w.s.devices, op.caller, k.device)
    {
      ChangedEnvelope(w.s, op, k);
    }
  }

  lemma StepInvitesSummary(w: World, op: Op, w': World)
    requires Inv(w.s) && Step(w, op, w')
    ensures InvitesSummary(w, op, w')
  {
    hide Apply, Inv, InviteTraced;
    forall e | e in w'.s.inviteEnvelopes ensures InviteTraced(w.s, op, w'.s, e) {
      StepTracesInvites(w.s, op, e);
    }
  }

  lemma StepContainersRise(w: World, op: Op, w': World)
    requires MembersOk(w.s) && Step(w, op, w')
    ensures forall c <- w.s.containers :: Rises(w.s, op, w'.s, c)
  {
    hide Apply, Rises, MembersOk;
    forall c | c in w.s.containers ensures Rises(w.s, op, w'.s, c) {
      StepRises(w.s, op, c);
    }
  }

  lemma StepSummary(w: World, op: Op, w': World)
    requires WorldInv(w) && Step(w, op, w')
    ensures Summary(w, op, w')
  {
    hide Apply, Rises, HoldOk, MembersSummary, FirstWrite, InvitesSummary, IdentityOf, EnvelopesOk, InvitesOk;
    hide ContainersOk, MembersOk;
    StepKeepsWorld(w, op, w');
    StepMembersSummary(w, op, w');
    StepNewEnvelopes(w, op, w');
    StepChangedEnvelopes(w, op, w');
    StepInvitesSummary(w, op, w');
    StepMintsDevices(w.s, op);
    StepContainersRise(w, op, w');
  }

  ghost predicate Chain(ws: seq<World>, ops: seq<Op>) {
    |ws| == |ops| + 1 && WorldInv(ws[0]) && ws[0].s.envelopes == map[] && ws[0].s.inviteEnvelopes == map[] &&
    forall i :: 0 <= i < |ops| ==> Summary(ws[i], ops[i], ws[i + 1])
  }

  lemma StartWorldInv(w: World)
    requires Start(w)
    ensures WorldInv(w)
  {
  }

  lemma {:induction false} RunPrefixIsChain(ws: seq<World>, ops: seq<Op>, n: nat)
    requires Run(ws, ops) && n <= |ops|
    ensures Chain(ws[..n + 1], ops[..n])
  {
    hide Apply, Inv, HoldOk, Rises, MembersSummary, EnvelopesSummary, InvitesSummary;
    if n == 0 {
      StartWorldInv(ws[0]);
    } else {
      RunPrefixIsChain(ws, ops, n - 1);
      assert Step(ws[n - 1], ops[n - 1], ws[n]);
      assert n > 1 ==> Summary(ws[..n][n - 2], ops[..n - 1][n - 2], ws[..n][n - 1]);
      StepSummary(ws[n - 1], ops[n - 1], ws[n]);
      forall i | 0 <= i < n ensures Summary(ws[..n + 1][i], ops[..n][i], ws[..n + 1][i + 1]) {
        assert i < n - 1 ==> Summary(ws[..n][i], ops[..n - 1][i], ws[..n][i + 1]);
      }
    }
  }

  /** Every step of every run keeps the invariants and the discipline. */
  lemma RunIsChain(ws: seq<World>, ops: seq<Op>)
    requires Run(ws, ops)
    ensures Chain(ws, ops)
    ensures forall i :: 0 <= i < |ws| ==> WorldInv(ws[i])
  {
    hide Apply, Inv, HoldOk, Rises, MembersSummary, EnvelopesSummary, InvitesSummary;
    RunPrefixIsChain(ws, ops, |ops|);
    assert ws[..|ops| + 1] == ws && ops[..|ops|] == ops;
    forall i | 0 <= i < |ws| ensures WorldInv(ws[i]) {
      if i > 0 {
        assert Summary(ws[i - 1], ops[i - 1], ws[i]);
      }
    }
  }

  // ---- Main results ---------------------------------------------------------------------------------

  /** The write gate never reads the approval flag, and still admits only approved members. */
  lemma GateAdmitsOnlyApproved(s: State, c: ContainerId, u: UserId, requested: nat, scheme: bool)
    requires Inv(s) && WriteGate(s, c, u, requested, scheme).Ok?
    ensures ApprovedMember(s.members, c, u) && Live(s.containers, c) && requested == s.containers[c].generation
  {
    var k :| k in s.envelopes && k.container == c && k.generation == requested && OwnedBy(s.devices, k.device, u);
    assert EnvelopeOk(s, k);
  }

  /** A step commits a content row. */
  ghost predicate Commits(s: State, op: Op, row: Written) {
    Apply(s, op).Ok? && Apply(s, op).value.written == s.written + [row]
  }

  /** Finalizing an attachment whose bytes the container already has: the old row comes back. */
  predicate Revives(s: State, op: Op) {
    op.OpAttach? && AttachKey(op.c, op.digest) in s.attachments
  }

  lemma OnlyWritesCommit(s: State, op: Op, row: Written)
    requires MembersOk(s) && Commits(s, op, row)
    ensures op.OpWrite? || op.OpAttach? || op.OpRename?
  {
    hide ApplyMembership, ApplyDevice, Invite, Accept, Rotate, ResetIdentity;
    assert s.written + [row] != s.written;
    if IsDeviceOp(op) {
      DeviceStepShape(s, op);
    } else if IsMembershipOp(op) {
      MembershipStepShape(s, op);
    } else if op.OpInvite? {
      InviteFrame(s, op.caller, op.invite, op.invitation, op.inviteIn);
    } else if op.OpAccept? {
      AcceptFrame(s, op.caller, op.invite, op.token, op.now);
    } else if op.OpRotate? {
      RotateRises(s, op.caller, op.c, op.expected, op.envelopes);
    } else if op.OpReset? {
      ResetFrame(s, op.caller, op.listed, op.device, op.fingerprint);
    }
  }

  /** A committed row carries the current generation, except exactly when an attachment row is
      revived that an earlier generation wrote. */
  lemma CommittedGeneration(s: State, op: Op, row: Written)
    requires MembersOk(s) && Commits(s, op, row)
    ensures Live(s.containers, row.container)
    ensures row.generation == s.containers[row.container].generation <==>
      !(Revives(s, op) && s.attachments[AttachKey(op.c, op.digest)].generation != s.containers[op.c].generation)
  {
    OnlyWritesCommit(s, op, row);
    assert Apply(s, op).value.written[|s.written|] == row;
  }

  /** op revives an attachment row stored at generation g or below. */
  predicate RevivesUpTo(s: State, op: Op, g: nat) {
    Revives(s, op) && s.attachments[AttachKey(op.c, op.digest)].generation <= g
  }

  /** The hold is someone's who is not an approved member now, or a device's that is gone. */
  predicate Outside(s: State, h: Hold) {
    !(ApprovedMember(s.members, h.container, h.user) && OwnedBy(s.devices, h.device, h.user))
  }

  /** Committed content is above whatever an outsider ever held, unless exactly a row stored no higher is revived. */
  lemma ContentAboveOutsiders(w: World, op: Op, row: Written, h: Hold)
    requires WorldInv(w) && Commits(w.s, op, row)
    requires h in w.held && h.container == row.container && Outside(w.s, h)
    ensures h.generation < row.generation <==> !RevivesUpTo(w.s, op, h.generation)
  {
    CommittedGeneration(w.s, op, row);
    CommittedPlace(w.s, op, row);
    assert HoldOk(w.s, h);
  }

  /** A revived row is the stored one. */
  lemma CommittedPlace(s: State, op: Op, row: Written)
    requires MembersOk(s) && Commits(s, op, row)
    ensures Revives(s, op) ==>
      row.container == op.c && row.generation == s.attachments[AttachKey(op.c, op.digest)].generation
  {
    assert Apply(s, op).value.written[|s.written|] == row;
  }

  predicate Removes(op: Op, c: ContainerId, u: UserId) {
    (op.OpStewardRemove? || op.OpAdminRemove?) && op.c == c && op.target == u
  }

  lemma {:induction false} StaysOut(ws: seq<World>, ops: seq<Op>, i: nat, j: nat, c: ContainerId, u: UserId)
    requires Chain(ws, ops) && i <= j <= |ops| && c in ws[i].s.containers && !LiveMember(ws[i].s.members, c, u)
    requires forall k :: i <= k < j ==> !Admits(ws[k].s, ops[k], c, u)
    ensures c in ws[j].s.containers && !LiveMember(ws[j].s.members, c, u)
    decreases j
  {
    hide Apply, Inv, HoldOk, EnvelopesSummary, WorldInv;
    if i < j {
      StaysOut(ws, ops, i, j - 1, c, u);
      assert Summary(ws[j - 1], ops[j - 1], ws[j]);
      assert Rises(ws[j - 1].s, ops[j - 1], ws[j].s, c);
    }
  }

  lemma RemovalOusts(w: World, op: Op, w': World, team: ContainerId, c: ContainerId, u: UserId)
    requires Step(w, op, w') && Removes(op, team, u) && InScope(w.s.containers, team, c)
    ensures c in w'.s.containers && !LiveMember(w'.s.members, c, u)
  {
    hide RemoveMember, Apply;
    MembershipOpsApply(w.s, op);
    RemoveShape(w.s, team, u);
  }

  /**
   * After a removal, and until the member is admitted to the container again, whatever is committed there is
   * above every generation any of the member's devices ever held, unless exactly a row stored no higher is revived.
   */
  lemma RemovedMemberNeverHeldNewContent(ws: seq<World>, ops: seq<Op>, i: nat, j: nat, team: ContainerId,
      c: ContainerId, u: UserId, row: Written, h: Hold)
    requires Run(ws, ops) && i < j < |ops|
    requires Removes(ops[i], team, u) && InScope(ws[i].s.containers, team, c)
    requires forall k :: i < k < j ==> !Admits(ws[k].s, ops[k], c, u)
    requires Commits(ws[j].s, ops[j], row) && row.container == c
    requires h in ws[j].held && h.container == c && h.user == u
    ensures h.generation < row.generation <==> !RevivesUpTo(ws[j].s, ops[j], h.generation)
  {
    hide Apply, Commits;
    RemovalOusts(ws[i], ops[i], ws[i + 1], team, c, u);
    RunIsChain(ws, ops);
    StaysOut(ws, ops, i + 1, j, c, u);
    ContentAboveOutsiders(ws[j], ops[j], row, h);
  }

  lemma {:induction false} MintedOnlyGrows(ws: seq<World>, ops: seq<Op>, i: nat, j: nat, d: DeviceId)
    requires Chain(ws, ops) && i <= j <= |ops| && d in ws[i].minted && d !in ws[i].s.devices
    ensures d in ws[j].minted && d !in ws[j].s.devices
    decreases j
  {
    hide Apply, Inv, HoldOk, Rises, MembersSummary, EnvelopesSummary, InvitesSummary, WorldInv;
    if i < j {
      MintedOnlyGrows(ws, ops, i, j - 1, d);
      assert Summary(ws[j - 1], ops[j - 1], ws[j]);
    }
  }

  lemma ResetRetires(w: World, op: Op, w': World, d: DeviceId)
    requires WorldInv(w) && Step(w, op, w') && op.OpReset? && IdentityOf(w.s.devices, op.caller, d)
    ensures d in w'.minted && d !in w'.s.devices
  {
    ResetFrame(w.s, op.caller, op.listed, op.device, op.fingerprint);
  }

  /** After an identity reset the same holds, for good, of every generation the old identity ever held. */
  lemma OldIdentityNeverHeldNewContent(ws: seq<World>, ops: seq<Op>, i: nat, j: nat, u: UserId, retired: DeviceId,
      row: Written, h: Hold)
    requires Run(ws, ops) && i < j < |ops|
    requires ops[i].OpReset? && ops[i].caller == u && IdentityOf(ws[i].s.devices, u, retired)
    requires Commits(ws[j].s, ops[j], row)
    requires h in ws[j].held && h.container == row.container && h.device == retired
    ensures h.generation < row.generation <==> !RevivesUpTo(ws[j].s, ops[j], h.generation)
  {
    hide Apply, Commits;
    RunIsChain(ws, ops);
    ResetRetires(ws[i], ops[i], ws[i + 1], retired);
    MintedOnlyGrows(ws, ops, i + 1, j, retired);
    ContentAboveOutsiders(ws[j], ops[j], row, h);
  }

  lemma {:induction false} ChainRises(ws: seq<World>, ops: seq<Op>, i: nat, j: nat, c: ContainerId)
    requires Chain(ws, ops) && i <= j <= |ops| && c in ws[i].s.containers
    ensures c in ws[j].s.containers
    ensures ws[i].s.containers[c].generation <= ws[j].s.containers[c].generation
    ensures 0 < ws[i].s.containers[c].shared ==> ws[j].s.containers[c].shared == ws[i].s.containers[c].shared
    decreases j
  {
    hide Apply, Inv, HoldOk, MembersSummary, EnvelopesSummary, InvitesSummary, WorldInv;
    if i < j {
      ChainRises(ws, ops, i, j - 1, c);
      assert Summary(ws[j - 1], ops[j - 1], ws[j]);
      assert Rises(ws[j - 1].s, ops[j - 1], ws[j].s, c);
    }
  }

  /** Over any run generations only rise and the first shared generation, once set, never moves. */
  lemma GenerationsNeverFall(ws: seq<World>, ops: seq<Op>, i: nat, j: nat, c: ContainerId)
    requires Run(ws, ops) && i <= j <= |ops| && c in ws[i].s.containers
    ensures c in ws[j].s.containers
    ensures ws[i].s.containers[c].generation <= ws[j].s.containers[c].generation
    ensures 0 < ws[i].s.containers[c].shared ==> ws[j].s.containers[c].shared == ws[i].s.containers[c].shared
  {
    hide Apply, Summary;
    RunIsChain(ws, ops);
    ChainRises(ws, ops, i, j, c);
  }

  /** A rotation mints a generation nobody ever held, and every identity it must cover holds it after. */
  lemma RotationMintsFreshGeneration(w: World, op: Op, w': World)
    requires WorldInv(w) && Step(w, op, w') && op.OpRotate?
    ensures op.c in w'.s.containers && w'.s.containers[op.c].generation == op.expected + 1
    ensures forall h <- w.held :: h.container == op.c ==> h.generation <= op.expected
    ensures !GenerationHeld(w.s, op.c, op.expected + 1)
    ensures Covered(w'.s, op.c, op.expected + 1) && OwnIdentityEnvelope(w'.s, op.caller, op.c, op.expected + 1)
    ensures forall k <- w'.s.envelopes :: k !in w.s.envelopes ==> k.container == op.c && k.generation == op.expected + 1
  {
    hide Apply, Rotate, Covered, OwnIdentityEnvelope, InvitesOk, MembersOk, ContainersOk, DropStaleInvites;
    KeyOpsApply(w.s, op);
    RotateShape(w.s, op.caller, op.c, op.expected, op.envelopes);
    forall h | h in w.held && h.container == op.c ensures h.generation <= op.expected {
      assert HoldOk(w.s, h);
    }
    NoEnvelopeAbove(w.s, op.c);
  }

  lemma NoEnvelopeAbove(s: State, c: ContainerId)
    requires EnvelopesOk(s) && c in s.containers
    ensures !GenerationHeld(s, c, s.containers[c].generation + 1)
  {
    forall k | k in s.envelopes && k.container == c ensures k.generation <= s.containers[c].generation {
      assert EnvelopeOk(s, k);
    }
  }

  /** Step i first wrote k and k stayed stored from there up to state j. */
  ghost predicate WrittenAt(ws: seq<World>, ops: seq<Op>, i: nat, j: nat, k: EnvelopeKey)
    requires |ws| == |ops| + 1
  {
    i < j <= |ops| && k !in ws[i].s.envelopes && (forall x :: i < x <= j ==> k in ws[x].s.envelopes)
  }

  /** The row was stored by an earlier invitation, from the inviter it names still, who was a steward then. */
  lemma {:induction false} InviteProvenance(ws: seq<World>, ops: seq<Op>, j: nat, e: InviteKey) returns (m: nat)
    requires Chain(ws, ops) && j <= |ops| && e in ws[j].s.inviteEnvelopes
    ensures m < j && e.invitation in ws[j].s.invitations
    ensures Sends(ws[m].s, ops[m], e, ws[j].s.inviteEnvelopes[e], ws[j].s.invitations[e.invitation].inviter)
  {
    hide Apply, Inv, HoldOk, Rises, MembersSummary, EnvelopesSummary, WorldInv, Sends;
    var p := j - 1;
    assert Summary(ws[p], ops[p], ws[j]);
    assert InviteTraced(ws[p].s, ops[p], ws[j].s, e);
    if e in ws[p].s.inviteEnvelopes {
      m := InviteProvenance(ws, ops, p, e);
    } else {
      m := p;
    }
  }

  lemma {:induction false} ChainProvenance(ws: seq<World>, ops: seq<Op>, j: nat, k: EnvelopeKey) returns (i: nat)
    requires Chain(ws, ops) && j <= |ops| && k in ws[j].s.envelopes
    ensures WrittenAt(ws, ops, i, j, k) && FirstWrite(ws[i].s, ops[i], k, ws[i + 1].s.envelopes[k])
    ensures forall x :: i < x < j && ws[x + 1].s.envelopes[k] != ws[x].s.envelopes[k] ==>
      (ops[x].OpRotate? || ops[x].OpPut?) && IdentityOf(ws[x].s.devices, ops[x].caller, k.device)
  {
    hide Apply, Inv, HoldOk, Rises, MembersSummary, InvitesSummary, FirstWrite, WorldInv;
    var p := j - 1;
    assert Summary(ws[p], ops[p], ws[j]);
    if k in ws[p].s.envelopes {
      i := ChainProvenance(ws, ops, p, k);
    } else {
      i := p;
    }
  }

  /** Step i accepts an invitation; step m sent it, with k's first bytes, from a member who was a steward then and
      still is. */
  ghost predicate Invited(ws: seq<World>, ops: seq<Op>, m: nat, i: nat, k: EnvelopeKey, sealed: Sealed)
    requires |ws| == |ops| + 1
  {
    m < i < |ops| && ops[i].OpAccept? && ops[m].OpInvite? && ops[m].invite == ops[i].invite &&
    StewardMember(ws[m].s.members, k.container, ops[m].caller) &&
      StewardMember(ws[i].s.members, k.container, ops[m].caller) &&
    InviteEnvelopeIn(k.container, EnvelopeIn(k.device, k.generation, sealed)) in ops[m].inviteIn
  }

  /**
   * Provenance: every stored envelope's first bytes were submitted by a steward (or, for a paired device, by its
   * owner), in a rotation, in a PUT or earlier in the invitation a later step accepted; and every change to it
   * since was its owner re-wrapping its own identity.
   */
  lemma EnvelopeProvenance(ws: seq<World>, ops: seq<Op>, j: nat, k: EnvelopeKey) returns (i: nat, m: nat)
    requires Run(ws, ops) && j <= |ops| && k in ws[j].s.envelopes
    ensures WrittenAt(ws, ops, i, j, k)
    ensures Submits(ws[i].s, ops[i], k, ws[i + 1].s.envelopes[k]) || Invited(ws, ops, m, i, k, ws[i + 1].s.envelopes[k])
    ensures forall x :: i < x < j && ws[x + 1].s.envelopes[k] != ws[x].s.envelopes[k] ==>
      (ops[x].OpRotate? || ops[x].OpPut?) && IdentityOf(ws[x].s.devices, ops[x].caller, k.device)
  {
    hide Apply, Summary;
    RunIsChain(ws, ops);
    i := ChainProvenance(ws, ops, j, k);
    var sealed := ws[i + 1].s.envelopes[k];
    if !Submits(ws[i].s, ops[i], k, sealed) {
      var e :| Carries(ws[i].s, ops[i], e, k, sealed);
      m := InviteProvenance(ws, ops, i, e);
    } else {
      m := 0;
    }
    hide WorldInv, Submits;
  }
}
