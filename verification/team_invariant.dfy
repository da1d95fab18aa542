/** What every team-key transaction keeps, proved transaction by transaction. */
module TeamInvariant {
  import opened Outcome
  import opened TeamModel

  // ---- The invariant --------------------------------------------------------------------------

  /** Generations start at 1 and the first shared one is not above the current one. */
  ghost predicate ContainersOk(s: State) {
    forall c <- s.containers :: 1 <= s.containers[c].generation && s.containers[c].shared <= s.containers[c].generation
  }

  /** A member awaiting approval is a viewer. */
  ghost predicate MembersOk(s: State) {
    forall k <- s.members :: k.container in s.containers &&
      (s.members[k].approved || (s.members[k].role.Viewer? &&
        s.members[k].pending.Some? && !IsSteward(s.members[k].pending.value)))
  }

  /** A stored envelope belongs to a live, approved member and lies between shared and current. */
  ghost predicate EnvelopeOk(s: State, k: EnvelopeKey) {
    k.container in s.containers && k.device in s.devices &&
    ApprovedMember(s.members, k.container, s.devices[k.device].user) &&
    0 < s.containers[k.container].shared <= k.generation <= s.containers[k.container].generation
  }

  ghost predicate EnvelopesOk(s: State) {
    forall k <- s.envelopes :: EnvelopeOk(s, k)
  }

  /** A pending invitation's envelope sits at the current generation, put there by a live steward. */
  ghost predicate InviteOk(s: State, k: InviteKey) {
    k in s.inviteEnvelopes && k.invitation in s.invitations && s.invitations[k.invitation].pending &&
    InScope(s.containers, s.invitations[k.invitation].container, k.container) &&
    0 < s.containers[k.container].shared &&
    s.inviteEnvelopes[k].generation == s.containers[k.container].generation &&
    IdentityOf(s.devices, s.invitations[k.invitation].invitee, s.inviteEnvelopes[k].device) &&
    StewardMember(s.members, k.container, s.invitations[k.invitation].inviter)
  }

  ghost predicate InvitesOk(s: State) {
    forall k <- s.inviteEnvelopes :: InviteOk(s, k)
  }

  ghost predicate Inv(s: State) {
    ContainersOk(s) && MembersOk(s) && EnvelopesOk(s) && InvitesOk(s)
  }

  // ---- Loops that write envelopes --------------------------------------------------------------

  /**
   * s' adds or re-wraps envelopes of container c at generations lo..hi and changes nothing else.
   * New envelopes go to approved members; an identity's first envelope comes from a steward; an
   * existing envelope changes only under its owner's own identity.
   */
  ghost predicate EnvelopeWrites(s: State, s': State, c: ContainerId, lo: nat, hi: nat, caller: UserId, role: Role) {
    s' == s.(envelopes := s'.envelopes) && s.envelopes.Keys <= s'.envelopes.Keys &&
    (forall k <- s'.envelopes :: k !in s.envelopes ==>
      k.container == c && lo <= k.generation <= hi && k.device in s.devices &&
      ApprovedMember(s.members, c, s.devices[k.device].user) &&
      (s.devices[k.device].user != caller || s.devices[k.device].identity ==> IsSteward(role))) &&
    (forall k <- s.envelopes :: s'.envelopes[k] != s.envelopes[k] ==> IdentityOf(s.devices, caller, k.device))
  }

  lemma EnvelopeWritesCompose(s0: State, s1: State, s2: State, c: ContainerId, lo: nat, hi: nat, g: nat, caller: UserId,
      role: Role)
    requires EnvelopeWrites(s0, s1, c, lo, hi, caller, role) && EnvelopeWrites(s1, s2, c, g, g, caller, role) &&
      lo <= g <= hi
    ensures EnvelopeWrites(s0, s2, c, lo, hi, caller, role)
  {
  }

  lemma InsertWrites(s: State, c: ContainerId, g: nat, caller: UserId, role: Role, v: EnvelopeIn)
    requires InsertEnvelope(s, c, g, caller, role, v).Ok?
    ensures EnvelopeWrites(s, InsertEnvelope(s, c, g, caller, role, v).value, c, g, g, caller, role)
  {
  }

  lemma {:induction false} InsertAllWrites(s: State, c: ContainerId, g: nat, caller: UserId, role: Role,
      vs: seq<EnvelopeIn>)
    requires InsertAll(s, c, g, caller, role, vs).Ok?
    ensures EnvelopeWrites(s, InsertAll(s, c, g, caller, role, vs).value, c, g, g, caller, role)
    decreases |vs|
  {
    if vs != [] {
      var before := InsertAll(s, c, g, caller, role, vs[..|vs| - 1]).value;
      InsertAllWrites(s, c, g, caller, role, vs[..|vs| - 1]);
      InsertWrites(before, c, g, caller, role, vs[|vs| - 1]);
      EnvelopeWritesCompose(s, before, InsertAll(s, c, g, caller, role, vs).value, c, g, g, g, caller, role);
    }
  }

  lemma {:induction false} PutAllWrites(s: State, c: ContainerId, hi: nat, caller: UserId, role: Role,
      vs: seq<EnvelopeIn>)
    requires c in s.containers && PutAll(s, c, hi, caller, role, vs).Ok?
    ensures EnvelopeWrites(s, PutAll(s, c, hi, caller, role, vs).value, c, s.containers[c].shared, hi, caller, role)
    ensures vs == [] || 0 < s.containers[c].shared
    decreases |vs|
  {
    if vs != [] {
      var v := vs[|vs| - 1];
      var before := PutAll(s, c, hi, caller, role, vs[..|vs| - 1]).value;
      PutAllWrites(s, c, hi, caller, role, vs[..|vs| - 1]);
      InsertWrites(before, c, v.generation, caller, role, v);
      EnvelopeWritesCompose(s, before, PutAll(s, c, hi, caller, role, vs).value, c, s.containers[c].shared, hi,
        v.generation, caller, role);
    }
  }

  /** The rotation loop stores only what was submitted. */
  lemma {:induction false} InsertAllStores(s: State, c: ContainerId, g: nat, caller: UserId, role: Role,
      vs: seq<EnvelopeIn>, k: EnvelopeKey)
    requires InsertAll(s, c, g, caller, role, vs).Ok? && k in InsertAll(s, c, g, caller, role, vs).value.envelopes
    ensures var sealed := InsertAll(s, c, g, caller, role, vs).value.envelopes[k];
      (k in s.envelopes && sealed == s.envelopes[k]) || EnvelopeIn(k.device, k.generation, sealed) in vs
    decreases |vs|
  {
    if vs != [] {
      var before, v := InsertAll(s, c, g, caller, role, vs[..|vs| - 1]).value, vs[|vs| - 1];
      assert vs[|vs| - 1] in vs;
      if k != EnvelopeKey(c, v.device, g) {
        InsertAllStores(s, c, g, caller, role, vs[..|vs| - 1], k);
      }
    }
  }

  /** So does the PUT loop. */
  lemma {:induction false} PutAllStores(s: State, c: ContainerId, hi: nat, caller: UserId, role: Role,
      vs: seq<EnvelopeIn>, k: EnvelopeKey)
    requires c in s.containers && PutAll(s, c, hi, caller, role, vs).Ok?
    requires k in PutAll(s, c, hi, caller, role, vs).value.envelopes
    ensures var sealed := PutAll(s, c, hi, caller, role, vs).value.envelopes[k];
      (k in s.envelopes && sealed == s.envelopes[k]) || EnvelopeIn(k.device, k.generation, sealed) in vs
    decreases |vs|
  {
    if vs != [] {
      var v := vs[|vs| - 1];
      assert vs[|vs| - 1] in vs;
      if k != EnvelopeKey(c, v.device, v.generation) {
        PutAllStores(s, c, hi, caller, role, vs[..|vs| - 1], k);
      }
    }
  }

  /** A PUT never gives a generation its first envelope. */
  lemma {:induction false} PutAllExtendsHeld(s: State, c: ContainerId, hi: nat, caller: UserId, role: Role,
      vs: seq<EnvelopeIn>, k: EnvelopeKey)
    requires c in s.containers && PutAll(s, c, hi, caller, role, vs).Ok?
    requires k in PutAll(s, c, hi, caller, role, vs).value.envelopes && k.container == c
    ensures GenerationHeld(s, c, k.generation)
    decreases |vs|
  {
    if vs != [] {
      var v := vs[|vs| - 1];
      var before := PutAll(s, c, hi, caller, role, vs[..|vs| - 1]).value;
      if k in before.envelopes {
        PutAllExtendsHeld(s, c, hi, caller, role, vs[..|vs| - 1], k);
      } else {
        var held :| held in before.envelopes && held.container == c && held.generation == v.generation;
        PutAllExtendsHeld(s, c, hi, caller, role, vs[..|vs| - 1], held);
      }
    }
  }

  /** The invitation loop adds envelopes of invitation id, each at its container's generation. */
  ghost predicate InviteWrites(s: State, s': State, id: InvitationId, c: ContainerId, inviter: UserId,
      invitee: UserId) {
    s' == s.(inviteEnvelopes := s'.inviteEnvelopes) && s.inviteEnvelopes.Keys <= s'.inviteEnvelopes.Keys &&
    (forall k <- s.inviteEnvelopes :: s'.inviteEnvelopes[k] == s.inviteEnvelopes[k]) &&
    (forall k <- s'.inviteEnvelopes :: k !in s.inviteEnvelopes ==>
      k.invitation == id && InScope(s.containers, c, k.container) && 0 < s.containers[k.container].shared &&
      s'.inviteEnvelopes[k].generation == s.containers[k.container].generation &&
      IdentityOf(s.devices, invitee, s'.inviteEnvelopes[k].device) && StewardMember(s.members, k.container, inviter))
  }

  /** The request entry an invitation's stored envelope comes from. */
  function InviteEntry(k: InviteKey, e: InviteEnvelope): InviteEnvelopeIn {
    InviteEnvelopeIn(k.container, EnvelopeIn(e.device, e.generation, e.sealed))
  }

  lemma {:induction false} InsertInviteAllStores(s: State, id: InvitationId, c: ContainerId, inviter: UserId,
      invitee: UserId, vs: seq<InviteEnvelopeIn>, k: InviteKey)
    requires InsertInviteAll(s, id, c, inviter, invitee, vs).Ok?
    requires k in InsertInviteAll(s, id, c, inviter, invitee, vs).value.inviteEnvelopes && k !in s.inviteEnvelopes
    ensures InviteEntry(k, InsertInviteAll(s, id, c, inviter, invitee, vs).value.inviteEnvelopes[k]) in vs
    decreases |vs|
  {
    if vs != [] {
      var before, v := InsertInviteAll(s, id, c, inviter, invitee, vs[..|vs| - 1]).value, vs[|vs| - 1];
      assert vs[|vs| - 1] in vs;
      if k in before.inviteEnvelopes {
        InsertInviteAllStores(s, id, c, inviter, invitee, vs[..|vs| - 1], k);
      }
    }
  }

  lemma {:induction false} InsertInviteAllWrites(s: State, id: InvitationId, c: ContainerId, inviter: UserId,
      invitee: UserId, vs: seq<InviteEnvelopeIn>)
    requires InsertInviteAll(s, id, c, inviter, invitee, vs).Ok?
    ensures InviteWrites(s, InsertInviteAll(s, id, c, inviter, invitee, vs).value, id, c, inviter, invitee)
    decreases |vs|
  {
    if vs != [] {
      InsertInviteAllWrites(s, id, c, inviter, invitee, vs[..|vs| - 1]);
    }
  }

  // ---- Preservation, one transaction at a time ---------------------------------------------------

  lemma EnvelopeWritesKeep(s: State, s': State, c: ContainerId, lo: nat, hi: nat, caller: UserId, role: Role)
    requires Inv(s) && c in s.containers
    requires EnvelopeWrites(s, s', c, lo, hi, caller, role)
    requires s'.envelopes.Keys == s.envelopes.Keys || 0 < s.containers[c].shared <= lo
    requires hi <= s.containers[c].generation
    ensures Inv(s')
  {
    forall k | k in s'.envelopes ensures EnvelopeOk(s', k) {
      assert k in s.envelopes ==> EnvelopeOk(s, k);
    }
    forall k | k in s'.inviteEnvelopes ensures InviteOk(s', k) {
      assert InviteOk(s, k);
    }
  }

  lemma PutKeeps(s: State, caller: UserId, c: ContainerId, vs: seq<EnvelopeIn>)
    requires Inv(s) && PutEnvelopes(s, caller, c, vs).Ok?
    ensures Inv(PutEnvelopes(s, caller, c, vs).value)
  {
    var role := MemberRole(s, c, caller).value;
    var hi := s.containers[c].generation;
    PutAllWrites(s, c, hi, caller, role, vs);
    EnvelopeWritesKeep(s, PutEnvelopes(s, caller, c, vs).value, c, s.containers[c].shared, hi, caller, role);
  }

  /** The state a rotation reaches before it writes its envelopes, with the stale invitations gone. */
  ghost function Minting(s: State, c: ContainerId): State
    requires c in s.containers
  {
    var minted := s.(containers := s.containers[c := Minted(s.containers[c])]);
    minted.(inviteEnvelopes := DropStaleInvites(minted, {c}))
  }

  lemma MintingKeeps(s: State, c: ContainerId)
    requires Inv(s) && c in s.containers
    ensures Inv(Minting(s, c))
  {
    var s' := Minting(s, c);
    forall k | k in s'.envelopes ensures EnvelopeOk(s', k) {
      assert EnvelopeOk(s, k);
    }
    forall k | k in s'.inviteEnvelopes ensures InviteOk(s', k) {
      assert InviteOk(s, k);
    }
  }

  /** A successful rotation is the minting followed by envelope writes at the new generation. */
  lemma RotateShape(s: State, caller: UserId, c: ContainerId, expected: nat, vs: seq<EnvelopeIn>)
    requires Rotate(s, caller, c, expected, vs).Ok?
    ensures StewardMember(s.members, c, caller) && Live(s.containers, c) && s.containers[c].generation == expected
    ensures var s' := Rotate(s, caller, c, expected, vs).value;
      && EnvelopeWrites(Minting(s, c), s', c, expected + 1, expected + 1, caller, s.members[Seat(c, caller)].role)
      && Covered(s', c, expected + 1) && OwnIdentityEnvelope(s', caller, c, expected + 1)
  {
    var role := StewardRole(s, c, caller).value;
    var minted := s.(containers := s.containers[c := Minted(s.containers[c])]);
    InsertAllWrites(minted, c, expected + 1, caller, role, vs);
    var filled := InsertAll(minted, c, expected + 1, caller, role, vs).value;
    assert DropStaleInvites(filled, {c}) == DropStaleInvites(minted, {c});
  }

  lemma RotateKeeps(s: State, caller: UserId, c: ContainerId, expected: nat, vs: seq<EnvelopeIn>)
    requires Inv(s) && Rotate(s, caller, c, expected, vs).Ok?
    ensures Inv(Rotate(s, caller, c, expected, vs).value)
  {
    RotateShape(s, caller, c, expected, vs);
    MintingKeeps(s, c);
    EnvelopeWritesKeep(Minting(s, c), Rotate(s, caller, c, expected, vs).value, c, expected + 1, expected + 1, caller,
      s.members[Seat(c, caller)].role);
  }

  lemma CreateKeeps(s: State, caller: UserId, id: ContainerId, isTeam: bool)
    requires Inv(s) && CreateContainer(s, caller, id, isTeam).Ok?
    ensures Inv(CreateContainer(s, caller, id, isTeam).value)
  {
    var s' := CreateContainer(s, caller, id, isTeam).value;
    forall k | k in s'.envelopes ensures EnvelopeOk(s', k) {
      assert EnvelopeOk(s, k);
    }
    forall k | k in s'.inviteEnvelopes ensures InviteOk(s', k) {
      assert InviteOk(s, k);
    }
  }

  lemma ChildKeeps(s: State, caller: UserId, id: ContainerId, team: ContainerId)
    requires Inv(s) && CreateChild(s, caller, id, team).Ok?
    ensures Inv(CreateChild(s, caller, id, team).value)
  {
    var s' := CreateChild(s, caller, id, team).value;
    forall k | k in s'.envelopes ensures EnvelopeOk(s', k) {
      assert EnvelopeOk(s, k);
    }
    forall k | k in s'.inviteEnvelopes ensures InviteOk(s', k) {
      assert InviteOk(s, k);
    }
  }

  lemma InviteKeeps(s: State, caller: UserId, id: InvitationId, row: Invitation, vs: seq<InviteEnvelopeIn>)
    requires Inv(s) && Invite(s, caller, id, row, vs).Ok?
    ensures Inv(Invite(s, caller, id, row, vs).value)
  {
    var s' := Invite(s, caller, id, row, vs).value;
    InsertInviteAllWrites(s.(invitations := s.invitations[id := row]), id, row.container, caller, row.invitee, vs);
    forall k | k in s'.envelopes ensures EnvelopeOk(s', k) {
      assert EnvelopeOk(s, k);
    }
    forall k | k in s'.inviteEnvelopes ensures InviteOk(s', k) {
      assert k in s.inviteEnvelopes ==> InviteOk(s, k);
    }
  }

  /** Admission adds rows where there were none live, so it takes nothing from anyone. */
  lemma AdmitEffect(s: State, c: ContainerId, u: UserId, role: Role, invitedBy: Option<UserId>, approved: bool)
    requires Admit(s, c, u, role, invitedBy, approved).Ok?
    ensures var s' := Admit(s, c, u, role, invitedBy, approved).value;
      && s' == s.(members := s'.members)
      && (forall k <- s.members :: !s.members[k].revoked ==> k in s'.members && s'.members[k] == s.members[k])
      && (forall x :: InScope(s.containers, c, x) && Live(s.containers, x) ==>
        LiveMember(s'.members, x, u) && s'.members[Seat(x, u)].approved == approved)
      && (forall k <- s'.members :: (k in s.members && s'.members[k] == s.members[k]) ||
            (k.user == u && InScope(s.containers, c, k.container) && Live(s.containers, k.container)))
  {
    var s' := Admit(s, c, u, role, invitedBy, approved).value;
    forall k | k in s.members && !s.members[k].revoked ensures k in s'.members && s'.members[k] == s.members[k] {
      assert k == Seat(k.container, k.user);
      assert LiveMember(s.members, k.container, k.user);
    }
    forall x | InScope(s.containers, c, x) && Live(s.containers, x)
      ensures LiveMember(s'.members, x, u) && s'.members[Seat(x, u)].approved == approved
    {
    }
  }

  lemma AdmitKeeps(s: State, c: ContainerId, u: UserId, role: Role, invitedBy: Option<UserId>, approved: bool)
    requires Inv(s) && Admit(s, c, u, role, invitedBy, approved).Ok? && (approved || !IsSteward(role))
    ensures Inv(Admit(s, c, u, role, invitedBy, approved).value)
  {
    var s' := Admit(s, c, u, role, invitedBy, approved).value;
    AdmitEffect(s, c, u, role, invitedBy, approved);
    forall k | k in s'.envelopes ensures EnvelopeOk(s', k) {
      assert EnvelopeOk(s, k);
    }
    forall k | k in s'.inviteEnvelopes ensures InviteOk(s', k) {
      assert InviteOk(s, k);
    }
  }

  /** What moving invitation id's envelopes for an approved invitee does to the tables. */
  lemma MoveKeeps(s: State, id: InvitationId, invitee: UserId)
    requires Inv(s) && id in s.invitations
    requires forall x :: InScope(s.containers, s.invitations[id].container, x) && Live(s.containers, x) ==>
      ApprovedMember(s.members, x, invitee)
    ensures Inv(MoveInvites(s, id, invitee))
  {
    var s' := MoveInvites(s, id, invitee);
    forall k | k in s'.envelopes ensures EnvelopeOk(s', k) {
      if k in s.envelopes {
        assert EnvelopeOk(s, k);
      } else {
        var i :| i in s.inviteEnvelopes && Movable(s.containers, s.devices, id, invitee, i, s.inviteEnvelopes[i]) &&
          k == MovedKey(i, s.inviteEnvelopes[i]);
        assert InviteOk(s, i);
      }
    }
    forall k | k in s'.inviteEnvelopes ensures InviteOk(s', k) {
      assert InviteOk(s, k);
    }
  }

  /** Marking the invitation accepted commutes with admission and with the move. */
  lemma AcceptShape(s: State, caller: UserId, id: InvitationId, token: nat, now: nat)
    requires Accept(s, caller, id, token, now).Ok?
    ensures var row := s.invitations[id];
      && Admit(s, row.container, caller, row.role, Some(row.inviter), true).Ok?
      && Accept(s, caller, id, token, now).value ==
          MoveInvites(Admit(s, row.container, caller, row.role, Some(row.inviter), true).value, id, caller)
            .(invitations := s.invitations[id := row.(pending := false)])
  {
  }

  /** e is a movable envelope of the invitation and k, sealed is what accepting stores for it. */
  predicate MovedFrom(s: State, id: InvitationId, invitee: UserId, e: InviteKey, k: EnvelopeKey, sealed: Sealed) {
    e in s.inviteEnvelopes && Movable(s.containers, s.devices, id, invitee, e, s.inviteEnvelopes[e]) &&
    k == MovedKey(e, s.inviteEnvelopes[e]) && sealed == s.inviteEnvelopes[e].sealed
  }

  /** Accepting leaves the invitation's movable rows under the envelopes there were. */
  lemma AcceptEnvelopes(s: State, caller: UserId, id: InvitationId, token: nat, now: nat)
    requires Accept(s, caller, id, token, now).Ok?
    ensures var s' := Accept(s, caller, id, token, now).value;
      && s'.envelopes == MovedRows(s.containers, s.devices, s.inviteEnvelopes, id, caller) + s.envelopes
      && s'.inviteEnvelopes == map e | e in s.inviteEnvelopes && e.invitation != id :: s.inviteEnvelopes[e]
  {
    var row := s.invitations[id];
    AcceptShape(s, caller, id, token, now);
    AdmitEffect(s, row.container, caller, row.role, Some(row.inviter), true);
    hide Accept, Admit, MovedRows;
  }

  /**
   * Accepting stores exactly the invitation's movable envelopes: every one of them unless its slot is
   * taken, nothing else, and no existing envelope changes. The invitation's own envelopes go.
   */
  lemma AcceptMoves(s: State, caller: UserId, id: InvitationId, token: nat, now: nat)
    requires Accept(s, caller, id, token, now).Ok?
    ensures var s' := Accept(s, caller, id, token, now).value;
      && (forall k <- s.envelopes :: k in s'.envelopes && s'.envelopes[k] == s.envelopes[k])
      && (forall k <- s'.envelopes :: k !in s.envelopes ==> exists e :: MovedFrom(s, id, caller, e, k, s'.envelopes[k]))
      && (forall e <- s.inviteEnvelopes :: Movable(s.containers, s.devices, id, caller, e, s.inviteEnvelopes[e]) ==>
           MovedKey(e, s.inviteEnvelopes[e]) in s'.envelopes)
      && s'.inviteEnvelopes == map e | e in s.inviteEnvelopes && e.invitation != id :: s.inviteEnvelopes[e]
  {
    hide Accept, Movable;
    AcceptEnvelopes(s, caller, id, token, now);
    var s' := Accept(s, caller, id, token, now).value;
    var moved := MovedRows(s.containers, s.devices, s.inviteEnvelopes, id, caller);
    forall k | k in s'.envelopes && k !in s.envelopes
      ensures exists e :: MovedFrom(s, id, caller, e, k, s'.envelopes[k])
    {
      var e :| e in s.inviteEnvelopes && Movable(s.containers, s.devices, id, caller, e, s.inviteEnvelopes[e]) &&
        k == MovedKey(e, s.inviteEnvelopes[e]) && moved[k] == s.inviteEnvelopes[e].sealed;
      assert MovedFrom(s, id, caller, e, k, s'.envelopes[k]);
    }
  }

  lemma ForgettingKeeps(s: State, id: InvitationId, row: Invitation)
    requires Inv(s) && forall k <- s.inviteEnvelopes :: k.invitation != id
    ensures Inv(s.(invitations := s.invitations[id := row]))
  {
    var s' := s.(invitations := s.invitations[id := row]);
    forall k | k in s'.envelopes ensures EnvelopeOk(s', k) {
      assert EnvelopeOk(s, k);
    }
    forall k | k in s'.inviteEnvelopes ensures InviteOk(s', k) {
      assert InviteOk(s, k);
    }
  }

  lemma AcceptKeeps(s: State, caller: UserId, id: InvitationId, token: nat, now: nat)
    requires Inv(s) && Accept(s, caller, id, token, now).Ok?
    ensures Inv(Accept(s, caller, id, token, now).value)
  {
    AcceptShape(s, caller, id, token, now);
    var row := s.invitations[id];
    var admitted := Admit(s, row.container, caller, row.role, Some(row.inviter), true).value;
    AdmitKeeps(s, row.container, caller, row.role, Some(row.inviter), true);
    AdmitEffect(s, row.container, caller, row.role, Some(row.inviter), true);
    MoveKeeps(admitted, id, caller);
    ForgettingKeeps(MoveInvites(admitted, id, caller), id, row.(pending := false));
  }

  lemma ApproveKeeps(s: State, caller: UserId, c: ContainerId, target: UserId)
    requires Inv(s) && Approve(s, caller, c, target).Ok?
    ensures Inv(Approve(s, caller, c, target).value)
  {
    var s' := Approve(s, caller, c, target).value;
    forall k | k in s'.envelopes ensures EnvelopeOk(s', k) {
      assert EnvelopeOk(s, k);
    }
    forall k | k in s'.inviteEnvelopes ensures InviteOk(s', k) {
      assert InviteOk(s, k);
    }
  }

  /** Row by row, what removing target from the scope of c does to containers and members. */
  ghost predicate RemovalRows(s: State, s': State, c: ContainerId, target: UserId) {
    && s'.devices == s.devices
    && s'.containers.Keys == s.containers.Keys
    && (forall x <- s.containers :: s'.containers[x].team == s.containers[x].team &&
         s'.containers[x].deleted == s.containers[x].deleted && s'.containers[x].shared == s.containers[x].shared &&
         s'.containers[x].generation == s.containers[x].generation +
           if x == c || (s.containers[x].team == Some(c) && !s.containers[x].deleted) then 1 else 0)
    && s'.members.Keys == s.members.Keys
    && (forall k <- s.members :: s'.members[k] ==
         if k.user == target && InScope(s.containers, c, k.container) then s.members[k].(revoked := true)
           else s.members[k])
  }

  /** And to envelopes and invitations. */
  ghost predicate RemovalKeys(s: State, s': State, c: ContainerId, target: UserId)
    requires s.containers.Keys <= s'.containers.Keys
  {
    && (forall k <- s'.envelopes :: k in s.envelopes && s'.envelopes[k] == s.envelopes[k] &&
         !(InScope(s.containers, c, k.container) && OwnedBy(s.devices, k.device, target)))
    && (forall i <- s'.invitations :: i in s.invitations && s'.invitations[i] == s.invitations[i])
    && (forall k <- s'.inviteEnvelopes :: k in s.inviteEnvelopes && s'.inviteEnvelopes[k] == s.inviteEnvelopes[k] &&
         (k.invitation !in s.invitations || (k.invitation in s'.invitations &&
           !(InScope(s.containers, c, s.invitations[k.invitation].container) && s.invitations[k.invitation].pending &&
             s.invitations[k.invitation].inviter == target))) &&
         (InScope(s.containers, c, k.container) ==>
           s'.containers[k.container].generation <= s.inviteEnvelopes[k].generation))
  }

  ghost predicate Removal(s: State, s': State, c: ContainerId, target: UserId) {
    c in s.containers && RemovalRows(s, s', c, target) && RemovalKeys(s, s', c, target)
  }

  lemma RemoveShapeRows(s: State, c: ContainerId, target: UserId)
    requires RemoveMember(s, c, target).Ok?
    ensures c in s.containers && RemovalRows(s, RemoveMember(s, c, target).value, c, target)
  {
  }

  lemma RemoveShape(s: State, c: ContainerId, target: UserId)
    requires RemoveMember(s, c, target).Ok?
    ensures Removal(s, RemoveMember(s, c, target).value, c, target)
  {
    RemoveShapeRows(s, c, target);
  }

  lemma RemovalKeeps(s: State, s': State, c: ContainerId, target: UserId)
    requires Inv(s) && Removal(s, s', c, target)
    ensures Inv(s')
  {
    forall k | k in s'.envelopes ensures EnvelopeOk(s', k) {
      assert EnvelopeOk(s, k);
    }
    forall k | k in s'.inviteEnvelopes ensures InviteOk(s', k) {
      assert InviteOk(s, k);
      assert !InScope(s.containers, c, k.container) || (k.container != c && s.containers[k.container].deleted);
    }
  }

  lemma DeleteKeeps(s: State, caller: UserId, c: ContainerId, noRows: bool)
    requires Inv(s) && DeleteContainer(s, caller, c, noRows).Ok?
    ensures Inv(DeleteContainer(s, caller, c, noRows).value)
  {
    var s' := DeleteContainer(s, caller, c, noRows).value;
    forall k | k in s'.envelopes ensures EnvelopeOk(s', k) {
      assert EnvelopeOk(s, k);
    }
    forall k | k in s'.inviteEnvelopes ensures InviteOk(s', k) {
      assert InviteOk(s, k);
    }
  }

  /** Device changes that keep every device's owner and kind, and only drop envelopes. */
  ghost predicate DevicesOnly(s: State, s': State) {
    s' == s.(active := s'.active, devices := s'.devices, envelopes := s'.envelopes) &&
    (forall d <- s.devices ::
      d in s'.devices && s'.devices[d].user == s.devices[d].user && s'.devices[d].identity == s.devices[d].identity) &&
    (forall k <- s'.envelopes :: k in s.envelopes && s'.envelopes[k] == s.envelopes[k])
  }

  lemma DevicesOnlyKeeps(s: State, s': State)
    requires Inv(s) && DevicesOnly(s, s')
    ensures Inv(s')
  {
    forall k | k in s'.envelopes ensures EnvelopeOk(s', k) {
      assert EnvelopeOk(s, k);
    }
    forall k | k in s'.inviteEnvelopes ensures InviteOk(s', k) {
      assert InviteOk(s, k);
    }
  }

  lemma RetireKeeps(s: State, u: UserId)
    requires Inv(s)
    ensures Inv(RetireKeys(s, u))
  {
    var s' := RetireKeys(s, u);
    forall k | k in s'.envelopes ensures EnvelopeOk(s', k) {
      assert EnvelopeOk(s, k);
    }
    forall k | k in s'.inviteEnvelopes ensures InviteOk(s', k) {
      assert InviteOk(s, k);
    }
  }

  /** What retiring a user's keys means for everyone: until a rotation hands out the new generation, nobody passes
      the write gate of the containers it retired; the others are as they were. */
  lemma RetiringClosesGate(s: State, u: UserId, c: ContainerId, v: UserId, requested: nat)
    requires Inv(s) && c in s.containers
    ensures Inv(RetireKeys(s, u))
    ensures if Live(s.containers, c) && 0 < s.containers[c].shared && ApprovedMember(s.members, c, u)
      then WriteGate(RetireKeys(s, u), c, v, requested, true).Err?
      else WriteGate(RetireKeys(s, u), c, v, requested, true) == WriteGate(s, c, v, requested, true)
  {
    RetireKeeps(s, u);
    forall k | k in s.envelopes ensures EnvelopeOk(s, k) {
    }
    hide EnvelopesOk, InvitesOk, MembersOk, ContainersOk, DropStaleInvites;
  }

  lemma DeleteIdentityKeeps(s: State, u: UserId)
    requires Inv(s)
    ensures Inv(DeleteIdentity(s, u))
  {
    var s' := DeleteIdentity(s, u);
    forall k | k in s'.envelopes ensures EnvelopeOk(s', k) {
      assert EnvelopeOk(s, k);
    }
    forall k | k in s'.inviteEnvelopes ensures InviteOk(s', k) {
      assert InviteOk(s, k);
    }
  }

  lemma ResetKeeps(s: State, u: UserId, listed: Option<DeviceId>, d: DeviceId, fingerprint: nat)
    requires Inv(s) && ResetIdentity(s, u, listed, d, fingerprint).Ok?
    ensures Inv(ResetIdentity(s, u, listed, d, fingerprint).value)
  {
    var paired := RevokePaired(s, u);
    DevicesOnlyKeeps(s, paired);
    var retired := RetireKeys(paired, u);
    RetireKeeps(paired, u);
    DeleteIdentityKeeps(retired, u);
    DevicesOnlyKeeps(DeleteIdentity(retired, u), ResetIdentity(s, u, listed, d, fingerprint).value);
  }

  /** Content writes and housekeeping leave members, devices, envelopes and generations alone. */
  ghost predicate Quiet(s: State, s': State) {
    s' == s.(containers := s'.containers, inviteEnvelopes := s'.inviteEnvelopes, attachments := s'.attachments,
      written := s'.written) &&
    s'.containers.Keys == s.containers.Keys &&
    (forall c <- s.containers :: s'.containers[c] == s.containers[c].(nameVersion := s'.containers[c].nameVersion)) &&
    (forall k <- s'.inviteEnvelopes :: k in s.inviteEnvelopes && s'.inviteEnvelopes[k] == s.inviteEnvelopes[k])
  }

  lemma QuietKeeps(s: State, s': State)
    requires Inv(s) && Quiet(s, s')
    ensures Inv(s')
  {
    forall k | k in s'.envelopes ensures EnvelopeOk(s', k) {
      assert EnvelopeOk(s, k);
    }
    forall k | k in s'.inviteEnvelopes ensures InviteOk(s', k) {
      assert InviteOk(s, k);
    }
  }

  lemma PairedDevicesKeepOwners(ds: map<DeviceId, Device>, u: UserId, d: DeviceId, fingerprint: nat)
    requires d !in ds
    ensures var ds' := PairedDevices(ds, u, d, fingerprint);
      ds'.Keys <= ds.Keys + {d} &&
      forall e <- ds :: e in ds' && ds'[e].user == ds[e].user && ds'[e].identity == ds[e].identity
  {
  }

  lemma PairOnlyDevices(s: State, u: UserId, d: DeviceId, fingerprint: nat)
    requires PairDevice(s, u, d, fingerprint).Ok?
    ensures DevicesOnly(s, PairDevice(s, u, d, fingerprint).value)
    ensures PairDevice(s, u, d, fingerprint).value.devices.Keys <= s.devices.Keys + {d}
  {
    hide PairedDevices;
    PairedDevicesKeepOwners(s.devices, u, d, fingerprint);
  }

  lemma RevokePairedOnlyDevices(s: State, u: UserId)
    ensures DevicesOnly(s, RevokePaired(s, u)) && RevokePaired(s, u).devices.Keys == s.devices.Keys
  {
  }

  lemma SetActiveOnlyDevices(s: State, u: UserId, on: bool)
    ensures DevicesOnly(s, SetActive(s, u, on)) && SetActive(s, u, on).devices.Keys == s.devices.Keys
  {
    RevokePairedOnlyDevices(s.(active := s.active[u := on]), u);
  }

  lemma RevokeOnlyDevices(s: State, u: UserId, d: DeviceId)
    requires RevokeDevice(s, u, d).Ok?
    ensures DevicesOnly(s, RevokeDevice(s, u, d).value) && RevokeDevice(s, u, d).value.devices.Keys == s.devices.Keys
  {
  }

  lemma MembershipStepKeepsInv(s: State, op: Op)
    requires Inv(s) && Apply(s, op).Ok? && IsMembershipOp(op)
    ensures Inv(Apply(s, op).value)
  {
    hide CreateContainer, CreateChild, Approve, DeleteContainer, RemoveMember, Inv;
    match op
    case OpCreate(u, id, isTeam) => CreateKeeps(s, u, id, isTeam);
    case OpChild(u, id, team) => ChildKeeps(s, u, id, team);
    case OpAdminAdd(c, u, role) => AdmitKeeps(s, c, u, role, None, false);
    case OpApprove(u, c, target) => ApproveKeeps(s, u, c, target);
    case OpStewardRemove(u, c, target) => RemoveShape(s, c, target);
      RemovalKeeps(s, RemoveMember(s, c, target).value, c, target);
    case OpAdminRemove(c, target) => RemoveShape(s, c, target);
      RemovalKeeps(s, RemoveMember(s, c, target).value, c, target);
    case OpDelete(u, c, noRows) => DeleteKeeps(s, u, c, noRows);
  }

  lemma DeviceStepShape(s: State, op: Op)
    requires Apply(s, op).Ok? && IsDeviceOp(op)
    ensures DevicesOnly(s, Apply(s, op).value) && Apply(s, op).value.devices.Keys <= s.devices.Keys + NewDevice(op)
  {
    hide PairDevice, RevokeDevice, RevokePaired, SetActive;
    match op
    case OpIdentity(u, d, fingerprint) =>
    case OpPair(u, d, fingerprint) => PairOnlyDevices(s, u, d, fingerprint);
    case OpRevokeDevice(u, d) => RevokeOnlyDevices(s, u, d);
    case OpRevokePaired(u) => RevokePairedOnlyDevices(s, u);
    case OpSetActive(u, on) => SetActiveOnlyDevices(s, u, on);
    case OpLogout(ds) =>
  }

  lemma ContentStepShape(s: State, op: Op)
    requires Apply(s, op).Ok? && IsContentOp(op)
    ensures Quiet(s, Apply(s, op).value)
  {
  }

  /** Every committed transaction keeps the invariant. */
  lemma StepKeepsInv(s: State, op: Op)
    requires Inv(s) && Apply(s, op).Ok?
    ensures Inv(Apply(s, op).value)
  {
    hide ApplyMembership, ApplyDevice, ApplyContent, Invite, Accept, Rotate, ResetIdentity, Inv;
    if IsContentOp(op) {
      ContentStepShape(s, op);
      QuietKeeps(s, Apply(s, op).value);
    } else if IsDeviceOp(op) {
      DeviceStepShape(s, op);
      DevicesOnlyKeeps(s, Apply(s, op).value);
    } else if IsMembershipOp(op) {
      MembershipStepKeepsInv(s, op);
    } else {
      match op
      case OpInvite(u, i, invitation, envelopes) => InviteKeeps(s, u, i, invitation, envelopes);
      case OpAccept(u, i, token, now) => AcceptKeeps(s, u, i, token, now);
      case OpRotate(u, c, expected, envelopes) => RotateKeeps(s, u, c, expected, envelopes);
      case OpPut(u, c, envelopes) => PutKeeps(s, u, c, envelopes);
      case OpReset(u, listed, d, fingerprint) => ResetKeeps(s, u, listed, d, fingerprint);
    }
  }
}
