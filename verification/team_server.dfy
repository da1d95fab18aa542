/** The team-key transactions as they run: statements in order, loops over envelopes, rollback on error. */
module TeamServer {
  import opened Outcome
  import opened TeamModel
  import opened TeamInvariant
  import opened TeamEffects

  /** Committed as specified, or rolled back with the specified error. */
  ghost predicate Follows(before: State, spec: Result<State, Error>, failure: Option<Error>, after: State) {
    if spec.Ok? then failure == None && after == spec.value else failure == Some(spec.error) && after == before
  }

  // ---- One SQL statement each -------------------------------------------------------------------

  function MembersRevoked(ms: map<Seat, Membership>, cs: map<ContainerId, Container>, c: ContainerId,
      target: UserId): map<Seat, Membership> {
    map k | k in ms :: if k.user == target && InScope(cs, c, k.container) then ms[k].(revoked := true) else ms[k]
  }

  function GenerationsAdvanced(cs: map<ContainerId, Container>, c: ContainerId): map<ContainerId, Container> {
    map x | x in cs ::
      if x == c || (cs[x].team == Some(c) && !cs[x].deleted) then cs[x].(generation := cs[x].generation + 1) else cs[x]
  }

  function KeysDropped(es: map<EnvelopeKey, Sealed>, ds: map<DeviceId, Device>, cs: map<ContainerId, Container>,
      c: ContainerId, target: UserId): map<EnvelopeKey, Sealed> {
    map k | k in es && !(InScope(cs, c, k.container) && OwnedBy(ds, k.device, target)) :: es[k]
  }

  function DeadInvites(sent: map<InvitationId, Invitation>, cs: map<ContainerId, Container>, c: ContainerId,
      target: UserId): set<InvitationId> {
    set i | i in sent && InScope(cs, c, sent[i].container) && sent[i].pending &&
      (sent[i].invitee == target || sent[i].inviter == target)
  }

  function Cascaded(ies: map<InviteKey, InviteEnvelope>, dead: set<InvitationId>): map<InviteKey, InviteEnvelope> {
    map k | k in ies && k.invitation !in dead :: ies[k]
  }

  function Recharged(cs: map<ContainerId, Container>, c: ContainerId, target: UserId): map<ContainerId, Container>
    requires c in cs
  {
    map x | x in cs :: if cs[x].team == Some(c) && cs[x].owner == target then cs[x].(owner := cs[c].owner) else cs[x]
  }

  function Readmitted(ms: map<Seat, Membership>, cs: map<ContainerId, Container>, c: ContainerId, u: UserId,
      row: Membership): map<Seat, Membership> {
    map k | k in ms :: if k.user == u && InScope(cs, c, k.container) && Live(cs, k.container) then row else ms[k]
  }

  function Inserted(ms: map<Seat, Membership>, cs: map<ContainerId, Container>, c: ContainerId, u: UserId,
      row: Membership): map<Seat, Membership> {
    ms + map x | x in cs && InScope(cs, c, x) && Live(cs, x) && Seat(x, u) !in ms :: Seat(x, u) := row
  }

  function IdentityDropped(ds: map<DeviceId, Device>, u: UserId): map<DeviceId, Device> {
    map d | d in ds && !(ds[d].user == u && ds[d].identity) :: ds[d]
  }

  function IdentityKeysDropped(es: map<EnvelopeKey, Sealed>, ds: map<DeviceId, Device>,
      u: UserId): map<EnvelopeKey, Sealed> {
    map k | k in es && !IdentityOf(ds, u, k.device) :: es[k]
  }

  function IdentityInvitesDropped(ies: map<InviteKey, InviteEnvelope>, ds: map<DeviceId, Device>,
      u: UserId): map<InviteKey, InviteEnvelope> {
    map k | k in ies && !IdentityOf(ds, u, ies[k].device) :: ies[k]
  }

  lemma RetiredRefuseWrites(s: State, u: UserId)
    requires Inv(s)
    ensures Inv(RetireKeys(s, u))
    ensures forall c, v, g: nat ::
      Live(s.containers, c) && 0 < s.containers[c].shared && ApprovedMember(s.members, c, u) ==>
      WriteGate(RetireKeys(s, u), c, v, g, true).Err?
  {
    RetireKeeps(s, u);
    hide Inv, WriteGate, RetireKeys, ApprovedMember;
    forall c, v, g: nat | Live(s.containers, c) && 0 < s.containers[c].shared && ApprovedMember(s.members, c, u)
      ensures WriteGate(RetireKeys(s, u), c, v, g, true).Err?
    {
      RetiringClosesGate(s, u, c, v, g);
    }
  }

  class Server {
    var active: map<UserId, bool>
    var devices: map<DeviceId, Device>
    var containers: map<ContainerId, Container>
    var members: map<Seat, Membership>
    var envelopes: map<EnvelopeKey, Sealed>
    var invitations: map<InvitationId, Invitation>
    var inviteEnvelopes: map<InviteKey, InviteEnvelope>
    var attachments: map<AttachKey, AttachRow>
    var written: seq<Written>

    function Snapshot(): State
      reads this
    {
      State(active, devices, containers, members, envelopes, invitations, inviteEnvelopes, attachments, written)
    }

    constructor ()
      ensures Snapshot() == State(map[], map[], map[], map[], map[], map[], map[], map[], [])
    {
      active, devices, containers, members, envelopes := map[], map[], map[], map[], map[];
      invitations, inviteEnvelopes, attachments, written := map[], map[], map[], [];
    }

    /** insertEnvelopeTx */
    method StoreEnvelope(c: ContainerId, generation: nat, caller: UserId, role: Role, v: EnvelopeIn)
        returns (failure: Option<Error>)
      modifies `envelopes
      ensures Follows(old(Snapshot()), InsertEnvelope(old(Snapshot()), c, generation, caller, role, v), failure,
        Snapshot())
      ensures failure.None? ==>
        envelopes == old(envelopes)[EnvelopeKey(c, v.device, generation) := v.sealed] && v.generation == generation
      ensures failure.Some? ==> envelopes == old(envelopes)
    {
      hide ActiveUser, ApprovedMember, WellFormed;
      if !WellFormed(v.sealed) {
        return Some(InvalidRequest);
      }
      if v.generation != generation {
        return Some(GenerationMoved);
      }
      if v.device !in devices || devices[v.device].revoked || !ApprovedMember(members, c, devices[v.device].user) ||
          !ActiveUser(active, devices[v.device].user)
      {
        return Some(InvalidRequest);
      }
      var device, key := devices[v.device], EnvelopeKey(c, v.device, generation);
      if device.user != caller && !IsSteward(role) {
        return Some(InsufficientRole);
      }
      if device.user == caller && device.identity {
        if key in envelopes {
          envelopes := envelopes[key := v.sealed];
          return None;
        }
        if !IsSteward(role) {
          return Some(InsufficientRole);
        }
      }
      if key in envelopes {
        return Some(EnvelopeExists);
      }
      envelopes := envelopes[key := v.sealed];
      return None;
    }

    /** PUT /containers/{id}/envelopes: each target generation is resolved and each envelope stored. */
    method StoreEnvelopes(caller: UserId, c: ContainerId, vs: seq<EnvelopeIn>) returns (failure: Option<Error>)
      modifies `envelopes
      ensures Follows(old(Snapshot()), PutEnvelopes(old(Snapshot()), caller, c, vs), failure, Snapshot())
    {
      hide InsertEnvelope, PutGeneration;
      var role := MemberRole(Snapshot(), c, caller);
      if role.Err? {
        return Some(role.error);
      }
      ghost var before := Snapshot();
      var saved := envelopes;
      var current := containers[c].generation;
      for i := 0 to |vs|
        invariant PutAll(before, c, current, caller, role.value, vs[..i]) == Ok(Snapshot())
      {
        assert vs[..i + 1][..i] == vs[..i];
        var target := PutGeneration(Snapshot(), c, current, vs[i].generation);
        if target.Err? {
          PutAllStops(before, c, current, caller, role.value, vs, i + 1);
          envelopes := saved;
          return Some(target.error);
        }
        failure := StoreEnvelope(c, target.value, caller, role.value, vs[i]);
        if failure.Some? {
          PutAllStops(before, c, current, caller, role.value, vs, i + 1);
          envelopes := saved;
          return failure;
        }
      }
      assert vs[..|vs|] == vs;
      return None;
    }

    /** POST /containers/{id}/key-rotations */
    method RotateKeys(caller: UserId, c: ContainerId, expected: nat,
        vs: seq<EnvelopeIn>) returns (failure: Option<Error>)
      modifies `containers, `envelopes, `inviteEnvelopes
      ensures Follows(old(Snapshot()), Rotate(old(Snapshot()), caller, c, expected, vs), failure, Snapshot())
    {
      hide InsertEnvelope, Covered, OwnIdentityEnvelope, Minted, DropStaleInvites, MemberRole;
      if expected < 1 || vs == [] {
        return Some(InvalidRequest);
      }
      var repeated := RepeatsDevice(vs);
      if repeated {
        return Some(InvalidRequest);
      }
      var role := StewardRole(Snapshot(), c, caller);
      if role.Err? {
        return Some(role.error);
      }
      StewardHasContainer(Snapshot(), c, caller);
      if containers[c].generation != expected {
        return Some(GenerationMoved);
      }
      var savedContainers, savedEnvelopes, savedInvites := containers, envelopes, inviteEnvelopes;
      containers := containers[c := Minted(containers[c])];
      ghost var minted := Snapshot();
      for i := 0 to |vs|
        invariant InsertAll(minted, c, expected + 1, caller, role.value, vs[..i]) == Ok(Snapshot())
        invariant containers == minted.containers && inviteEnvelopes == savedInvites
      {
        assert vs[..i + 1][..i] == vs[..i];
        failure := StoreEnvelope(c, expected + 1, caller, role.value, vs[i]);
        if failure.Some? {
          InsertAllStops(minted, c, expected + 1, caller, role.value, vs, i + 1);
          containers, envelopes := savedContainers, savedEnvelopes;
          return if failure.value.GenerationMoved? then Some(InvalidRequest) else failure;
        }
      }
      assert vs[..|vs|] == vs;
      inviteEnvelopes := DropStaleInvites(Snapshot(), {c});
      if !Covered(Snapshot(), c, expected + 1) || !OwnIdentityEnvelope(Snapshot(), caller, c, expected + 1) {
        containers, envelopes, inviteEnvelopes := savedContainers, savedEnvelopes, savedInvites;
        return Some(InvalidRequest);
      }
      return None;
    }

    method RepeatsDevice(vs: seq<EnvelopeIn>) returns (repeated: bool)
      ensures repeated == !DistinctDevices(vs)
    {
      var seen := {};
      for i := 0 to |vs|
        invariant forall d :: d in seen <==> exists k :: 0 <= k < i && vs[k].device == d
        invariant forall k, l :: 0 <= k < l < i ==> vs[k].device != vs[l].device
      {
        if vs[i].device in seen {
          return true;
        }
        seen := seen + {vs[i].device};
      }
      return false;
    }

    /** checkWriteGate */
    method CheckWriteGate(c: ContainerId, u: UserId, requested: nat,
        currentScheme: bool) returns (failure: Option<Error>)
      ensures failure == match WriteGate(Snapshot(), c, u, requested, currentScheme) case Ok(_) => None case Err(e) =>
        Some(e)
    {
      hide OwnIdentityEnvelope;
      var generation := Keyed(Snapshot(), c, u, currentScheme);
      if generation.Err? {
        return Some(generation.error);
      }
      if requested != generation.value {
        return Some(KeyRotationIncomplete);
      }
      if !OwnIdentityEnvelope(Snapshot(), u, c, generation.value) {
        return Some(KeyRotationIncomplete);
      }
      return None;
    }

    /** insertInvitationEnvelopeTx */
    method StoreInviteEnvelope(id: InvitationId, c: ContainerId, inviter: UserId, invitee: UserId, v: InviteEnvelopeIn)
        returns (failure: Option<Error>)
      modifies `inviteEnvelopes
      ensures Follows(old(Snapshot()), InsertInviteEnvelope(old(Snapshot()), id, c, inviter, invitee, v), failure,
        Snapshot())
    {
      hide WellFormed;
      var x, e := v.container, v.envelope;
      if !WellFormed(e.sealed) {
        return Some(InvalidRequest);
      }
      if !InScope(containers, c, x) || !Live(containers, x) || !LiveMember(members, x, inviter) {
        return Some(InvalidRequest);
      }
      if !IsSteward(members[Seat(x, inviter)].role) {
        return Some(InsufficientRole);
      }
      if containers[x].shared == 0 {
        return Some(KeyRotationIncomplete);
      }
      if e.generation != containers[x].generation {
        return Some(GenerationMoved);
      }
      if !OwnedBy(devices, e.device, invitee) || !devices[e.device].identity || devices[e.device].revoked {
        return Some(InvalidRequest);
      }
      if InviteKey(id, x) in inviteEnvelopes {
        return Some(InvalidRequest);
      }
      inviteEnvelopes := inviteEnvelopes[InviteKey(id, x) := InviteEnvelope(e.device, e.generation, e.sealed)];
      return None;
    }

    /** The invitation and its envelopes, all or none. */
    method SendInvite(caller: UserId, id: InvitationId, row: Invitation, vs: seq<InviteEnvelopeIn>)
        returns (failure: Option<Error>)
      modifies `invitations, `inviteEnvelopes
      ensures Follows(old(Snapshot()), Invite(old(Snapshot()), caller, id, row, vs), failure, Snapshot())
    {
      hide InsertInviteEnvelope, MemberRole;
      var c := row.container;
      if row.role.Owner? || !row.pending || row.inviter != caller || id in invitations {
        return Some(InvalidRequest);
      }
      var role := StewardRole(Snapshot(), c, caller);
      if role.Err? {
        return Some(role.error);
      }
      var savedInvitations, savedEnvelopes := invitations, inviteEnvelopes;
      invitations := invitations[id := row];
      ghost var sent := Snapshot();
      for i := 0 to |vs|
        invariant InsertInviteAll(sent, id, c, caller, row.invitee, vs[..i]) == Ok(Snapshot())
      {
        assert vs[..i + 1][..i] == vs[..i];
        failure := StoreInviteEnvelope(id, c, caller, row.invitee, vs[i]);
        if failure.Some? {
          InsertInviteAllStops(sent, id, c, caller, row.invitee, vs, i + 1);
          invitations, inviteEnvelopes := savedInvitations, savedEnvelopes;
          return failure;
        }
      }
      assert vs[..|vs|] == vs;
      return None;
    }

    /** moveInvitationEnvelopesTx: select what may move, insert where nothing is stored, drop the rest. */
    method MoveInviteEnvelopes(id: InvitationId, invitee: UserId)
      modifies `envelopes, `inviteEnvelopes
      ensures Snapshot() == MoveInvites(old(Snapshot()), id, invitee)
    {
      hide Movable, MovedRows;
      var selected := set k | k in inviteEnvelopes && Movable(containers, devices, id, invitee, k, inviteEnvelopes[k]);
      var pending := selected;
      ghost var was, moved := envelopes, MovedRows(containers, devices, inviteEnvelopes, id, invitee);
      SelectedAreMoved(containers, devices, inviteEnvelopes, id, invitee, selected);
      while pending != {}
        invariant pending <= selected && inviteEnvelopes == old(inviteEnvelopes)
        invariant forall k <- was :: k in envelopes && envelopes[k] == was[k]
        invariant forall k <- selected - pending :: MovedKey(k, inviteEnvelopes[k]) in envelopes
        invariant forall e <- envelopes ::
          (e in was && envelopes[e] == was[e]) || (e !in was && e in moved && envelopes[e] == moved[e])
        decreases pending
      {
        var k :| k in pending;
        var key := MovedKey(k, inviteEnvelopes[k]);
        if key !in envelopes {
          envelopes := envelopes[key := inviteEnvelopes[k].sealed];
        }
        pending := pending - {k};
      }
      ExistingWins(was, moved, envelopes);
      inviteEnvelopes := map k | k in inviteEnvelopes && k.invitation != id :: inviteEnvelopes[k];
    }

    /** admitMemberTx: revoked rows come back, missing ones are inserted. */
    method AdmitMember(c: ContainerId, u: UserId, role: Role, invitedBy: Option<UserId>, approved: bool)
        returns (failure: Option<Error>)
      modifies `members
      ensures Follows(old(Snapshot()), Admit(old(Snapshot()), c, u, role, invitedBy, approved), failure, Snapshot())
    {
      hide InScope, LiveInScope, AdmittedRows, Readmitted, Inserted;
      if LiveInScope(containers, members, c, u) {
        return Some(MembershipExists);
      }
      var row := AdmittedRow(role, invitedBy, approved);
      AdmitIsOneStep(containers, members, c, u, row);
      members := Readmitted(members, containers, c, u, row);
      members := Inserted(members, containers, c, u, row);
      return None;
    }

    /** removeMemberTx, statement by statement. */
    method DropMember(c: ContainerId, target: UserId) returns (failure: Option<Error>)
      modifies `containers, `members, `envelopes, `invitations, `inviteEnvelopes
      ensures Follows(old(Snapshot()), RemoveMember(old(Snapshot()), c, target), failure, Snapshot())
    {
      hide RemoveMember, MembersRevoked, GenerationsAdvanced, KeysDropped, DeadInvites, Cascaded, Recharged;
      hide DropStaleInvites;
      RemovalIsOneStep(Snapshot(), c, target);
      if c !in containers || !LiveMember(members, c, target) || members[Seat(c, target)].role.Owner? {
        return Some(NotFound);
      }
      var was := containers;
      members := MembersRevoked(members, was, c, target);
      containers := GenerationsAdvanced(containers, c);
      envelopes := KeysDropped(envelopes, devices, was, c, target);
      var dead := DeadInvites(invitations, was, c, target);
      invitations := invitations - dead;
      inviteEnvelopes := Cascaded(inviteEnvelopes, dead);
      inviteEnvelopes := DropStaleInvites(Snapshot(), set x | x in was && InScope(was, c, x));
      containers := Recharged(containers, c, target);
      return None;
    }

    /** retireKeysTx: the retired containers refuse every write until they are rotated. */
    method RetireMemberKeys(u: UserId)
      modifies `containers, `inviteEnvelopes
      ensures Snapshot() == RetireKeys(old(Snapshot()), u)
      ensures Inv(old(Snapshot())) ==> Inv(Snapshot())
      ensures Inv(old(Snapshot())) ==> forall c, v, g: nat ::
        Live(old(containers), c) && 0 < old(containers)[c].shared && ApprovedMember(members, c, u) ==>
          WriteGate(Snapshot(), c, v, g, true).Err?
    {
      ghost var before := Snapshot();
      hide ApprovedMember, Inv, WriteGate;
      assert Retired(containers, members, u).Keys == containers.Keys;
      hide Retired;
      containers := Retired(containers, members, u);
      inviteEnvelopes := DropStaleInvites(Snapshot(), set x | x in containers && ApprovedMember(members, x, u));
      assert Snapshot() == RetireKeys(before, u);
      hide RetireKeys, DropStaleInvites;
      if Inv(before) {
        RetiredRefuseWrites(before, u);
      }
    }

    /** Accepting an invitation: close it, admit the caller, move its envelopes. */
    method AcceptInvitation(caller: UserId, id: InvitationId, token: nat, now: nat) returns (failure: Option<Error>)
      modifies `invitations, `members, `envelopes, `inviteEnvelopes
      ensures Follows(old(Snapshot()), Accept(old(Snapshot()), caller, id, token, now), failure, Snapshot())
    {
      hide Admit, MoveInvites, StewardMember;
      if id !in invitations || invitations[id].token != token || invitations[id].invitee != caller ||
          !invitations[id].pending || invitations[id].expires <= now
      {
        return Some(NotFound);
      }
      var row, saved := invitations[id], invitations;
      if !StewardMember(members, row.container, row.inviter) || !Live(containers, row.container) ||
          !ActiveUser(active, row.inviter)
      {
        return Some(NotFound);
      }
      invitations := invitations[id := row.(pending := false)];
      failure := AdmitMember(row.container, caller, row.role, Some(row.inviter), true);
      if failure.Some? {
        invitations := saved;
        return;
      }
      MoveInviteEnvelopes(id, caller);
    }

    /** The self-service reset: compare and swap, end paired devices, retire keys, delete and insert. */
    method ReplaceIdentity(u: UserId, expected: Option<DeviceId>, d: DeviceId, fingerprint: nat)
        returns (failure: Option<Error>)
      modifies `devices, `containers, `envelopes, `inviteEnvelopes
      ensures Follows(old(Snapshot()), ResetIdentity(old(Snapshot()), u, expected, d, fingerprint), failure, Snapshot())
    {
      hide RetireKeys, RevokePaired, DeleteIdentity;
      var current := expected.Some? && IdentityOf(devices, u, expected.value);
      var none := expected.None? && forall e <- devices :: !IdentityOf(devices, u, e);
      if !current && !none {
        return Some(IdentityMoved);
      }
      if expected.Some? && devices[expected.value].fingerprint == fingerprint {
        return Some(IdentityExists);
      }
      var savedDevices, savedContainers, savedEnvelopes, savedInvites := devices, containers, envelopes,
        inviteEnvelopes;
      EndPairedDevices(u);
      RetireMemberKeys(u);
      RemoveIdentity(u);
      var added := AddIdentity(Snapshot(), u, d, fingerprint);
      if added.Err? {
        devices, containers, envelopes, inviteEnvelopes := savedDevices, savedContainers, savedEnvelopes, savedInvites;
        return Some(added.error);
      }
      devices := devices[d := Device(u, true, fingerprint, false)];
      return None;
    }

    method EndPairedDevices(u: UserId)
      modifies `devices, `envelopes
      ensures Snapshot() == RevokePaired(old(Snapshot()), u)
    {
      hide RevokedPaired, WithoutPairedEnvelopes;
      ghost var before := Snapshot();
      envelopes := WithoutPairedEnvelopes(Snapshot(), u);
      PairedReadDevices(before, Snapshot(), u);
      devices := RevokedPaired(Snapshot(), u);
    }

    /** deleteIdentityTx; the envelopes go with the device row. */
    method RemoveIdentity(u: UserId)
      modifies `devices, `envelopes, `inviteEnvelopes
      ensures Snapshot() == DeleteIdentity(old(Snapshot()), u)
    {
      hide DeleteIdentity, IdentityInvitesDropped, IdentityKeysDropped, IdentityDropped;
      DeletionIsOneStep(Snapshot(), u);
      inviteEnvelopes := IdentityInvitesDropped(inviteEnvelopes, devices, u);
      envelopes := IdentityKeysDropped(envelopes, devices, u);
      devices := IdentityDropped(devices, u);
    }
  }

  /** A PUT or a rotation answered without an error has stored every envelope of the request, the last one naming a
      key winning, and touched no other; one answered with an error has touched none. */
  lemma AnswerIsTrue(before: State, caller: UserId, c: ContainerId, expected: nat, vs: seq<EnvelopeIn>,
      failure: Option<Error>, after: State)
    requires Follows(before, PutEnvelopes(before, caller, c, vs), failure, after) ||
      Follows(before, Rotate(before, caller, c, expected, vs), failure, after)
    ensures if failure.None? then Stored(before.envelopes, after.envelopes, c, vs) else after == before
  {
    hide PutEnvelopes, Rotate, Stored;
    if Follows(before, PutEnvelopes(before, caller, c, vs), failure, after) {
      if failure.None? {
        PutStores(before, caller, c, vs);
      }
    } else if failure.None? {
      RotateStores(before, caller, c, expected, vs);
    }
  }

  lemma PairedReadDevices(s: State, t: State, u: UserId)
    requires s.devices == t.devices
    ensures RevokedPaired(s, u) == RevokedPaired(t, u)
  {
  }

  lemma DeletionIsOneStep(s: State, u: UserId)
    ensures DeleteIdentity(s, u) ==
      s.(devices := IdentityDropped(s.devices, u), envelopes := IdentityKeysDropped(s.envelopes, s.devices, u),
      inviteEnvelopes := IdentityInvitesDropped(s.inviteEnvelopes, s.devices, u))
  {
    hide OwnedBy;
  }

  lemma StewardHasContainer(s: State, c: ContainerId, u: UserId)
    requires StewardRole(s, c, u).Ok?
    ensures c in s.containers
  {
  }

  /** An error among the first envelopes is the error of all. */
  lemma {:induction false} InsertAllStops(s: State, c: ContainerId, generation: nat, caller: UserId, role: Role,
      vs: seq<EnvelopeIn>, n: nat)
    requires n <= |vs| && InsertAll(s, c, generation, caller, role, vs[..n]).Err?
    ensures InsertAll(s, c, generation, caller, role, vs) == InsertAll(s, c, generation, caller, role, vs[..n])
    decreases |vs|
  {
    hide InsertEnvelope;
    if n == |vs| {
      assert vs[..n] == vs;
    } else {
      assert vs[..|vs| - 1][..n] == vs[..n];
      InsertAllStops(s, c, generation, caller, role, vs[..|vs| - 1], n);
    }
  }

  lemma {:induction false} PutAllStops(s: State, c: ContainerId, current: nat, caller: UserId, role: Role,
      vs: seq<EnvelopeIn>, n: nat)
    requires c in s.containers && n <= |vs| && PutAll(s, c, current, caller, role, vs[..n]).Err?
    ensures PutAll(s, c, current, caller, role, vs) == PutAll(s, c, current, caller, role, vs[..n])
    decreases |vs|
  {
    hide InsertEnvelope, PutGeneration;
    if n == |vs| {
      assert vs[..n] == vs;
    } else {
      assert vs[..|vs| - 1][..n] == vs[..n];
      PutAllStops(s, c, current, caller, role, vs[..|vs| - 1], n);
    }
  }

  lemma {:induction false} InsertInviteAllStops(s: State, id: InvitationId, c: ContainerId, inviter: UserId,
      invitee: UserId, vs: seq<InviteEnvelopeIn>, n: nat)
    requires n <= |vs| && InsertInviteAll(s, id, c, inviter, invitee, vs[..n]).Err?
    ensures InsertInviteAll(s, id, c, inviter, invitee, vs) == InsertInviteAll(s, id, c, inviter, invitee, vs[..n])
    decreases |vs|
  {
    hide InsertInviteEnvelope;
    if n == |vs| {
      assert vs[..n] == vs;
    } else {
      assert vs[..|vs| - 1][..n] == vs[..n];
      InsertInviteAllStops(s, id, c, inviter, invitee, vs[..|vs| - 1], n);
    }
  }

  lemma SelectedAreMoved(cs: map<ContainerId, Container>, ds: map<DeviceId, Device>,
      invites: map<InviteKey, InviteEnvelope>, id: InvitationId, invitee: UserId, selected: set<InviteKey>)
    requires selected == set k | k in invites && Movable(cs, ds, id, invitee, k, invites[k])
    ensures var moved := MovedRows(cs, ds, invites, id, invitee);
      (forall k <- selected ::
        MovedKey(k, invites[k]) in moved && moved[MovedKey(k, invites[k])] == invites[k].sealed) &&
      (forall e <- moved :: exists k <- selected :: e == MovedKey(k, invites[k]))
  {
  }

  /** Inserting row by row, an existing row winning, is the specified union. */
  lemma ExistingWins(was: map<EnvelopeKey, Sealed>, moved: map<EnvelopeKey, Sealed>, after: map<EnvelopeKey, Sealed>)
    requires forall k <- was :: k in after && after[k] == was[k]
    requires forall e <- moved :: e in after
    requires forall e <- after :: (e in was && after[e] == was[e]) || (e !in was && e in moved && after[e] == moved[e])
    ensures after == moved + was
  {
  }

  lemma ScopeIsStored(cs: map<ContainerId, Container>, c: ContainerId)
    ensures forall x :: InScope(cs, c, x) ==> x in cs
  {
  }

  lemma AdmitKeys(cs: map<ContainerId, Container>, ms: map<Seat, Membership>, c: ContainerId, u: UserId,
      row: Membership)
    ensures Inserted(Readmitted(ms, cs, c, u, row), cs, c, u, row).Keys == (ms + AdmittedRows(cs, c, u, row)).Keys
  {
    hide InScope, Live;
  }

  lemma AdmitIsOneStep(cs: map<ContainerId, Container>, ms: map<Seat, Membership>, c: ContainerId, u: UserId,
      row: Membership)
    ensures Inserted(Readmitted(ms, cs, c, u, row), cs, c, u, row) == ms + AdmittedRows(cs, c, u, row)
  {
    ScopeIsStored(cs, c);
    AdmitKeys(cs, ms, c, u, row);
    hide InScope, Live;
  }

  /** The statements together are the specified removal. */
  lemma RemovalIsOneStep(s: State, c: ContainerId, target: UserId)
    ensures RemoveMember(s, c, target).Err? ==> RemoveMember(s, c, target) == Err(NotFound)
    ensures RemoveMember(s, c, target).Ok? <==>
      c in s.containers && LiveMember(s.members, c, target) && !s.members[Seat(c, target)].role.Owner?
    ensures RemoveMember(s, c, target).Ok? ==>
      var advanced, dead := GenerationsAdvanced(s.containers, c), DeadInvites(s.invitations, s.containers, c, target);
      var kept := s.(members := MembersRevoked(s.members, s.containers, c, target), containers := advanced,
        envelopes := KeysDropped(s.envelopes, s.devices, s.containers, c, target),
        invitations := s.invitations - dead, inviteEnvelopes := Cascaded(s.inviteEnvelopes, dead));
      c in advanced && RemoveMember(s, c, target).value == kept.(
        inviteEnvelopes := DropStaleInvites(kept, set x | x in s.containers && InScope(s.containers, c, x)),
        containers := Recharged(advanced, c, target))
  {
    hide OwnedBy;
    if RemoveMember(s, c, target).Ok? {
      RemovalContainers(s, c, target);
      hide Recharged;
      assert RemoveMember(s, c, target).value.invitations ==
        s.invitations - DeadInvites(s.invitations, s.containers, c, target);
    }
  }

  lemma RemovalContainers(s: State, c: ContainerId, target: UserId)
    requires RemoveMember(s, c, target).Ok?
    ensures c in GenerationsAdvanced(s.containers, c) &&
      RemoveMember(s, c, target).value.containers == Recharged(GenerationsAdvanced(s.containers, c), c, target)
  {
    hide OwnedBy, InScope, DropStaleInvites;
  }
}
