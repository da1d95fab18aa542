/**
 * A run that shows why a revived attachment is excepted: a member is invited, holds generation 2,
 * and is removed; then bytes first uploaded at generation 2, and deleted, are uploaded again.
 */
module TeamExample {
  import opened Outcome
  import opened TeamModel
  import opened TeamInvariant
  import opened TeamRuns

  const SEALED := Sealed(HpkeAuth, [0])
  const INVITATION := Invitation(0, 0, 1, 7, Editor, true, 9)
  const OWNER_SEAT := Membership(Owner, true, false, None, None)
  const GUEST_SEAT := Membership(Editor, true, false, None, Some(0))

  function OpAt(n: nat): Op {
    if n == 0 then OpIdentity(0, 0, 0)
    else if n == 1 then OpIdentity(1, 1, 1)
    else if n == 2 then OpCreate(0, 0, true)
    else if n == 3 then OpRotate(0, 0, 1, [EnvelopeIn(0, 2, SEALED)])
    else if n == 4 then OpInvite(0, 0, INVITATION, [InviteEnvelopeIn(0, EnvelopeIn(1, 2, SEALED))])
    else if n == 5 then OpAccept(1, 0, 7, 0)
    else if n == 6 then OpAttach(0, 0, 0, 2, true)
    else if n == 7 then OpTombstone(AttachKey(0, 0))
    else if n == 8 then OpStewardRemove(0, 0, 1)
    else if n == 9 then OpRotate(0, 0, 3, [EnvelopeIn(0, 4, SEALED)])
    else OpAttach(0, 0, 0, 4, true)
  }

  ghost function Devices(n: nat): map<DeviceId, Device> {
    if n == 0 then map[] else if n == 1 then map[0 := Device(0, true, 0, false)]
      else map[0 := Device(0, true, 0, false), 1 := Device(1, true, 1, false)]
  }

  ghost function Containers(n: nat): map<ContainerId, Container> {
    if n < 3 then map[]
    else map[0 :=
      Container(None, true, 0, if n < 4 then 1 else if n < 9 then 2 else if n < 10 then 3 else 4, if n < 4 then 0
      else 2, 0, false)]
  }

  ghost function Members(n: nat): map<Seat, Membership> {
    if n < 3 then map[]
    else if n < 6 then map[Seat(0, 0) := OWNER_SEAT]
    else map[Seat(0, 0) := OWNER_SEAT, Seat(0, 1) := GUEST_SEAT.(revoked := n >= 9)]
  }

  ghost function Envelopes(n: nat): map<EnvelopeKey, Sealed> {
    if n < 4 then map[]
    else if n < 6 then map[EnvelopeKey(0, 0, 2) := SEALED]
    else if n < 9 then map[EnvelopeKey(0, 0, 2) := SEALED, EnvelopeKey(0, 1, 2) := SEALED]
    else if n < 10 then map[EnvelopeKey(0, 0, 2) := SEALED]
    else map[EnvelopeKey(0, 0, 2) := SEALED, EnvelopeKey(0, 0, 4) := SEALED]
  }

  /** The tables after n of the steps. */
  ghost function Stage(n: nat): State {
    State(map[0 := true, 1 := true], Devices(n), Containers(n), Members(n), Envelopes(n),
      if n < 5 then map[] else map[0 := INVITATION.(pending := n < 6)],
      if n == 5 then map[InviteKey(0, 0) := InviteEnvelope(1, 2, SEALED)] else map[],
      if n < 7 then map[] else map[AttachKey(0, 0) := AttachRow(2, 8 <= n < 11)],
      if n < 7 then [] else if n < 11 then [Written(0, Attachment, 0, 2)]
        else [Written(0, Attachment, 0, 2), Written(0, Attachment, 0, 2)])
  }

  lemma Identities()
    ensures Apply(Stage(0), OpIdentity(0, 0, 0)) == Ok(Stage(1)) && Apply(Stage(1), OpIdentity(1, 1, 1)) == Ok(Stage(2))
  {
  }

  lemma Created()
    ensures Apply(Stage(2), OpCreate(0, 0, true)) == Ok(Stage(3))
  {
  }

  lemma OneEnvelope(s: State, c: ContainerId, generation: nat, caller: UserId, role: Role, v: EnvelopeIn)
    requires InsertEnvelope(s, c, generation, caller, role, v).Ok?
    ensures InsertAll(s, c, generation, caller, role, [v]) == InsertEnvelope(s, c, generation, caller, role, v)
  {
    hide InsertEnvelope;
    assert [v][..0] == [];
    assert InsertAll(s, c, generation, caller, role, []) == Ok(s);
  }

  /** A rotation with one envelope, from what its guards find. */
  lemma RotatesWithOne(s: State, caller: UserId, c: ContainerId, expected: nat, v: EnvelopeIn, filled: State)
    requires StewardRole(s, c, caller) == Ok(Owner) && c in s.containers && s.containers[c].generation == expected >= 1
    requires InsertEnvelope(s.(containers := s.containers[c := Minted(s.containers[c])]), c, expected + 1, caller,
      Owner, v) == Ok(filled)
    requires filled.inviteEnvelopes == map[] && Covered(filled, c, expected + 1) &&
      OwnIdentityEnvelope(filled, caller, c, expected + 1)
    ensures Rotate(s, caller, c, expected, [v]) == Ok(filled)
  {
    hide InsertEnvelope, InsertAll, Covered, OwnIdentityEnvelope, Minted, StewardRole;
    OneEnvelope(s.(containers := s.containers[c := Minted(s.containers[c])]), c, expected + 1, caller, Owner, v);
    assert DropStaleInvites(filled, {c}) == map[];
    assert filled.(inviteEnvelopes := map[]) == filled;
    assert DistinctDevices([v]);
    hide DropStaleInvites, DistinctDevices;
  }

  lemma Covers(n: nat, generation: nat)
    requires (n == 4 && generation == 2) || (n == 10 && generation == 4)
    ensures Covered(Stage(n), 0, generation) && OwnIdentityEnvelope(Stage(n), 0, 0, generation)
  {
    assert EnvelopeKey(0, 0, generation) in Stage(n).envelopes;
  }

  lemma FirstEnvelope()
    ensures Stage(3).containers[0 := Minted(Stage(3).containers[0])] == Containers(4)
    ensures InsertEnvelope(Stage(3).(containers := Containers(4)), 0, 2, 0, Owner, EnvelopeIn(0, 2, SEALED)) ==
      Ok(Stage(4))
  {
  }

  lemma FirstGuards()
    ensures StewardRole(Stage(3), 0, 0) == Ok(Owner) && 0 in Stage(3).containers &&
      Stage(3).containers[0].generation == 1
    ensures Stage(4).inviteEnvelopes == map[]
  {
  }

  lemma FirstRotation()
    ensures Apply(Stage(3), OpRotate(0, 0, 1, [EnvelopeIn(0, 2, SEALED)])) == Ok(Stage(4))
  {
    FirstEnvelope();
    FirstGuards();
    Covers(4, 2);
    hide InsertEnvelope, Covered, OwnIdentityEnvelope, Rotate, Minted, Stage, StewardRole;
    assert Stage(3).containers[0 := Minted(Stage(3).containers[0])] == Containers(4);
    RotatesWithOne(Stage(3), 0, 0, 1, EnvelopeIn(0, 2, SEALED), Stage(4));
  }

  lemma Invited()
    ensures Apply(Stage(4), OpInvite(0, 0, INVITATION, [InviteEnvelopeIn(0, EnvelopeIn(1, 2, SEALED))])) == Ok(Stage(5))
  {
    var vs := [InviteEnvelopeIn(0, EnvelopeIn(1, 2, SEALED))];
    var sent := Stage(4).(invitations := map[0 := INVITATION]);
    assert vs[..0] == [];
    assert InsertInviteAll(sent, 0, 0, 0, 1, vs[..0]) == Ok(sent);
    assert InsertInviteEnvelope(sent, 0, 0, 0, 1, vs[0]) == Ok(Stage(5));
  }

  lemma GuestRows()
    ensures AdmittedRows(Containers(5), 0, 1, GUEST_SEAT) == map[Seat(0, 1) := GUEST_SEAT]
    ensures Members(5) + map[Seat(0, 1) := GUEST_SEAT] == Members(6) && !LiveInScope(Containers(5), Members(5), 0, 1)
  {
  }

  lemma GuestAdmitted(accepted: State)
    requires accepted == Stage(5).(invitations := map[0 := INVITATION.(pending := false)])
    ensures Admit(accepted, 0, 1, Editor, Some(0), true) == Ok(accepted.(members := Members(6)))
  {
    GuestRows();
    assert accepted.containers == Containers(5) && accepted.members == Members(5);
    hide AdmittedRows, LiveInScope, Members, Containers, Devices, Envelopes;
  }

  lemma GuestRowMoves()
    ensures MovedRows(Containers(5), Devices(5), Stage(5).inviteEnvelopes, 0, 1) == map[EnvelopeKey(0, 1, 2) := SEALED]
  {
    var invites := Stage(5).inviteEnvelopes;
    assert Movable(Containers(5), Devices(5), 0, 1, InviteKey(0, 0), invites[InviteKey(0, 0)]);
    assert MovedKey(InviteKey(0, 0), invites[InviteKey(0, 0)]) == EnvelopeKey(0, 1, 2);
    hide Movable, MovedKey;
  }

  lemma GuestKeyMoved(admitted: State)
    requires admitted == Stage(5).(invitations := map[0 := INVITATION.(pending := false)], members := Members(6))
    ensures MoveInvites(admitted, 0, 1) == Stage(6)
  {
    GuestRowMoves();
    hide MovedRows;
    assert map[EnvelopeKey(0, 1, 2) := SEALED] + admitted.envelopes == Envelopes(6);
    assert (map k | k in admitted.inviteEnvelopes && k.invitation != 0 :: admitted.inviteEnvelopes[k]) == map[];
  }

  /** An acceptance, from what its checks find and its two halves do. */
  lemma AcceptsInto(s: State, u: UserId, id: InvitationId, token: nat, now: nat, admitted: State)
    requires id in s.invitations && s.invitations[id].token == token && s.invitations[id].invitee == u
    requires var row := s.invitations[id];
      row.pending && row.expires > now && StewardMember(s.members, row.container, row.inviter) &&
      Live(s.containers, row.container) && ActiveUser(s.active, row.inviter) &&
      Admit(s.(invitations := s.invitations[id := row.(pending := false)]), row.container, u, row.role,
        Some(row.inviter),
        true) == Ok(admitted)
    ensures Apply(s, OpAccept(u, id, token, now)) == Ok(MoveInvites(admitted, id, u))
  {
    hide Admit, MoveInvites, StewardMember, ActiveUser, Live;
  }

  lemma Accepted()
    ensures Apply(Stage(5), OpAccept(1, 0, 7, 0)) == Ok(Stage(6))
  {
    var accepted := Stage(5).(invitations := map[0 := INVITATION.(pending := false)]);
    assert Stage(5).invitations[0 := INVITATION.(pending := false)] == accepted.invitations;
    GuestAdmitted(accepted);
    GuestKeyMoved(accepted.(members := Members(6)));
    GuestInvited();
    hide Members, Stage, Admit, MoveInvites, Apply, StewardMember, ActiveUser, Live;
    AcceptsInto(Stage(5), 1, 0, 7, 0, accepted.(members := Members(6)));
  }

  /** What accepting looks up of the invitation and its inviter. */
  lemma GuestInvited()
    ensures Stage(5).invitations == map[0 := INVITATION] && Live(Stage(5).containers, 0) &&
      ActiveUser(Stage(5).active, 0)
    ensures StewardMember(Stage(5).members, 0, 0)
  {
  }

  lemma Attached()
    ensures Apply(Stage(6), OpAttach(0, 0, 0, 2, true)) == Ok(Stage(7))
  {
    assert EnvelopeKey(0, 0, 2) in Stage(6).envelopes && OwnIdentityEnvelope(Stage(6), 0, 0, 2);
    assert Stage(6).written + [Written(0, Attachment, 0, 2)] == Stage(7).written;
    hide OwnIdentityEnvelope;
  }

  lemma Deleted()
    ensures Apply(Stage(7), OpTombstone(AttachKey(0, 0))) == Ok(Stage(8))
  {
    assert Stage(7).attachments[AttachKey(0, 0) := AttachRow(2, true)] == Stage(8).attachments;
  }

  lemma RemovalTouches(s: State, c: ContainerId, target: UserId)
    requires RemoveMember(s, c, target).Ok?
    ensures var r := RemoveMember(s, c, target).value;
      r == s.(containers := r.containers, members := r.members, envelopes := r.envelopes, invitations := r.invitations,
        inviteEnvelopes := r.inviteEnvelopes)
  {
    hide InScope, OwnedBy, DropStaleInvites;
  }

  lemma RemovedKeys()
    ensures RemoveMember(Stage(8), 0, 1).Ok?
    ensures RemoveMember(Stage(8), 0, 1).value.containers == Containers(9) &&
      RemoveMember(Stage(8), 0, 1).value.envelopes == Envelopes(9)
  {
    hide DropStaleInvites;
  }

  lemma RemovedSeats()
    ensures RemoveMember(Stage(8), 0, 1).Ok?
    ensures RemoveMember(Stage(8), 0, 1).value.members == Members(9)
  {
    hide DropStaleInvites, OwnedBy;
  }

  lemma RemovedInvites()
    ensures RemoveMember(Stage(8), 0, 1).Ok?
    ensures RemoveMember(Stage(8), 0, 1).value.invitations == Stage(9).invitations
    ensures RemoveMember(Stage(8), 0, 1).value.inviteEnvelopes == map[]
  {
    hide OwnedBy;
  }

  lemma Removed()
    ensures Apply(Stage(8), OpStewardRemove(0, 0, 1)) == Ok(Stage(9))
  {
    hide RemoveMember;
    RemovedKeys();
    RemovedSeats();
    RemovedInvites();
    RemovalTouches(Stage(8), 0, 1);
  }

  lemma SecondEnvelope()
    ensures Stage(9).containers[0 := Minted(Stage(9).containers[0])] == Containers(10)
    ensures InsertEnvelope(Stage(9).(containers := Containers(10)), 0, 4, 0, Owner, EnvelopeIn(0, 4, SEALED)) ==
      Ok(Stage(10))
  {
  }

  lemma SecondGuards()
    ensures StewardRole(Stage(9), 0, 0) == Ok(Owner) && 0 in Stage(9).containers &&
      Stage(9).containers[0].generation == 3
    ensures Stage(10).inviteEnvelopes == map[]
  {
  }

  lemma SecondRotation()
    ensures Apply(Stage(9), OpRotate(0, 0, 3, [EnvelopeIn(0, 4, SEALED)])) == Ok(Stage(10))
  {
    SecondEnvelope();
    SecondGuards();
    Covers(10, 4);
    hide InsertEnvelope, Covered, OwnIdentityEnvelope, Rotate, Minted, Stage, StewardRole;
    assert Stage(9).containers[0 := Minted(Stage(9).containers[0])] == Containers(10);
    RotatesWithOne(Stage(9), 0, 0, 3, EnvelopeIn(0, 4, SEALED), Stage(10));
  }

  lemma Revived()
    ensures Apply(Stage(10), OpAttach(0, 0, 0, 4, true)) == Ok(Stage(11))
  {
    assert EnvelopeKey(0, 0, 4) in Stage(10).envelopes && OwnIdentityEnvelope(Stage(10), 0, 0, 4);
    assert Stage(10).written + [Written(0, Attachment, 0, 2)] == Stage(11).written;
    assert Stage(10).attachments[AttachKey(0, 0) := AttachRow(2, false)] == Stage(11).attachments;
    hide OwnIdentityEnvelope;
  }

  lemma EachStep(n: nat)
    requires n < 11
    ensures Apply(Stage(n), OpAt(n)) == Ok(Stage(n + 1))
  {
    hide Apply, Stage;
    if n < 2 {
      Identities();
    } else if n == 2 {
      Created();
    } else if n == 3 {
      FirstRotation();
    } else if n == 4 {
      Invited();
    } else if n == 5 {
      Accepted();
    } else if n == 6 {
      Attached();
    } else if n == 7 {
      Deleted();
    } else if n == 8 {
      Removed();
    } else if n == 9 {
      SecondRotation();
    } else {
      Revived();
    }
  }

  /** The tables with the history that goes with them. */
  ghost function Path(n: nat): World {
    if n == 0 then World(Stage(0), {}, {})
    else World(Stage(n), Path(n - 1).held + Holds(Stage(n)), Path(n - 1).minted + NewDevice(OpAt(n - 1)))
  }

  lemma {:induction false} GuestHeld(n: nat)
    requires 6 <= n
    ensures Hold(0, 1, 1, 2) in Path(n).held
  {
    hide Stage, OpAt, NewDevice;
    if n == 6 {
      GuestEnvelope();
    } else {
      GuestHeld(n - 1);
    }
  }

  lemma GuestEnvelope()
    ensures Hold(0, 1, 1, 2) in Holds(Stage(6))
  {
    assert EnvelopeKey(0, 1, 2) in Stage(6).envelopes;
  }

  lemma {:induction false} MintedOnce(n: nat)
    ensures Path(n).minted == (if n == 0 then {} else if n == 1 then {0} else {0, 1}) &&
      NewDevice(OpAt(n)) !! Path(n).minted
  {
    hide Stage, Holds;
    MintedBy(n);
    if n > 0 {
      MintedOnce(n - 1);
      MintedBy(n - 1);
    }
    hide OpAt, NewDevice;
  }

  lemma MintedBy(n: nat)
    ensures NewDevice(OpAt(n)) == if n == 0 then {0} else if n == 1 then {1} else {}
  {
  }

  lemma PathSteps(n: nat)
    requires n < 11
    ensures Step(Path(n), OpAt(n), Path(n + 1))
  {
    hide Apply, Stage, OpAt, NewDevice, Holds;
    EachStep(n);
    MintedOnce(n);
  }

  lemma StartsEmpty()
    ensures Start(Path(0))
  {
  }

  lemma PathIsStage(n: nat)
    ensures Path(n).s == Stage(n)
  {
    hide Stage, Holds, OpAt;
  }

  lemma RevivedRow()
    ensures AttachKey(0, 0) in Stage(10).attachments && !LiveMember(Stage(10).members, 0, 1)
    ensures Stage(11).written == Stage(10).written + [Written(0, Attachment, 0, 2)]
  {
  }

  lemma PathIsRun()
    ensures Run(seq(12, n requires 0 <= n < 12 => Path(n)), seq(11, n requires 0 <= n < 11 => OpAt(n)))
  {
    hide Apply, Stage, OpAt, Path, Step, Start;
    StartsEmpty();
    forall n: nat | n < 11 ensures Step(Path(n), OpAt(n), Path(n + 1)) {
      PathSteps(n);
    }
  }

  lemma LastOps()
    ensures Removes(OpAt(8), 0, 1) && OpAt(10) == OpAttach(0, 0, 0, 4, true) && Revives(Stage(10), OpAt(10))
  {
  }

  lemma RevivalCommits(row: Written)
    requires row == Written(0, Attachment, 0, 2)
    ensures Commits(Stage(10), OpAt(10), row)
  {
    hide Apply, Stage, OpAt;
    EachStep(10);
    RevivedRow();
  }

  /**
   * The exception is real: this run, at its last step, commits an attachment at a generation held by a
   * member removed two steps before and not admitted again.
   */
  lemma RevivalKeepsOldGeneration() returns (ws: seq<World>, ops: seq<Op>, row: Written, h: Hold)
    ensures Run(ws, ops) && |ops| == 11 && Removes(ops[8], 0, 1) && Commits(ws[10].s, ops[10], row) &&
      Revives(ws[10].s, ops[10])
    ensures h in ws[10].held && h.user == 1 && h.container == row.container == 0 && h.generation == row.generation
    ensures !LiveMember(ws[10].s.members, 0, 1)
  {
    ws, ops := seq(12, n requires 0 <= n < 12 => Path(n)), seq(11, n requires 0 <= n < 11 => OpAt(n));
    row, h := Written(0, Attachment, 0, 2), Hold(0, 1, 1, 2);
    PathIsRun();
    hide Apply, Stage, OpAt, Path, Run, Removes, Commits, Revives, LiveMember;
    GuestHeld(10);
    PathIsStage(10);
    LastOps();
    RevivedRow();
    RevivalCommits(row);
  }
}
