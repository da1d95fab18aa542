/**
 * Team-key protocol: the tables the key routes read and write, and each transaction as a function
 * from the tables before it to the tables after it, or to the error that rolls it back.
 * Sessions, step-up, audit rows and HTTP plumbing are outside the model: a caller here is a user
 * whose session was admitted.
 */
module TeamModel {
  import opened Outcome

  newtype UserId = n: int | 0 <= n
  newtype DeviceId = n: int | 0 <= n
  newtype ContainerId = n: int | 0 <= n
  newtype InvitationId = n: int | 0 <= n
  newtype Digest = n: int | 0 <= n

  datatype Role = Owner | Admin | Editor | Commenter | Viewer

  datatype Container = Container(
    team: Option<ContainerId>, isTeam: bool, owner: UserId,
    generation: nat, shared: nat, nameVersion: nat, deleted: bool)

  datatype Membership = Membership(
    role: Role, approved: bool, revoked: bool, pending: Option<Role>, invitedBy: Option<UserId>)

  datatype Seat = Seat(container: ContainerId, user: UserId)

  datatype Device = Device(user: UserId, identity: bool, fingerprint: nat, revoked: bool)

  datatype Alg = HpkeAuth | LegacyX25519 | OtherAlg
  datatype Sealed = Sealed(alg: Alg, bytes: seq<bv8>)

  datatype EnvelopeKey = EnvelopeKey(container: ContainerId, device: DeviceId, generation: nat)
  datatype EnvelopeIn = EnvelopeIn(device: DeviceId, generation: nat, sealed: Sealed)

  datatype Invitation = Invitation(
    container: ContainerId, inviter: UserId, invitee: UserId, token: nat, role: Role, pending: bool, expires: nat)
  datatype InviteKey = InviteKey(invitation: InvitationId, container: ContainerId)
  datatype InviteEnvelope = InviteEnvelope(device: DeviceId, generation: nat, sealed: Sealed)
  datatype InviteEnvelopeIn = InviteEnvelopeIn(container: ContainerId, envelope: EnvelopeIn)

  datatype Kind = Version | Conflict | Comment | Attachment | Name
  datatype AttachKey = AttachKey(container: ContainerId, digest: Digest)
  datatype AttachRow = AttachRow(generation: nat, deleted: bool)

  /** A content row a transaction left readable, with the generation the row carries. */
  datatype Written = Written(container: ContainerId, kind: Kind, author: UserId, generation: nat)

  datatype State = State(
    active: map<UserId, bool>,
    devices: map<DeviceId, Device>,
    containers: map<ContainerId, Container>,
    members: map<Seat, Membership>,
    envelopes: map<EnvelopeKey, Sealed>,
    invitations: map<InvitationId, Invitation>,
    inviteEnvelopes: map<InviteKey, InviteEnvelope>,
    attachments: map<AttachKey, AttachRow>,
    written: seq<Written>)

  datatype Error =
    | NotMember | InsufficientRole | InvalidRequest | EnvelopeExists | GenerationMoved
    | KeyRotationIncomplete | MembershipExists | StaleClient | VersionConflict | NotFound
    | IdentityExists | IdentityMoved

  // ---- Row predicates -------------------------------------------------------------------------

  predicate IsSteward(role: Role) {
    role.Owner? || role.Admin?
  }

  predicate CanEdit(role: Role) {
    role.Owner? || role.Admin? || role.Editor?
  }

  predicate Live(cs: map<ContainerId, Container>, c: ContainerId) {
    c in cs && !cs[c].deleted
  }

  predicate LiveMember(ms: map<Seat, Membership>, c: ContainerId, u: UserId) {
    Seat(c, u) in ms && !ms[Seat(c, u)].revoked
  }

  predicate ApprovedMember(ms: map<Seat, Membership>, c: ContainerId, u: UserId) {
    LiveMember(ms, c, u) && ms[Seat(c, u)].approved
  }

  predicate StewardMember(ms: map<Seat, Membership>, c: ContainerId, u: UserId) {
    LiveMember(ms, c, u) && IsSteward(ms[Seat(c, u)].role)
  }

  predicate ActiveUser(active: map<UserId, bool>, u: UserId) {
    u in active && active[u]
  }

  /** x is container c or one of its child workspaces. */
  predicate InScope(cs: map<ContainerId, Container>, c: ContainerId, x: ContainerId) {
    x in cs && (x == c || cs[x].team == Some(c))
  }

  predicate OwnedBy(ds: map<DeviceId, Device>, d: DeviceId, u: UserId) {
    d in ds && ds[d].user == u
  }

  predicate IdentityOf(ds: map<DeviceId, Device>, u: UserId, d: DeviceId) {
    OwnedBy(ds, d, u) && ds[d].identity
  }

  /** memberTx: the caller's role in a live container whose parent, if it names one, is live too. */
  function MemberRole(s: State, c: ContainerId, u: UserId): Result<Role, Error> {
    if LiveMember(s.members, c, u) && Live(s.containers, c) &&
      (s.containers[c].team.None? || Live(s.containers, s.containers[c].team.value))
    then Ok(s.members[Seat(c, u)].role)
    else Err(NotMember)
  }

  function StewardRole(s: State, c: ContainerId, u: UserId): Result<Role, Error> {
    var role :- MemberRole(s, c, u);
    if IsSteward(role) then Ok(role) else Err(InsufficientRole)
  }

  // ---- Envelopes ------------------------------------------------------------------------------

  predicate WellFormed(e: Sealed) {
    !e.alg.OtherAlg? && 0 < |e.bytes| <= 4096
  }

  /** insertEnvelopeTx: insert-only, except that an owner may re-wrap its own identity's envelope. */
  function InsertEnvelope(s: State, c: ContainerId, generation: nat, caller: UserId, role: Role,
      v: EnvelopeIn): Result<State, Error> {
    var key := EnvelopeKey(c, v.device, generation);
    if !WellFormed(v.sealed) then Err(InvalidRequest)
    else if v.generation != generation then Err(GenerationMoved)
    else if !(v.device in s.devices && !s.devices[v.device].revoked &&
      ApprovedMember(s.members, c, s.devices[v.device].user)
              && ActiveUser(s.active, s.devices[v.device].user)) then Err(InvalidRequest)
    else
      var owner, identity := s.devices[v.device].user, s.devices[v.device].identity;
      if owner != caller && !IsSteward(role) then Err(InsufficientRole)
      else if owner == caller && identity && key in s.envelopes then Ok(s.(envelopes := s.envelopes[key := v.sealed]))
      else if owner == caller && identity && !IsSteward(role) then Err(InsufficientRole)
      else if key in s.envelopes then Err(EnvelopeExists)
      else Ok(s.(envelopes := s.envelopes[key := v.sealed]))
  }

  /** The rotation loop: every envelope must target the new generation. */
  function InsertAll(s: State, c: ContainerId, generation: nat, caller: UserId, role: Role,
      envelopes: seq<EnvelopeIn>): Result<State, Error>
    decreases |envelopes|
  {
    if envelopes == [] then Ok(s)
    else
      var before :- InsertAll(s, c, generation, caller, role, envelopes[..|envelopes| - 1]);
      match InsertEnvelope(before, c, generation, caller, role, envelopes[|envelopes| - 1])
      case Err(GenerationMoved) => Err(InvalidRequest)
      case r => r
  }

  predicate GenerationHeld(s: State, c: ContainerId, generation: nat) {
    exists k <- s.envelopes :: k.container == c && k.generation == generation
  }

  /** putGenerationTx: a PUT may extend only a generation some envelope already holds. */
  function PutGeneration(s: State, c: ContainerId, current: nat, requested: nat): Result<nat, Error>
    requires c in s.containers
  {
    var shared := s.containers[c].shared;
    if shared == 0 then Err(KeyRotationIncomplete)
    else if requested < shared || requested > current then Err(GenerationMoved)
    else if !GenerationHeld(s, c, requested) then Err(KeyRotationIncomplete)
    else Ok(requested)
  }

  function PutAll(s: State, c: ContainerId, current: nat, caller: UserId, role: Role,
      envelopes: seq<EnvelopeIn>): (r: Result<State, Error>)
    requires c in s.containers
    ensures r.Ok? ==> r.value == s.(envelopes := r.value.envelopes)
    decreases |envelopes|
  {
    if envelopes == [] then Ok(s)
    else
      var v := envelopes[|envelopes| - 1];
      var before :- PutAll(s, c, current, caller, role, envelopes[..|envelopes| - 1]);
      var target :- PutGeneration(before, c, current, v.generation);
      InsertEnvelope(before, c, target, caller, role, v)
  }

  function PutEnvelopes(s: State, caller: UserId, c: ContainerId, envelopes: seq<EnvelopeIn>): Result<State, Error> {
    var role :- MemberRole(s, c, caller);
    PutAll(s, c, s.containers[c].generation, caller, role, envelopes)
  }

  predicate OwnIdentityEnvelope(s: State, u: UserId, c: ContainerId, generation: nat) {
    exists k <- s.envelopes :: k.container == c && k.generation == generation &&
      OwnedBy(s.devices, k.device, u) && s.devices[k.device].identity && !s.devices[k.device].revoked
  }

  /** An identity a rotation must cover: unrevoked, of an active, approved member. */
  predicate MustCover(s: State, c: ContainerId, d: DeviceId) {
    d in s.devices && s.devices[d].identity && !s.devices[d].revoked &&
    ApprovedMember(s.members, c, s.devices[d].user) && ActiveUser(s.active, s.devices[d].user)
  }

  predicate Covered(s: State, c: ContainerId, generation: nat) {
    forall d <- s.devices :: MustCover(s, c, d) ==> EnvelopeKey(c, d, generation) in s.envelopes
  }

  predicate DistinctDevices(envelopes: seq<EnvelopeIn>) {
    forall i, j :: 0 <= i < j < |envelopes| ==> envelopes[i].device != envelopes[j].device
  }

  function Minted(k: Container): Container {
    k.(generation := k.generation + 1, shared := if k.shared == 0 then k.generation + 1 else k.shared)
  }

  /** Invitation envelopes of the containers in `where` that are below their container's generation. */
  function DropStaleInvites(s: State, where: set<ContainerId>): map<InviteKey, InviteEnvelope> {
    map k | k in s.inviteEnvelopes &&
      !(k.container in where && k.container in s.containers &&
        s.inviteEnvelopes[k].generation < s.containers[k.container].generation) :: s.inviteEnvelopes[k]
  }

  function Rotate(s: State, caller: UserId, c: ContainerId, expected: nat,
      envelopes: seq<EnvelopeIn>): Result<State, Error> {
    if expected < 1 || envelopes == [] || !DistinctDevices(envelopes) then Err(InvalidRequest)
    else
      var role :- StewardRole(s, c, caller);
      if s.containers[c].generation != expected then Err(GenerationMoved)
      else
        var next := expected + 1;
        var minted := s.(containers := s.containers[c := Minted(s.containers[c])]);
        var filled :- InsertAll(minted, c, next, caller, role, envelopes);
        var swept := filled.(inviteEnvelopes := DropStaleInvites(filled, {c}));
        if Covered(swept, c, next) && OwnIdentityEnvelope(swept, caller, c, next) then Ok(swept)
          else Err(InvalidRequest)
  }

  // ---- Write gate and content -----------------------------------------------------------------

  /** checkContainerKeyed, then checkWriteGate: it never reads `approved`. */
  function Keyed(s: State, c: ContainerId, u: UserId, currentScheme: bool): Result<nat, Error> {
    if !(LiveMember(s.members, c, u) && Live(s.containers, c)) then Err(NotMember)
    else if !currentScheme then Err(StaleClient)
    else if s.containers[c].shared == 0 then Err(KeyRotationIncomplete)
    else Ok(s.containers[c].generation)
  }

  function WriteGate(s: State, c: ContainerId, u: UserId, requested: nat, currentScheme: bool): Result<(), Error> {
    var generation :- Keyed(s, c, u, currentScheme);
    if requested != generation || !OwnIdentityEnvelope(s, u, c, generation) then Err(KeyRotationIncomplete) else Ok(())
  }

  /** A page version, a conflict or a comment, as the guards inside its transaction admit it. */
  function Write(s: State, caller: UserId, c: ContainerId, kind: Kind, generation: nat,
      currentScheme: bool): Result<State, Error>
    requires kind.Version? || kind.Conflict? || kind.Comment?
  {
    var _ :- WriteGate(s, c, caller, generation, currentScheme);
    if !kind.Comment? && !CanEdit(s.members[Seat(c, caller)].role) then Err(InsufficientRole)
    else Ok(s.(written := s.written + [Written(c, kind, caller, generation)]))
  }

  /** Finalizing an attachment inserts its row, or revives the row those bytes already have. */
  function Attach(s: State, caller: UserId, c: ContainerId, digest: Digest, generation: nat,
      currentScheme: bool): Result<State, Error> {
    var _ :- WriteGate(s, c, caller, generation, currentScheme);
    if !CanEdit(s.members[Seat(c, caller)].role) then Err(InsufficientRole)
    else
      var key := AttachKey(c, digest);
      var row := AttachRow(if key in s.attachments then s.attachments[key].generation else generation, false);
      Ok(s.(attachments := s.attachments[key := row],
        written := s.written + [Written(c, Attachment, caller, row.generation)]))
  }

  function TombstoneAttachment(s: State, key: AttachKey): State {
    if key in s.attachments then s.(attachments := s.attachments[key := s.attachments[key].(deleted := true)]) else s
  }

  /** A rename needs the current generation but no envelope of the caller's. */
  function Rename(s: State, caller: UserId, c: ContainerId, base: nat, generation: nat,
      currentScheme: bool): Result<State, Error> {
    if !(LiveMember(s.members, c, caller) && Live(s.containers, c)) then Err(NotFound)
    else if !CanEdit(s.members[Seat(c, caller)].role) then Err(InsufficientRole)
    else if !currentScheme then Err(StaleClient)
    else
      var k := s.containers[c];
      if k.shared == 0 || generation != k.generation then Err(KeyRotationIncomplete)
      else if k.nameVersion != base then Err(VersionConflict)
      else Ok(s.(containers := s.containers[c := k.(nameVersion := base + 1)],
        written := s.written + [Written(c, Name, caller, generation)]))
  }

  // ---- Containers and membership --------------------------------------------------------------

  function CreateContainer(s: State, caller: UserId, id: ContainerId, isTeam: bool): Result<State, Error> {
    if id in s.containers then Err(InvalidRequest)
    else Ok(s.(
      containers := s.containers[id := Container(None, isTeam, caller, 1, 0, 0, false)],
      members := s.members[Seat(id, caller) := Membership(Owner, true, false, None, None)]))
  }

  /** A child workspace copies the team's live memberships, approval state included. */
  function CreateChild(s: State, caller: UserId, id: ContainerId, team: ContainerId): Result<State, Error> {
    if id in s.containers then Err(InvalidRequest)
    else
      var _ :- StewardRole(s, team, caller);
      if !s.containers[team].isTeam then Err(InsufficientRole)
      else Ok(s.(
        containers := s.containers[id := Container(Some(team), false, caller, 1, 0, 0, false)],
        members := s.members + map k | k in s.members && k.container == team && !s.members[k].revoked ::
          Seat(id, k.user) := s.members[k]))
  }

  function AdmittedRow(role: Role, invitedBy: Option<UserId>, approved: bool): Membership {
    if approved then Membership(role, true, false, None, invitedBy)
      else Membership(Viewer, false, false, Some(role), invitedBy)
  }

  function AdmittedRows(cs: map<ContainerId, Container>, c: ContainerId, u: UserId,
      row: Membership): map<Seat, Membership> {
    map x | x in cs && InScope(cs, c, x) && Live(cs, x) :: Seat(x, u) := row
  }

  predicate LiveInScope(cs: map<ContainerId, Container>, ms: map<Seat, Membership>, c: ContainerId, u: UserId) {
    exists x <- cs :: InScope(cs, c, x) && LiveMember(ms, x, u)
  }

  /** admitMemberTx: one row per live container of the scope, reactivated or new. */
  function Admit(s: State, c: ContainerId, u: UserId, role: Role, invitedBy: Option<UserId>,
      approved: bool): Result<State, Error> {
    if LiveInScope(s.containers, s.members, c, u) then Err(MembershipExists)
    else Ok(s.(members := s.members + AdmittedRows(s.containers, c, u, AdmittedRow(role, invitedBy, approved))))
  }

  function AdminAdd(s: State, c: ContainerId, u: UserId, role: Role): Result<State, Error> {
    if IsSteward(role) then Err(InvalidRequest)
    else if !(Live(s.containers, c) && s.containers[c].isTeam && ActiveUser(s.active, u)) then Err(NotFound)
    else Admit(s, c, u, role, None, false)
  }

  function Approve(s: State, caller: UserId, c: ContainerId, target: UserId): Result<State, Error> {
    if !(ApprovedMember(s.members, c, caller) && Live(s.containers, c) && s.containers[c].team.None?) then Err(NotFound)
    else if !IsSteward(s.members[Seat(c, caller)].role) then Err(InsufficientRole)
    else if forall x <- s.containers ::
      !(InScope(s.containers, c, x) && Live(s.containers, x) && LiveMember(s.members, x, target)) then Err(NotMember)
    else Ok(s.(members := map k | k in s.members ::
      var m := s.members[k];
      if k.user == target && !m.revoked && InScope(s.containers, c, k.container) && Live(s.containers, k.container)
      then m.(role := if m.approved || m.pending.None? then m.role
        else m.pending.value, pending := None, approved := true)
      else m))
  }

  function InsertInviteEnvelope(s: State, id: InvitationId, c: ContainerId, inviter: UserId, invitee: UserId,
      v: InviteEnvelopeIn): Result<State, Error> {
    var x, e := v.container, v.envelope;
    if !WellFormed(e.sealed) then Err(InvalidRequest)
    else if !(InScope(s.containers, c, x) && Live(s.containers, x) && LiveMember(s.members, x, inviter))
      then Err(InvalidRequest)
    else if !StewardMember(s.members, x, inviter) then Err(InsufficientRole)
    else if s.containers[x].shared == 0 then Err(KeyRotationIncomplete)
    else if e.generation != s.containers[x].generation then Err(GenerationMoved)
    else if !(OwnedBy(s.devices, e.device, invitee) && s.devices[e.device].identity && !s.devices[e.device].revoked)
      then Err(InvalidRequest)
    else if InviteKey(id, x) in s.inviteEnvelopes then Err(InvalidRequest)
    else Ok(s.(inviteEnvelopes :=
      s.inviteEnvelopes[InviteKey(id, x) := InviteEnvelope(e.device, e.generation, e.sealed)]))
  }

  function InsertInviteAll(s: State, id: InvitationId, c: ContainerId, inviter: UserId, invitee: UserId,
      envelopes: seq<InviteEnvelopeIn>): Result<State, Error>
    decreases |envelopes|
  {
    if envelopes == [] then Ok(s)
    else
      var before :- InsertInviteAll(s, id, c, inviter, invitee, envelopes[..|envelopes| - 1]);
      InsertInviteEnvelope(before, id, c, inviter, invitee, envelopes[|envelopes| - 1])
  }

  function Invite(s: State, caller: UserId, id: InvitationId, invitation: Invitation,
      envelopes: seq<InviteEnvelopeIn>): Result<State, Error> {
    var c := invitation.container;
    if invitation.role.Owner? || !invitation.pending || invitation.inviter != caller || id in s.invitations
      then Err(InvalidRequest)
    else
      var _ :- StewardRole(s, c, caller);
      InsertInviteAll(s.(invitations := s.invitations[id := invitation]), id, c, caller, invitation.invitee, envelopes)
  }

  /** An envelope of invitation id still at its container's generation, for an identity still live. */
  predicate Movable(cs: map<ContainerId, Container>, ds: map<DeviceId, Device>, id: InvitationId, invitee: UserId,
      k: InviteKey, e: InviteEnvelope) {
    k.invitation == id && Live(cs, k.container) && cs[k.container].shared > 0 &&
      cs[k.container].generation == e.generation &&
    IdentityOf(ds, invitee, e.device) && !ds[e.device].revoked
  }

  function MovedKey(k: InviteKey, e: InviteEnvelope): EnvelopeKey {
    EnvelopeKey(k.container, e.device, e.generation)
  }

  /** The rows moveInvitationEnvelopesTx selects, keyed as it stores them. */
  function MovedRows(cs: map<ContainerId, Container>, ds: map<DeviceId, Device>,
      invites: map<InviteKey, InviteEnvelope>, id: InvitationId, invitee: UserId): map<EnvelopeKey, Sealed> {
    map k | k in invites && Movable(cs, ds, id, invitee, k, invites[k]) :: MovedKey(k, invites[k]) := invites[k].sealed
  }

  /** moveInvitationEnvelopesTx: an existing envelope wins over a moved one. */
  function MoveInvites(s: State, id: InvitationId, invitee: UserId): State {
    s.(envelopes := MovedRows(s.containers, s.devices, s.inviteEnvelopes, id, invitee) + s.envelopes,
       inviteEnvelopes := map k | k in s.inviteEnvelopes && k.invitation != id :: s.inviteEnvelopes[k])
  }

  function Accept(s: State, caller: UserId, id: InvitationId, token: nat, now: nat): Result<State, Error> {
    if !(id in s.invitations && s.invitations[id].token == token && s.invitations[id].invitee == caller &&
         s.invitations[id].pending && s.invitations[id].expires > now) then Err(NotFound)
    else
      var row := s.invitations[id];
      if !(StewardMember(s.members, row.container, row.inviter) && Live(s.containers, row.container) &&
        ActiveUser(s.active, row.inviter)) then Err(NotFound)
      else
        var accepted := s.(invitations := s.invitations[id := row.(pending := false)]);
        var admitted :- Admit(accepted, row.container, caller, row.role, Some(row.inviter), true);
        Ok(MoveInvites(admitted, id, caller))
  }

  /** removeMemberTx over the scope of c: revoke, advance the live generations, drop the target's keys. */
  function RemoveMember(s: State, c: ContainerId, target: UserId): Result<State, Error> {
    if !(c in s.containers && LiveMember(s.members, c, target) && !s.members[Seat(c, target)].role.Owner?)
      then Err(NotFound)
    else
      var containers := map x | x in s.containers ::
        var k := s.containers[x];
        var k' := if x == c || (k.team == Some(c) && !k.deleted) then k.(generation := k.generation + 1) else k;
        if k.team == Some(c) && k.owner == target then k'.(owner := s.containers[c].owner) else k';
      var members := map k | k in s.members ::
        if k.user == target && InScope(s.containers, c, k.container) then s.members[k].(revoked := true)
          else s.members[k];
      var envelopes := map k | k in s.envelopes &&
        !(InScope(s.containers, c, k.container) && OwnedBy(s.devices, k.device, target)) :: s.envelopes[k];
      var dead := set i | i in s.invitations && InScope(s.containers, c, s.invitations[i].container) &&
        s.invitations[i].pending &&
        (s.invitations[i].invitee == target || s.invitations[i].inviter == target);
      var scoped := set x | x in s.containers && InScope(s.containers, c, x);
      var s' := s.(containers := containers, members := members, envelopes := envelopes,
        invitations := s.invitations - dead,
        inviteEnvelopes := map k | k in s.inviteEnvelopes && k.invitation !in dead :: s.inviteEnvelopes[k]);
      Ok(s'.(inviteEnvelopes := DropStaleInvites(s', scoped)))
  }

  function StewardRemove(s: State, caller: UserId, c: ContainerId, target: UserId): Result<State, Error> {
    if target == caller then Err(InvalidRequest)
    else if !StewardMember(s.members, c, caller) || !LiveMember(s.members, c, target) then Err(InsufficientRole)
    else
      var mine, theirs := s.members[Seat(c, caller)], s.members[Seat(c, target)];
      if theirs.role.Owner? || (mine.role.Admin? && theirs.role.Admin? && theirs.invitedBy != Some(caller))
        then Err(InsufficientRole)
      else RemoveMember(s, c, target)
  }

  /** What lets a creator who is not the owner delete a container: no key, no name, no rows and no one else in it. */
  predicate Blank(s: State, c: ContainerId, u: UserId, noRows: bool)
    requires c in s.containers
  {
    noRows && s.containers[c].owner == u && StewardMember(s.members, c, u) && s.containers[c].shared == 0 &&
      s.containers[c].nameVersion == 0 &&
    (forall k <- s.envelopes :: k.container != c) && (forall i <- s.invitations :: s.invitations[i].container != c) &&
    (forall x <- s.containers :: s.containers[x].team == Some(c) ==> s.containers[x].deleted) &&
    (s.containers[c].isTeam ==> forall k <- s.members :: k.container == c && k.user != u ==> s.members[k].revoked)
  }

  function DeleteContainer(s: State, caller: UserId, c: ContainerId, noRows: bool): Result<State, Error> {
    if !(LiveMember(s.members, c, caller) && Live(s.containers, c)) then Err(NotFound)
    else if !(s.members[Seat(c, caller)].role.Owner? || Blank(s, c, caller, noRows)) then Err(InsufficientRole)
    else Ok(s.(containers := map x | x in s.containers ::
      if InScope(s.containers, c, x) then s.containers[x].(deleted := true) else s.containers[x]))
  }

  // ---- Identities and devices -----------------------------------------------------------------

  function RevokedPaired(s: State, u: UserId): map<DeviceId, Device> {
    map d | d in s.devices ::
      if s.devices[d].user == u && !s.devices[d].identity then s.devices[d].(revoked := true) else s.devices[d]
  }

  function WithoutPairedEnvelopes(s: State, u: UserId): map<EnvelopeKey, Sealed> {
    map k | k in s.envelopes && !(OwnedBy(s.devices, k.device, u) && !s.devices[k.device].identity) :: s.envelopes[k]
  }

  /** Account recovery, an administrator's password reset and disabling end every paired device. */
  function RevokePaired(s: State, u: UserId): State {
    s.(devices := RevokedPaired(s, u), envelopes := WithoutPairedEnvelopes(s, u))
  }

  function SetActive(s: State, u: UserId, on: bool): State {
    var s' := s.(active := s.active[u := on]);
    if on then s' else RevokePaired(s', u)
  }

  function RevokeDevice(s: State, caller: UserId, d: DeviceId): Result<State, Error> {
    if !(OwnedBy(s.devices, d, caller) && !s.devices[d].identity) then Err(NotFound)
    else Ok(s.(devices := s.devices[d := s.devices[d].(revoked := true)],
               envelopes := map k | k in s.envelopes && k.device != d :: s.envelopes[k]))
  }

  /** Back-channel logout revokes paired devices but leaves their envelopes. */
  function LogoutDevices(s: State, ds: set<DeviceId>): State {
    s.(devices := map d | d in s.devices ::
      if d in ds && !s.devices[d].identity then s.devices[d].(revoked := true) else s.devices[d])
  }

  predicate SameKey(ds: map<DeviceId, Device>, u: UserId, fingerprint: nat, e: DeviceId) {
    OwnedBy(ds, e, u) && ds[e].fingerprint == fingerprint
  }

  function PairedDevices(ds: map<DeviceId, Device>, u: UserId, d: DeviceId, fingerprint: nat): map<DeviceId, Device> {
    if exists e <- ds :: SameKey(ds, u, fingerprint, e) then
      map e | e in ds :: if SameKey(ds, u, fingerprint, e) then ds[e].(revoked := false) else ds[e]
    else ds[d := Device(u, false, fingerprint, false)]
  }

  /** Pairing revives the user's device with that key, or adds one. */
  function PairDevice(s: State, u: UserId, d: DeviceId, fingerprint: nat): Result<State, Error> {
    if !ActiveUser(s.active, u) || d in s.devices then Err(InvalidRequest)
    else if exists e <- s.devices ::
      SameKey(s.devices, u, fingerprint, e) && s.devices[e].identity then Err(InvalidRequest)
    else Ok(s.(devices := PairedDevices(s.devices, u, d, fingerprint)))
  }

  function AddIdentity(s: State, u: UserId, d: DeviceId, fingerprint: nat): Result<State, Error> {
    if d in s.devices then Err(InvalidRequest)
    else if exists e <- s.devices ::
      s.devices[e].user == u && (s.devices[e].identity || s.devices[e].fingerprint == fingerprint)
      then Err(IdentityExists)
    else Ok(s.(devices := s.devices[d := Device(u, true, fingerprint, false)]))
  }

  /** Every keyed, live container u is an approved member of, at its next generation. */
  function Retired(cs: map<ContainerId, Container>, ms: map<Seat, Membership>, u: UserId): map<ContainerId, Container> {
    map x | x in cs ::
      if cs[x].shared > 0 && !cs[x].deleted && ApprovedMember(ms, x, u)
      then cs[x].(generation := cs[x].generation + 1) else cs[x]
  }

  /** retireKeysTx */
  function RetireKeys(s: State, u: UserId): State {
    var s' := s.(containers := Retired(s.containers, s.members, u));
    s'.(inviteEnvelopes := DropStaleInvites(s', set x | x in s.containers && ApprovedMember(s.members, x, u)))
  }

  /** deleteIdentityTx: the identity row goes, and its envelopes and invitation envelopes cascade. */
  function DeleteIdentity(s: State, u: UserId): State {
    s.(devices := map d | d in s.devices && !(s.devices[d].user == u && s.devices[d].identity) :: s.devices[d],
       envelopes := map k | k in s.envelopes && !(OwnedBy(s.devices, k.device, u) && s.devices[k.device].identity) ::
         s.envelopes[k],
       inviteEnvelopes := map k | k in s.inviteEnvelopes &&
         !(OwnedBy(s.devices, s.inviteEnvelopes[k].device, u) && s.devices[s.inviteEnvelopes[k].device].identity) ::
           s.inviteEnvelopes[k])
  }

  /** The self-service reset: compare-and-swap on the listed identity, then retire and replace it. */
  function ResetIdentity(s: State, u: UserId, expected: Option<DeviceId>, d: DeviceId,
      fingerprint: nat): Result<State, Error> {
    if !(match expected
         case None => forall e <- s.devices :: !IdentityOf(s.devices, u, e)
         case Some(e) => IdentityOf(s.devices, u, e)) then Err(IdentityMoved)
    else if expected.Some? && s.devices[expected.value].fingerprint == fingerprint then Err(IdentityExists)
    else AddIdentity(DeleteIdentity(RetireKeys(RevokePaired(s, u), u), u), u, d, fingerprint)
  }

  /** Garbage collection of envelopes whose invitation expired unanswered. */
  function PurgeInvites(s: State, now: nat): State {
    s.(inviteEnvelopes := map k | k in s.inviteEnvelopes &&
      !(k.invitation in s.invitations && s.invitations[k.invitation].pending &&
        s.invitations[k.invitation].expires <= now) :: s.inviteEnvelopes[k])
  }

  // ---- The transactions as one step relation --------------------------------------------------

  datatype Op =
    | OpCreate(caller: UserId, id: ContainerId, isTeam: bool)
    | OpChild(caller: UserId, id: ContainerId, team: ContainerId)
    | OpInvite(caller: UserId, invite: InvitationId, invitation: Invitation, inviteIn: seq<InviteEnvelopeIn>)
    | OpAccept(caller: UserId, invite: InvitationId, token: nat, now: nat)
    | OpAdminAdd(c: ContainerId, target: UserId, role: Role)
    | OpApprove(caller: UserId, c: ContainerId, target: UserId)
    | OpRotate(caller: UserId, c: ContainerId, expected: nat, envelopes: seq<EnvelopeIn>)
    | OpPut(caller: UserId, c: ContainerId, envelopes: seq<EnvelopeIn>)
    | OpStewardRemove(caller: UserId, c: ContainerId, target: UserId)
    | OpAdminRemove(c: ContainerId, target: UserId)
    | OpDelete(caller: UserId, c: ContainerId, noRows: bool)
    | OpIdentity(caller: UserId, device: DeviceId, fingerprint: nat)
    | OpReset(caller: UserId, listed: Option<DeviceId>, device: DeviceId, fingerprint: nat)
    | OpPair(caller: UserId, device: DeviceId, fingerprint: nat)
    | OpRevokeDevice(caller: UserId, device: DeviceId)
    | OpRevokePaired(target: UserId)
    | OpLogout(ds: set<DeviceId>)
    | OpSetActive(target: UserId, on: bool)
    | OpPurge(now: nat)
    | OpWrite(caller: UserId, c: ContainerId, kind: Kind, generation: nat, scheme: bool)
    | OpAttach(caller: UserId, c: ContainerId, digest: Digest, generation: nat, scheme: bool)
    | OpRename(caller: UserId, c: ContainerId, base: nat, generation: nat, scheme: bool)
    | OpTombstone(key: AttachKey)

  predicate IsMembershipOp(op: Op) {
    op.OpCreate? || op.OpChild? || op.OpAdminAdd? || op.OpApprove? || op.OpStewardRemove? || op.OpAdminRemove? ||
      op.OpDelete?
  }

  predicate IsDeviceOp(op: Op) {
    op.OpIdentity? || op.OpPair? || op.OpRevokeDevice? || op.OpRevokePaired? || op.OpSetActive? || op.OpLogout?
  }

  predicate IsContentOp(op: Op) {
    op.OpPurge? || op.OpWrite? || op.OpAttach? || op.OpRename? || op.OpTombstone?
  }

  function ApplyMembership(s: State, op: Op): Result<State, Error>
    requires IsMembershipOp(op)
  {
    match op
    case OpCreate(u, id, isTeam) => CreateContainer(s, u, id, isTeam)
    case OpChild(u, id, team) => CreateChild(s, u, id, team)
    case OpAdminAdd(c, u, role) => AdminAdd(s, c, u, role)
    case OpApprove(u, c, target) => Approve(s, u, c, target)
    case OpStewardRemove(u, c, target) => StewardRemove(s, u, c, target)
    case OpAdminRemove(c, target) => RemoveMember(s, c, target)
    case OpDelete(u, c, noRows) => DeleteContainer(s, u, c, noRows)
  }

  function ApplyDevice(s: State, op: Op): Result<State, Error>
    requires IsDeviceOp(op)
  {
    match op
    case OpIdentity(u, d, fingerprint) => AddIdentity(s, u, d, fingerprint)
    case OpPair(u, d, fingerprint) => PairDevice(s, u, d, fingerprint)
    case OpRevokeDevice(u, d) => RevokeDevice(s, u, d)
    case OpRevokePaired(u) => Ok(RevokePaired(s, u))
    case OpLogout(ds) => Ok(LogoutDevices(s, ds))
    case OpSetActive(u, on) => Ok(SetActive(s, u, on))
  }

  function ApplyContent(s: State, op: Op): Result<State, Error>
    requires IsContentOp(op)
  {
    match op
    case OpPurge(now) => Ok(PurgeInvites(s, now))
    case OpWrite(u, c, kind, generation, scheme) =>
      if kind.Attachment? || kind.Name? then Err(InvalidRequest) else Write(s, u, c, kind, generation, scheme)
    case OpAttach(u, c, digest, generation, scheme) => Attach(s, u, c, digest, generation, scheme)
    case OpRename(u, c, base, generation, scheme) => Rename(s, u, c, base, generation, scheme)
    case OpTombstone(key) => Ok(TombstoneAttachment(s, key))
  }

  function Apply(s: State, op: Op): Result<State, Error> {
    if IsContentOp(op) then ApplyContent(s, op)
    else if IsDeviceOp(op) then ApplyDevice(s, op)
    else if IsMembershipOp(op) then ApplyMembership(s, op)
    else
      match op
      case OpInvite(u, i, invitation, envelopes) => Invite(s, u, i, invitation, envelopes)
      case OpAccept(u, i, token, now) => Accept(s, u, i, token, now)
      case OpRotate(u, c, expected, envelopes) => Rotate(s, u, c, expected, envelopes)
      case OpPut(u, c, envelopes) => PutEnvelopes(s, u, c, envelopes)
      case OpReset(u, listed, d, fingerprint) => ResetIdentity(s, u, listed, d, fingerprint)
  }

  /** The device ID the transaction mints, if any. */
  function NewDevice(op: Op): set<DeviceId> {
    if op.OpIdentity? || op.OpReset? || op.OpPair? then {op.device} else {}
  }
}
