/**
 * The team-key tables column by column: for any transaction and any row, what the row holds after it. The
 * transactions, each written as one function over all the tables, are proved to agree with these.
 */
module TeamTables {
  import opened Outcome
  import opened TeamModel
  import opened TeamInvariant
  import opened TeamEffects
  import opened TeamRuns

  function At<K, V>(m: map<K, V>, k: K): Option<V> {
    if k in m then Some(m[k]) else None
  }

  /** x is notebook c or belongs to team c. */
  predicate Under(s: State, c: ContainerId, x: ContainerId) {
    x in s.containers && (x == c || s.containers[x].team == Some(c))
  }

  predicate Open(s: State, x: ContainerId) {
    x in s.containers && !s.containers[x].deleted
  }

  predicate Sits(s: State, x: ContainerId, u: UserId) {
    Seat(x, u) in s.members && !s.members[Seat(x, u)].revoked
  }

  predicate Drops(op: Op) {
    op.OpStewardRemove? || op.OpAdminRemove?
  }

  /** The transactions that end a user's paired devices, and whose. */
  function EndsPaired(op: Op): Option<UserId> {
    if op.OpRevokePaired? || (op.OpSetActive? && !op.on) then Some(op.target)
    else if op.OpReset? then Some(op.caller)
    else None
  }

  // ---- Reference: one row after one transaction ---------------------------------------------------

  function SeatAfter(s: State, op: Op, k: Seat): Option<Membership> {
    var was := At(s.members, k);
    if op.OpCreate? && k == Seat(op.id, op.caller) then Some(Membership(Owner, true, false, None, None))
    else if op.OpChild? && k.container == op.id && Sits(s, op.team, k.user) then At(s.members, Seat(op.team, k.user))
    else if op.OpAccept? && k.user == op.caller && op.invite in s.invitations &&
      Under(s, s.invitations[op.invite].container, k.container) && Open(s, k.container)
    then Some(Membership(s.invitations[op.invite].role, true, false, None, Some(s.invitations[op.invite].inviter)))
    else if op.OpAdminAdd? && k.user == op.target && Under(s, op.c, k.container) && Open(s, k.container)
    then Some(Membership(Viewer, false, false, Some(op.role), None))
    else if op.OpApprove? && k.user == op.target && Under(s, op.c, k.container) && Open(s, k.container) &&
      Sits(s, k.container, k.user)
    then Some(was.value.(approved := true, pending := None,
      role := if !was.value.approved && was.value.pending.Some? then was.value.pending.value else was.value.role))
    else if Drops(op) && k.user == op.target && Under(s, op.c, k.container) && was.Some?
    then Some(was.value.(revoked := true))
    else was
  }

  /** A rotation advances its notebook, a removal its notebook and the team's live ones, a reset the live keyed ones
      the user is an approved member of. */
  predicate Advances(s: State, op: Op, x: ContainerId)
    requires x in s.containers
  {
    var k := s.containers[x];
    || (op.OpRotate? && x == op.c)
    || (Drops(op) && (x == op.c || (k.team == Some(op.c) && !k.deleted)))
    || (op.OpReset? && !k.deleted && k.shared > 0 && Sits(s, x, op.caller) && s.members[Seat(x, op.caller)].approved)
  }

  function ContainerAfter(s: State, op: Op, x: ContainerId): Option<Container> {
    if op.OpCreate? && x == op.id then Some(Container(None, op.isTeam, op.caller, 1, 0, 0, false))
    else if op.OpChild? && x == op.id then Some(Container(Some(op.team), false, op.caller, 1, 0, 0, false))
    else if x !in s.containers then None
    else
      var k := s.containers[x];
      Some(k.(
        generation := if Advances(s, op, x) then k.generation + 1 else k.generation,
        shared := if op.OpRotate? && x == op.c && k.shared == 0 then k.generation + 1 else k.shared,
        owner := if Drops(op) && k.team == Some(op.c) && k.owner == op.target && op.c in s.containers
          then s.containers[op.c].owner else k.owner,
        nameVersion := if op.OpRename? && x == op.c then k.nameVersion + 1 else k.nameVersion,
        deleted := k.deleted || (op.OpDelete? && Under(s, op.c, x))))
  }

  /** The user has a device with that key already. */
  predicate KnowsKey(s: State, u: UserId, fingerprint: nat) {
    exists e <- s.devices :: s.devices[e].user == u && s.devices[e].fingerprint == fingerprint
  }

  function DeviceAfter(s: State, op: Op, d: DeviceId): Option<Device> {
    if (op.OpIdentity? || op.OpReset?) && d == op.device then Some(Device(op.caller, true, op.fingerprint, false))
    else if op.OpPair? && d == op.device && !KnowsKey(s, op.caller, op.fingerprint)
    then Some(Device(op.caller, false, op.fingerprint, false))
    else if d !in s.devices || (op.OpReset? && s.devices[d].user == op.caller && s.devices[d].identity) then None
    else
      var row := s.devices[d];
      var ends := (op.OpRevokeDevice? && d == op.device) || (op.OpLogout? && d in op.ds && !row.identity) ||
        (EndsPaired(op) == Some(row.user) && !row.identity);
      var revives := op.OpPair? && row.user == op.caller && row.fingerprint == op.fingerprint;
      Some(row.(revoked := !revives && (ends || row.revoked)))
  }

  /** What takes envelope k: its member's removal, or the end of its device. */
  predicate Loses(s: State, op: Op, k: EnvelopeKey) {
    k.device in s.devices &&
    var row := s.devices[k.device];
    || (Drops(op) && row.user == op.target && Under(s, op.c, k.container))
    || (op.OpRevokeDevice? && k.device == op.device)
    || (EndsPaired(op) == Some(row.user) && !row.identity)
    || (op.OpReset? && row.user == op.caller)
  }

  /** Row e of the accepted invitation supplies k with these bytes. */
  predicate Supplies(s: State, op: Op, e: InviteKey, k: EnvelopeKey, sealed: Sealed) {
    op.OpAccept? && e in s.inviteEnvelopes && e.invitation == op.invite && e.container == k.container &&
    var row := s.inviteEnvelopes[e];
    row.device == k.device && row.generation == k.generation && row.sealed == sealed &&
      Open(s, k.container) && s.containers[k.container].generation == k.generation &&
      s.containers[k.container].shared > 0 &&
      k.device in s.devices && s.devices[k.device] == s.devices[k.device].(user := op.caller, identity := true,
        revoked := false)
  }

  ghost predicate EnvelopeFollows(s: State, op: Op, after: map<EnvelopeKey, Sealed>, k: EnvelopeKey) {
    if Loses(s, op, k) then k !in after
    else if k !in s.envelopes && k in after then exists e :: Supplies(s, op, e, k, after[k])
    else At(after, k) == At(s.envelopes, k) && (k !in s.envelopes ==> forall e, b :: !Supplies(s, op, e, k, b))
  }

  ghost predicate EnvelopesFollow(s: State, op: Op, after: map<EnvelopeKey, Sealed>) {
    if op.OpPut? || op.OpRotate? then Stored(s.envelopes, after, op.c, op.envelopes)
    else forall k :: EnvelopeFollows(s, op, after, k)
  }

  function InvitationAfter(s: State, op: Op, i: InvitationId): Option<Invitation> {
    var was := At(s.invitations, i);
    if op.OpInvite? && i == op.invite then Some(op.invitation)
    else if was.None? then None
    else if op.OpAccept? && i == op.invite then Some(was.value.(pending := false))
    else if Drops(op) && was.value.pending && Under(s, op.c, was.value.container) &&
      (was.value.invitee == op.target || was.value.inviter == op.target) then None
    else was
  }

  /** An invitation envelope goes with its invitation, its device, or its generation, or when its time is up. */
  predicate Withdrawn(s: State, op: Op, k: InviteKey)
    requires k in s.inviteEnvelopes
  {
    var row, x := s.inviteEnvelopes[k], k.container;
    || (op.OpAccept? && k.invitation == op.invite)
    || (k.invitation in s.invitations && InvitationAfter(s, op, k.invitation).None?)
    || (op.OpPurge? && k.invitation in s.invitations && s.invitations[k.invitation].pending &&
        s.invitations[k.invitation].expires <= op.now)
    || (op.OpReset? && row.device in s.devices && s.devices[row.device].user == op.caller &&
        s.devices[row.device].identity)
    || (x in s.containers && Renewed(s, op, x) && row.generation < ContainerAfter(s, op, x).value.generation)
  }

  /** The containers a transaction clears of invitation envelopes below the generation it leaves them at. */
  predicate Renewed(s: State, op: Op, x: ContainerId)
    requires x in s.containers
  {
    || (op.OpRotate? && x == op.c)
    || (Drops(op) && Under(s, op.c, x))
    || (op.OpReset? && Sits(s, x, op.caller) && s.members[Seat(x, op.caller)].approved)
  }

  /** The request's entry for that container. */
  predicate Sent(op: Op, k: InviteKey, row: InviteEnvelope) {
    op.OpInvite? && k.invitation == op.invite &&
      InviteEnvelopeIn(k.container, EnvelopeIn(row.device, row.generation, row.sealed)) in op.inviteIn
  }

  ghost predicate InviteEnvelopeFollows(s: State, op: Op, after: map<InviteKey, InviteEnvelope>, k: InviteKey) {
    if k in s.inviteEnvelopes then At(after, k) == if Withdrawn(s, op, k) then None else Some(s.inviteEnvelopes[k])
    else forall row :: At(after, k) == Some(row) <==> Sent(op, k, row)
  }

  function AttachmentAfter(s: State, op: Op, k: AttachKey): Option<AttachRow> {
    var was := At(s.attachments, k);
    if op.OpAttach? && k == AttachKey(op.c, op.digest) then
      Some(if was.None? then AttachRow(op.generation, false) else was.value.(deleted := false))
    else if op.OpTombstone? && k == op.key && was.Some? then Some(was.value.(deleted := true))
    else was
  }

  /** The content row a transaction commits, if any. */
  function Commits(s: State, op: Op): seq<Written> {
    if op.OpWrite? then [Written(op.c, op.kind, op.caller, op.generation)]
    else if op.OpAttach? then
      var was := At(s.attachments, AttachKey(op.c, op.digest));
      [Written(op.c, Attachment, op.caller, if was.Some? then was.value.generation else op.generation)]
    else if op.OpRename? then [Written(op.c, Name, op.caller, op.generation)]
    else []
  }

  // ---- The columns --------------------------------------------------------------------------------

  ghost predicate SeatsFollow(s: State, op: Op, after: map<Seat, Membership>) {
    forall k :: At(after, k) == SeatAfter(s, op, k)
  }

  ghost predicate ContainersFollow(s: State, op: Op, after: map<ContainerId, Container>) {
    forall x :: At(after, x) == ContainerAfter(s, op, x)
  }

  ghost predicate DevicesFollow(s: State, op: Op, after: map<DeviceId, Device>) {
    forall d :: At(after, d) == DeviceAfter(s, op, d)
  }

  ghost predicate InvitationsFollow(s: State, op: Op, after: map<InvitationId, Invitation>) {
    forall i :: At(after, i) == InvitationAfter(s, op, i)
  }

  ghost predicate InviteEnvelopesFollow(s: State, op: Op, after: map<InviteKey, InviteEnvelope>) {
    forall k :: InviteEnvelopeFollows(s, op, after, k)
  }

  /** Active users, attachments and committed content. */
  ghost predicate ContentFollows(s: State, op: Op, s': State) {
    && (forall u :: At(s'.active, u) == if op.OpSetActive? && u == op.target then Some(op.on) else At(s.active, u))
    && (forall k :: At(s'.attachments, k) == AttachmentAfter(s, op, k))
    && s'.written == s.written + Commits(s, op)
  }

  /** Every table after op is what its column says. */
  ghost predicate Follows(s: State, op: Op, s': State) {
    && SeatsFollow(s, op, s'.members) && ContainersFollow(s, op, s'.containers) && DevicesFollow(s, op, s'.devices)
    && EnvelopesFollow(s, op, s'.envelopes)
    && InvitationsFollow(s, op, s'.invitations) && InviteEnvelopesFollow(s, op, s'.inviteEnvelopes)
    && ContentFollows(s, op, s')
  }

  // ---- Columns a transaction leaves alone ---------------------------------------------------------

  lemma KeptSeats(s: State, op: Op)
    requires !(op.OpCreate? || op.OpChild? || op.OpAccept? || op.OpAdminAdd? || op.OpApprove? || Drops(op))
    ensures SeatsFollow(s, op, s.members)
  {
  }

  lemma KeptContainers(s: State, op: Op)
    requires !(op.OpCreate? || op.OpChild? || op.OpRotate? || op.OpReset? || op.OpRename? || op.OpDelete? ||
      Drops(op))
    ensures ContainersFollow(s, op, s.containers)
  {
  }

  lemma KeptDevices(s: State, op: Op)
    requires !IsDeviceOp(op) && !op.OpReset?
    ensures DevicesFollow(s, op, s.devices)
  {
  }

  lemma KeptEnvelopes(s: State, op: Op)
    requires !(op.OpPut? || op.OpRotate? || op.OpAccept? || op.OpRevokeDevice? || Drops(op) || EndsPaired(op).Some?)
    ensures EnvelopesFollow(s, op, s.envelopes)
  {
  }

  lemma KeptInvites(s: State, op: Op)
    requires !(op.OpInvite? || op.OpAccept? || op.OpRotate? || op.OpReset? || op.OpPurge? || Drops(op))
    ensures InvitationsFollow(s, op, s.invitations) && InviteEnvelopesFollow(s, op, s.inviteEnvelopes)
  {
  }

  lemma KeptContent(s: State, op: Op, s': State)
    requires !(op.OpSetActive? || op.OpAttach? || op.OpTombstone? || op.OpWrite? || op.OpRename?)
    requires s'.active == s.active && s'.attachments == s.attachments && s'.written == s.written
    ensures ContentFollows(s, op, s')
  {
  }

  // ---- The transactions agree ---------------------------------------------------------------------

  lemma CreateFollows(s: State, op: Op)
    requires op.OpCreate? && CreateContainer(s, op.caller, op.id, op.isTeam).Ok?
    ensures Follows(s, op, CreateContainer(s, op.caller, op.id, op.isTeam).value)
  {
    hide DevicesFollow, EnvelopesFollow, InvitationsFollow, InviteEnvelopesFollow, ContentFollows;
    KeptDevices(s, op);
    KeptEnvelopes(s, op);
    KeptInvites(s, op);
    KeptContent(s, op, CreateContainer(s, op.caller, op.id, op.isTeam).value);
  }

  lemma ChildFollows(s: State, op: Op)
    requires op.OpChild? && CreateChild(s, op.caller, op.id, op.team).Ok?
    ensures Follows(s, op, CreateChild(s, op.caller, op.id, op.team).value)
  {
    hide DevicesFollow, EnvelopesFollow, InvitationsFollow, InviteEnvelopesFollow, ContentFollows;
    KeptDevices(s, op);
    KeptEnvelopes(s, op);
    KeptInvites(s, op);
    KeptContent(s, op, CreateChild(s, op.caller, op.id, op.team).value);
  }

  lemma AdminAddFollows(s: State, op: Op)
    requires op.OpAdminAdd? && AdminAdd(s, op.c, op.target, op.role).Ok?
    ensures Follows(s, op, AdminAdd(s, op.c, op.target, op.role).value)
  {
    hide ContainersFollow, DevicesFollow, EnvelopesFollow, InvitationsFollow, InviteEnvelopesFollow, ContentFollows;
    KeptContainers(s, op);
    KeptDevices(s, op);
    KeptEnvelopes(s, op);
    KeptInvites(s, op);
    KeptContent(s, op, AdminAdd(s, op.c, op.target, op.role).value);
  }

  lemma ApproveFollows(s: State, op: Op)
    requires op.OpApprove? && Approve(s, op.caller, op.c, op.target).Ok?
    ensures Follows(s, op, Approve(s, op.caller, op.c, op.target).value)
  {
    hide ContainersFollow, DevicesFollow, EnvelopesFollow, InvitationsFollow, InviteEnvelopesFollow, ContentFollows;
    KeptContainers(s, op);
    KeptDevices(s, op);
    KeptEnvelopes(s, op);
    KeptInvites(s, op);
    KeptContent(s, op, Approve(s, op.caller, op.c, op.target).value);
  }

  lemma DeleteFollows(s: State, op: Op)
    requires op.OpDelete? && DeleteContainer(s, op.caller, op.c, op.noRows).Ok?
    ensures Follows(s, op, DeleteContainer(s, op.caller, op.c, op.noRows).value)
  {
    hide Blank, SeatsFollow, DevicesFollow, EnvelopesFollow, InvitationsFollow, InviteEnvelopesFollow, ContentFollows;
    KeptSeats(s, op);
    KeptDevices(s, op);
    KeptEnvelopes(s, op);
    KeptInvites(s, op);
    KeptContent(s, op, DeleteContainer(s, op.caller, op.c, op.noRows).value);
  }

  lemma RemoveSeatsFollow(s: State, op: Op)
    requires Drops(op) && RemoveMember(s, op.c, op.target).Ok?
    ensures SeatsFollow(s, op, RemoveMember(s, op.c, op.target).value.members)
  {
    hide DropStaleInvites;
  }

  lemma RemoveContainersFollow(s: State, op: Op)
    requires Drops(op) && RemoveMember(s, op.c, op.target).Ok?
    ensures ContainersFollow(s, op, RemoveMember(s, op.c, op.target).value.containers)
  {
    hide DropStaleInvites;
  }

  lemma RemoveEnvelopesFollow(s: State, op: Op)
    requires Drops(op) && RemoveMember(s, op.c, op.target).Ok?
    ensures EnvelopesFollow(s, op, RemoveMember(s, op.c, op.target).value.envelopes)
  {
    hide DropStaleInvites;
  }

  lemma RemoveInvitationsFollow(s: State, op: Op)
    requires Drops(op) && RemoveMember(s, op.c, op.target).Ok?
    ensures InvitationsFollow(s, op, RemoveMember(s, op.c, op.target).value.invitations)
  {
    hide DropStaleInvites;
  }

  lemma RemoveInvitesFollow(s: State, op: Op)
    requires Drops(op) && RemoveMember(s, op.c, op.target).Ok?
    ensures InviteEnvelopesFollow(s, op, RemoveMember(s, op.c, op.target).value.inviteEnvelopes)
  {
    RemoveInvitationsFollow(s, op);
    RemoveContainersFollow(s, op);
    hide InvitationAfter, ContainerAfter;
  }

  lemma RemoveFollows(s: State, op: Op)
    requires Drops(op) && RemoveMember(s, op.c, op.target).Ok?
    ensures Follows(s, op, RemoveMember(s, op.c, op.target).value)
  {
    RemoveSeatsFollow(s, op);
    RemoveContainersFollow(s, op);
    RemoveEnvelopesFollow(s, op);
    RemoveInvitationsFollow(s, op);
    RemoveInvitesFollow(s, op);
    KeptDevices(s, op);
    var s' := RemoveMember(s, op.c, op.target).value;
    assert s' == s.(containers := s'.containers, members := s'.members, envelopes := s'.envelopes,
      invitations := s'.invitations, inviteEnvelopes := s'.inviteEnvelopes);
    KeptContent(s, op, s');
    hide RemoveMember, SeatsFollow, ContainersFollow, DevicesFollow, EnvelopesFollow, InvitationsFollow;
    hide InviteEnvelopesFollow, ContentFollows;
  }

  /** What the device transactions are, without the rest of the dispatch. */
  lemma DeviceOpsApply(s: State, op: Op)
    ensures op.OpIdentity? ==> Apply(s, op) == AddIdentity(s, op.caller, op.device, op.fingerprint)
    ensures op.OpPair? ==> Apply(s, op) == PairDevice(s, op.caller, op.device, op.fingerprint)
    ensures op.OpRevokeDevice? ==> Apply(s, op) == RevokeDevice(s, op.caller, op.device)
    ensures op.OpRevokePaired? ==> Apply(s, op) == Ok(RevokePaired(s, op.target))
    ensures op.OpLogout? ==> Apply(s, op) == Ok(LogoutDevices(s, op.ds))
    ensures op.OpSetActive? ==> Apply(s, op) == Ok(SetActive(s, op.target, op.on))
  {
    hide AddIdentity, PairDevice, RevokeDevice, RevokePaired, LogoutDevices, SetActive, ApplyContent, ApplyMembership;
  }

  /** The columns a device transaction may change. */
  ghost predicate DeviceShape(s: State, op: Op, s': State) {
    && DevicesFollow(s, op, s'.devices) && EnvelopesFollow(s, op, s'.envelopes)
    && s' == s.(active := s'.active, devices := s'.devices, envelopes := s'.envelopes)
    && s'.active == if op.OpSetActive? then s.active[op.target := op.on] else s.active
  }

  lemma IdentityShape(s: State, op: Op)
    requires op.OpIdentity? && AddIdentity(s, op.caller, op.device, op.fingerprint).Ok?
    ensures DeviceShape(s, op, AddIdentity(s, op.caller, op.device, op.fingerprint).value)
  {
    KeptEnvelopes(s, op);
    hide EnvelopesFollow;
  }

  lemma PairShape(s: State, op: Op)
    requires op.OpPair? && PairDevice(s, op.caller, op.device, op.fingerprint).Ok?
    ensures DeviceShape(s, op, PairDevice(s, op.caller, op.device, op.fingerprint).value)
  {
    KeptEnvelopes(s, op);
    hide EnvelopesFollow;
  }

  lemma RevokeShape(s: State, op: Op)
    requires op.OpRevokeDevice? && RevokeDevice(s, op.caller, op.device).Ok?
    ensures DeviceShape(s, op, RevokeDevice(s, op.caller, op.device).value)
  {
  }

  lemma PairedShape(s: State, op: Op)
    requires op.OpRevokePaired?
    ensures DeviceShape(s, op, RevokePaired(s, op.target))
  {
  }

  lemma ActiveShape(s: State, op: Op)
    requires op.OpSetActive?
    ensures DeviceShape(s, op, SetActive(s, op.target, op.on))
  {
    if op.on {
      KeptEnvelopes(s, op);
      hide EnvelopesFollow;
    }
  }

  lemma LogoutShape(s: State, op: Op)
    requires op.OpLogout?
    ensures DeviceShape(s, op, LogoutDevices(s, op.ds))
  {
    KeptEnvelopes(s, op);
    hide EnvelopesFollow;
  }

  lemma DeviceFollows(s: State, op: Op)
    requires IsDeviceOp(op) && Apply(s, op).Ok?
    ensures Follows(s, op, Apply(s, op).value)
  {
    hide Apply, DeviceShape, AddIdentity, PairDevice, RevokeDevice, RevokePaired, LogoutDevices, SetActive;
    DeviceOpsApply(s, op);
    if op.OpIdentity? {
      IdentityShape(s, op);
    } else if op.OpPair? {
      PairShape(s, op);
    } else if op.OpRevokeDevice? {
      RevokeShape(s, op);
    } else if op.OpLogout? {
      LogoutShape(s, op);
    } else if op.OpRevokePaired? {
      PairedShape(s, op);
    } else {
      ActiveShape(s, op);
    }
    ShapeFollows(s, op, Apply(s, op).value);
  }

  lemma ShapeFollows(s: State, op: Op, s': State)
    requires IsDeviceOp(op) && DeviceShape(s, op, s')
    ensures Follows(s, op, s')
  {
    KeptSeats(s, op);
    KeptContainers(s, op);
    KeptInvites(s, op);
    hide SeatsFollow, ContainersFollow, DevicesFollow, EnvelopesFollow, InvitationsFollow, InviteEnvelopesFollow;
  }

  lemma ContentOpsApply(s: State, op: Op)
    ensures op.OpPurge? ==> Apply(s, op) == Ok(PurgeInvites(s, op.now))
    ensures op.OpWrite? && Apply(s, op).Ok? ==> !op.kind.Attachment? && !op.kind.Name?
    ensures op.OpWrite? && Apply(s, op).Ok? ==>
      Apply(s, op) == Write(s, op.caller, op.c, op.kind, op.generation, op.scheme)
    ensures op.OpAttach? ==> Apply(s, op) == Attach(s, op.caller, op.c, op.digest, op.generation, op.scheme)
    ensures op.OpRename? ==> Apply(s, op) == Rename(s, op.caller, op.c, op.base, op.generation, op.scheme)
    ensures op.OpTombstone? ==> Apply(s, op) == Ok(TombstoneAttachment(s, op.key))
  {
    hide PurgeInvites, Write, Attach, Rename, TombstoneAttachment, ApplyDevice, ApplyMembership;
  }

  lemma PurgeFollows(s: State, op: Op)
    requires op.OpPurge?
    ensures Follows(s, op, PurgeInvites(s, op.now))
  {
    KeptSeats(s, op);
    KeptDevices(s, op);
    KeptEnvelopes(s, op);
    KeptContainers(s, op);
    KeptContent(s, op, PurgeInvites(s, op.now));
    hide SeatsFollow, DevicesFollow, EnvelopesFollow, ContainersFollow, ContentFollows;
  }

  /** A content write leaves the other tables alone. */
  lemma ContentSpares(s: State, op: Op)
    requires IsContentOp(op) && !op.OpPurge? && Apply(s, op).Ok?
    ensures var s' := Apply(s, op).value;
      s'.members == s.members && s'.devices == s.devices && s'.envelopes == s.envelopes &&
      s'.invitations == s.invitations && s'.inviteEnvelopes == s.inviteEnvelopes
  {
    hide Apply, WriteGate, PurgeInvites;
    ContentOpsApply(s, op);
  }

  lemma WriteFollows(s: State, op: Op)
    requires (op.OpWrite? || op.OpRename?) && Apply(s, op).Ok?
    ensures ContainersFollow(s, op, Apply(s, op).value.containers) && ContentFollows(s, op, Apply(s, op).value)
  {
    hide Apply, WriteGate, PurgeInvites, Attach, TombstoneAttachment, Under;
    ContentOpsApply(s, op);
    if op.OpWrite? {
      KeptContainers(s, op);
      hide ContainersFollow, ContainerAfter;
    }
  }

  lemma AttachFollows(s: State, op: Op)
    requires (op.OpAttach? || op.OpTombstone?) && Apply(s, op).Ok?
    ensures ContainersFollow(s, op, Apply(s, op).value.containers) && ContentFollows(s, op, Apply(s, op).value)
  {
    hide Apply, WriteGate, PurgeInvites, Rename, Write;
    ContentOpsApply(s, op);
    KeptContainers(s, op);
    hide ContainersFollow, ContainerAfter;
  }

  lemma ContentOpFollows(s: State, op: Op)
    requires IsContentOp(op) && Apply(s, op).Ok?
    ensures Follows(s, op, Apply(s, op).value)
  {
    hide Apply, PurgeInvites, SeatsFollow, DevicesFollow, EnvelopesFollow, InvitationsFollow, InviteEnvelopesFollow;
    hide ContainersFollow, ContentFollows;
    if op.OpPurge? {
      ContentOpsApply(s, op);
      PurgeFollows(s, op);
    } else {
      ContentSpares(s, op);
      if op.OpWrite? || op.OpRename? {
        WriteFollows(s, op);
      } else {
        AttachFollows(s, op);
      }
      KeptSeats(s, op);
      KeptDevices(s, op);
      KeptEnvelopes(s, op);
      KeptInvites(s, op);
    }
  }

  /** The invitation loop stores every entry of the request. */
  lemma {:induction false} InviteAllSent(s: State, id: InvitationId, c: ContainerId, inviter: UserId, invitee: UserId,
      vs: seq<InviteEnvelopeIn>, k: InviteKey, row: InviteEnvelope)
    requires InsertInviteAll(s, id, c, inviter, invitee, vs).Ok? && k !in s.inviteEnvelopes
    ensures At(InsertInviteAll(s, id, c, inviter, invitee, vs).value.inviteEnvelopes, k) == Some(row) <==>
      k.invitation == id && InviteEntry(k, row) in vs
    decreases |vs|
  {
    if vs != [] {
      var less, v := vs[..|vs| - 1], vs[|vs| - 1];
      InviteAllSent(s, id, c, inviter, invitee, less, k, row);
      assert vs == less + [v];
      if k == InviteKey(id, v.container) {
        var before := InsertInviteAll(s, id, c, inviter, invitee, less).value;
        assert k !in before.inviteEnvelopes;
      }
    }
  }

  lemma InviteFollows(s: State, op: Op)
    requires op.OpInvite? && Invite(s, op.caller, op.invite, op.invitation, op.inviteIn).Ok?
    ensures Follows(s, op, Invite(s, op.caller, op.invite, op.invitation, op.inviteIn).value)
  {
    var s' := Invite(s, op.caller, op.invite, op.invitation, op.inviteIn).value;
    var c, sent := op.invitation.container, s.(invitations := s.invitations[op.invite := op.invitation]);
    InsertInviteAllWrites(sent, op.invite, c, op.caller, op.invitation.invitee, op.inviteIn);
    forall k | k !in s.inviteEnvelopes
      ensures forall row :: At(s'.inviteEnvelopes, k) == Some(row) <==> Sent(op, k, row)
    {
      forall row ensures At(s'.inviteEnvelopes, k) == Some(row) <==> Sent(op, k, row) {
        InviteAllSent(sent, op.invite, c, op.caller, op.invitation.invitee, op.inviteIn, k, row);
      }
    }
    KeptSeats(s, op);
    KeptContainers(s, op);
    KeptDevices(s, op);
    KeptEnvelopes(s, op);
    KeptContent(s, op, s');
    hide Invite, Sent, SeatsFollow, ContainersFollow, DevicesFollow, EnvelopesFollow, ContentFollows;
  }

  lemma PutFollows(s: State, op: Op)
    requires op.OpPut? && PutEnvelopes(s, op.caller, op.c, op.envelopes).Ok?
    ensures Follows(s, op, PutEnvelopes(s, op.caller, op.c, op.envelopes).value)
  {
    PutStores(s, op.caller, op.c, op.envelopes);
    KeptSeats(s, op);
    KeptContainers(s, op);
    KeptDevices(s, op);
    KeptInvites(s, op);
    KeptContent(s, op, PutEnvelopes(s, op.caller, op.c, op.envelopes).value);
    hide Stored, PutEnvelopes, SeatsFollow, ContainersFollow, DevicesFollow, InvitationsFollow;
    hide InviteEnvelopesFollow, ContentFollows;
  }

  lemma RotateFollows(s: State, op: Op)
    requires op.OpRotate? && Rotate(s, op.caller, op.c, op.expected, op.envelopes).Ok?
    ensures Follows(s, op, Rotate(s, op.caller, op.c, op.expected, op.envelopes).value)
  {
    hide Stored, Rotate, SeatsFollow, DevicesFollow, ContentFollows;
    RotateStores(s, op.caller, op.c, op.expected, op.envelopes);
    var s' := Rotate(s, op.caller, op.c, op.expected, op.envelopes).value;
    KeptSeats(s, op);
    KeptDevices(s, op);
    KeptContent(s, op, s');
    RotatedInvites(s, op, s'.inviteEnvelopes);
    hide InviteEnvelopesFollow;
  }

  lemma RotatedInvites(s: State, op: Op, after: map<InviteKey, InviteEnvelope>)
    requires op.OpRotate? && op.c in s.containers && s.containers[op.c].generation == op.expected
    requires after == map e | e in s.inviteEnvelopes &&
      !(e.container == op.c && s.inviteEnvelopes[e].generation <= op.expected) :: s.inviteEnvelopes[e]
    ensures InviteEnvelopesFollow(s, op, after)
  {
  }

  lemma AcceptSeatsFollow(s: State, op: Op)
    requires op.OpAccept? && Accept(s, op.caller, op.invite, op.token, op.now).Ok?
    ensures var s' := Accept(s, op.caller, op.invite, op.token, op.now).value;
      && SeatsFollow(s, op, s'.members) && InvitationsFollow(s, op, s'.invitations)
      && s' == s.(members := s'.members, envelopes := s'.envelopes, invitations := s'.invitations,
        inviteEnvelopes := s'.inviteEnvelopes)
  {
    hide MovedRows;
  }

  /** A supplied envelope is exactly one accepting moves. */
  lemma SuppliedIsMoved(s: State, op: Op, e: InviteKey, k: EnvelopeKey, sealed: Sealed)
    requires op.OpAccept?
    ensures Supplies(s, op, e, k, sealed) <==> MovedFrom(s, op.invite, op.caller, e, k, sealed)
  {
  }

  lemma AcceptEnvelopesFollow(s: State, op: Op)
    requires op.OpAccept? && Accept(s, op.caller, op.invite, op.token, op.now).Ok?
    ensures EnvelopesFollow(s, op, Accept(s, op.caller, op.invite, op.token, op.now).value.envelopes)
  {
    hide Accept, Supplies, Movable;
    AcceptMoves(s, op.caller, op.invite, op.token, op.now);
    var s' := Accept(s, op.caller, op.invite, op.token, op.now).value;
    forall k ensures EnvelopeFollows(s, op, s'.envelopes, k) {
      if k in s'.envelopes && k !in s.envelopes {
        var e :| MovedFrom(s, op.invite, op.caller, e, k, s'.envelopes[k]);
        SuppliedIsMoved(s, op, e, k, s'.envelopes[k]);
      } else if k !in s.envelopes {
        forall e, b ensures !Supplies(s, op, e, k, b) {
          SuppliedIsMoved(s, op, e, k, b);
        }
      }
    }
  }

  lemma AcceptInvitesFollow(s: State, op: Op)
    requires op.OpAccept? && Accept(s, op.caller, op.invite, op.token, op.now).Ok?
    ensures InviteEnvelopesFollow(s, op, Accept(s, op.caller, op.invite, op.token, op.now).value.inviteEnvelopes)
  {
    hide Accept, Movable, MovedRows, MovedFrom;
    AcceptEnvelopes(s, op.caller, op.invite, op.token, op.now);
  }

  lemma AcceptFollows(s: State, op: Op)
    requires op.OpAccept? && Accept(s, op.caller, op.invite, op.token, op.now).Ok?
    ensures Follows(s, op, Accept(s, op.caller, op.invite, op.token, op.now).value)
  {
    hide Accept, SeatsFollow, ContainersFollow, DevicesFollow, EnvelopesFollow, InvitationsFollow;
    hide InviteEnvelopesFollow, ContentFollows;
    AcceptSeatsFollow(s, op);
    AcceptEnvelopesFollow(s, op);
    AcceptInvitesFollow(s, op);
    KeptContainers(s, op);
    KeptDevices(s, op);
    KeptContent(s, op, Accept(s, op.caller, op.invite, op.token, op.now).value);
  }

  lemma ResetDevicesFollow(s: State, op: Op)
    requires op.OpReset? && ResetIdentity(s, op.caller, op.listed, op.device, op.fingerprint).Ok?
    ensures var s' := ResetIdentity(s, op.caller, op.listed, op.device, op.fingerprint).value;
      DevicesFollow(s, op, s'.devices) && ContainersFollow(s, op, s'.containers)
  {
    hide DropStaleInvites;
  }

  lemma ResetEnvelopesFollow(s: State, op: Op)
    requires op.OpReset? && ResetIdentity(s, op.caller, op.listed, op.device, op.fingerprint).Ok?
    ensures EnvelopesFollow(s, op, ResetIdentity(s, op.caller, op.listed, op.device, op.fingerprint).value.envelopes)
  {
    hide DropStaleInvites, Retired;
  }

  /** What the reset leaves of the invitation envelopes. */
  lemma ResetLeavesInvites(s: State, op: Op)
    requires op.OpReset? && ResetIdentity(s, op.caller, op.listed, op.device, op.fingerprint).Ok?
    ensures ResetIdentity(s, op.caller, op.listed, op.device, op.fingerprint).value.inviteEnvelopes ==
      map k | k in s.inviteEnvelopes &&
        !(k.container in s.containers && ApprovedMember(s.members, k.container, op.caller) &&
          s.inviteEnvelopes[k].generation < Retired(s.containers, s.members, op.caller)[k.container].generation) &&
        !IdentityOf(s.devices, op.caller, s.inviteEnvelopes[k].device) :: s.inviteEnvelopes[k]
  {
    RetiredKeys(s.containers, s.members, op.caller);
    var u, paired := op.caller, RevokePaired(s, op.caller);
    PairedKeepsIdentities(s, u);
    hide RevokePaired, Retired, ApprovedMember, IdentityOf, AddIdentity;
    var retired := RetireKeys(paired, u);
    DeletionDropsInvites(retired, u);
    hide DeleteIdentity;
  }

  lemma PairedKeepsIdentities(s: State, u: UserId)
    ensures var t := RevokePaired(s, u);
      t == s.(devices := t.devices, envelopes := t.envelopes) &&
      forall d :: IdentityOf(t.devices, u, d) == IdentityOf(s.devices, u, d)
  {
  }

  lemma DeletionDropsInvites(s: State, u: UserId)
    ensures DeleteIdentity(s, u).inviteEnvelopes ==
      map k | k in s.inviteEnvelopes && !IdentityOf(s.devices, u, s.inviteEnvelopes[k].device) :: s.inviteEnvelopes[k]
  {
  }

  lemma RetiredKeys(cs: map<ContainerId, Container>, ms: map<Seat, Membership>, u: UserId)
    ensures Retired(cs, ms, u).Keys == cs.Keys
  {
  }

  lemma RetiredGenerations(s: State, op: Op, x: ContainerId)
    requires op.OpReset? && x in s.containers
    ensures x in Retired(s.containers, s.members, op.caller) && ContainerAfter(s, op, x).Some? &&
      Retired(s.containers, s.members, op.caller)[x].generation == ContainerAfter(s, op, x).value.generation
    ensures Renewed(s, op, x) <==> ApprovedMember(s.members, x, op.caller)
  {
  }

  lemma ResetInvitesFollow(s: State, op: Op)
    requires op.OpReset? && ResetIdentity(s, op.caller, op.listed, op.device, op.fingerprint).Ok?
    ensures InviteEnvelopesFollow(s, op,
      ResetIdentity(s, op.caller, op.listed, op.device, op.fingerprint).value.inviteEnvelopes)
  {
    hide ResetIdentity, Retired, ContainerAfter, Renewed, ApprovedMember;
    forall x | x in s.containers
      ensures x in Retired(s.containers, s.members, op.caller) && ContainerAfter(s, op, x).Some? &&
        Retired(s.containers, s.members, op.caller)[x].generation == ContainerAfter(s, op, x).value.generation
      ensures Renewed(s, op, x) <==> ApprovedMember(s.members, x, op.caller)
    {
      RetiredGenerations(s, op, x);
    }
    ResetLeavesInvites(s, op);
  }

  lemma ResetFollows(s: State, op: Op)
    requires op.OpReset? && ResetIdentity(s, op.caller, op.listed, op.device, op.fingerprint).Ok?
    ensures Follows(s, op, ResetIdentity(s, op.caller, op.listed, op.device, op.fingerprint).value)
  {
    ResetDevicesFollow(s, op);
    ResetEnvelopesFollow(s, op);
    ResetInvitesFollow(s, op);
    ResetFrame(s, op.caller, op.listed, op.device, op.fingerprint);
    KeptSeats(s, op);
    KeptContent(s, op, ResetIdentity(s, op.caller, op.listed, op.device, op.fingerprint).value);
    hide ResetIdentity, RetireKeys, SeatsFollow, ContainersFollow, DevicesFollow, EnvelopesFollow;
    hide InviteEnvelopesFollow, ContentFollows;
  }

  /**
   * Every committed transaction leaves every row of every table as its column says: nothing it should write is
   * missing, and nothing else changes.
   */
  lemma StepFollows(s: State, op: Op)
    requires Apply(s, op).Ok?
    ensures Follows(s, op, Apply(s, op).value)
  {
    hide Apply, Follows, CreateContainer, CreateChild, AdminAdd, Approve, DeleteContainer, RemoveMember;
    hide Invite, Accept, Rotate, PutEnvelopes, ResetIdentity;
    KeyOpsApply(s, op);
    MembershipOpsApply(s, op);
    if IsContentOp(op) {
      ContentOpFollows(s, op);
    } else if IsDeviceOp(op) {
      DeviceFollows(s, op);
    } else if IsMembershipOp(op) {
      MembershipFollows(s, op);
    } else {
      match op
      case OpInvite(_, _, _, _) => InviteFollows(s, op);
      case OpAccept(_, _, _, _) => AcceptFollows(s, op);
      case OpRotate(_, _, _, _) => RotateFollows(s, op);
      case OpPut(_, _, _) => PutFollows(s, op);
      case OpReset(_, _, _, _) => ResetFollows(s, op);
    }
  }

  lemma MembershipFollows(s: State, op: Op)
    requires IsMembershipOp(op) && Apply(s, op).Ok?
    ensures Follows(s, op, Apply(s, op).value)
  {
    hide Apply, Follows, CreateContainer, CreateChild, AdminAdd, Approve, DeleteContainer, RemoveMember;
    MembershipOpsApply(s, op);
    if op.OpCreate? {
      CreateFollows(s, op);
    } else if op.OpChild? {
      ChildFollows(s, op);
    } else if op.OpAdminAdd? {
      AdminAddFollows(s, op);
    } else if op.OpApprove? {
      ApproveFollows(s, op);
    } else if op.OpDelete? {
      DeleteFollows(s, op);
    } else {
      RemoveFollows(s, op);
    }
  }
}
