/**
 * Pages, conflicts, comments, attachments and the files behind them: each write transaction as a
 * function on the tables, and each file operation outside one as a step of its own. One write
 * transaction runs at a time; while one that deletes a file is under way it holds `work`, and only
 * file publications and crashes happen beside it.
 */
module ContentModel {
  import opened Outcome

  newtype ContainerId = n: int | 0 <= n
  newtype ObjectId = n: int | 0 <= n
  newtype ConflictId = n: int | 0 <= n
  newtype CommentId = n: int | 0 <= n
  newtype AttachmentId = n: int | 0 <= n
  newtype Digest = n: int | 0 <= n
  newtype SaveKey = n: int | 0 <= n

  datatype Container = Container(team: Option<ContainerId>, seqNo: nat, deleted: bool)
  datatype Object = Object(container: ContainerId, current: nat, seqNo: nat, deleted: bool)
  datatype VersionKey = VersionKey(page: ObjectId, version: nat)
  datatype Version = Version(digest: Digest, base: int, seqNo: nat)
  datatype Conflict = Conflict(page: ObjectId, container: ContainerId, base: int, current: nat, digest: Digest,
    seqNo: nat, resolved: bool)
  datatype Comment = Comment(page: ObjectId, container: ContainerId, seqNo: nat, deleted: bool)
  datatype Attachment = Attachment(container: ContainerId, digest: Digest, preview: Option<Digest>, seqNo: nat,
    deleted: bool)
  datatype Link = Link(attachment: AttachmentId, page: ObjectId, version: nat)
  datatype Blob = Blob(mark: Option<nat>)

  /** What an idempotency key remembers of its save. */
  datatype Answer = Saved(page: ObjectId, version: nat) | Refused(conflict: ConflictId, current: nat)
  datatype KeyRow = KeyRow(answer: Answer, created: nat)

  /** A transaction that deletes a file before it ends. */
  datatype Work = Sweep(digest: Digest, removed: bool) | Drop(digest: Digest)

  /** The tables, without the files. */
  datatype Db = Db(
    containers: map<ContainerId, Container>,
    objects: map<ObjectId, Object>,
    versions: map<VersionKey, Version>,
    conflicts: map<ConflictId, Conflict>,
    comments: map<CommentId, Comment>,
    attachments: map<AttachmentId, Attachment>,
    links: set<Link>,
    blobs: map<Digest, Blob>,
    keys: map<SaveKey, KeyRow>,
    previews: set<Digest>)

  datatype State = State(db: Db, files: set<Digest>, work: Option<Work>)

  // ---- Row predicates -------------------------------------------------------------------------

  predicate LiveContainer(s: Db, c: ContainerId) {
    c in s.containers && !s.containers[c].deleted
  }

  predicate LiveObject(s: Db, o: ObjectId) {
    o in s.objects && !s.objects[o].deleted && s.objects[o].container in s.containers
  }

  predicate Linked(s: Db, a: AttachmentId) {
    exists l <- s.links :: l.attachment == a
  }

  predicate LinkedTo(links: set<Link>, a: AttachmentId, o: ObjectId) {
    exists l <- links :: l.attachment == a && l.page == o
  }

  predicate LinkedElsewhere(links: set<Link>, a: AttachmentId, o: ObjectId) {
    exists l <- links :: l.attachment == a && l.page != o
  }

  /** The negation of gc.go's `unreferenced`: a version, an open conflict, or a live or linked attachment. */
  predicate Referenced(s: Db, d: Digest) {
    || (exists k <- s.versions :: s.versions[k].digest == d)
    || (exists f <- s.conflicts :: s.conflicts[f].digest == d && !s.conflicts[f].resolved)
    || (exists a <- s.attachments :: (s.attachments[a].digest == d || s.attachments[a].preview == Some(d)) &&
         (!s.attachments[a].deleted || Linked(s, a)))
  }

  function Bumped(s: Db, c: ContainerId): map<ContainerId, Container>
    requires c in s.containers
  {
    s.containers[c := s.containers[c].(seqNo := s.containers[c].seqNo + 1)]
  }

  function NextSeq(s: Db, c: ContainerId): nat
    requires c in s.containers
  {
    s.containers[c].seqNo + 1
  }

  // ---- Saves ----------------------------------------------------------------------------------

  /** claimBlob's row: inserted, or its mark cleared. */
  function Claimed(s: Db, d: Digest): map<Digest, Blob> {
    s.blobs[d := Blob(None)]
  }

  function Kept(s: Db, key: Option<SaveKey>, answer: Answer, now: nat): map<SaveKey, KeyRow> {
    if key.Some? then s.keys[key.value := KeyRow(answer, now)] else s.keys
  }

  /** Denied is the write gate's or the role check's refusal; NotSaved is every later one. */
  datatype PutResult = Done(answer: Answer) | Replayed(answer: Answer) | Denied | NotSaved

  /** What the tables of memberships, keys and quotas say to a save when it looks at them. */
  datatype Guards = Guards(admitted: bool, room: bool)

  predicate PutAdmitted(s: Db, files: set<Digest>, g: Guards, o: ObjectId, base: int, d: Digest, key: Option<SaveKey>,
      f: ConflictId) {
    && g.admitted && (key.Some? ==> key.value !in s.keys) && g.room
    && LiveObject(s, o) && d in files && (base != s.objects[o].current ==> f !in s.conflicts)
  }

  /** The transaction of PUT /objects/{id}: gate, replay, then a new version on the current base or a conflict. */
  function Put(s: Db, files: set<Digest>, g: Guards, o: ObjectId, base: int, d: Digest, key: Option<SaveKey>,
      f: ConflictId,
      now: nat): (Db, PutResult) {
    if !g.admitted then (s, Denied)
    else if key.Some? && key.value in s.keys then (s, Replayed(s.keys[key.value].answer))
    else if !PutAdmitted(s, files, g, o, base, d, key, f) then (s, NotSaved)
    else
      var row := s.objects[o];
      var c, n := row.container, NextSeq(s, row.container);
      if base != row.current then
        var answer := Refused(f, row.current);
        (s.(containers := Bumped(s, c), blobs := Claimed(s, d), keys := Kept(s, key, answer, now),
            conflicts := s.conflicts[f := Conflict(o, c, base, row.current, d, n, false)]), Done(answer))
      else
        var answer := Saved(o, row.current + 1);
        (s.(containers := Bumped(s, c), blobs := Claimed(s, d), keys := Kept(s, key, answer, now),
            versions := s.versions[VersionKey(o, row.current + 1) := Version(d, base, n)],
            objects := s.objects[o := row.(current := row.current + 1, seqNo := n)]), Done(answer))
  }

  // ---- Other content transactions ---------------------------------------------------------------

  function NewContainer(s: Db, c: ContainerId, team: Option<ContainerId>): Option<Db> {
    if c in s.containers then None else Some(s.(containers := s.containers[c := Container(team, 1, false)]))
  }

  /** Renames, rotations and the like count the container up and change no feed row. */
  function Touch(s: Db, c: ContainerId): Option<Db> {
    if c !in s.containers then None else Some(s.(containers := Bumped(s, c)))
  }

  function NewObject(s: Db, o: ObjectId, c: ContainerId): Option<Db> {
    if !LiveContainer(s, c) || o in s.objects then None
    else Some(s.(containers := Bumped(s, c), objects := s.objects[o := Object(c, 0, NextSeq(s, c), false)]))
  }

  function Resolve(s: Db, f: ConflictId): Option<Db> {
    if f !in s.conflicts || s.conflicts[f].container !in s.containers then None
    else
      var c := s.conflicts[f].container;
      Some(s.(containers := Bumped(s, c),
        conflicts := s.conflicts[f := s.conflicts[f].(resolved := true, seqNo := NextSeq(s, c))]))
  }

  function AttachmentsWithout(rows: map<AttachmentId, Attachment>, links: set<Link>,
      o: ObjectId): map<AttachmentId, Attachment> {
    map a | a in rows ::
      if LinkedTo(links, a, o) && !LinkedElsewhere(links, a, o) then rows[a].(deleted := true) else rows[a]
  }

  function LinksWithout(rows: set<Link>, o: ObjectId): set<Link> {
    set l | l in rows && l.page != o
  }

  function CommentsWithout(rows: map<CommentId, Comment>, o: ObjectId): map<CommentId, Comment> {
    map m | m in rows && rows[m].page != o :: rows[m]
  }

  function ConflictsWithout(rows: map<ConflictId, Conflict>, o: ObjectId): map<ConflictId, Conflict> {
    map f | f in rows && rows[f].page != o :: rows[f]
  }

  function VersionsWithout(rows: map<VersionKey, Version>, o: ObjectId): map<VersionKey, Version> {
    map k | k in rows && k.page != o :: rows[k]
  }

  /** Deleting a page takes its versions, conflicts and comments, and tombstones what only it linked. */
  function DeleteObject(s: Db, o: ObjectId): Option<Db> {
    if o !in s.objects || s.objects[o].container !in s.containers then None
    else
      var c := s.objects[o].container;
      Some(s.(containers := Bumped(s, c),
        objects := s.objects[o := s.objects[o].(deleted := true, seqNo := NextSeq(s, c))],
        attachments := AttachmentsWithout(s.attachments, s.links, o),
        links := LinksWithout(s.links, o),
        comments := CommentsWithout(s.comments, o),
        conflicts := ConflictsWithout(s.conflicts, o),
        versions := VersionsWithout(s.versions, o)))
  }

  function NewComment(s: Db, m: CommentId, o: ObjectId): Option<Db> {
    if !LiveObject(s, o) || m in s.comments then None
    else
      var c := s.objects[o].container;
      Some(s.(containers := Bumped(s, c), comments := s.comments[m := Comment(o, c, NextSeq(s, c), false)]))
  }

  function DropComment(s: Db, m: CommentId): Option<Db> {
    if m !in s.comments || s.comments[m].deleted || !LiveContainer(s, s.comments[m].container) then None
    else
      var c := s.comments[m].container;
      Some(s.(containers := Bumped(s, c),
        comments := s.comments[m := s.comments[m].(deleted := true, seqNo := NextSeq(s, c))]))
  }

  predicate SameBytes(s: Db, a: AttachmentId, c: ContainerId, d: Digest) {
    a in s.attachments && s.attachments[a].container == c && s.attachments[a].digest == d
  }

  predicate HasBytes(s: Db, c: ContainerId, d: Digest) {
    exists a <- s.attachments :: SameBytes(s, a, c, d)
  }

  /** The preview digest a finalize records: that of a finalized preview upload, else none. */
  function KnownPreview(s: Db, preview: Option<Digest>): Option<Digest> {
    if preview.Some? && preview.value in s.previews then preview else None
  }

  /** Finalizing an attachment: a new row, or the row those bytes already have, revived as it was. */
  function Attach(s: Db, files: set<Digest>, a: AttachmentId, c: ContainerId, d: Digest,
      preview: Option<Digest>): Option<Db> {
    if !LiveContainer(s, c) || d !in files then None
    else
      var claimed := s.(containers := Bumped(s, c), blobs := Claimed(s, d));
      if HasBytes(s, c, d) then
        Some(claimed.(attachments := map x | x in s.attachments ::
          if SameBytes(s, x, c, d) then s.attachments[x].(deleted := false) else s.attachments[x]))
      else if a in s.attachments then None
      else Some(claimed.(attachments :=
        s.attachments[a := Attachment(c, d, KnownPreview(s, preview), NextSeq(s, c), false)]))
  }

  function ClaimPreview(s: Db, files: set<Digest>, d: Digest): Option<Db> {
    if d !in files then None else Some(s.(blobs := Claimed(s, d), previews := s.previews + {d}))
  }

  function AddLink(s: Db, a: AttachmentId, o: ObjectId, version: nat): Option<Db> {
    if !(a in s.attachments && !s.attachments[a].deleted && LiveObject(s, o) &&
      s.objects[o].container == s.attachments[a].container) then None
    else Some(s.(links := s.links + {Link(a, o, version)}))
  }

  function RemoveLinks(s: Db, a: AttachmentId, o: ObjectId): Option<Db> {
    Some(s.(links := set l | l in s.links && !(l.attachment == a && l.page == o)))
  }

  predicate InScope(s: Db, c: ContainerId, x: ContainerId) {
    x in s.containers && (x == c || s.containers[x].team == Some(c))
  }

  predicate ObjectInScope(s: Db, c: ContainerId, o: ObjectId) {
    o in s.objects && InScope(s, c, s.objects[o].container)
  }

  function DeleteContainer(s: Db, c: ContainerId): Option<Db> {
    if !LiveContainer(s, c) then None
    else Some(s.(
      containers := map x | x in s.containers ::
        if InScope(s, c, x) && !s.containers[x].deleted
          then s.containers[x].(deleted := true, seqNo := s.containers[x].seqNo + 1) else s.containers[x],
      versions := map k | k in s.versions && !ObjectInScope(s, c, k.page) :: s.versions[k],
      links := (set l | l in s.links && !ObjectInScope(s, c, l.page)),
      conflicts := map f | f in s.conflicts && !InScope(s, c, s.conflicts[f].container) :: s.conflicts[f],
      comments := map m | m in s.comments && !InScope(s, c, s.comments[m].container) :: s.comments[m],
      objects := map o | o in s.objects ::
        if ObjectInScope(s, c, o) then s.objects[o].(deleted := true) else s.objects[o],
      attachments := map a | a in s.attachments ::
        if InScope(s, c, s.attachments[a].container) then s.attachments[a].(deleted := true) else s.attachments[a]))
  }

  // ---- Garbage collection -----------------------------------------------------------------------

  predicate Stranded(s: Db, a: AttachmentId) {
    a in s.attachments && s.attachments[a].container in s.containers && s.containers[s.attachments[a].container].deleted
  }

  function StrandedTombstoned(s: Db): map<AttachmentId, Attachment> {
    map a | a in s.attachments :: if Stranded(s, a) then s.attachments[a].(deleted := true) else s.attachments[a]
  }

  /** GC's first transaction finishes what an older release's notebook deletion left. */
  function TombstoneStranded(s: Db): Db {
    s.(links := (set l | l in s.links && !Stranded(s, l.attachment)),
      attachments := StrandedTombstoned(s))
  }

  predicate Due(s: Db, d: Digest, cut: int) {
    d in s.blobs && s.blobs[d].mark.Some? && s.blobs[d].mark.value < cut && !Referenced(s, d)
  }

  function AttachmentsUnswept(rows: map<AttachmentId, Attachment>, d: Digest): map<AttachmentId, Attachment> {
    map a | a in rows && !(rows[a].digest == d && rows[a].deleted) :: rows[a]
  }

  function ConflictsUnswept(rows: map<ConflictId, Conflict>, d: Digest): map<ConflictId, Conflict> {
    map f | f in rows && !(rows[f].digest == d && rows[f].resolved) :: rows[f]
  }

  /** The rows sweepBlob deletes: tombstones older than the mark go with the blob's own. */
  function Swept(s: Db, d: Digest): Db {
    s.(blobs := s.blobs - {d},
      attachments := AttachmentsUnswept(s.attachments, d),
      conflicts := ConflictsUnswept(s.conflicts, d))
  }

  function Unmark(s: Db): Db {
    s.(blobs := map d | d in s.blobs :: if Referenced(s, d) then Blob(None) else s.blobs[d])
  }

  function Mark(s: Db, now: nat): Db {
    s.(blobs := map d | d in s.blobs ::
      if s.blobs[d].mark.None? && !Referenced(s, d) then Blob(Some(now)) else s.blobs[d])
  }

  function PruneKeys(s: Db, cut: int): Db {
    s.(keys := map k | k in s.keys && s.keys[k].created >= cut :: s.keys[k])
  }

  // ---- One step ---------------------------------------------------------------------------------

  datatype Op =
    | OpPut(g: Guards, o: ObjectId, base: int, d: Digest, key: Option<SaveKey>, f: ConflictId, now: nat)
    | OpNewContainer(c: ContainerId, team: Option<ContainerId>)
    | OpTouch(c: ContainerId)
    | OpNewObject(o: ObjectId, c: ContainerId)
    | OpResolve(f: ConflictId)
    | OpDeleteObject(o: ObjectId)
    | OpNewComment(m: CommentId, o: ObjectId)
    | OpDropComment(m: CommentId)
    | OpAttach(a: AttachmentId, c: ContainerId, d: Digest, preview: Option<Digest>)
    | OpClaimPreview(d: Digest)
    | OpAddLink(a: AttachmentId, o: ObjectId, version: nat)
    | OpRemoveLinks(a: AttachmentId, o: ObjectId)
    | OpDeleteContainer(c: ContainerId)
    | OpTombstoneStranded
    | OpUnmark
    | OpMark(now: nat)
    | OpPruneKeys(cut: int)
    | OpBeginSweep(d: Digest, cut: int)
    | OpBeginDrop(d: Digest)
    | OpRemoveFile
    | OpCommitSweep
    | OpAbandon
    | OpPublish(d: Digest)

  predicate IsPageOp(op: Op) {
    op.OpNewContainer? || op.OpTouch? || op.OpNewObject? || op.OpResolve? || op.OpDeleteObject? || op.OpNewComment? ||
      op.OpDropComment?
  }

  predicate IsAttachmentOp(op: Op) {
    op.OpAttach? || op.OpClaimPreview? || op.OpAddLink? || op.OpRemoveLinks? || op.OpDeleteContainer?
  }

  predicate IsGcOp(op: Op) {
    op.OpTombstoneStranded? || op.OpUnmark? || op.OpMark? || op.OpPruneKeys?
  }

  /** One write transaction from start to commit. */
  predicate IsDbOp(op: Op) {
    op.OpPut? || IsPageOp(op) || IsAttachmentOp(op) || IsGcOp(op)
  }

  function ApplyPage(s: Db, op: Op): Option<Db>
    requires IsPageOp(op)
  {
    match op
    case OpNewContainer(c, team) => NewContainer(s, c, team)
    case OpTouch(c) => Touch(s, c)
    case OpNewObject(o, c) => NewObject(s, o, c)
    case OpResolve(f) => Resolve(s, f)
    case OpDeleteObject(o) => DeleteObject(s, o)
    case OpNewComment(m, o) => NewComment(s, m, o)
    case OpDropComment(m) => DropComment(s, m)
  }

  function ApplyAttachment(s: Db, files: set<Digest>, op: Op): Option<Db>
    requires IsAttachmentOp(op)
  {
    match op
    case OpAttach(a, c, d, preview) => Attach(s, files, a, c, d, preview)
    case OpClaimPreview(d) => ClaimPreview(s, files, d)
    case OpAddLink(a, o, version) => AddLink(s, a, o, version)
    case OpRemoveLinks(a, o) => RemoveLinks(s, a, o)
    case OpDeleteContainer(c) => DeleteContainer(s, c)
  }

  function ApplyGc(s: Db, op: Op): Db
    requires IsGcOp(op)
  {
    match op
    case OpTombstoneStranded => TombstoneStranded(s)
    case OpUnmark => Unmark(s)
    case OpMark(now) => Mark(s, now)
    case OpPruneKeys(cut) => PruneKeys(s, cut)
  }

  /** The tables after a write transaction; a refused one leaves them alone. */
  function ApplyDb(s: Db, files: set<Digest>, op: Op): Db
    requires IsDbOp(op)
  {
    if op.OpPut? then Put(s, files, op.g, op.o, op.base, op.d, op.key, op.f, op.now).0
    else if IsGcOp(op) then ApplyGc(s, op)
    else
      var next := if IsPageOp(op) then ApplyPage(s, op) else ApplyAttachment(s, files, op);
      if next.Some? then next.value else s
  }

  /** Transactions that delete a file before they end, file publication, and crashes. */
  function ApplyFile(s: State, op: Op): State
    requires !IsDbOp(op)
  {
    match op
    case OpBeginSweep(d, cut) => if s.work.None? && Due(s.db, d, cut) then s.(work := Some(Sweep(d, false))) else s
    case OpBeginDrop(d) => if s.work.None? && d !in s.db.blobs then s.(work := Some(Drop(d))) else s
    case OpRemoveFile =>
      if s.work.None? then s
      else s.(files := s.files - {s.work.value.digest}, work := if s.work.value.Sweep?
        then Some(Sweep(s.work.value.digest, true)) else s.work)
    case OpCommitSweep =>
      if s.work.Some? && s.work.value.Sweep? && s.work.value.removed
        then s.(work := None, db := Swept(s.db, s.work.value.digest)) else s
    case OpAbandon => s.(work := None)
    case OpPublish(d) => s.(files := s.files + {d})
  }

  function Apply(s: State, op: Op): State {
    if !IsDbOp(op) then ApplyFile(s, op)
    else if s.work.Some? then s
    else s.(db := ApplyDb(s.db, s.files, op))
  }

  const EMPTY := Db(map[], map[], map[], map[], map[], map[], {}, map[], map[], {})

  ghost predicate Start(s: State) {
    s == State(EMPTY, {}, None)
  }

  ghost predicate Run(ss: seq<State>, ops: seq<Op>) {
    |ss| == |ops| + 1 && Start(ss[0]) && forall i :: 0 <= i < |ops| ==> ss[i + 1] == Apply(ss[i], ops[i])
  }
}
