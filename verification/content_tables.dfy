/**
 * The content tables column by column: for any step and any row, what the row holds after it, and when the step
 * commits. The transactions, each written as one function over all the tables, are proved to agree with these.
 */
module ContentTables {
  import opened Outcome
  import opened ContentModel

  function At<K, V>(m: map<K, V>, k: K): Option<V> {
    if k in m then Some(m[k]) else None
  }

  /** Nothing stored needs digest d: no version, no open conflict, no attachment that is live or linked. */
  ghost predicate Unused(s: Db, d: Digest) {
    && (forall k <- s.versions :: s.versions[k].digest != d)
    && (forall f <- s.conflicts :: s.conflicts[f].digest == d ==> s.conflicts[f].resolved)
    && (forall a <- s.attachments :: s.attachments[a].digest == d || s.attachments[a].preview == Some(d) ==>
         s.attachments[a].deleted && forall l <- s.links :: l.attachment != a)
  }

  lemma UnusedIff(s: Db, d: Digest)
    ensures Unused(s, d) <==> !Referenced(s, d)
  {
  }

  // ---- When a transaction commits -----------------------------------------------------------------

  predicate Open(s: Db, c: ContainerId) {
    c in s.containers && !s.containers[c].deleted
  }

  predicate OnPage(s: Db, o: ObjectId) {
    o in s.objects && !s.objects[o].deleted && s.objects[o].container in s.containers
  }

  predicate Under(s: Db, c: ContainerId, x: ContainerId) {
    x in s.containers && (x == c || s.containers[x].team == Some(c))
  }

  /** An attachment row of that notebook for those bytes. */
  predicate Same(s: Db, a: AttachmentId, c: ContainerId, d: Digest) {
    a in s.attachments && s.attachments[a].container == c && s.attachments[a].digest == d
  }

  ghost predicate Known(s: Db, c: ContainerId, d: Digest) {
    exists a <- s.attachments :: Same(s, a, c, d)
  }

  ghost predicate Commits(s: Db, files: set<Digest>, op: Op)
    requires IsDbOp(op)
  {
    if IsGcOp(op) || op.OpRemoveLinks? then true
    else if op.OpPut? then
      && op.g.admitted && op.g.room && OnPage(s, op.o) && op.d in files
      && (op.key.Some? ==> op.key.value !in s.keys)
      && (op.base != s.objects[op.o].current ==> op.f !in s.conflicts)
    else if op.OpNewContainer? then op.c !in s.containers
    else if op.OpTouch? then op.c in s.containers
    else if op.OpNewObject? then Open(s, op.c) && op.o !in s.objects
    else if op.OpResolve? then op.f in s.conflicts && s.conflicts[op.f].container in s.containers
    else if op.OpDeleteObject? then op.o in s.objects && s.objects[op.o].container in s.containers
    else if op.OpNewComment? then OnPage(s, op.o) && op.m !in s.comments
    else if op.OpDropComment? then
      op.m in s.comments && !s.comments[op.m].deleted && Open(s, s.comments[op.m].container)
    else if op.OpAttach? then
      Open(s, op.c) && op.d in files && (Known(s, op.c, op.d) || op.a !in s.attachments)
    else if op.OpClaimPreview? then op.d in files
    else if op.OpAddLink? then
      && op.a in s.attachments && !s.attachments[op.a].deleted && OnPage(s, op.o)
      && s.objects[op.o].container == s.attachments[op.a].container
    else Open(s, op.c)
  }

  // ---- Reference: one row after one committed transaction -----------------------------------------

  /** A save on the page's current version. */
  predicate Advances(s: Db, op: Op) {
    op.OpPut? && op.o in s.objects && op.base == s.objects[op.o].current
  }

  predicate Clashes(s: Db, op: Op) {
    op.OpPut? && op.o in s.objects && op.base != s.objects[op.o].current
  }

  /** The notebook whose counter the transaction advances, a notebook's deletion apart. */
  function Counted(s: Db, op: Op): Option<ContainerId> {
    if op.OpTouch? || op.OpNewObject? || op.OpAttach? then Some(op.c)
    else if (op.OpPut? || op.OpDeleteObject? || op.OpNewComment?) && op.o in s.objects
    then Some(s.objects[op.o].container)
    else if op.OpResolve? && op.f in s.conflicts then Some(s.conflicts[op.f].container)
    else if op.OpDropComment? && op.m in s.comments then Some(s.comments[op.m].container)
    else None
  }

  /** The number the transaction's row gets. */
  function Stamp(s: Db, op: Op): nat {
    var c := Counted(s, op);
    if c.Some? && c.value in s.containers then s.containers[c.value].seqNo + 1 else 0
  }

  function ContainerAfter(s: Db, op: Op, c: ContainerId): Option<Container> {
    if op.OpNewContainer? && c == op.c then Some(Container(op.team, 1, false))
    else if c !in s.containers then None
    else
      var row := s.containers[c];
      var falls := op.OpDeleteContainer? && Under(s, op.c, c) && !row.deleted;
      Some(row.(deleted := row.deleted || falls,
        seqNo := if falls || Counted(s, op) == Some(c) then row.seqNo + 1 else row.seqNo))
  }

  function ObjectAfter(s: Db, op: Op, o: ObjectId): Option<Object> {
    if op.OpNewObject? && o == op.o then Some(Object(op.c, 0, Stamp(s, op), false))
    else if o !in s.objects then None
    else if op.OpDeleteObject? && o == op.o then Some(s.objects[o].(deleted := true, seqNo := Stamp(s, op)))
    else if Advances(s, op) && o == op.o then
      Some(s.objects[o].(current := s.objects[o].current + 1, seqNo := Stamp(s, op)))
    else if op.OpDeleteContainer? && Under(s, op.c, s.objects[o].container) then Some(s.objects[o].(deleted := true))
    else Some(s.objects[o])
  }

  /** The page goes, by itself or with its notebook. */
  predicate PageGoes(s: Db, op: Op, o: ObjectId) {
    (op.OpDeleteObject? && o == op.o) ||
    (op.OpDeleteContainer? && o in s.objects && Under(s, op.c, s.objects[o].container))
  }

  function VersionAfter(s: Db, op: Op, k: VersionKey): Option<Version> {
    if Advances(s, op) && k == VersionKey(op.o, s.objects[op.o].current + 1)
    then Some(Version(op.d, op.base, Stamp(s, op)))
    else if PageGoes(s, op, k.page) then None
    else At(s.versions, k)
  }

  function ConflictAfter(s: Db, op: Op, f: ConflictId): Option<Conflict> {
    if Clashes(s, op) && f == op.f then
      var page := s.objects[op.o];
      Some(Conflict(op.o, page.container, op.base, page.current, op.d, Stamp(s, op), false))
    else if f !in s.conflicts then None
    else if op.OpResolve? && f == op.f then Some(s.conflicts[f].(resolved := true, seqNo := Stamp(s, op)))
    else if (op.OpDeleteObject? && s.conflicts[f].page == op.o) ||
      (op.OpDeleteContainer? && Under(s, op.c, s.conflicts[f].container)) then None
    else Some(s.conflicts[f])
  }

  function CommentAfter(s: Db, op: Op, m: CommentId): Option<Comment> {
    if op.OpNewComment? && m == op.m && op.o in s.objects then
      Some(Comment(op.o, s.objects[op.o].container, Stamp(s, op), false))
    else if m !in s.comments then None
    else if op.OpDropComment? && m == op.m then Some(s.comments[m].(deleted := true, seqNo := Stamp(s, op)))
    else if (op.OpDeleteObject? && s.comments[m].page == op.o) ||
      (op.OpDeleteContainer? && Under(s, op.c, s.comments[m].container)) then None
    else Some(s.comments[m])
  }

  /** Page o links attachment a, and no other page does. */
  ghost predicate OnlyOn(s: Db, a: AttachmentId, o: ObjectId) {
    (exists l <- s.links :: l.attachment == a && l.page == o) &&
    forall l <- s.links :: l.attachment == a ==> l.page == o
  }

  /** An attachment falls with the one page that links it, with its notebook, or when a deleted notebook left it. */
  ghost predicate Falls(s: Db, op: Op, a: AttachmentId)
    requires a in s.attachments
  {
    var c := s.attachments[a].container;
    || (op.OpDeleteObject? && OnlyOn(s, a, op.o))
    || (op.OpDeleteContainer? && Under(s, op.c, c))
    || (op.OpTombstoneStranded? && c in s.containers && s.containers[c].deleted)
  }

  ghost function AttachmentAfter(s: Db, op: Op, a: AttachmentId): Option<Attachment> {
    if op.OpAttach? && !Known(s, op.c, op.d) && a == op.a then
      var known := if op.preview.Some? && op.preview.value in s.previews then op.preview else None;
      Some(Attachment(op.c, op.d, known, Stamp(s, op), false))
    else if a !in s.attachments then None
    else if op.OpAttach? && Same(s, a, op.c, op.d) then Some(s.attachments[a].(deleted := false))
    else Some(s.attachments[a].(deleted := s.attachments[a].deleted || Falls(s, op, a)))
  }

  predicate LinkAfter(s: Db, op: Op, l: Link) {
    if op.OpAddLink? && l == Link(op.a, op.o, op.version) then true
    else
      l in s.links && !PageGoes(s, op, l.page) &&
      !(op.OpRemoveLinks? && l.attachment == op.a && l.page == op.o) &&
      !(op.OpTombstoneStranded? && l.attachment in s.attachments &&
        var c := s.attachments[l.attachment].container; c in s.containers && s.containers[c].deleted)
  }

  /** Whoever records bytes claims them: their blob is there, unmarked. */
  predicate Claims(op: Op, d: Digest) {
    (op.OpPut? || op.OpAttach? || op.OpClaimPreview?) && d == op.d
  }

  ghost function BlobAfter(s: Db, op: Op, d: Digest): Option<Blob> {
    if Claims(op, d) then Some(Blob(None))
    else if d !in s.blobs then None
    else if op.OpUnmark? && !Unused(s, d) then Some(Blob(None))
    else if op.OpMark? && Unused(s, d) && s.blobs[d].mark.None? then Some(Blob(Some(op.now)))
    else Some(s.blobs[d])
  }

  function KeyAfter(s: Db, op: Op, k: SaveKey): Option<KeyRow> {
    if op.OpPut? && op.key == Some(k) && op.o in s.objects then
      var page := s.objects[op.o];
      var answer := if op.base == page.current then Saved(op.o, page.current + 1) else Refused(op.f, page.current);
      Some(KeyRow(answer, op.now))
    else if op.OpPruneKeys? && k in s.keys && s.keys[k].created < op.cut then None
    else At(s.keys, k)
  }

  // ---- The columns --------------------------------------------------------------------------------

  ghost predicate PagesFollow(s: Db, op: Op, s': Db) {
    && (forall c :: At(s'.containers, c) == ContainerAfter(s, op, c))
    && (forall o :: At(s'.objects, o) == ObjectAfter(s, op, o))
    && (forall k :: At(s'.versions, k) == VersionAfter(s, op, k))
  }

  ghost predicate NotesFollow(s: Db, op: Op, s': Db) {
    && (forall f :: At(s'.conflicts, f) == ConflictAfter(s, op, f))
    && (forall m :: At(s'.comments, m) == CommentAfter(s, op, m))
  }

  ghost predicate AttachmentsFollow(s: Db, op: Op, s': Db) {
    && (forall a :: At(s'.attachments, a) == AttachmentAfter(s, op, a))
    && (forall l :: l in s'.links <==> LinkAfter(s, op, l))
  }

  ghost predicate BlobsFollow(s: Db, op: Op, s': Db) {
    && (forall d :: At(s'.blobs, d) == BlobAfter(s, op, d))
    && (forall k :: At(s'.keys, k) == KeyAfter(s, op, k))
    && (forall d :: d in s'.previews <==> d in s.previews || (op.OpClaimPreview? && d == op.d))
  }

  ghost predicate Follows(s: Db, op: Op, s': Db) {
    PagesFollow(s, op, s') && NotesFollow(s, op, s') && AttachmentsFollow(s, op, s') && BlobsFollow(s, op, s')
  }

  /** Committed as its columns say, or refused and without effect. */
  ghost predicate Agrees(s: Db, files: set<Digest>, op: Op, s': Db)
    requires IsDbOp(op)
  {
    if Commits(s, files, op) then Follows(s, op, s') else s' == s
  }

  // ---- Columns a transaction leaves alone ---------------------------------------------------------

  lemma KeptPages(s: Db, op: Op, s': Db)
    requires s'.containers == s.containers && s'.objects == s.objects && s'.versions == s.versions
    requires !op.OpPut? && !IsPageOp(op) && !op.OpAttach? && !op.OpDeleteContainer?
    ensures PagesFollow(s, op, s')
  {
  }

  lemma KeptNotes(s: Db, op: Op, s': Db)
    requires s'.conflicts == s.conflicts && s'.comments == s.comments
    requires !Clashes(s, op) && !op.OpResolve? && !op.OpDeleteObject? && !op.OpNewComment? && !op.OpDropComment?
    requires !op.OpDeleteContainer?
    ensures NotesFollow(s, op, s')
  {
  }

  lemma KeptAttachments(s: Db, op: Op, s': Db)
    requires s'.attachments == s.attachments && s'.links == s.links
    requires !op.OpAttach? && !op.OpDeleteObject? && !op.OpDeleteContainer? && !op.OpTombstoneStranded?
    requires !op.OpAddLink? && !op.OpRemoveLinks?
    ensures AttachmentsFollow(s, op, s')
  {
  }

  lemma KeptBlobs(s: Db, op: Op, s': Db)
    requires s'.blobs == s.blobs && s'.keys == s.keys && s'.previews == s.previews
    requires !op.OpPut? && !op.OpAttach? && !op.OpClaimPreview? && !op.OpUnmark? && !op.OpMark? && !op.OpPruneKeys?
    ensures BlobsFollow(s, op, s')
  {
  }

  // ---- The transactions agree ---------------------------------------------------------------------

  function Or(s: Db, r: Option<Db>): Db {
    if r.Some? then r.value else s
  }

  /** What each transaction is, without the rest of the dispatch. */
  lemma PageOpsApply(s: Db, files: set<Digest>, op: Op)
    ensures op.OpNewContainer? ==> ApplyDb(s, files, op) == Or(s, NewContainer(s, op.c, op.team))
    ensures op.OpTouch? ==> ApplyDb(s, files, op) == Or(s, Touch(s, op.c))
    ensures op.OpNewObject? ==> ApplyDb(s, files, op) == Or(s, NewObject(s, op.o, op.c))
    ensures op.OpResolve? ==> ApplyDb(s, files, op) == Or(s, Resolve(s, op.f))
    ensures op.OpDeleteObject? ==> ApplyDb(s, files, op) == Or(s, DeleteObject(s, op.o))
    ensures op.OpNewComment? ==> ApplyDb(s, files, op) == Or(s, NewComment(s, op.m, op.o))
    ensures op.OpDropComment? ==> ApplyDb(s, files, op) == Or(s, DropComment(s, op.m))
  {
    hide NewContainer, Touch, NewObject, Resolve, DeleteObject, NewComment, DropComment, ApplyAttachment, ApplyGc, Put;
  }

  lemma AttachmentOpsApply(s: Db, files: set<Digest>, op: Op)
    ensures op.OpAttach? ==> ApplyDb(s, files, op) == Or(s, Attach(s, files, op.a, op.c, op.d, op.preview))
    ensures op.OpClaimPreview? ==> ApplyDb(s, files, op) == Or(s, ClaimPreview(s, files, op.d))
    ensures op.OpAddLink? ==> ApplyDb(s, files, op) == Or(s, AddLink(s, op.a, op.o, op.version))
    ensures op.OpRemoveLinks? ==> ApplyDb(s, files, op) == Or(s, RemoveLinks(s, op.a, op.o))
    ensures op.OpDeleteContainer? ==> ApplyDb(s, files, op) == Or(s, DeleteContainer(s, op.c))
  {
    hide Attach, ClaimPreview, AddLink, RemoveLinks, DeleteContainer, ApplyPage, ApplyGc, Put;
  }

  lemma GcOpsApply(s: Db, files: set<Digest>, op: Op)
    ensures op.OpTombstoneStranded? ==> ApplyDb(s, files, op) == TombstoneStranded(s)
    ensures op.OpUnmark? ==> ApplyDb(s, files, op) == Unmark(s)
    ensures op.OpMark? ==> ApplyDb(s, files, op) == Mark(s, op.now)
    ensures op.OpPruneKeys? ==> ApplyDb(s, files, op) == PruneKeys(s, op.cut)
  {
    hide TombstoneStranded, Unmark, Mark, PruneKeys, ApplyPage, ApplyAttachment, Put;
  }

  lemma AdmittedIff(s: Db, files: set<Digest>, op: Op)
    requires op.OpPut?
    ensures PutAdmitted(s, files, op.g, op.o, op.base, op.d, op.key, op.f) <==> Commits(s, files, op)
  {
  }

  /** A save on the page's current version. */
  lemma SaveAgrees(s: Db, files: set<Digest>, op: Op)
    requires op.OpPut? && Commits(s, files, op) && op.base == s.objects[op.o].current
    ensures Follows(s, op, ApplyDb(s, files, op))
  {
    var s' := ApplyDb(s, files, op);
    AdmittedIff(s, files, op);
    hide ApplyPage, ApplyAttachment, ApplyGc, NotesFollow, AttachmentsFollow;
    KeptAttachments(s, op, s');
    KeptNotes(s, op, s');
  }

  /** A save on a stale one. */
  lemma ClashAgrees(s: Db, files: set<Digest>, op: Op)
    requires op.OpPut? && Commits(s, files, op) && op.base != s.objects[op.o].current
    ensures Follows(s, op, ApplyDb(s, files, op))
  {
    var s' := ApplyDb(s, files, op);
    AdmittedIff(s, files, op);
    hide ApplyPage, ApplyAttachment, ApplyGc, AttachmentsFollow;
    KeptAttachments(s, op, s');
  }

  lemma PutAgrees(s: Db, files: set<Digest>, op: Op)
    requires op.OpPut?
    ensures Agrees(s, files, op, ApplyDb(s, files, op))
  {
    AdmittedIff(s, files, op);
    if Commits(s, files, op) {
      hide ApplyDb, Follows;
      if op.base == s.objects[op.o].current {
        SaveAgrees(s, files, op);
      } else {
        ClashAgrees(s, files, op);
      }
    } else {
      hide PutAdmitted, Commits, Follows, ApplyPage, ApplyAttachment, ApplyGc;
    }
  }

  lemma NewContainerFollows(s: Db, op: Op)
    requires op.OpNewContainer? && NewContainer(s, op.c, op.team).Some?
    ensures Follows(s, op, NewContainer(s, op.c, op.team).value)
  {
    hide NotesFollow, AttachmentsFollow, BlobsFollow;
    KeptNotes(s, op, NewContainer(s, op.c, op.team).value);
    KeptAttachments(s, op, NewContainer(s, op.c, op.team).value);
    KeptBlobs(s, op, NewContainer(s, op.c, op.team).value);
  }

  lemma TouchFollows(s: Db, op: Op)
    requires op.OpTouch? && Touch(s, op.c).Some?
    ensures Follows(s, op, Touch(s, op.c).value)
  {
    hide NotesFollow, AttachmentsFollow, BlobsFollow;
    KeptNotes(s, op, Touch(s, op.c).value);
    KeptAttachments(s, op, Touch(s, op.c).value);
    KeptBlobs(s, op, Touch(s, op.c).value);
  }

  lemma NewObjectFollows(s: Db, op: Op)
    requires op.OpNewObject? && NewObject(s, op.o, op.c).Some?
    ensures Follows(s, op, NewObject(s, op.o, op.c).value)
  {
    hide NotesFollow, AttachmentsFollow, BlobsFollow;
    KeptNotes(s, op, NewObject(s, op.o, op.c).value);
    KeptAttachments(s, op, NewObject(s, op.o, op.c).value);
    KeptBlobs(s, op, NewObject(s, op.o, op.c).value);
  }

  lemma ResolveFollows(s: Db, op: Op)
    requires op.OpResolve? && Resolve(s, op.f).Some?
    ensures Follows(s, op, Resolve(s, op.f).value)
  {
    hide AttachmentsFollow, BlobsFollow;
    KeptAttachments(s, op, Resolve(s, op.f).value);
    KeptBlobs(s, op, Resolve(s, op.f).value);
  }

  lemma NewCommentFollows(s: Db, op: Op)
    requires op.OpNewComment? && NewComment(s, op.m, op.o).Some?
    ensures Follows(s, op, NewComment(s, op.m, op.o).value)
  {
    hide AttachmentsFollow, BlobsFollow;
    KeptAttachments(s, op, NewComment(s, op.m, op.o).value);
    KeptBlobs(s, op, NewComment(s, op.m, op.o).value);
  }

  lemma DropCommentFollows(s: Db, op: Op)
    requires op.OpDropComment? && DropComment(s, op.m).Some?
    ensures Follows(s, op, DropComment(s, op.m).value)
  {
    hide AttachmentsFollow, BlobsFollow;
    KeptAttachments(s, op, DropComment(s, op.m).value);
    KeptBlobs(s, op, DropComment(s, op.m).value);
  }

  lemma PreviewFollows(s: Db, files: set<Digest>, op: Op)
    requires op.OpClaimPreview? && ClaimPreview(s, files, op.d).Some?
    ensures Follows(s, op, ClaimPreview(s, files, op.d).value)
  {
    hide PagesFollow, NotesFollow, AttachmentsFollow;
    KeptPages(s, op, ClaimPreview(s, files, op.d).value);
    KeptNotes(s, op, ClaimPreview(s, files, op.d).value);
    KeptAttachments(s, op, ClaimPreview(s, files, op.d).value);
  }

  lemma AddLinkFollows(s: Db, op: Op)
    requires op.OpAddLink? && AddLink(s, op.a, op.o, op.version).Some?
    ensures Follows(s, op, AddLink(s, op.a, op.o, op.version).value)
  {
    hide PagesFollow, NotesFollow, BlobsFollow;
    KeptPages(s, op, AddLink(s, op.a, op.o, op.version).value);
    KeptNotes(s, op, AddLink(s, op.a, op.o, op.version).value);
    KeptBlobs(s, op, AddLink(s, op.a, op.o, op.version).value);
  }

  lemma RemoveLinksFollows(s: Db, op: Op)
    requires op.OpRemoveLinks? && RemoveLinks(s, op.a, op.o).Some?
    ensures Follows(s, op, RemoveLinks(s, op.a, op.o).value)
  {
    hide PagesFollow, NotesFollow, BlobsFollow;
    KeptPages(s, op, RemoveLinks(s, op.a, op.o).value);
    KeptNotes(s, op, RemoveLinks(s, op.a, op.o).value);
    KeptBlobs(s, op, RemoveLinks(s, op.a, op.o).value);
  }

  lemma DeletedPage(s: Db, op: Op)
    requires op.OpDeleteObject? && DeleteObject(s, op.o).Some?
    ensures PagesFollow(s, op, DeleteObject(s, op.o).value) && NotesFollow(s, op, DeleteObject(s, op.o).value)
  {
    hide AttachmentsWithout;
  }

  lemma DeletedPageAttachments(s: Db, op: Op)
    requires op.OpDeleteObject? && DeleteObject(s, op.o).Some?
    ensures AttachmentsFollow(s, op, DeleteObject(s, op.o).value)
  {
  }

  lemma KnownIff(s: Db, c: ContainerId, d: Digest)
    ensures Known(s, c, d) <==> HasBytes(s, c, d)
  {
  }

  /** Finalizing bytes a notebook has already. */
  lemma ReviveFollows(s: Db, files: set<Digest>, op: Op)
    requires op.OpAttach? && Commits(s, files, op) && Known(s, op.c, op.d)
    ensures Attach(s, files, op.a, op.c, op.d, op.preview).Some?
    ensures Follows(s, op, Attach(s, files, op.a, op.c, op.d, op.preview).value)
  {
    KnownIff(s, op.c, op.d);
    hide Known, HasBytes, NotesFollow, KnownPreview;
    KeptNotes(s, op, Attach(s, files, op.a, op.c, op.d, op.preview).value);
  }

  lemma FirstAttachFollows(s: Db, files: set<Digest>, op: Op)
    requires op.OpAttach? && Commits(s, files, op) && !Known(s, op.c, op.d)
    ensures Attach(s, files, op.a, op.c, op.d, op.preview).Some?
    ensures Follows(s, op, Attach(s, files, op.a, op.c, op.d, op.preview).value)
  {
    KnownIff(s, op.c, op.d);
    forall a | a in s.attachments ensures !Same(s, a, op.c, op.d) {
    }
    hide Known, HasBytes, NotesFollow, Same, SameBytes;
    KeptNotes(s, op, Attach(s, files, op.a, op.c, op.d, op.preview).value);
  }

  lemma DeletedPages(s: Db, op: Op)
    requires op.OpDeleteContainer? && DeleteContainer(s, op.c).Some?
    ensures PagesFollow(s, op, DeleteContainer(s, op.c).value)
  {
  }

  lemma DeletedNotes(s: Db, op: Op)
    requires op.OpDeleteContainer? && DeleteContainer(s, op.c).Some?
    ensures NotesFollow(s, op, DeleteContainer(s, op.c).value)
    ensures AttachmentsFollow(s, op, DeleteContainer(s, op.c).value)
  {
  }

  lemma PageCommitsIff(s: Db, files: set<Digest>, op: Op)
    requires IsPageOp(op)
    ensures Commits(s, files, op) <==> ApplyPage(s, op).Some?
  {
    hide AttachmentsWithout, Known;
  }

  lemma AttachmentCommitsIff(s: Db, files: set<Digest>, op: Op)
    requires IsAttachmentOp(op)
    ensures Commits(s, files, op) <==> ApplyAttachment(s, files, op).Some?
  {
    if op.OpAttach? {
      KnownIff(s, op.c, op.d);
    }
    hide Known, HasBytes, InScope, ObjectInScope, SameBytes;
  }

  lemma PageOpAgrees(s: Db, files: set<Digest>, op: Op)
    requires IsPageOp(op)
    ensures Agrees(s, files, op, ApplyDb(s, files, op))
  {
    hide ApplyDb, Commits, Follows, NewContainer, Touch, NewObject, Resolve, DeleteObject, NewComment, DropComment;
    PageOpsApply(s, files, op);
    PageCommitsIff(s, files, op);
    if Commits(s, files, op) {
      match op
      case OpNewContainer(_, _) => NewContainerFollows(s, op);
      case OpTouch(_) => TouchFollows(s, op);
      case OpNewObject(_, _) => NewObjectFollows(s, op);
      case OpResolve(_) => ResolveFollows(s, op);
      case OpDeleteObject(_) => DeleteObjectFollows(s, op);
      case OpNewComment(_, _) => NewCommentFollows(s, op);
      case OpDropComment(_) => DropCommentFollows(s, op);
    }
  }

  lemma DeleteObjectFollows(s: Db, op: Op)
    requires op.OpDeleteObject? && DeleteObject(s, op.o).Some?
    ensures Follows(s, op, DeleteObject(s, op.o).value)
  {
    DeletedPage(s, op);
    DeletedPageAttachments(s, op);
    hide PagesFollow, NotesFollow, AttachmentsFollow, BlobsFollow, AttachmentsWithout;
    KeptBlobs(s, op, DeleteObject(s, op.o).value);
  }

  lemma DeleteContainerFollows(s: Db, op: Op)
    requires op.OpDeleteContainer? && DeleteContainer(s, op.c).Some?
    ensures Follows(s, op, DeleteContainer(s, op.c).value)
  {
    DeletedPages(s, op);
    DeletedNotes(s, op);
    hide PagesFollow, NotesFollow, AttachmentsFollow, BlobsFollow;
    KeptBlobs(s, op, DeleteContainer(s, op.c).value);
  }

  lemma AttachFollows(s: Db, files: set<Digest>, op: Op)
    requires op.OpAttach? && Attach(s, files, op.a, op.c, op.d, op.preview).Some?
    ensures Follows(s, op, Attach(s, files, op.a, op.c, op.d, op.preview).value)
  {
    hide Follows, HasBytes, Known;
    KnownIff(s, op.c, op.d);
    if Known(s, op.c, op.d) {
      ReviveFollows(s, files, op);
    } else {
      FirstAttachFollows(s, files, op);
    }
  }

  lemma AttachmentOpAgrees(s: Db, files: set<Digest>, op: Op)
    requires IsAttachmentOp(op)
    ensures Agrees(s, files, op, ApplyDb(s, files, op))
  {
    hide ApplyDb, Commits, Follows, Attach, ClaimPreview, AddLink, RemoveLinks, DeleteContainer;
    AttachmentOpsApply(s, files, op);
    AttachmentCommitsIff(s, files, op);
    if Commits(s, files, op) {
      match op
      case OpAttach(_, _, _, _) => AttachFollows(s, files, op);
      case OpClaimPreview(_) => PreviewFollows(s, files, op);
      case OpAddLink(_, _, _) => AddLinkFollows(s, op);
      case OpRemoveLinks(_, _) => RemoveLinksFollows(s, op);
      case OpDeleteContainer(_) => DeleteContainerFollows(s, op);
    }
  }

  lemma MarksAgree(s: Db, files: set<Digest>, op: Op)
    requires op.OpUnmark? || op.OpMark?
    ensures Agrees(s, files, op, ApplyDb(s, files, op))
  {
    hide ApplyDb, PagesFollow, NotesFollow, AttachmentsFollow;
    GcOpsApply(s, files, op);
    KeptPages(s, op, ApplyDb(s, files, op));
    KeptNotes(s, op, ApplyDb(s, files, op));
    KeptAttachments(s, op, ApplyDb(s, files, op));
    forall d ensures Unused(s, d) <==> !Referenced(s, d) {
      UnusedIff(s, d);
    }
    hide Unused, Referenced;
  }

  lemma PruningAgrees(s: Db, files: set<Digest>, op: Op)
    requires op.OpTombstoneStranded? || op.OpPruneKeys?
    ensures Agrees(s, files, op, ApplyDb(s, files, op))
  {
    hide ApplyDb, PagesFollow, NotesFollow, Unused;
    GcOpsApply(s, files, op);
    KeptPages(s, op, ApplyDb(s, files, op));
    KeptNotes(s, op, ApplyDb(s, files, op));
  }

  /**
   * Every transaction commits exactly when it may, and then leaves every row of every table as its column says:
   * nothing it should write is missing, and nothing else changes. A refused one changes nothing.
   */
  lemma StepAgrees(s: Db, files: set<Digest>, op: Op)
    requires IsDbOp(op)
    ensures Agrees(s, files, op, ApplyDb(s, files, op))
  {
    hide Agrees, ApplyDb;
    if op.OpPut? {
      PutAgrees(s, files, op);
    } else if IsPageOp(op) {
      PageOpAgrees(s, files, op);
    } else if IsAttachmentOp(op) {
      AttachmentOpAgrees(s, files, op);
    } else if op.OpUnmark? || op.OpMark? {
      MarksAgree(s, files, op);
    } else {
      PruningAgrees(s, files, op);
    }
  }

  // ---- File operations ----------------------------------------------------------------------------

  /** A recorded digest that was marked before the cut and that nothing needs. */
  ghost predicate Ripe(s: Db, d: Digest, cut: int) {
    d in s.blobs && s.blobs[d].mark.Some? && s.blobs[d].mark.value < cut && Unused(s, d)
  }

  /** A sweep whose file is gone. */
  predicate Finishing(s: State) {
    s.work.Some? && s.work.value.Sweep? && s.work.value.removed
  }

  ghost function WorkAfter(s: State, op: Op): Option<Work> {
    if s.work.None? then
      if op.OpBeginSweep? && Ripe(s.db, op.d, op.cut) then Some(Sweep(op.d, false))
      else if op.OpBeginDrop? && op.d !in s.db.blobs then Some(Drop(op.d))
      else None
    else if op.OpAbandon? || (op.OpCommitSweep? && Finishing(s)) then None
    else if op.OpRemoveFile? && s.work.value.Sweep? then Some(Sweep(s.work.value.digest, true))
    else s.work
  }

  predicate FileAfter(s: State, op: Op, d: Digest) {
    (op.OpPublish? && d == op.d) || (d in s.files && !(op.OpRemoveFile? && s.work.Some? && s.work.value.digest == d))
  }

  /** What is left of the tables once digest d is swept: its record, and the tombstones of its bytes, are gone. */
  ghost predicate SweptOf(s: Db, s': Db, d: Digest) {
    && s' == s.(blobs := s'.blobs, attachments := s'.attachments, conflicts := s'.conflicts)
    && (forall x :: x in s'.blobs <==> x in s.blobs && x != d)
    && (forall x <- s'.blobs :: s'.blobs[x] == s.blobs[x])
    && (forall a :: At(s'.attachments, a) ==
         if a in s.attachments && s.attachments[a].digest == d && s.attachments[a].deleted then None
         else At(s.attachments, a))
    && (forall f :: At(s'.conflicts, f) ==
         if f in s.conflicts && s.conflicts[f].digest == d && s.conflicts[f].resolved then None
         else At(s.conflicts, f))
  }

  /** What a file operation, a crash or the end of a sweep does: to the work under way, the files and the tables. */
  lemma FileStepFollows(s: State, op: Op)
    requires !IsDbOp(op)
    ensures var s' := ApplyFile(s, op);
      && s'.work == WorkAfter(s, op)
      && (forall d :: d in s'.files <==> FileAfter(s, op, d))
      && if op.OpCommitSweep? && Finishing(s) then SweptOf(s.db, s'.db, s.work.value.digest) else s'.db == s.db
  {
    if op.OpBeginSweep? {
      UnusedIff(s.db, op.d);
      hide Unused, Referenced, Swept;
    }
  }
}
