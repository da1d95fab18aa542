/** In every interleaving and crash, what a committed row needs is on disk. */
module ContentBlobs {
  import opened Outcome
  import opened ContentModel

  ghost predicate VersionOk(s: Db, files: set<Digest>, k: VersionKey)
    requires k in s.versions
  {
    s.versions[k].digest in s.blobs && s.versions[k].digest in files
  }

  ghost predicate ConflictOk(s: Db, files: set<Digest>, f: ConflictId)
    requires f in s.conflicts
  {
    s.conflicts[f].digest in s.blobs && (!s.conflicts[f].resolved ==> s.conflicts[f].digest in files)
  }

  ghost predicate AttachmentOk(s: Db, files: set<Digest>, a: AttachmentId)
    requires a in s.attachments
  {
    s.attachments[a].digest in s.blobs && (!s.attachments[a].deleted ==> s.attachments[a].digest in files)
  }

  /** Every row's blob is recorded, and the file of every row still in force is there. */
  ghost predicate RowsOk(s: Db, files: set<Digest>) {
    && (forall k <- s.versions :: VersionOk(s, files, k))
    && (forall f <- s.conflicts :: ConflictOk(s, files, f))
    && (forall a <- s.attachments :: AttachmentOk(s, files, a))
  }

  /** The digest a sweep works on is unreferenced while it works, the one a refused save drops unclaimed. */
  ghost predicate WorkOk(s: State) {
    s.work.Some? ==>
      if s.work.value.Sweep? then !Referenced(s.db, s.work.value.digest) else s.work.value.digest !in s.db.blobs
  }

  ghost predicate BlobInv(s: State) {
    RowsOk(s.db, s.files) && WorkOk(s)
  }

  /** Each row was there with no less need, or needs a digest that is claimed and on disk. */
  ghost predicate Needs(s: Db, files: set<Digest>, s': Db) {
    && s.blobs.Keys <= s'.blobs.Keys
    && (forall k <- s'.versions ::
      (k in s.versions && s'.versions[k].digest == s.versions[k].digest) || VersionOk(s', files, k))
    && (forall f <- s'.conflicts ::
      (f in s.conflicts && s'.conflicts[f].digest == s.conflicts[f].digest &&
      (s.conflicts[f].resolved ==> s'.conflicts[f].resolved)) || ConflictOk(s', files, f))
    && (forall a <- s'.attachments ::
      (a in s.attachments && s'.attachments[a].digest == s.attachments[a].digest &&
      (s.attachments[a].deleted ==> s'.attachments[a].deleted)) || AttachmentOk(s', files, a))
  }

  lemma NeedsKeepsRows(s: Db, files: set<Digest>, s': Db)
    requires RowsOk(s, files) && Needs(s, files, s')
    ensures RowsOk(s', files)
  {
    forall k | k in s'.versions ensures VersionOk(s', files, k) { assert k in s.versions ==> VersionOk(s, files, k); }
    forall f | f in s'.conflicts
      ensures ConflictOk(s', files, f)
    {
      assert f in s.conflicts ==> ConflictOk(s, files, f);
    }
    forall a | a in s'.attachments
      ensures AttachmentOk(s', files, a)
    {
      assert a in s.attachments ==> AttachmentOk(s, files, a);
    }
  }

  lemma SameRowsNeed(s: Db, files: set<Digest>, s': Db)
    requires s'.versions == s.versions && s'.conflicts == s.conflicts && s'.attachments == s.attachments &&
      s.blobs.Keys <= s'.blobs.Keys
    ensures Needs(s, files, s')
  {
    hide VersionOk, ConflictOk, AttachmentOk;
  }

  lemma NewVersionNeeds(s: Db, files: set<Digest>, s': Db, k: VersionKey, v: Version)
    requires s'.versions == s.versions[k := v] && v.digest in s'.blobs && v.digest in files
    requires s'.conflicts == s.conflicts && s'.attachments == s.attachments && s.blobs.Keys <= s'.blobs.Keys
    ensures Needs(s, files, s')
  {
    hide ConflictOk, AttachmentOk;
  }

  lemma NewConflictNeeds(s: Db, files: set<Digest>, s': Db, f: ConflictId, row: Conflict)
    requires s'.conflicts == s.conflicts[f := row] && row.digest in s'.blobs && row.digest in files
    requires s'.versions == s.versions && s'.attachments == s.attachments && s.blobs.Keys <= s'.blobs.Keys
    ensures Needs(s, files, s')
  {
    hide VersionOk, AttachmentOk;
  }

  lemma PutNeeds(s: Db, files: set<Digest>, op: Op)
    requires op.OpPut?
    ensures Needs(s, files, ApplyDb(s, files, op))
  {
    hide Needs, Kept;
    var s' := ApplyDb(s, files, op);
    if !PutAdmitted(s, files, op.g, op.o, op.base, op.d, op.key, op.f) {
      SameRowsNeed(s, files, s');
    } else if op.base == s.objects[op.o].current {
      var k := VersionKey(op.o, s.objects[op.o].current + 1);
      NewVersionNeeds(s, files, s', k, s'.versions[k]);
    } else {
      NewConflictNeeds(s, files, s', op.f, s'.conflicts[op.f]);
    }
  }

  lemma DeleteObjectNeeds(s: Db, files: set<Digest>, o: ObjectId)
    requires DeleteObject(s, o).Some?
    ensures Needs(s, files, DeleteObject(s, o).value)
  {
    hide LinkedTo, LinkedElsewhere, AttachmentOk, ConflictOk, VersionOk;
  }

  lemma ResolveNeeds(s: Db, files: set<Digest>, f: ConflictId)
    requires Resolve(s, f).Some?
    ensures Needs(s, files, Resolve(s, f).value)
  {
    hide AttachmentOk, ConflictOk, VersionOk;
  }

  lemma PageNeeds(s: Db, files: set<Digest>, op: Op)
    requires IsPageOp(op)
    ensures Needs(s, files, ApplyDb(s, files, op))
  {
    hide Needs, DeleteObject, Resolve;
    if op.OpDeleteObject? && DeleteObject(s, op.o).Some? {
      DeleteObjectNeeds(s, files, op.o);
    } else if op.OpResolve? && Resolve(s, op.f).Some? {
      ResolveNeeds(s, files, op.f);
    } else {
      SameRowsNeed(s, files, ApplyDb(s, files, op));
    }
  }

  lemma ReviveNeeds(s: Db, files: set<Digest>, a: AttachmentId, c: ContainerId, d: Digest, preview: Option<Digest>)
    requires Attach(s, files, a, c, d, preview).Some? && HasBytes(s, c, d)
    ensures Needs(s, files, Attach(s, files, a, c, d, preview).value)
  {
    hide HasBytes, ConflictOk, VersionOk, KnownPreview, Bumped, NextSeq;
  }

  lemma NewAttachmentNeeds(s: Db, files: set<Digest>, a: AttachmentId, c: ContainerId, d: Digest,
      preview: Option<Digest>)
    requires Attach(s, files, a, c, d, preview).Some? && !HasBytes(s, c, d)
    ensures Needs(s, files, Attach(s, files, a, c, d, preview).value)
  {
    hide HasBytes, SameBytes, ConflictOk, VersionOk, KnownPreview, Bumped, NextSeq;
  }

  lemma AttachNeeds(s: Db, files: set<Digest>, a: AttachmentId, c: ContainerId, d: Digest, preview: Option<Digest>)
    requires Attach(s, files, a, c, d, preview).Some?
    ensures Needs(s, files, Attach(s, files, a, c, d, preview).value)
  {
    hide Attach, Needs, HasBytes;
    if HasBytes(s, c, d) {
      ReviveNeeds(s, files, a, c, d, preview);
    } else {
      NewAttachmentNeeds(s, files, a, c, d, preview);
    }
  }

  lemma DeleteContainerNeeds(s: Db, files: set<Digest>, c: ContainerId)
    requires DeleteContainer(s, c).Some?
    ensures Needs(s, files, DeleteContainer(s, c).value)
  {
    hide InScope, ObjectInScope, ConflictOk, VersionOk, AttachmentOk;
  }

  lemma FinalizeNeeds(s: Db, files: set<Digest>, op: Op)
    requires op.OpAttach?
    ensures Needs(s, files, ApplyDb(s, files, op))
  {
    hide Needs, Attach, ApplyGc, ApplyPage, Put;
    if Attach(s, files, op.a, op.c, op.d, op.preview).Some? {
      AttachNeeds(s, files, op.a, op.c, op.d, op.preview);
    } else {
      SameRowsNeed(s, files, s);
    }
  }

  lemma ClosingNeeds(s: Db, files: set<Digest>, op: Op)
    requires op.OpDeleteContainer?
    ensures Needs(s, files, ApplyDb(s, files, op))
  {
    hide Needs, DeleteContainer, ApplyGc, ApplyPage, Put;
    if DeleteContainer(s, op.c).Some? {
      DeleteContainerNeeds(s, files, op.c);
    } else {
      SameRowsNeed(s, files, s);
    }
  }

  lemma AttachmentNeeds(s: Db, files: set<Digest>, op: Op)
    requires IsAttachmentOp(op)
    ensures Needs(s, files, ApplyDb(s, files, op))
  {
    if op.OpAttach? {
      hide Needs, ApplyDb;
      FinalizeNeeds(s, files, op);
    } else if op.OpDeleteContainer? {
      hide Needs, ApplyDb;
      ClosingNeeds(s, files, op);
    } else {
      hide Needs, ApplyGc, ApplyPage, Put, Attach, DeleteContainer;
      SameRowsNeed(s, files, ApplyDb(s, files, op));
    }
  }

  lemma GcNeeds(s: Db, files: set<Digest>, op: Op)
    requires IsGcOp(op)
    ensures Needs(s, files, ApplyDb(s, files, op))
  {
    hide Referenced, Stranded, AttachmentOk, ConflictOk, VersionOk;
  }

  lemma DbNeeds(s: Db, files: set<Digest>, op: Op)
    requires IsDbOp(op)
    ensures Needs(s, files, ApplyDb(s, files, op))
  {
    hide Needs, ApplyDb;
    if op.OpPut? {
      PutNeeds(s, files, op);
    } else if IsPageOp(op) {
      PageNeeds(s, files, op);
    } else if IsAttachmentOp(op) {
      AttachmentNeeds(s, files, op);
    } else {
      GcNeeds(s, files, op);
    }
  }

  lemma UnreferencedMeans(s: Db, d: Digest)
    requires !Referenced(s, d)
    ensures forall k <- s.versions :: s.versions[k].digest != d
    ensures forall f <- s.conflicts :: s.conflicts[f].digest == d ==> s.conflicts[f].resolved
    ensures forall a <- s.attachments :: s.attachments[a].digest == d ==> s.attachments[a].deleted
  {
    hide Linked;
  }

  /** Losing an unreferenced digest's file takes nothing a row needs; nor does gaining any file. */
  lemma FilesKeepRows(s: Db, files: set<Digest>, files': set<Digest>, d: Digest)
    requires RowsOk(s, files) && (!Referenced(s, d) || d !in s.blobs) && files - {d} <= files'
    ensures RowsOk(s, files')
  {
    if !Referenced(s, d) {
      UnreferencedMeans(s, d);
    }
    hide Referenced;
    forall k | k in s.versions ensures VersionOk(s, files', k) { assert VersionOk(s, files, k); }
    forall f | f in s.conflicts ensures ConflictOk(s, files', f) { assert ConflictOk(s, files, f); }
    forall a | a in s.attachments ensures AttachmentOk(s, files', a) { assert AttachmentOk(s, files, a); }
  }

  lemma SweptKeepsRows(s: Db, files: set<Digest>, d: Digest)
    requires RowsOk(s, files) && !Referenced(s, d)
    ensures RowsOk(Swept(s, d), files)
  {
    UnreferencedMeans(s, d);
    hide Referenced;
    var s' := Swept(s, d);
    forall k | k in s'.versions ensures VersionOk(s', files, k) { assert VersionOk(s, files, k); }
    forall f | f in s'.conflicts ensures ConflictOk(s', files, f) { assert ConflictOk(s, files, f); }
    forall a | a in s'.attachments ensures AttachmentOk(s', files, a) { assert AttachmentOk(s, files, a); }
  }

  lemma GainKeepsRows(s: Db, files: set<Digest>, files': set<Digest>)
    requires RowsOk(s, files) && files <= files'
    ensures RowsOk(s, files')
  {
    forall k | k in s.versions ensures VersionOk(s, files', k) { assert VersionOk(s, files, k); }
    forall f | f in s.conflicts ensures ConflictOk(s, files', f) { assert ConflictOk(s, files, f); }
    forall a | a in s.attachments ensures AttachmentOk(s, files', a) { assert AttachmentOk(s, files, a); }
  }

  lemma FileStepKeepsInv(s: State, op: Op)
    requires BlobInv(s) && !IsDbOp(op)
    ensures BlobInv(ApplyFile(s, op))
  {
    hide RowsOk, Referenced, Swept;
    if op.OpRemoveFile? && s.work.Some? {
      FilesKeepRows(s.db, s.files, s.files - {s.work.value.digest}, s.work.value.digest);
    } else if op.OpPublish? {
      GainKeepsRows(s.db, s.files, s.files + {op.d});
    } else if op.OpCommitSweep? && s.work.Some? && s.work.value.Sweep? {
      SweptKeepsRows(s.db, s.files, s.work.value.digest);
    }
  }

  lemma StepKeepsInv(s: State, op: Op)
    requires BlobInv(s)
    ensures BlobInv(Apply(s, op))
  {
    hide RowsOk, Referenced, ApplyDb, ApplyFile, Needs;
    if !IsDbOp(op) {
      FileStepKeepsInv(s, op);
    } else if s.work.None? {
      DbNeeds(s.db, s.files, op);
      NeedsKeepsRows(s.db, s.files, ApplyDb(s.db, s.files, op));
    }
  }

  lemma {:induction false} RunKeepsInv(ss: seq<State>, ops: seq<Op>, i: nat)
    requires Run(ss, ops) && i < |ss|
    ensures BlobInv(ss[i])
  {
    hide Apply, BlobInv;
    if i == 0 {
      StartInv(ss[0]);
    } else {
      RunKeepsInv(ss, ops, i - 1);
      assert ss[i - 1 + 1] == Apply(ss[i - 1], ops[i - 1]);
      StepKeepsInv(ss[i - 1], ops[i - 1]);
    }
  }

  lemma StartInv(s: State)
    requires Start(s)
    ensures BlobInv(s)
  {
  }

  /** A digest some committed version, open conflict or live attachment needs as its main content. */
  ghost predicate MainContent(s: Db, d: Digest) {
    || (exists k <- s.versions :: s.versions[k].digest == d)
    || (exists f <- s.conflicts :: s.conflicts[f].digest == d && !s.conflicts[f].resolved)
    || (exists a <- s.attachments :: s.attachments[a].digest == d && !s.attachments[a].deleted)
  }

  lemma RowsNeedContent(s: Db, files: set<Digest>, d: Digest)
    requires RowsOk(s, files) && MainContent(s, d)
    ensures d in s.blobs && d in files
  {
    if f :| f in s.conflicts && s.conflicts[f].digest == d && !s.conflicts[f].resolved {
      assert ConflictOk(s, files, f);
    } else if a :| a in s.attachments && s.attachments[a].digest == d && !s.attachments[a].deleted {
      assert AttachmentOk(s, files, a);
    } else {
      var k :| k in s.versions && s.versions[k].digest == d;
      assert VersionOk(s, files, k);
    }
  }

  /**
   * In every interleaving of publications, saves, refused saves, marking, sweeps and crashes between
   * a file's deletion and its commit, content a committed row needs has its blobs row and its file.
   */
  lemma CommittedContentIsOnDisk(ss: seq<State>, ops: seq<Op>, i: nat, d: Digest)
    requires Run(ss, ops) && i < |ss| && MainContent(ss[i].db, d)
    ensures d in ss[i].db.blobs && d in ss[i].files
  {
    hide Apply, MainContent;
    RunKeepsInv(ss, ops, i);
    RowsNeedContent(ss[i].db, ss[i].files, d);
  }

  /** No step loses the row or the file of a digest that is referenced, previews included. */
  lemma ReferencedNeverLost(ss: seq<State>, ops: seq<Op>, i: nat, d: Digest)
    requires Run(ss, ops) && i < |ops| && Referenced(ss[i].db, d) && d in ss[i].db.blobs && d in ss[i].files
    ensures d in ss[i + 1].db.blobs && d in ss[i + 1].files
  {
    hide Referenced, ApplyDb;
    RunKeepsInv(ss, ops, i);
    assert ss[i + 1] == Apply(ss[i], ops[i]);
    if IsDbOp(ops[i]) {
      DbNeeds(ss[i].db, ss[i].files, ops[i]);
    }
  }

  /** A live attachment whose preview is recorded but has lost its row or its file. */
  ghost predicate Dangles(s: Db, files: set<Digest>, a: AttachmentId) {
    a in s.attachments && !s.attachments[a].deleted && s.attachments[a].preview.Some? &&
    !(s.attachments[a].preview.value in s.blobs && s.attachments[a].preview.value in files)
  }

  /** What finalizing main digest d leaves of preview p's row and file. */
  predicate Whole(s: Db, files: set<Digest>, d: Digest, p: Digest) {
    (p == d || p in s.blobs) && p in files
  }

  /** Before the call: a new row records a known preview that is not whole, or a revived row has one. */
  predicate BreaksPreview(s: Db, files: set<Digest>, op: Op, x: AttachmentId) {
    op.OpAttach? && LiveContainer(s, op.c) && op.d in files &&
    if HasBytes(s, op.c, op.d) then
      SameBytes(s, x, op.c, op.d) && s.attachments[x].deleted && s.attachments[x].preview.Some? &&
      !Whole(s, files, op.d, s.attachments[x].preview.value)
    else
      x == op.a && x !in s.attachments && KnownPreview(s, op.preview).Some? && !Whole(s, files, op.d, op.preview.value)
  }

  lemma ReviveBreaks(s: Db, files: set<Digest>, op: Op, x: AttachmentId)
    requires op.OpAttach? && HasBytes(s, op.c, op.d)
    ensures Dangles(ApplyDb(s, files, op), files, x) && !Dangles(s, files, x) <==> BreaksPreview(s, files, op, x)
  {
    hide HasBytes, KnownPreview;
  }

  lemma NewBreaks(s: Db, files: set<Digest>, op: Op, x: AttachmentId)
    requires op.OpAttach? && !HasBytes(s, op.c, op.d)
    ensures Dangles(ApplyDb(s, files, op), files, x) && !Dangles(s, files, x) <==> BreaksPreview(s, files, op, x)
  {
    hide HasBytes, SameBytes;
  }

  /** No other transaction leaves a live preview with less. */
  lemma OthersSparePreviews(s: Db, files: set<Digest>, op: Op, x: AttachmentId)
    requires IsDbOp(op) && !op.OpAttach? && Dangles(ApplyDb(s, files, op), files, x)
    ensures Dangles(s, files, x)
  {
    hide Referenced, HasBytes, SameBytes, LinkedTo, LinkedElsewhere, InScope, ObjectInScope, Linked, Stranded, Kept;
  }

  lemma FilesSparePreviews(s: State, op: Op, x: AttachmentId)
    requires BlobInv(s) && !IsDbOp(op) && Dangles(ApplyFile(s, op).db, ApplyFile(s, op).files, x)
    ensures Dangles(s.db, s.files, x)
  {
    hide RowsOk, Due, Linked;
  }

  /** A live attachment comes to lack its preview exactly when finalizing it records, or revives a row with, a
      preview whose blob was swept before: no other step of any run, no sweep and no crash, takes one away. */
  lemma PreviewDanglesIff(s: State, op: Op, x: AttachmentId)
    requires BlobInv(s)
    ensures Dangles(Apply(s, op).db, Apply(s, op).files, x) && !Dangles(s.db, s.files, x) <==>
      s.work.None? && BreaksPreview(s.db, s.files, op, x)
  {
    hide BlobInv, Dangles, BreaksPreview, ApplyDb, ApplyFile, HasBytes;
    if !IsDbOp(op) {
      if Dangles(Apply(s, op).db, Apply(s, op).files, x) {
        FilesSparePreviews(s, op, x);
      }
      OnlyAttachBreaks(s.db, s.files, op, x);
    } else if s.work.None? {
      if op.OpAttach? {
        if HasBytes(s.db, op.c, op.d) {
          ReviveBreaks(s.db, s.files, op, x);
        } else {
          NewBreaks(s.db, s.files, op, x);
        }
      } else {
        if Dangles(Apply(s, op).db, Apply(s, op).files, x) {
          OthersSparePreviews(s.db, s.files, op, x);
        }
        OnlyAttachBreaks(s.db, s.files, op, x);
      }
    }
  }

  lemma OnlyAttachBreaks(s: Db, files: set<Digest>, op: Op, x: AttachmentId)
    requires !op.OpAttach?
    ensures !BreaksPreview(s, files, op, x)
  {
  }

  lemma NothingStored(s: Db, d: Digest)
    requires s.versions == map[] && s.conflicts == map[] && s.attachments == map[]
    ensures !Referenced(s, d)
  {
  }

  ghost function Bare(blobs: map<Digest, Blob>): Db {
    EMPTY.(containers := map[0 := Container(None, 1, false)], blobs := blobs, previews := {1})
  }

  /** A preview is published, claimed, marked and swept; then the attachment naming it is finalized. */
  ghost function Scene(i: nat): State {
    if i == 0 then State(EMPTY, {}, None)
    else if i == 1 then State(EMPTY.(containers := map[0 := Container(None, 1, false)]), {}, None)
    else if i == 2 then State(EMPTY.(containers := map[0 := Container(None, 1, false)]), {1}, None)
    else if i == 3 then State(Bare(map[1 := Blob(None)]), {1}, None)
    else if i == 4 then State(Bare(map[1 := Blob(Some(5))]), {1}, None)
    else if i == 5 then State(Bare(map[1 := Blob(Some(5))]), {1}, Some(Sweep(1, false)))
    else if i == 6 then State(Bare(map[1 := Blob(Some(5))]), {}, Some(Sweep(1, true)))
    else if i == 7 then State(Bare(map[]), {}, None)
    else if i == 8 then State(Bare(map[]), {0}, None)
    else State(Bare(map[0 := Blob(None)]).(containers := map[0 := Container(None, 2, false)],
      attachments := map[0 := Attachment(0, 0, Some(1), 2, false)]), {0}, None)
  }

  const SCENE_OPS :=
    [OpNewContainer(0, None), OpPublish(1), OpClaimPreview(1), OpMark(5), OpBeginSweep(1, 9), OpRemoveFile,
    OpCommitSweep, OpPublish(0), OpAttach(0, 0, 0, Some(1))]

  lemma SceneBeforeMark(i: nat)
    requires i < 3
    ensures Apply(Scene(i), SCENE_OPS[i]) == Scene(i + 1)
  {
  }

  lemma SceneMark(i: nat)
    requires 3 <= i < 5
    ensures Apply(Scene(i), SCENE_OPS[i]) == Scene(i + 1)
  {
    hide Referenced, Attach, Put, DeleteContainer;
    NothingStored(Scene(i).db, 1);
  }

  lemma SceneSweep(i: nat)
    requires 5 <= i < 8
    ensures Apply(Scene(i), SCENE_OPS[i]) == Scene(i + 1)
  {
    hide Referenced, ApplyDb;
    NothingStored(Scene(i).db, 1);
  }

  lemma SceneAttach()
    ensures Apply(Scene(8), SCENE_OPS[8]) == Scene(9)
  {
    assert !HasBytes(Scene(8).db, 0, 0);
    hide HasBytes;
  }

  /**
   * Only main content is sure to be there: a preview swept between its own finalize and its
   * attachment's is recorded on a live attachment with neither row nor file.
   */
  lemma PreviewMayDangle() returns (ss: seq<State>, ops: seq<Op>)
    ensures Run(ss, ops)
    ensures Dangles(ss[|ops|].db, ss[|ops|].files, 0)
  {
    hide Apply;
    ops, ss := SCENE_OPS, seq(10, i requires 0 <= i < 10 => Scene(i));
    forall i: nat | i < 9 ensures Apply(Scene(i), SCENE_OPS[i]) == Scene(i + 1) {
      if i < 3 {
        SceneBeforeMark(i);
      } else if i < 5 {
        SceneMark(i);
      } else if i < 8 {
        SceneSweep(i);
      } else {
        SceneAttach();
      }
    }
  }
}
