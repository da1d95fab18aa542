/** Optimistic saves: numbered versions without gaps, conflicts that lose nothing, and replayed retries. */
module ContentSaves {
  import opened Outcome
  import opened ContentModel

  /** A stored version belongs to a live page, is one of its numbers, and was based on the one before. */
  ghost predicate VersionNumbered(s: Db, k: VersionKey)
    requires k in s.versions
  {
    k.page in s.objects && !s.objects[k.page].deleted && 1 <= k.version <= s.objects[k.page].current &&
      s.versions[k].base == k.version - 1
  }

  ghost predicate HistoryComplete(s: Db, o: ObjectId)
    requires o in s.objects
  {
    !s.objects[o].deleted ==> forall v :: 1 <= v <= s.objects[o].current ==> VersionKey(o, v) in s.versions
  }

  ghost predicate SaveInv(s: Db) {
    && (forall k <- s.versions :: VersionNumbered(s, k))
    && (forall o <- s.objects :: HistoryComplete(s, o))
  }

  lemma SamePages(s: Db, s': Db)
    requires SaveInv(s) && s'.versions == s.versions && s'.objects == s.objects
    ensures SaveInv(s')
  {
    forall k | k in s'.versions ensures VersionNumbered(s', k) { assert VersionNumbered(s, k); }
    forall o | o in s'.objects ensures HistoryComplete(s', o) { assert HistoryComplete(s, o); }
  }

  lemma NewObjectKeeps(s: Db, o: ObjectId, c: ContainerId)
    requires SaveInv(s) && NewObject(s, o, c).Some?
    ensures SaveInv(NewObject(s, o, c).value)
  {
    var s' := NewObject(s, o, c).value;
    forall k | k in s'.versions ensures VersionNumbered(s', k) { assert VersionNumbered(s, k); }
    forall x | x in s'.objects ensures HistoryComplete(s', x) { assert x in s.objects ==> HistoryComplete(s, x); }
  }

  lemma DeleteObjectKeeps(s: Db, o: ObjectId)
    requires SaveInv(s) && DeleteObject(s, o).Some?
    ensures SaveInv(DeleteObject(s, o).value)
  {
    hide LinkedTo, LinkedElsewhere, AttachmentsWithout;
    var s' := DeleteObject(s, o).value;
    forall k | k in s'.versions ensures VersionNumbered(s', k) { assert VersionNumbered(s, k); }
    forall x | x in s'.objects ensures HistoryComplete(s', x) { assert HistoryComplete(s, x); }
  }

  lemma DeleteContainerKeeps(s: Db, c: ContainerId)
    requires SaveInv(s) && DeleteContainer(s, c).Some?
    ensures SaveInv(DeleteContainer(s, c).value)
  {
    hide InScope;
    var s' := DeleteContainer(s, c).value;
    forall k | k in s'.versions ensures VersionNumbered(s', k) { assert VersionNumbered(s, k); }
    forall x | x in s'.objects ensures HistoryComplete(s', x) { assert HistoryComplete(s, x); }
  }

  lemma PutKeeps(s: Db, files: set<Digest>, g: Guards, o: ObjectId, base: int, d: Digest, key: Option<SaveKey>,
      f: ConflictId, now: nat)
    requires SaveInv(s)
    ensures SaveInv(Put(s, files, g, o, base, d, key, f, now).0)
  {
    hide Kept;
    var s' := Put(s, files, g, o, base, d, key, f, now).0;
    forall k | k in s'.versions ensures VersionNumbered(s', k) { assert k in s.versions ==> VersionNumbered(s, k); }
    forall x | x in s'.objects ensures HistoryComplete(s', x) { assert HistoryComplete(s, x); }
  }

  lemma StepKeepsInv(s: State, op: Op)
    requires SaveInv(s.db)
    ensures SaveInv(Apply(s, op).db)
  {
    hide SaveInv, Put, NewObject, DeleteObject, DeleteContainer, Attach, Referenced;
    if op.OpPut? {
      PutKeeps(s.db, s.files, op.g, op.o, op.base, op.d, op.key, op.f, op.now);
    } else if op.OpNewObject? && NewObject(s.db, op.o, op.c).Some? {
      NewObjectKeeps(s.db, op.o, op.c);
    } else if op.OpDeleteObject? && DeleteObject(s.db, op.o).Some? {
      DeleteObjectKeeps(s.db, op.o);
    } else if op.OpDeleteContainer? && DeleteContainer(s.db, op.c).Some? {
      DeleteContainerKeeps(s.db, op.c);
    } else {
      OtherPages(s, op);
      SamePages(s.db, Apply(s, op).db);
    }
  }

  lemma PageOpsSparePages(s: Db, op: Op)
    requires IsPageOp(op) && ApplyPage(s, op).Some?
    requires op.OpNewObject? ==> NewObject(s, op.o, op.c).None?
    requires op.OpDeleteObject? ==> DeleteObject(s, op.o).None?
    ensures ApplyPage(s, op).value.objects == s.objects && ApplyPage(s, op).value.versions == s.versions
  {
    hide Bumped, NextSeq, NewObject, DeleteObject;
  }

  lemma AttachmentOpsSparePages(s: Db, files: set<Digest>, op: Op)
    requires IsAttachmentOp(op) && ApplyAttachment(s, files, op).Some?
    requires op.OpDeleteContainer? ==> DeleteContainer(s, op.c).None?
    ensures ApplyAttachment(s, files, op).value.objects == s.objects
    ensures ApplyAttachment(s, files, op).value.versions == s.versions
  {
    hide Bumped, NextSeq, HasBytes, SameBytes, KnownPreview, Claimed, DeleteContainer;
  }

  lemma GcSparesPages(s: Db, op: Op)
    requires IsGcOp(op)
    ensures ApplyGc(s, op).objects == s.objects && ApplyGc(s, op).versions == s.versions
  {
    hide Stranded, StrandedTombstoned, Referenced;
  }

  lemma FilesSparePages(s: State, op: Op)
    requires !IsDbOp(op)
    ensures ApplyFile(s, op).db.objects == s.db.objects && ApplyFile(s, op).db.versions == s.db.versions
  {
    hide Due, AttachmentsUnswept, ConflictsUnswept;
  }

  ghost predicate SparesPages(s: State, s': State) {
    s'.db.objects == s.db.objects && s'.db.versions == s.db.versions
  }

  lemma PageStepSpares(s: State, op: Op)
    requires IsPageOp(op)
    requires op.OpNewObject? ==> NewObject(s.db, op.o, op.c).None?
    requires op.OpDeleteObject? ==> DeleteObject(s.db, op.o).None?
    ensures SparesPages(s, Apply(s, op))
  {
    hide ApplyPage, ApplyAttachment, ApplyGc, ApplyFile, Put, NewObject, DeleteObject;
    if ApplyPage(s.db, op).Some? {
      PageOpsSparePages(s.db, op);
    }
  }

  lemma AttachmentStepSpares(s: State, op: Op)
    requires IsAttachmentOp(op)
    requires op.OpDeleteContainer? ==> DeleteContainer(s.db, op.c).None?
    ensures SparesPages(s, Apply(s, op))
  {
    hide ApplyPage, ApplyAttachment, ApplyGc, ApplyFile, Put, DeleteContainer;
    if ApplyAttachment(s.db, s.files, op).Some? {
      AttachmentOpsSparePages(s.db, s.files, op);
    }
  }

  lemma GcStepSpares(s: State, op: Op)
    requires IsGcOp(op)
    ensures SparesPages(s, Apply(s, op))
  {
    hide ApplyPage, ApplyAttachment, ApplyGc, ApplyFile, Put;
    GcSparesPages(s.db, op);
  }

  /** Every other step leaves pages and versions untouched. */
  lemma OtherPages(s: State, op: Op)
    requires !op.OpPut?
    requires op.OpNewObject? ==> NewObject(s.db, op.o, op.c).None?
    requires op.OpDeleteObject? ==> DeleteObject(s.db, op.o).None?
    requires op.OpDeleteContainer? ==> DeleteContainer(s.db, op.c).None?
    ensures SparesPages(s, Apply(s, op))
  {
    hide NewObject, DeleteObject, DeleteContainer, SparesPages;
    if IsPageOp(op) {
      hide Apply;
      PageStepSpares(s, op);
    } else if IsAttachmentOp(op) {
      hide Apply;
      AttachmentStepSpares(s, op);
    } else if IsGcOp(op) {
      hide Apply;
      GcStepSpares(s, op);
    } else {
      hide Apply;
      FileStepSpares(s, op);
    }
  }

  lemma FileStepSpares(s: State, op: Op)
    requires !IsDbOp(op)
    ensures SparesPages(s, Apply(s, op))
  {
    hide ApplyPage, ApplyAttachment, ApplyGc, ApplyFile, Put;
    FilesSparePages(s, op);
  }

  lemma {:induction false} RunKeepsInv(ss: seq<State>, ops: seq<Op>, i: nat)
    requires Run(ss, ops) && i < |ss|
    ensures SaveInv(ss[i].db)
  {
    hide Apply, SaveInv;
    if i == 0 {
      StartInv(ss[0]);
    } else {
      RunKeepsInv(ss, ops, i - 1);
      assert ss[i - 1 + 1] == Apply(ss[i - 1], ops[i - 1]);
      StepKeepsInv(ss[i - 1], ops[i - 1]);
    }
  }

  lemma StartInv(s: State)
    requires Start(s)
    ensures SaveInv(s.db)
  {
  }

  /** In every reachable state a page's stored versions are exactly 1 to its current one, each based on
      the one before; a deleted page has none. */
  lemma VersionsHaveNoGaps(ss: seq<State>, ops: seq<Op>, i: nat, o: ObjectId, v: nat)
    requires Run(ss, ops) && i < |ss| && o in ss[i].db.objects
    ensures VersionKey(o, v) in ss[i].db.versions <==>
      !ss[i].db.objects[o].deleted && 1 <= v <= ss[i].db.objects[o].current
    ensures VersionKey(o, v) in ss[i].db.versions ==> ss[i].db.versions[VersionKey(o, v)].base == v - 1
  {
    hide Apply;
    RunKeepsInv(ss, ops, i);
    var s := ss[i].db;
    assert HistoryComplete(s, o);
    if VersionKey(o, v) in s.versions {
      assert VersionNumbered(s, VersionKey(o, v));
    }
  }

  /** An accepted save adds exactly one row, a new version or a new conflict, holding its bytes; any
      other outcome adds nothing. */
  lemma SaveAddsExactlyOne(s: Db, files: set<Digest>, g: Guards, o: ObjectId, base: int, d: Digest,
      key: Option<SaveKey>, f: ConflictId, now: nat)
    requires SaveInv(s)
    ensures var (s', r) := Put(s, files, g, o, base, d, key, f, now);
      match r
      case Done(Saved(page, v)) =>
        page == o && s'.conflicts == s.conflicts && VersionKey(o, v) !in s.versions && d in s'.blobs && d in files &&
        s'.versions.Keys == s.versions.Keys + {VersionKey(o, v)} && s'.versions[VersionKey(o, v)].digest == d &&
        (forall k <- s.versions :: s'.versions[k] == s.versions[k]) && s'.objects[o].current == v == base + 1
      case Done(Refused(conflict, current)) =>
        conflict == f && s'.versions == s.versions && s'.objects == s.objects && f !in s.conflicts && d in s'.blobs &&
          d in files &&
        s'.conflicts.Keys == s.conflicts.Keys + {f} && s'.conflicts[f].digest == d && s'.conflicts[f].page == o &&
          !s'.conflicts[f].resolved &&
        (forall k <- s.conflicts :: s'.conflicts[k] == s.conflicts[k]) && current == s.objects[o].current != base
      case Replayed(answer) => s' == s && g.admitted && key.Some? && key.value in s.keys &&
        s.keys[key.value].answer == answer
      case Denied => s' == s && !g.admitted
      case NotSaved => s' == s
  {
    hide SaveInv;
    hide Kept, Bumped, NextSeq, VersionNumbered, HistoryComplete;
    if PutAdmitted(s, files, g, o, base, d, key, f) && base == s.objects[o].current {
      NextVersionIsFree(s, o);
    }
  }

  lemma NextVersionIsFree(s: Db, o: ObjectId)
    requires SaveInv(s) && o in s.objects
    ensures VersionKey(o, s.objects[o].current + 1) !in s.versions
  {
    forall k | k in s.versions ensures k != VersionKey(o, s.objects[o].current + 1) {
      assert VersionNumbered(s, k);
    }
  }

  /** No step between i and j prunes the key. */
  ghost predicate Retained(ss: seq<State>, ops: seq<Op>, k: SaveKey, i: nat, j: nat)
    requires |ss| == |ops| + 1 && j <= |ops|
  {
    forall x :: i <= x < j ==> k in ss[x].db.keys && !(ops[x].OpPruneKeys? && ss[x].db.keys[k].created < ops[x].cut)
  }

  lemma PutKeepsKey(s: Db, files: set<Digest>, op: Op, k: SaveKey)
    requires op.OpPut? && k in s.keys
    ensures k in ApplyDb(s, files, op).keys && ApplyDb(s, files, op).keys[k] == s.keys[k]
  {
    hide Bumped, NextSeq, Claimed, ApplyPage, ApplyAttachment, ApplyGc;
  }

  lemma GcKeepsKey(s: Db, files: set<Digest>, op: Op, k: SaveKey)
    requires IsGcOp(op) && k in s.keys && !(op.OpPruneKeys? && s.keys[k].created < op.cut)
    ensures k in ApplyDb(s, files, op).keys && ApplyDb(s, files, op).keys[k] == s.keys[k]
  {
    hide Referenced, Stranded, ApplyPage, ApplyAttachment, Put;
  }

  lemma FileKeepsKeys(s: State, op: Op)
    requires !IsDbOp(op)
    ensures ApplyFile(s, op).db.keys == s.db.keys
  {
    hide Due, AttachmentsUnswept, ConflictsUnswept;
  }

  lemma StepKeepsKey(s: State, op: Op, k: SaveKey)
    requires k in s.db.keys && !(op.OpPruneKeys? && s.db.keys[k].created < op.cut)
    ensures k in Apply(s, op).db.keys && Apply(s, op).db.keys[k] == s.db.keys[k]
  {
    hide ApplyDb, ApplyFile;
    if !IsDbOp(op) {
      FileKeepsKeys(s, op);
    } else if op.OpPut? {
      PutKeepsKey(s.db, s.files, op, k);
    } else if IsGcOp(op) {
      GcKeepsKey(s.db, s.files, op, k);
    } else {
      ContentKeepsKeys(s.db, s.files, op);
    }
  }

  lemma PageKeepsKeys(s: Db, op: Op)
    requires IsPageOp(op) && ApplyPage(s, op).Some?
    ensures ApplyPage(s, op).value.keys == s.keys
  {
    hide AttachmentsWithout, Bumped, NextSeq;
  }

  lemma AttachmentKeepsKeys(s: Db, files: set<Digest>, op: Op)
    requires IsAttachmentOp(op) && ApplyAttachment(s, files, op).Some?
    ensures ApplyAttachment(s, files, op).value.keys == s.keys
  {
    hide HasBytes, SameBytes, InScope, ObjectInScope, Bumped, NextSeq, Claimed, KnownPreview;
  }

  lemma PageStepKeepsKeys(s: Db, files: set<Digest>, op: Op)
    requires IsPageOp(op)
    ensures ApplyDb(s, files, op).keys == s.keys
  {
    hide ApplyPage, ApplyAttachment, ApplyGc, Put;
    if ApplyPage(s, op).Some? {
      PageKeepsKeys(s, op);
    }
  }

  lemma AttachmentStepKeepsKeys(s: Db, files: set<Digest>, op: Op)
    requires IsAttachmentOp(op)
    ensures ApplyDb(s, files, op).keys == s.keys
  {
    hide ApplyPage, ApplyAttachment, ApplyGc, Put;
    if ApplyAttachment(s, files, op).Some? {
      AttachmentKeepsKeys(s, files, op);
    }
  }

  lemma ContentKeepsKeys(s: Db, files: set<Digest>, op: Op)
    requires IsPageOp(op) || IsAttachmentOp(op)
    ensures ApplyDb(s, files, op).keys == s.keys
  {
    hide ApplyDb;
    if IsPageOp(op) {
      PageStepKeepsKeys(s, files, op);
    } else {
      AttachmentStepKeepsKeys(s, files, op);
    }
  }

  lemma {:induction false} KeyStays(ss: seq<State>, ops: seq<Op>, k: SaveKey, i: nat, j: nat)
    requires Run(ss, ops) && i <= j <= |ops| && k in ss[i].db.keys && Retained(ss, ops, k, i, j)
    ensures k in ss[j].db.keys && ss[j].db.keys[k] == ss[i].db.keys[k]
    decreases j
  {
    hide Apply;
    if i < j {
      KeyStays(ss, ops, k, i, j - 1);
      assert ss[j - 1 + 1] == Apply(ss[j - 1], ops[j - 1]);
      StepKeepsKey(ss[j - 1], ops[j - 1], k);
    }
  }

  /** The result the transaction of a PUT op answers with. */
  function PutAnswer(s: State, op: Op): PutResult
    requires op.OpPut?
  {
    if s.work.Some? then NotSaved else Put(s.db, s.files, op.g, op.o, op.base, op.d, op.key, op.f, op.now).1
  }

  /** What the handler answers before it reads the body, if it does: page, role and gate come before the key. */
  function EarlyAnswer(s: Db, admitted: bool, o: ObjectId, key: Option<SaveKey>): Option<PutResult> {
    if !LiveObject(s, o) then Some(NotSaved)
    else if !admitted then Some(Denied)
    else if key.Some? && key.value in s.keys then Some(Replayed(s.keys[key.value].answer))
    else None
  }

  /** A retry that arrives while its key is retained never reads its body, and returns the original's version or
      conflict exactly when the page is live and the caller still admitted; otherwise it is refused. */
  lemma RetryReturnsOriginal(ss: seq<State>, ops: seq<Op>, i: nat, j: nat, answer: Answer, admitted: bool)
    requires Run(ss, ops) && i < j <= |ops| && ops[i].OpPut? && ops[i].key.Some? &&
      PutAnswer(ss[i], ops[i]) == Done(answer)
    requires Retained(ss, ops, ops[i].key.value, i + 1, j)
    ensures var early := EarlyAnswer(ss[j].db, admitted, ops[i].o, ops[i].key);
      && (early == Some(Replayed(answer)) <==> LiveObject(ss[j].db, ops[i].o) && admitted)
      && early.Some? &&
        (early.value.Replayed? || early.value == if LiveObject(ss[j].db, ops[i].o) then Denied else NotSaved)
  {
    hide Apply, PutAdmitted, LiveObject;
    PutRemembers(ss[i], ops[i], answer);
    assert ss[i + 1] == Apply(ss[i], ops[i]);
    KeyStays(ss, ops, ops[i].key.value, i + 1, j);
  }

  /** A twin whose body was streaming when the original committed changes nothing either: its transaction returns
      the original's answer exactly when the gate still admits it, though the page be gone by then. */
  lemma TwinReturnsOriginal(ss: seq<State>, ops: seq<Op>, i: nat, j: nat, answer: Answer)
    requires Run(ss, ops) && i < j < |ops| && ops[i].OpPut? && ops[j].OpPut? && ops[i].key.Some? &&
      ops[j].key == ops[i].key
    requires PutAnswer(ss[i], ops[i]) == Done(answer) && ss[j].work.None?
    requires Retained(ss, ops, ops[i].key.value, i + 1, j)
    ensures PutAnswer(ss[j], ops[j]) == if ops[j].g.admitted then Replayed(answer) else Denied
    ensures ss[j + 1] == ss[j]
  {
    hide Apply, PutAdmitted;
    PutRemembers(ss[i], ops[i], answer);
    assert ss[i + 1] == Apply(ss[i], ops[i]);
    KeyStays(ss, ops, ops[i].key.value, i + 1, j);
    assert ss[j + 1] == Apply(ss[j], ops[j]);
    ReplayChangesNothing(ss[j], ops[j]);
  }

  /** A page is made, saved under key 0 and deleted. */
  ghost function Saving(i: nat): State {
    if i == 0 then State(EMPTY, {}, None)
    else if i == 1 then State(EMPTY.(containers := map[0 := Container(None, 1, false)]), {}, None)
    else
      var page := EMPTY.(containers := map[0 := Container(None, i - if i < 3 then 0 else 1, false)]);
      if i < 4 then State(page.(objects := map[0 := Object(0, 0, 2, false)]), if i < 3 then {} else {7}, None)
      else
        var saved := page.(blobs := map[7 := Blob(None)], keys := map[0 := KeyRow(Saved(0, 1), 0)]);
        if i == 4
        then State(saved.(objects := map[0 := Object(0, 1, 3, false)],
          versions := map[VersionKey(0, 1) := Version(7, 0, 3)]),
          {7}, None)
        else State(saved.(objects := map[0 := Object(0, 1, 4, true)]), {7}, None)
  }

  const SAVING := [OpNewContainer(0, None), OpNewObject(0, 0), OpPublish(7),
    OpPut(Guards(true, true), 0, 0, 7, Some(0), 0, 0), OpDeleteObject(0)]

  lemma SavingBefore(i: nat)
    requires i < 3
    ensures Apply(Saving(i), SAVING[i]) == Saving(i + 1)
  {
    hide Put, DeleteObject, Attach, DeleteContainer, ApplyGc, ApplyAttachment;
  }

  lemma SavingSaved()
    ensures Apply(Saving(3), SAVING[3]) == Saving(4)
  {
    hide ApplyFile, ApplyPage, ApplyGc, ApplyAttachment;
  }

  lemma SavingDeleted()
    ensures Apply(Saving(4), SAVING[4]) == Saving(5)
  {
    hide ApplyFile, ApplyGc, ApplyAttachment, Put;
  }

  /** A retry can be refused under a retained key: the page was deleted after the save it repeats. */
  lemma RetainedKeyRefused() returns (ss: seq<State>, ops: seq<Op>)
    ensures Run(ss, ops) && |ops| == 5 && ops[3].OpPut? && ops[3].key == Some(0)
    ensures PutAnswer(ss[3], ops[3]) == Done(Saved(0, 1)) && 0 in ss[5].db.keys
    ensures EarlyAnswer(ss[5].db, true, ops[3].o, ops[3].key) == Some(NotSaved)
  {
    ops, ss := SAVING, seq(6, i requires 0 <= i < 6 => Saving(i));
    assert PutAnswer(Saving(3), SAVING[3]) == Done(Saved(0, 1));
    assert EarlyAnswer(Saving(5).db, true, 0, Some(0)) == Some(NotSaved);
    hide Apply, PutAnswer, EarlyAnswer;
    forall i: nat | i < 5 ensures Apply(ss[i], SAVING[i]) == ss[i + 1] {
      if i < 3 {
        SavingBefore(i);
      } else if i == 3 {
        SavingSaved();
      } else {
        SavingDeleted();
      }
    }
  }

  lemma PutRemembers(s: State, op: Op, answer: Answer)
    requires op.OpPut? && op.key.Some? && PutAnswer(s, op) == Done(answer)
    ensures op.key.value in Apply(s, op).db.keys && Apply(s, op).db.keys[op.key.value].answer == answer
  {
  }

  lemma ReplayChangesNothing(s: State, op: Op)
    requires op.OpPut? && op.key.Some? && op.key.value in s.db.keys && s.work.None?
    ensures Apply(s, op) == s && PutAnswer(s, op) == if op.g.admitted then Replayed(s.db.keys[op.key.value].answer)
      else Denied
  {
  }
}
