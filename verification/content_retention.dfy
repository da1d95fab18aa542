/** Nothing stored goes before its time: what a collection takes, over any run on one clock. */
module ContentRetention {
  import opened Outcome
  import opened ContentModel
  import opened ContentBlobs
  import opened ContentTables

  /** Step x of the run commits a row or a preview of digest d. */
  ghost predicate ClaimedAt(ss: seq<State>, ops: seq<Op>, x: nat, d: Digest)
    requires |ss| == |ops| + 1 && x < |ops|
  {
    Claims(ops[x], d) && ss[x].work.None? && Commits(ss[x].db, ss[x].files, ops[x])
  }

  /** A run on a clock that never runs back: digests are marked with its reading, and a sweep takes what was marked
      more than the retention before. */
  ghost predicate TimedRun(ss: seq<State>, ops: seq<Op>, clock: seq<nat>, retention: nat) {
    && Run(ss, ops) && |clock| == |ops| && (forall i, j :: 0 <= i <= j < |clock| ==> clock[i] <= clock[j])
    && (forall i :: 0 <= i < |ops| && ops[i].OpMark? ==> ops[i].now == clock[i])
    && (forall i :: 0 <= i < |ops| && ops[i].OpBeginSweep? ==> ops[i].cut == clock[i] - retention)
  }

  predicate MarkedAs(s: Db, d: Digest, t: nat) {
    d in s.blobs && s.blobs[d].mark == Some(t)
  }

  /** The step marks a recorded, unmarked, unused digest. */
  ghost predicate Marks(s: State, op: Op, d: Digest, t: nat) {
    op.OpMark? && op.now == t && s.work.None? && d in s.db.blobs && s.db.blobs[d].mark.None? && Unused(s.db, d)
  }

  /** A mark was there before the step, or the step set it on an unused digest; no claim leaves one. */
  lemma MarkStep(s: State, op: Op, d: Digest, t: nat)
    requires MarkedAs(Apply(s, op).db, d, t)
    ensures MarkedAs(s.db, d, t) || Marks(s, op, d, t)
    ensures !(IsDbOp(op) && Claims(op, d) && s.work.None? && Commits(s.db, s.files, op))
  {
    hide ApplyDb, ApplyFile, Commits, Unused, PagesFollow, NotesFollow, AttachmentsFollow;
    if !IsDbOp(op) {
      FileStepFollows(s, op);
    } else if s.work.None? {
      StepAgrees(s.db, s.files, op);
      assert At(Apply(s, op).db.blobs, d) == Some(Blob(Some(t)));
    }
  }

  /** Where a mark comes from: a step that found the digest unused, since when nobody claimed it. */
  lemma {:induction false} MarkedSince(ss: seq<State>, ops: seq<Op>, j: nat, d: Digest, t: nat) returns (m: nat)
    requires Run(ss, ops) && j < |ss| && MarkedAs(ss[j].db, d, t)
    ensures m < j && Marks(ss[m], ops[m], d, t)
    ensures forall x :: m < x <= j ==> MarkedAs(ss[x].db, d, t)
    ensures forall x :: m <= x < j ==> !ClaimedAt(ss, ops, x, d)
  {
    hide Apply, Commits, Unused;
    m := j - 1;
    assert ss[m + 1] == Apply(ss[m], ops[m]);
    MarkStep(ss[m], ops[m], d, t);
    if MarkedAs(ss[m].db, d, t) {
      m := MarkedSince(ss, ops, j - 1, d, t);
    }
  }

  /** Where a sweep under way comes from: its digest was ripe then, and no table has changed since. */
  lemma {:induction false} SweptSince(ss: seq<State>, ops: seq<Op>, j: nat) returns (b: nat)
    requires Run(ss, ops) && j < |ss| && ss[j].work.Some? && ss[j].work.value.Sweep?
    ensures b < j && ops[b].OpBeginSweep? && ops[b].d == ss[j].work.value.digest && ss[j].db == ss[b].db
    ensures Ripe(ss[b].db, ops[b].d, ops[b].cut)
    ensures forall x :: b < x <= j ==> ss[x].db == ss[b].db
  {
    hide ApplyDb, ApplyFile, Ripe, SweptOf;
    b := j - 1;
    assert ss[b + 1] == Apply(ss[b], ops[b]);
    if !IsDbOp(ops[b]) {
      FileStepFollows(ss[b], ops[b]);
    }
    if ss[b].work.Some? {
      b := SweptSince(ss, ops, j - 1);
    }
  }

  /** The step takes recorded digest d's row or its file. */
  ghost predicate Takes(s: State, s': State, d: Digest) {
    d in s.db.blobs && (d !in s'.db.blobs || (d in s.files && d !in s'.files))
  }

  lemma TablesKeepRecords(s: Db, files: set<Digest>, op: Op, d: Digest)
    requires IsDbOp(op) && d in s.blobs
    ensures d in ApplyDb(s, files, op).blobs
  {
    hide ApplyDb, Commits, Unused, PagesFollow, NotesFollow, AttachmentsFollow;
    StepAgrees(s, files, op);
    assert BlobAfter(s, op, d).Some?;
  }

  /** Only a sweep of that very digest does. */
  lemma TakenBySweep(s: State, op: Op, d: Digest)
    requires BlobInv(s) && Takes(s, Apply(s, op), d)
    ensures s.work.Some? && s.work.value == Sweep(d, s.work.value.removed)
    ensures op.OpRemoveFile? || op.OpCommitSweep?
  {
    hide ApplyDb, ApplyFile, Commits, Unused, RowsOk, Referenced, PagesFollow, NotesFollow, AttachmentsFollow;
    if !IsDbOp(op) {
      FileStepFollows(s, op);
    } else if s.work.None? {
      TablesKeepRecords(s.db, s.files, op, d);
    }
  }

  /**
   * No recorded digest loses its row or its file sooner than the retention after it was found unused and marked.
   * The mark stood from then until the sweep, the digest was unused at both ends, and whoever claimed those bytes
   * had done so more than the retention before.
   */
  lemma NothingGoesEarly(ss: seq<State>, ops: seq<Op>, clock: seq<nat>, retention: nat, i: nat, d: Digest)
      returns (m: nat, b: nat)
    requires TimedRun(ss, ops, clock, retention) && i < |ops| && Takes(ss[i], ss[i + 1], d)
    ensures m < b < i && Marks(ss[m], ops[m], d, clock[m]) && clock[m] + retention < clock[b] <= clock[i]
    ensures ops[b].OpBeginSweep? && ops[b].d == d && Unused(ss[b].db, d)
    ensures forall x :: m < x <= i ==> MarkedAs(ss[x].db, d, clock[m])
    ensures forall x :: 0 <= x < i && ClaimedAt(ss, ops, x, d) ==> clock[x] + retention < clock[i]
  {
    hide Apply, BlobInv, Unused, Commits;
    assert ss[i + 1] == Apply(ss[i], ops[i]);
    RunKeepsInv(ss, ops, i);
    TakenBySweep(ss[i], ops[i], d);
    b := SweptSince(ss, ops, i);
    var t := ss[b].db.blobs[d].mark.value;
    assert ss[i].db == ss[b].db;
    m := MarkedSince(ss, ops, i, d, t);
  }
}
