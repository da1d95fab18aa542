/**
 * One chunked upload: a file that grows and the counters that say how much of it counts. A chunk's
 * handler holds the session's lock, but between its file write and its counter update anything else
 * may happen: a crash, an abort, an expiry, a finalize (which takes no lock).
 */
module Upload {
  import opened Outcome
  import opened Utf

  type Bytes = seq<Byte>

  datatype Status = Pending | Finalized | Failed | Expired

  /** A chunk handler past its checks: opened the file, then cut it back, then wrote. */
  datatype Patch = Opened(body: Bytes, received: nat) | CutBack(body: Bytes, received: nat) |
    Wrote(body: Bytes, received: nat)

  /** The session row, the temporary file if it exists, the chunk handler holding the lock, whether the
      file was ever made, the finalizes under way, and what was published under which digest's content. */
  datatype State = State(
    declared: nat, chunk: nat, received: nat, next: nat, status: Status,
    file: Option<Bytes>, made: bool, patch: Option<Patch>,
    checked: bool, hashed: set<Bytes>, published: set<Publication>)

  datatype Publication = Publication(digestOf: Bytes, content: Bytes)

  function Created(declared: nat, chunk: nat): State {
    State(declared, chunk, 0, 0, Pending, None, false, None, false, {}, {})
  }

  // ---- Steps --------------------------------------------------------------------------------------

  /** NewTemp, once, after the row is inserted. */
  function MakeFile(s: State): Option<State> {
    if s.made then None else Some(s.(file := Some([]), made := true))
  }

  predicate FitsNext(s: State, body: Bytes) {
    0 < |body| <= s.chunk && s.received + |body| <= s.declared &&
      (s.received + |body| < s.declared ==> |body| == s.chunk)
  }

  datatype PatchReply = Accepted | Repeated | UnexpectedChunk | Gone | TooLarge | Broken | Waiting

  /** The bytes a repeat of the last chunk must equal. */
  function LastChunk(s: State): Option<Bytes>
    requires s.next > 0
  {
    var at := (s.next - 1) * s.chunk;
    var expected := if s.declared - at > s.chunk then s.chunk else s.declared - at;
    if s.file.None? || expected < 0 || at < 0 || at + expected > |s.file.value| then None
      else Some(s.file.value[at..at + expected])
  }

  /** The chunk handler up to opening the file, under the lock: its reply, and None while it goes on. While
      another handler holds the lock it waits and does nothing. */
  function Begin(s: State, idx: nat, body: Bytes, live: bool): (State, Option<PatchReply>) {
    if s.patch.Some? then (s, Some(Waiting))
    else if |body| > s.chunk then (s, Some(TooLarge))
    else if !(live && s.status.Pending?) then (s, Some(Gone))
    else if idx < s.next then
      if idx != s.next - 1 then (s, Some(UnexpectedChunk))
      else if s.file.None? then (s, Some(Broken))
      else if LastChunk(s) == Some(body) then (s, Some(Repeated))
      else (s, Some(UnexpectedChunk))
    else if idx != s.next then (s, Some(UnexpectedChunk))
    else if !FitsNext(s, body) then (s.(status := Failed, file := None), Some(TooLarge))
    else if s.file.None? then (s, Some(Broken))
    else (s.(patch := Some(Opened(body, s.received))), None)
  }

  /** Drop what a chunk whose counter update never committed left behind. A file unlinked meanwhile is
      written through its handle, to no effect on the path. */
  function CutBackStep(s: State): Option<State> {
    if !(s.patch.Some? && s.patch.value.Opened?) then None
    else
      var p := s.patch.value;
      if s.file.None? then Some(s.(patch := Some(CutBack(p.body, p.received))))
      else if |s.file.value| < p.received then Some(s.(patch := None))
      else Some(s.(file := Some(s.file.value[..p.received]), patch := Some(CutBack(p.body, p.received))))
  }

  function WriteStep(s: State): Option<State> {
    if !(s.patch.Some? && s.patch.value.CutBack?) then None
    else
      var p := s.patch.value;
      var written := if s.file.Some? then Some(s.file.value + p.body) else None;
      Some(s.(file := written, patch := Some(Wrote(p.body, p.received))))
  }

  /** UPDATE received_bytes=received_bytes+n, next_chunk=next_chunk+1, whatever the status by now. */
  function CountStep(s: State): Option<State> {
    if !(s.patch.Some? && s.patch.value.Wrote?) then None
    else Some(s.(received := s.received + |s.patch.value.body|, next := s.next + 1, patch := None))
  }

  /** A crash, or an I/O error: whatever prefix of a write had reached the file stays in it. */
  function Crash(s: State, n: nat): State {
    if s.patch.Some? && s.patch.value.CutBack? && s.file.Some? && n <= |s.patch.value.body| then
      s.(file := Some(s.file.value + s.patch.value.body[..n]), patch := None, checked := false, hashed := {})
    else s.(patch := None, checked := false, hashed := {})
  }

  /** Abort, expiry and every failure unlink the file and set the status in separate steps. */
  function Unlink(s: State): State {
    s.(file := None)
  }

  function SetStatus(s: State, status: Status): State {
    s.(status := status)
  }

  /** finalize's checks on the row, then its reading of the file, then its rename. */
  function CheckStep(s: State, live: bool): Option<State> {
    if !(live && s.status.Pending? && s.received == s.declared) then None else Some(s.(checked := true))
  }

  function HashStep(s: State): Option<State> {
    if !s.checked || s.file.None? then None
    else if |s.file.value| != s.declared then Some(s.(status := Failed))
    else Some(s.(hashed := s.hashed + {s.file.value}))
  }

  function RenameStep(s: State, content: Bytes): Option<State> {
    if content !in s.hashed || s.file.None? then None
    else Some(s.(file := None, published := s.published + {Publication(content, s.file.value)}))
  }

  datatype Op =
    | OpMake
    | OpBegin(idx: nat, body: Bytes, live: bool)
    | OpCutBack
    | OpWrite
    | OpCount
    | OpCrash(n: nat)
    | OpUnlink
    | OpStatus(status: Status)
    | OpCheck(live: bool)
    | OpHash
    | OpRename(content: Bytes)

  function Apply(s: State, op: Op): State {
    var r := match op
      case OpMake => MakeFile(s)
      case OpBegin(idx, body, live) => Some(Begin(s, idx, body, live).0)
      case OpCutBack => CutBackStep(s)
      case OpWrite => WriteStep(s)
      case OpCount => CountStep(s)
      case OpCrash(n) => Some(Crash(s, n))
      case OpUnlink => Some(Unlink(s))
      case OpStatus(status) => Some(SetStatus(s, status))
      case OpCheck(live) => CheckStep(s, live)
      case OpHash => HashStep(s)
      case OpRename(content) => RenameStep(s, content);
    if r.Some? then r.value else s
  }

  // ---- Runs and the chunks accepted ------------------------------------------------------------------

  function Concat(chunks: seq<Bytes>): Bytes {
    if chunks == [] then [] else Concat(chunks[..|chunks| - 1]) + chunks[|chunks| - 1]
  }

  /** The state and the chunks whose counter updates committed, in order. */
  datatype World = World(s: State, accepted: seq<Bytes>)

  ghost predicate Start(w: World) {
    w.s == Created(w.s.declared, w.s.chunk) && w.s.chunk > 0 && w.accepted == []
  }

  ghost predicate Step(w: World, op: Op, w': World) {
    w'.s == Apply(w.s, op) &&
    w'.accepted == if op.OpCount? && CountStep(w.s).Some? then w.accepted + [w.s.patch.value.body] else w.accepted
  }

  ghost predicate Run(ws: seq<World>, ops: seq<Op>) {
    |ws| == |ops| + 1 && Start(ws[0]) && forall i :: 0 <= i < |ops| ==> Step(ws[i], ops[i], ws[i + 1])
  }

  /** received == min(next * chunk, declared) */
  ghost predicate Counted(s: State) {
    s.received <= s.declared && s.received <= s.next * s.chunk &&
      (s.received < s.declared ==> s.received == s.next * s.chunk)
  }

  /** The file starts with the accepted chunks, and is nothing more once all have come. */
  ghost predicate FileOk(w: World) {
    w.s.file.Some? ==>
      var f, done := w.s.file.value, Concat(w.accepted);
      done <= f && (w.s.received == w.s.declared ==> f == done)
  }

  ghost predicate PatchOk(w: World) {
    w.s.patch.Some? ==>
      var p, done := w.s.patch.value, Concat(w.accepted);
      && p.received == w.s.received && FitsNext(w.s, p.body)
      && (w.s.file.Some? && p.CutBack? ==> w.s.file.value == done)
      && (w.s.file.Some? && p.Wrote? ==> w.s.file.value == done + p.body)
  }

  ghost predicate FinalizeOk(w: World) {
    && (w.s.checked || w.s.hashed != {} ==> w.s.received == w.s.declared)
    && (forall f <- w.s.hashed :: f == Concat(w.accepted))
  }

  ghost predicate Inv(w: World) {
    && w.s.chunk > 0 && Counted(w.s) && |Concat(w.accepted)| == w.s.received && |w.accepted| == w.s.next
    && (!w.s.made ==> w.s.file.None? && w.s.patch.None? && w.accepted == [])
    && FileOk(w) && PatchOk(w) && FinalizeOk(w)
    && (forall p <- w.s.published :: p.digestOf == p.content == Concat(w.accepted) && w.s.received == w.s.declared)
  }

  lemma CountKeepsInv(w: World, w': World)
    requires Inv(w) && Step(w, OpCount, w') && CountStep(w.s).Some?
    ensures Inv(w')
  {
    var body := w.s.patch.value.body;
    assert (w.accepted + [body])[..|w.accepted|] == w.accepted;
    assert Concat(w'.accepted) == Concat(w.accepted) + body;
    assert (w.s.next + 1) * w.s.chunk == w.s.next * w.s.chunk + w.s.chunk;
  }

  lemma StepKeepsInv(w: World, op: Op, w': World)
    requires Inv(w) && Step(w, op, w')
    ensures Inv(w')
  {
    if op.OpCount? && CountStep(w.s).Some? {
      CountKeepsInv(w, w');
    } else {
      hide Concat, LastChunk, Counted;
    }
  }

  lemma {:induction false} RunKeepsInv(ws: seq<World>, ops: seq<Op>, i: nat)
    requires Run(ws, ops) && i < |ws|
    ensures Inv(ws[i])
  {
    hide Apply, Inv, CountStep;
    if i == 0 {
      StartInv(ws[0]);
    } else {
      RunKeepsInv(ws, ops, i - 1);
      assert Step(ws[i - 1], ops[i - 1], ws[i]);
      StepKeepsInv(ws[i - 1], ops[i - 1], ws[i]);
    }
  }

  lemma StartInv(w: World)
    requires Start(w)
    ensures Inv(w)
  {
  }

  /** Under any order of chunks, repeats, crashes, aborts and finalizes the file that exists starts with
      exactly the accepted chunks, and the counter is what that many chunks come to. */
  lemma AcceptedChunksAreTheFile(ws: seq<World>, ops: seq<Op>, i: nat)
    requires Run(ws, ops) && i < |ws|
    ensures var w := ws[i];
      w.s.next == |w.accepted| && w.s.received == |Concat(w.accepted)| &&
      w.s.received == (if w.s.next * w.s.chunk < w.s.declared then w.s.next * w.s.chunk else w.s.declared) &&
      (w.s.file.Some? ==> |w.s.file.value| >= w.s.received && w.s.file.value[..w.s.received] == Concat(w.accepted))
  {
    hide Apply;
    RunKeepsInv(ws, ops, i);
  }

  /** Whatever finalize publishes is the accepted chunks, all of them, under their own digest. */
  lemma PublishedIsTheUpload(ws: seq<World>, ops: seq<Op>, i: nat, p: Publication)
    requires Run(ws, ops) && i < |ws| && p in ws[i].s.published
    ensures p.digestOf == p.content == Concat(ws[i].accepted) && |p.content| == ws[i].s.declared
  {
    hide Apply;
    RunKeepsInv(ws, ops, i);
  }

  /** A chunk sent again after its answer was lost is recognized: it changes nothing and succeeds, exactly
      when it is the last chunk accepted, byte for byte. */
  lemma RepeatIsRecognized(ws: seq<World>, ops: seq<Op>, i: nat, idx: nat, body: Bytes)
    requires Run(ws, ops) && i < |ws| && ws[i].s.patch.None? && ws[i].s.status.Pending? && ws[i].s.file.Some? &&
      idx < ws[i].s.next && |body| <= ws[i].s.chunk
    ensures Begin(ws[i].s, idx, body, true).0 == ws[i].s && |ws[i].accepted| == ws[i].s.next
    ensures Begin(ws[i].s, idx, body, true).1 == Some(Repeated) <==>
      idx == ws[i].s.next - 1 && body == ws[i].accepted[idx]
  {
    hide Apply, FinalizeOk;
    RunKeepsInv(ws, ops, i);
    var w := ws[i];
    ChunkLengths(ws, ops, i);
    LastChunkIsLastAccepted(w);
  }

  /** Every accepted chunk but the last is full. */
  ghost predicate FullChunks(w: World) {
    forall k :: 0 <= k < |w.accepted| ==> |Concat(w.accepted[..k])| == k * w.s.chunk
  }

  lemma {:induction false} ChunkLengths(ws: seq<World>, ops: seq<Op>, i: nat)
    requires Run(ws, ops) && i < |ws|
    ensures FullChunks(ws[i])
  {
    hide Inv, Apply;
    if i > 0 {
      ChunkLengths(ws, ops, i - 1);
      RunKeepsInv(ws, ops, i - 1);
      assert Step(ws[i - 1], ops[i - 1], ws[i]);
      StepKeepsFull(ws[i - 1], ops[i - 1], ws[i]);
    }
  }

  lemma StepKeepsFull(w: World, op: Op, w': World)
    requires Inv(w) && Step(w, op, w') && FullChunks(w)
    ensures FullChunks(w')
  {
    hide Concat;
    assert w'.s.chunk == w.s.chunk;
    hide Apply;
    forall k | 0 <= k < |w'.accepted| ensures |Concat(w'.accepted[..k])| == k * w'.s.chunk {
      if k < |w.accepted| {
        assert w'.accepted[..k] == w.accepted[..k];
      } else {
        assert w'.accepted[..k] == w.accepted;
      }
    }
  }

  lemma LastChunkIsLastAccepted(w: World)
    requires Inv(w) && FullChunks(w) && w.s.file.Some? && w.s.next > 0
    ensures LastChunk(w.s) == Some(w.accepted[w.s.next - 1])
  {
    var n := w.s.next - 1;
    var last := w.accepted[n];
    assert |Concat(w.accepted[..n])| == n * w.s.chunk;
    assert Concat(w.accepted) == Concat(w.accepted[..n]) + last;
    assert (n + 1) * w.s.chunk == n * w.s.chunk + w.s.chunk;
    hide Concat, PatchOk, FinalizeOk;
    assert w.s.file.value[..w.s.received] == Concat(w.accepted);
    assert w.s.file.value[n * w.s.chunk..w.s.received] == last;
  }

  /** The chunk handler undisturbed: its steps one after another. */
  function PatchAlone(s: State, idx: nat, body: Bytes, live: bool): (State, PatchReply) {
    var (begun, reply) := Begin(s, idx, body, live);
    if reply.Some? then (begun, reply.value)
    else
      var cut := CutBackStep(begun);
      if cut.None? || cut.value.patch.None? then (begun.(patch := None), Broken)
      else (Apply(Apply(cut.value, OpWrite), OpCount), Accepted)
  }

  // ---- What is accepted, and that an upload carried through succeeds ------------------------------------

  function Min(a: int, b: int): int {
    if a < b then a else b
  }

  /** The handler goes on with a chunk exactly when it is the next one of a live pending upload whose file is there and
      it is as long as it must be: a full chunk, or all that is missing. A next chunk of any other length ends the
      upload. */
  lemma NextChunkIff(s: State, idx: nat, body: Bytes, live: bool)
    requires s.patch.None?
    ensures var goes := live && s.status.Pending? && idx == s.next && s.file.Some? && body != [] &&
        |body| == Min(s.chunk, s.declared - s.received);
      Begin(s, idx, body, live) == (s.(patch := Some(Opened(body, s.received))), None) <==> goes
    ensures var misfits := live && s.status.Pending? && idx == s.next && |body| <= s.chunk &&
        (body == [] || |body| != Min(s.chunk, s.declared - s.received));
      misfits ==> Begin(s, idx, body, live) == (s.(status := Failed, file := None), Some(TooLarge))
  {
    hide LastChunk;
  }

  /** The bytes k chunks of a content come to. */
  function Sent(content: Bytes, chunk: nat, k: nat): nat {
    if k * chunk < |content| then k * chunk else |content|
  }

  /** Chunk k of the content. */
  function ChunkOf(content: Bytes, chunk: nat, k: nat): Bytes {
    var at := Sent(content, chunk, k);
    content[at..at + Min(chunk, |content| - at)]
  }

  /** An idle upload of that content, as far as it has come; its file may hold more than was counted. */
  ghost predicate Underway(s: State, content: Bytes) {
    && s.patch.None? && s.status.Pending? && s.chunk > 0 && s.declared == |content|
    && s.received == Sent(content, s.chunk, s.next)
    && s.file.Some? && content[..s.received] <= s.file.value
  }

  /** The upload once k chunks have come. */
  function With(s: State, content: Bytes, k: nat): State {
    s.(file := Some(content[..Sent(content, s.chunk, k)]), received := Sent(content, s.chunk, k), next := k)
  }

  lemma SentNext(content: Bytes, chunk: nat, k: nat)
    requires Sent(content, chunk, k) < |content|
    ensures Sent(content, chunk, k + 1) == Sent(content, chunk, k) + Min(chunk, |content| - Sent(content, chunk, k))
  {
    assert (k + 1) * chunk == k * chunk + chunk;
  }

  /** The next chunk is accepted, and lands behind what was counted, whatever else the file held. */
  lemma ChunkIsAccepted(s: State, content: Bytes)
    requires Underway(s, content) && s.received < |content|
    ensures PatchAlone(s, s.next, ChunkOf(content, s.chunk, s.next), true) == (With(s, content, s.next + 1), Accepted)
  {
    var body, at := ChunkOf(content, s.chunk, s.next), s.received;
    NextChunkIff(s, s.next, body, true);
    SentNext(content, s.chunk, s.next);
    hide Begin, Sent;
    assert s.file.value[..at] == content[..at];
    assert content[..at] + body == content[..at + |body|];
  }

  /** Sends the chunks from the next on, one request each; None when one is refused. */
  function SendRest(s: State, content: Bytes): Option<State>
    requires s.chunk > 0
    decreases |content| - Sent(content, s.chunk, s.next)
  {
    if Sent(content, s.chunk, s.next) == |content| then Some(s)
    else
      var (after, reply) := PatchAlone(s, s.next, ChunkOf(content, s.chunk, s.next), true);
      SentNext(content, s.chunk, s.next);
      if reply.Accepted? && after.next == s.next + 1 && after.chunk == s.chunk then SendRest(after, content) else None
  }

  lemma {:induction false} RestIsAccepted(s: State, content: Bytes)
    requires Underway(s, content) && (s.received == |content| ==> s.file == Some(content))
    ensures var r := SendRest(s, content);
      r.Some? && r.value == s.(file := Some(content), received := |content|, next := r.value.next)
    decreases |content| - Sent(content, s.chunk, s.next)
  {
    if s.received < |content| {
      ChunkIsAccepted(s, content);
      SentNext(content, s.chunk, s.next);
      var after := With(s, content, s.next + 1);
      assert content[..|content|] == content;
      hide PatchAlone, ChunkOf;
      RestIsAccepted(after, content);
    }
  }

  /** After any run of accepted and refused chunks, crashes and retries that leaves the upload pending, idle and with
      its file, a client that goes on from the next chunk of the content it began with has it accepted whole. */
  lemma ResumeSucceeds(ws: seq<World>, ops: seq<Op>, i: nat, content: Bytes)
    requires Run(ws, ops) && i < |ws| && ws[i].s.patch.None? && ws[i].s.status.Pending? && ws[i].s.file.Some?
    requires |content| == ws[i].s.declared && Concat(ws[i].accepted) <= content
    ensures ws[i].s.chunk > 0
    ensures var r := SendRest(ws[i].s, content);
      r.Some? && r.value.file == Some(content) && r.value.received == r.value.declared && r.value.status.Pending?
  {
    hide Apply, PatchOk, FinalizeOk, SendRest;
    RunKeepsInv(ws, ops, i);
    var s, done := ws[i].s, Concat(ws[i].accepted);
    assert content[..s.received] == done;
    if s.received == |content| {
      assert done == content;
    }
    RestIsAccepted(s, content);
  }

  /** Any content, cut into chunks of any size and sent in order to a new upload, is accepted whole, and finalizing
      publishes exactly it. */
  lemma UploadSucceeds(content: Bytes, chunk: nat) returns (begun: State, sent: State, done: State)
    requires chunk > 0
    ensures MakeFile(Created(|content|, chunk)) == Some(begun) && begun.chunk == chunk
    ensures SendRest(begun, content) == Some(sent)
    ensures CheckStep(sent, true).Some? && HashStep(CheckStep(sent, true).value).Some?
    ensures RenameStep(HashStep(CheckStep(sent, true).value).value, content) == Some(done)
    ensures done.published == {Publication(content, content)} && done.file.None?
  {
    begun := MakeFile(Created(|content|, chunk)).value;
    assert content[..0] == [];
    RestIsAccepted(begun, content);
    hide SendRest;
    sent := SendRest(begun, content).value;
    done := RenameStep(HashStep(CheckStep(sent, true).value).value, content).value;
  }
}
