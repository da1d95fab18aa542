/**
 * The bridge over any number of refreshes and restarts: what it remembers in memory, what it has saved,
 * and the keys it is using. The two part when a refresh stops between changing memory and saving it.
 */
module Bridge {
  import opened Outcome
  import opened Keyring
  import C = KeyringComplete

  newtype ContainerId = n: int | 0 <= n

  datatype Trust = Trust(pins: map<UserId, Pin>, containers: map<ContainerId, KeyState>)

  /** One notebook's bridge: remembered, saved, and the keys in use with the generation they serve. */
  datatype State = State(
    memory: Trust, file: Trust, ring: map<int, Key>, keyGeneration: int, shared: int, migrated: bool)

  /** What the server reports for one refresh, as far as the calls got, and whether the saves worked. */
  datatype Report = Report(
    keyGeneration: int, shared: int, members: Option<seq<Member>>, rows: Option<seq<Row>>,
    pinned: seq<PublicKey>, hasName: bool, marked: bool, firstSave: bool, secondSave: bool)

  function KnownOf(t: Trust, id: ContainerId): KeyState {
    if id in t.containers then t.containers[id] else FRESH
  }

  /** raise: a report below what was seen is refused. */
  function Raised(k: KeyState, keyGeneration: int, shared: int): Result<KeyState, Error> {
    if shared < k.shared || keyGeneration < k.generation then Err(Rollback)
      else Ok(k.(shared := shared, generation := keyGeneration))
  }

  function ReadKey(ring: map<int, Key>, shared: int, generation: int): Option<Key> {
    if shared == 0 || generation < shared || generation !in ring then None else Some(ring[generation])
  }

  function Opened(t: Trust, id: ContainerId, r: Ring): Trust {
    t.(pins := t.pins + r.newPins,
      containers := t.containers[id := KnownOf(t, id).(mark := r.mark, digests := r.digests)])
  }

  /** A name read without the marker is refused once one with it was read; an unread name changes nothing. */
  function Marked(k: KeyState, r: Report, ring: map<int, Key>): Result<KeyState, Error> {
    if !r.hasName || ReadKey(ring, r.shared, r.keyGeneration).None? then Ok(k)
    else if r.marked then Ok(k.(objects := 2))
    else if k.objects == 2 then Err(OlderMeta)
    else Ok(k)
  }

  /** The second half of a refresh, from the memory the first half saved. */
  function Unlock(s: State, id: ContainerId, me: Self, open: Opener, r: Report): (State, Option<Error>) {
    if r.members.None? || r.rows.None? then (s, Some(Unavailable))
    else
      match OpenKeyring(r.rows.value, me, r.members.value, s.memory.pins, r.pinned, open, KnownOf(s.memory, id))
      case Err(e) => (s, Some(e))
      case Ok(ring) =>
        var memory := Opened(s.memory, id, ring);
        match Marked(KnownOf(memory, id), r, ring.ring)
        case Err(e) => (s.(memory := memory), Some(e))
        case Ok(known) =>
          var final := memory.(containers := memory.containers[id := known]);
          if !r.secondSave then (s.(memory := final), Some(Unavailable))
          else (s.(memory := final, file := final, ring := ring.ring, migrated := known.objects == 2), None)
  }

  function Refresh(s: State, id: ContainerId, me: Self, open: Opener, r: Report): (State, Option<Error>) {
    match Raised(KnownOf(s.memory, id), r.keyGeneration, r.shared)
    case Err(e) => (s.(memory := s.memory.(containers := s.memory.containers[id := KnownOf(s.memory, id)])), Some(e))
    case Ok(known) =>
      var memory := s.memory.(containers := s.memory.containers[id := known]);
      if !r.firstSave then (s.(memory := memory), Some(Unavailable))
      else Unlock(s.(memory := memory, file := memory, keyGeneration := r.keyGeneration, shared := r.shared), id, me,
        open, r)
  }

  /** A restart forgets everything but the file. */
  function Restart(s: State): State {
    State(s.file, s.file, map[], 0, 0, false)
  }

  /** A running process and the notebook it serves; the next one may serve another from the same file. */
  datatype Process = Process(id: ContainerId, s: State)

  datatype Op = OpRefresh(r: Report) | OpRestart(id: ContainerId)

  function Apply(p: Process, me: Self, open: Opener, op: Op): Process {
    match op
    case OpRefresh(r) => p.(s := Refresh(p.s, p.id, me, open, r).0)
    case OpRestart(id) => Process(id, Restart(p.s))
  }

  // ---- What only rises ----------------------------------------------------------------------------------

  ghost predicate StateRises(k: KeyState, k': KeyState) {
    && k.mark <= k'.mark && k.shared <= k'.shared && k.generation <= k'.generation &&
      (k.objects == 2 ==> k'.objects == 2)
    && (forall g <- k.digests :: g in k'.digests && k'.digests[g] == k.digests[g])
  }

  /** Pins are only added, floors and marks never fall, stored digests never change. */
  ghost predicate Rises(t: Trust, t': Trust) {
    && (forall u <- t.pins :: u in t'.pins && t'.pins[u] == t.pins[u])
    && (forall c <- t.containers :: c in t'.containers && StateRises(t.containers[c], t'.containers[c]))
  }

  lemma RisesIsTransitive(a: Trust, b: Trust, c: Trust)
    requires Rises(a, b) && Rises(b, c)
    ensures Rises(a, c)
  {
  }

  lemma RisesIsReflexive(t: Trust)
    ensures Rises(t, t)
  {
  }

  lemma OneContainerRises(t: Trust, t': Trust, id: ContainerId)
    requires id in t'.containers && t'.containers == t.containers[id := t'.containers[id]] &&
      StateRises(KnownOf(t, id), t'.containers[id])
    requires forall u <- t.pins :: u in t'.pins && t'.pins[u] == t.pins[u]
    ensures Rises(t, t')
  {
  }

  /** In use only if saved: each ring key's digest is in the file, at or below the saved mark. */
  ghost predicate RingSaved(s: State, id: ContainerId) {
    forall g <- s.ring ::
      id in s.file.containers && g in s.file.containers[id].digests &&
      s.file.containers[id].digests[g] == Digest(s.ring[g]) && g <= s.file.containers[id].mark
  }

  ghost predicate Inv(s: State, id: ContainerId) {
    Rises(s.file, s.memory) && RingSaved(s, id)
  }

  lemma RingSavedRises(s: State, s': State, id: ContainerId)
    requires RingSaved(s, id) && s'.ring == s.ring && Rises(s.file, s'.file)
    ensures RingSaved(s', id)
  {
  }

  /** What opening the keyring does to what is known. */
  lemma OpenedRises(t: Trust, id: ContainerId, me: Self, open: Opener, r: Report)
    requires r.members.Some? && r.rows.Some? && id in t.containers
    requires OpenKeyring(r.rows.value, me, r.members.value, t.pins, r.pinned, open, t.containers[id]).Ok?
    ensures var ring := OpenKeyring(r.rows.value, me, r.members.value, t.pins, r.pinned, open, t.containers[id]).value;
      RingOk(ring, t.containers[id]) &&
        (forall u <- t.pins ::
        u in Opened(t, id, ring).pins && (u !in ring.newPins ==> Opened(t, id, ring).pins[u] == t.pins[u]))
  {
    hide OpenKeyring, RingOk;
    KeyringKeepsRing(r.rows.value, me, r.members.value, t.pins, r.pinned, open, t.containers[id]);
  }

  lemma NewPinsAreNew(rows: seq<Row>, me: Self, members: seq<Member>, pins: map<UserId, Pin>, pinned: seq<PublicKey>,
      open: Opener, known: KeyState)
    requires OpenKeyring(rows, me, members, pins, pinned, open, known).Ok?
    ensures forall u <- OpenKeyring(rows, me, members, pins, pinned, open, known).value.newPins :: u !in pins
  {
    hide Scan, History, Vouched;
    ScanIsVouched(rows, me, members, pins, open, known);
    ScanKeepsRing(rows, me, members, pins, open, known);
    var scanned := Scan(rows, me, members, pins, open, known).value;
    HistoryKeepsRing(scanned, scanned.deferred, pinned, open, known);
  }

  lemma UnlockRises(s: State, id: ContainerId, me: Self, open: Opener, r: Report)
    requires s.memory == s.file && id in s.memory.containers && RingSaved(s, id)
    ensures var s' := Unlock(s, id, me, open, r).0; Rises(s.memory, s'.memory) && Rises(s.file, s'.file) && Inv(s', id)
  {
    hide OpenKeyring;
    RisesIsReflexive(s.memory);
    if r.members.Some? && r.rows.Some? {
      var known := s.memory.containers[id];
      var opened_ := OpenKeyring(r.rows.value, me, r.members.value, s.memory.pins, r.pinned, open, known);
      if opened_.Ok? {
        OpenedRises(s.memory, id, me, open, r);
        NewPinsAreNew(r.rows.value, me, r.members.value, s.memory.pins, r.pinned, open, known);
        var memory := Opened(s.memory, id, opened_.value);
        OneContainerRises(s.memory, memory, id);
        UnlockedRises(s, id, r, opened_.value, memory, Unlock(s, id, me, open, r).0);
      }
    }
  }

  /** From the opened keyring on: the marker decides, and the save makes the ring usable. */
  lemma UnlockedRises(s: State, id: ContainerId, r: Report, ring: Ring, memory: Trust, s': State)
    requires s.memory == s.file && id in s.memory.containers && RingSaved(s, id) && Rises(s.memory, memory) &&
      memory == Opened(s.memory, id, ring)
    requires RingOk(ring, s.memory.containers[id])
    requires s' == match Marked(KnownOf(memory, id), r, ring.ring)
                   case Err(e) => s.(memory := memory)
                   case Ok(known) =>
                     var final := memory.(containers := memory.containers[id := known]);
                     if !r.secondSave then s.(memory := final)
                       else s.(memory := final, file := final, ring := ring.ring, migrated := known.objects == 2)
    ensures Rises(s.memory, s'.memory) && Rises(s.file, s'.file) && Inv(s', id)
  {
    RisesIsReflexive(s.memory);
    var marked := Marked(KnownOf(memory, id), r, ring.ring);
    if marked.Ok? {
      var final := memory.(containers := memory.containers[id := marked.value]);
      OneContainerRises(memory, final, id);
      RisesIsReflexive(final);
      RisesIsTransitive(s.memory, memory, final);
      assert final.containers[id].digests == ring.digests && final.containers[id].mark == ring.mark;
      hide Rises, Marked;
    }
  }

  lemma RefreshRises(s: State, id: ContainerId, me: Self, open: Opener, r: Report)
    requires Inv(s, id)
    ensures var s' := Refresh(s, id, me, open, r).0; Rises(s.memory, s'.memory) && Rises(s.file, s'.file) && Inv(s', id)
  {
    hide Unlock, Rises;
    RisesIsReflexive(s.file);
    var raised := Raised(KnownOf(s.memory, id), r.keyGeneration, r.shared);
    var known := if raised.Ok? then raised.value else KnownOf(s.memory, id);
    var memory := s.memory.(containers := s.memory.containers[id := known]);
    OneContainerRises(s.memory, memory, id);
    RisesIsTransitive(s.file, s.memory, memory);
    RisesIsReflexive(memory);
    if raised.Ok? && r.firstSave {
      var begun := s.(memory := memory, file := memory, keyGeneration := r.keyGeneration, shared := r.shared);
      RingSavedRises(s, begun, id);
      UnlockRises(begun, id, me, open, r);
      var s' := Unlock(begun, id, me, open, r).0;
      RisesIsTransitive(s.memory, memory, s'.memory);
      RisesIsTransitive(s.file, memory, s'.file);
    } else {
      RingSavedRises(s, Refresh(s, id, me, open, r).0, id);
    }
  }

  /** What is known of the notebook when its keyring is opened. */
  function Floored(s: State, id: ContainerId, r: Report): KeyState {
    KnownOf(s.memory, id).(shared := r.shared, generation := r.keyGeneration)
  }

  /** The name can be read: the notebook is shared, and the ring has the key of its current generation. */
  predicate Readable(ring: map<int, Key>, r: Report) {
    0 != r.shared <= r.keyGeneration && r.keyGeneration in ring
  }

  /** An older name shown to a bridge that has seen the newer marker. */
  predicate Regresses(s: State, id: ContainerId, r: Report, ring: map<int, Key>) {
    r.hasName && !r.marked && Readable(ring, r) && KnownOf(s.memory, id).objects == 2
  }

  /**
   * A refresh succeeds exactly when nothing it is told lies below what it has seen, members and rows came, the
   * keyring opens, the name does not regress and both saves work. Then it uses exactly the ring it opened and has
   * saved exactly what it remembers: the reported floors, the ring's mark and digests, and the new pins. Otherwise
   * the keys in use stay as they were.
   */
  lemma RefreshOutcome(s: State, id: ContainerId, me: Self, open: Opener, r: Report)
    ensures var (s', failure) := Refresh(s, id, me, open, r); var k := KnownOf(s.memory, id);
      (failure == None <==>
        k.shared <= r.shared && k.generation <= r.keyGeneration && r.firstSave && r.secondSave && r.members.Some? &&
        r.rows.Some? &&
        var opened_ := OpenKeyring(r.rows.value, me, r.members.value, s.memory.pins, r.pinned, open,
          Floored(s, id, r));
        opened_.Ok? && !Regresses(s, id, r, opened_.value.ring)) &&
      (failure.Some? ==> s'.ring == s.ring && s'.migrated == s.migrated) &&
      (failure == None ==>
        var ring := OpenKeyring(r.rows.value, me, r.members.value, s.memory.pins, r.pinned, open,
          Floored(s, id, r)).value;
        var objects := if r.hasName && r.marked && Readable(ring.ring, r) then 2 else k.objects;
        var memory := Trust(s.memory.pins + ring.newPins,
          s.memory.containers[id := KeyState(ring.mark, r.shared, r.keyGeneration, ring.digests, objects)]);
        s' == State(memory, memory, ring.ring, r.keyGeneration, r.shared, objects == 2))
  {
    hide OpenKeyring;
    var known := Floored(s, id, r);
    var memory := s.memory.(containers := s.memory.containers[id := known]);
    assert KnownOf(memory, id) == known;
    if r.members.Some? && r.rows.Some? {
      var opened_ := OpenKeyring(r.rows.value, me, r.members.value, s.memory.pins, r.pinned, open, known);
      if opened_.Ok? {
        assert KnownOf(Opened(memory, id, opened_.value), id) ==
          known.(mark := opened_.value.mark, digests := opened_.value.digests);
      }
    }
  }

  // ---- Runs ---------------------------------------------------------------------------------------------

  /** Refreshes and restarts from any sound state. */
  ghost predicate Path(ps: seq<Process>, ops: seq<Op>, me: Self, open: Opener) {
    |ps| == |ops| + 1 && Inv(ps[0].s, ps[0].id) &&
      forall i :: 0 <= i < |ops| ==> ps[i + 1] == Apply(ps[i], me, open, ops[i])
  }

  /** From a process's start. */
  ghost predicate Run(ps: seq<Process>, ops: seq<Op>, me: Self, open: Opener) {
    |ps| == |ops| + 1 && ps[0].s == Restart(ps[0].s) &&
      forall i :: 0 <= i < |ops| ==> ps[i + 1] == Apply(ps[i], me, open, ops[i])
  }

  lemma RunIsPath(ps: seq<Process>, ops: seq<Op>, me: Self, open: Opener)
    requires Run(ps, ops, me, open)
    ensures Path(ps, ops, me, open)
  {
    hide Apply, Rises;
    RisesIsReflexive(ps[0].s.file);
  }

  /** One step keeps the invariant and what is saved, and within a process what is remembered. */
  lemma StepRises(p: Process, me: Self, open: Opener, op: Op)
    requires Inv(p.s, p.id)
    ensures var p' := Apply(p, me, open, op);
      && Inv(p'.s, p'.id) && Rises(p.s.file, p'.s.file) && (op.OpRefresh? ==> Rises(p.s.memory, p'.s.memory))
  {
    hide Refresh, Rises;
    RisesIsReflexive(p.s.file);
    if op.OpRefresh? {
      RefreshRises(p.s, p.id, me, open, op.r);
    }
  }

  lemma {:induction false} PathKeepsInv(ps: seq<Process>, ops: seq<Op>, me: Self, open: Opener, i: nat)
    requires Path(ps, ops, me, open) && i < |ps|
    ensures Inv(ps[i].s, ps[i].id)
  {
    hide Apply, Inv, Rises;
    if i > 0 {
      PathKeepsInv(ps, ops, me, open, i - 1);
      assert ps[i - 1 + 1] == Apply(ps[i - 1], me, open, ops[i - 1]);
      StepRises(ps[i - 1], me, open, ops[i - 1]);
    }
  }

  lemma {:induction false} SavedRises(ps: seq<Process>, ops: seq<Op>, me: Self, open: Opener, i: nat, j: nat)
    requires Path(ps, ops, me, open) && i <= j < |ps|
    ensures Rises(ps[i].s.file, ps[j].s.file)
    decreases j
  {
    hide Apply, Inv, Rises;
    RisesIsReflexive(ps[i].s.file);
    if i < j {
      SavedRises(ps, ops, me, open, i, j - 1);
      PathKeepsInv(ps, ops, me, open, j - 1);
      assert ps[j - 1 + 1] == Apply(ps[j - 1], me, open, ops[j - 1]);
      StepRises(ps[j - 1], me, open, ops[j - 1]);
      RisesIsTransitive(ps[i].s.file, ps[j - 1].s.file, ps[j].s.file);
    }
  }

  /** Across any sequence of refreshes and restarts, of one notebook or of several, whatever each refresh is served
      and wherever it stops, what is saved only rises: pins stay, floors and marks never fall, digests never change. */
  lemma SavedStateOnlyRises(ps: seq<Process>, ops: seq<Op>, me: Self, open: Opener, i: nat, j: nat)
    requires Run(ps, ops, me, open) && i <= j < |ps|
    ensures Rises(ps[i].s.file, ps[j].s.file)
  {
    hide Rises, Apply, Inv;
    RunIsPath(ps, ops, me, open);
    SavedRises(ps, ops, me, open, i, j);
  }

  lemma RunKeepsInv(ps: seq<Process>, ops: seq<Op>, me: Self, open: Opener, i: nat)
    requires Run(ps, ops, me, open) && i < |ps|
    ensures Inv(ps[i].s, ps[i].id)
  {
    hide Apply, Inv;
    RunIsPath(ps, ops, me, open);
    PathKeepsInv(ps, ops, me, open, i);
  }

  /** Within one process what is remembered only rises too. */
  lemma {:induction false} MemoryOnlyRises(ps: seq<Process>, ops: seq<Op>, me: Self, open: Opener, i: nat, j: nat)
    requires Run(ps, ops, me, open) && i <= j < |ps| && forall k :: i <= k < j ==> ops[k].OpRefresh?
    ensures Rises(ps[i].s.memory, ps[j].s.memory)
    decreases j
  {
    hide Apply, Inv, Rises;
    RisesIsReflexive(ps[i].s.memory);
    if i < j {
      MemoryOnlyRises(ps, ops, me, open, i, j - 1);
      RunKeepsInv(ps, ops, me, open, j - 1);
      assert ps[j - 1 + 1] == Apply(ps[j - 1], me, open, ops[j - 1]);
      StepRises(ps[j - 1], me, open, ops[j - 1]);
      RisesIsTransitive(ps[i].s.memory, ps[j - 1].s.memory, ps[j].s.memory);
    }
  }

  /** Nothing is used before it is saved, so the key used for a notebook's generation is the same whenever one is
      used, restarts and other notebooks between or not, and never above the mark. */
  lemma UsedKeysNeverChange(ps: seq<Process>, ops: seq<Op>, me: Self, open: Opener, i: nat, j: nat, g: int)
    requires Run(ps, ops, me, open) && i <= j < |ps| && ps[i].id == ps[j].id && g in ps[i].s.ring && g in ps[j].s.ring
    ensures ps[i].s.ring[g] == ps[j].s.ring[g]
    ensures ps[j].id in ps[j].s.file.containers && g <= ps[j].s.file.containers[ps[j].id].mark
  {
    hide Refresh;
    RunKeepsInv(ps, ops, me, open, i);
    RunKeepsInv(ps, ops, me, open, j);
    SavedStateOnlyRises(ps, ops, me, open, i, j);
  }

  // ---- Memory alone may be forgotten ----------------------------------------------------------------------

  /** One row of the bridge's own, for a generation it knows nothing of. */
  lemma OwnRowOpens(row: Row, me: Self, pins: map<UserId, Pin>, open: Opener, known: KeyState, key: Key)
    requires row.device == me.device && row.sender == Some(me.device) && row.generation !in known.digests &&
      Open(open, row, me.publicKey) == Some(key)
    ensures OpenKeyring([row], me, [], pins, [], open, known) ==
      Ok(Ring(map[row.generation := key], known.digests[row.generation := Digest(key)], Max(known.mark, row.generation),
        map[], []))
  {
    assert [row][..0] == [];
    assert Scan([row][..0], me, [], pins, open, known) == Ok(Ring(map[], known.digests, known.mark, map[], []));
    hide Open;
  }

  /** A row of the bridge's own that opens to key. */
  predicate OwnKey(row: Row, me: Self, open: Opener, key: Key) {
    row.device == me.device && row.sender == Some(me.device) && Open(open, row, me.publicKey) == Some(key)
  }

  /** The refresh that would forget: nothing new reported but that row. */
  ghost function Forgetting(t: Trust, id: ContainerId, row: Row): Report {
    Report(KnownOf(t, id).generation, KnownOf(t, id).shared, Some([]), Some([row]), [], false, false, true, true)
  }

  /** Whatever key an own row opens to, a process that starts without a saved digest may settle on it. */
  lemma UnsavedIsForgotten(s: State, id: ContainerId, me: Self, open: Opener, row: Row, key: Key)
    requires OwnKey(row, me, open, key) && row.generation !in KnownOf(s.file, id).digests
    ensures var s' := Refresh(Restart(s), id, me, open, Forgetting(s.file, id, row)).0;
      row.generation in KnownOf(s'.memory, id).digests && KnownOf(s'.memory, id).digests[row.generation] == Digest(key)
  {
    OwnRowOpens(row, me, s.file.pins, open, KnownOf(s.file, id), key);
    hide OpenKeyring, Open;
  }

  /** Some refreshes and restarts lead from p to q. */
  ghost predicate Reaches(p: Process, q: Process, me: Self, open: Opener) {
    exists ps, ops :: Path(ps, ops, me, open) && ps[0] == p && ps[|ops|] == q
  }

  /** Whatever follows, restarts included, the notebook's generation g is never known under any other digest. */
  ghost predicate Settled(p: Process, me: Self, open: Opener, g: int, digest: Digest) {
    forall q :: Reaches(p, q, me, open) && g in KnownOf(q.s.memory, p.id).digests ==>
      KnownOf(q.s.memory, p.id).digests[g] == digest
  }

  /**
   * A remembered digest is there to stay exactly when it is saved: whenever the bridge has an own row that opens
   * to another key for that generation, an unsaved one may be replaced after a restart, and a saved one never is.
   */
  lemma SettledIffSaved(p: Process, me: Self, open: Opener, row: Row, key: Key)
    requires Inv(p.s, p.id) && row.generation in KnownOf(p.s.memory, p.id).digests
    requires OwnKey(row, me, open, key) && KnownOf(p.s.memory, p.id).digests[row.generation] != Digest(key)
    ensures Settled(p, me, open, row.generation, KnownOf(p.s.memory, p.id).digests[row.generation]) <==>
      row.generation in KnownOf(p.s.file, p.id).digests
  {
    hide Refresh, Open;
    var id, g, digest := p.id, row.generation, KnownOf(p.s.memory, p.id).digests[row.generation];
    if g in KnownOf(p.s.file, id).digests {
      forall q | Reaches(p, q, me, open) && g in KnownOf(q.s.memory, id).digests
        ensures KnownOf(q.s.memory, id).digests[g] == digest
      {
        var ps, ops :| Path(ps, ops, me, open) && ps[0] == p && ps[|ops|] == q;
        PathKeepsInv(ps, ops, me, open, |ops|);
        SavedRises(ps, ops, me, open, 0, |ops|);
      }
    } else {
      UnsavedIsForgotten(p.s, id, me, open, row, key);
      var again, r := Process(id, Restart(p.s)), Forgetting(p.s.file, id, row);
      var ops := [OpRestart(id), OpRefresh(r)];
      var ps := [p, again, Apply(again, me, open, ops[1])];
      assert Path(ps, ops, me, open) && ps[|ops|] == ps[2];
      assert Reaches(p, ps[2], me, open);
    }
  }

  const ME := Self(0, 0, 0)

  function OpenAsNumbered(e: Envelope, generation: int, sender: PublicKey): Option<Key> {
    Some(e as int as Key)
  }

  /** A refresh in which the server shows one row of the bridge's own. */
  function Shows(generation: int, e: Envelope, marked: bool): Report {
    Report(generation, 1, Some([]), Some([Row(0, Some(0), e, generation)]), [], true, marked, true, true)
  }

  ghost function After(t: Trust, generation: int, e: Envelope): KeyState {
    KeyState(Max(KnownOf(t, 0).mark, generation), 1, generation,
      KnownOf(t, 0).digests[generation := Digest(e as int as Key)], 2)
  }

  lemma ShowsOneRow(s: State, generation: int, e: Envelope, marked: bool)
    requires 1 <= generation <= 0xFFFF_FFFF && KnownOf(s.memory, 0).generation <= generation &&
      KnownOf(s.memory, 0).shared <= 1
    requires generation !in KnownOf(s.memory, 0).digests && (marked || KnownOf(s.memory, 0).objects == 2)
    ensures var s' := Refresh(s, 0, ME, OpenAsNumbered, Shows(generation, e, marked)).0;
      s'.memory.containers == s.memory.containers[0 := After(s.memory, generation, e)] &&
        (marked ==> s'.file == s'.memory) &&
      (!marked ==>
        s'.file.containers == s.memory.containers[0 := KnownOf(s.memory, 0).(shared := 1, generation := generation)])
  {
    var r := Shows(generation, e, marked);
    var memory :=
      s.memory.(containers := s.memory.containers[0 := KnownOf(s.memory, 0).(shared := 1, generation := generation)]);
    OwnRowOpens(Row(0, Some(0), e, generation), ME, s.memory.pins, OpenAsNumbered, memory.containers[0],
      e as int as Key);
    hide OpenKeyring;
  }

  /**
   * Such states are reached: what a refresh remembered but refused to save, its marker check failing, does not
   * outlive the process, and a restart accepts another key for the same generation.
   */
  lemma UnsavedDigestMayChange() returns (ps: seq<Process>, ops: seq<Op>)
    ensures Run(ps, ops, ME, OpenAsNumbered) && |ops| == 4 && ops[2].OpRestart?
    ensures 0 in ps[2].s.memory.containers && 2 in ps[2].s.memory.containers[0].digests
    ensures 0 in ps[4].s.memory.containers && 2 in ps[4].s.memory.containers[0].digests
    ensures ps[2].s.memory.containers[0].digests[2] != ps[4].s.memory.containers[0].digests[2]
  {
    hide Refresh;
    var p0 := Process(0, State(Trust(map[], map[]), Trust(map[], map[]), map[], 0, 0, false));
    ops := [OpRefresh(Shows(1, 5, true)), OpRefresh(Shows(2, 7, false)), OpRestart(0), OpRefresh(Shows(2, 8, true))];
    var p1 := Apply(p0, ME, OpenAsNumbered, ops[0]);
    ShowsOneRow(p0.s, 1, 5, true);
    var p2 := Apply(p1, ME, OpenAsNumbered, ops[1]);
    ShowsOneRow(p1.s, 2, 7, false);
    var p3 := Apply(p2, ME, OpenAsNumbered, ops[2]);
    var p4 := Apply(p3, ME, OpenAsNumbered, ops[3]);
    ShowsOneRow(p3.s, 2, 8, true);
    ps := [p0, p1, p2, p3, p4];
  }

  // ---- The bridge as it runs ------------------------------------------------------------------------------

  method PinnedKeys(pins: map<UserId, Pin>) returns (pinned: seq<PublicKey>)
    ensures Enumerates(pinned, pins) && forall u <- pins :: pins[u].Some? ==> pins[u].value in pinned
  {
    pinned := [];
    var users := pins.Keys;
    while users != {}
      invariant users <= pins.Keys && Enumerates(pinned, pins)
      invariant forall u <- pins :: u !in users && pins[u].Some? ==> pins[u].value in pinned
      decreases users
    {
      var u :| u in users;
      if pins[u].Some? {
        pinned := pinned + [pins[u].value];
      }
      users := users - {u};
    }
  }

  method FindSteward(members: seq<Member>, me: Self, sender: DeviceId) returns (steward: Option<Member>)
    ensures steward == StewardOf(members, me, sender)
  {
    steward := None;
    for i := 0 to |members|
      invariant steward == StewardOf(members[..i], me, sender)
    {
      assert members[..i + 1][..i] == members[..i];
      if IsStewardFor(members[i], me, sender) {
        steward := Some(members[i]);
      }
    }
    assert members[..|members|] == members;
  }

  /** openKeyring's first loop, over the rows. */
  method ScanRows(rows: seq<Row>, me: Self, members: seq<Member>, pins: map<UserId, Pin>, open: Opener,
      known: KeyState) returns (r: Result<Ring, Error>)
    ensures r == Scan(rows, me, members, pins, open, known)
  {
    hide OwnRow, StewardRow, StewardOf;
    var out := Ring(map[], known.digests, known.mark, map[], []);
    for i := 0 to |rows|
      invariant Scan(rows[..i], me, members, pins, open, known) == Ok(out)
    {
      var row := rows[i];
      assert rows[..i + 1][..i] == rows[..i];
      ghost var next := ScanRow(out, row, me, members, pins, open);
      assert Scan(rows[..i + 1], me, members, pins, open, known) == next;
      if row.device == me.device && row.sender.Some? {
        if row.sender.value == me.device {
          out := OwnRow(out, row, me, open);
        } else {
          var steward := FindSteward(members, me, row.sender.value);
          if steward.None? {
            out := Defer(out, row);
          } else {
            var took := StewardRow(out, row, steward.value, pins, open);
            if took.Err? {
              ScanStops(rows, i + 1, me, members, pins, open, known);
              return took;
            }
            out := took.value;
          }
        }
      }
    }
    assert rows[..|rows|] == rows;
    return Ok(out);
  }

  /** An error among the first rows is the error of all. */
  lemma {:induction false} ScanStops(rows: seq<Row>, n: nat, me: Self, members: seq<Member>, pins: map<UserId, Pin>,
      open: Opener, known: KeyState)
    requires n <= |rows| && Scan(rows[..n], me, members, pins, open, known).Err?
    ensures Scan(rows, me, members, pins, open, known) == Scan(rows[..n], me, members, pins, open, known)
    decreases |rows|
  {
    hide ScanRow;
    if n == |rows| {
      assert rows[..n] == rows;
    } else {
      assert rows[..|rows| - 1][..n] == rows[..n];
      ScanStops(rows[..|rows| - 1], n, me, members, pins, open, known);
    }
  }

  /** openKeyring: refused exactly if a steward shows another key than the pin, and else exactly the keys due. */
  method OpenRing(rows: seq<Row>, me: Self, members: seq<Member>, pins: map<UserId, Pin>, open: Opener,
      known: KeyState) returns (r: Result<Ring, Error>, pinned: seq<PublicKey>)
    ensures Enumerates(pinned, pins) && r == OpenKeyring(rows, me, members, pins, pinned, open, known)
    ensures forall u <- pins :: pins[u].Some? ==> pins[u].value in pinned
    ensures r.Ok? <==> forall n: nat :: n < |rows| ==> !C.Clashes(rows, n, me, members, pins, open, known)
    ensures r.Ok? ==> C.Complete(r.value, rows, me, members, pins, pinned, open, known)
  {
    hide Scan, HistoryRow, Enumerates, C.Complete, C.Clashes;
    pinned := PinnedKeys(pins);
    C.OpensIff(rows, me, members, pins, pinned, open, known);
    var scanned := ScanRows(rows, me, members, pins, open, known);
    if scanned.Err? {
      return scanned, pinned;
    }
    var deferred := scanned.value.deferred;
    var out := scanned.value;
    for i := 0 to |deferred|
      invariant out == History(scanned.value, deferred[..i], pinned, open)
    {
      assert deferred[..i + 1][..i] == deferred[..i];
      out := HistoryRow(out, deferred[i], pinned, open);
    }
    assert deferred[..|deferred|] == deferred;
    C.RingIsComplete(rows, me, members, pins, pinned, open, known);
    return Ok(out), pinned;
  }

  class Notebook {
    const id: ContainerId
    const me: Self
    const open: Opener
    var pins: map<UserId, Pin>
    var containers: map<ContainerId, KeyState>
    var file: Trust
    var ring: map<int, Key>
    var keyGeneration: int
    var shared: int
    var migrated: bool

    function Snapshot(): State
      reads this
    {
      State(Trust(pins, containers), file, ring, keyGeneration, shared, migrated)
    }

    /** A started bridge has what the file holds and no keys. */
    constructor (id: ContainerId, me: Self, open: Opener, file: Trust)
      ensures this.id == id && this.me == me && this.open == open && Snapshot() == State(file, file, map[], 0, 0, false)
    {
      this.id, this.me, this.open, this.file := id, me, open, file;
      pins, containers, ring, keyGeneration, shared, migrated := file.pins, file.containers, map[], 0, 0, false;
    }

    /** The second half of refresh: open the keyring, remember, check the marker, save, use. The order the pins were
        tried in is returned, as the map gave it. */
    method OpenAndSave(r: Report) returns (failure: Option<Error>, pinned: seq<PublicKey>)
      requires id in containers && r.shared == shared && r.keyGeneration == keyGeneration
      modifies this
      ensures (Snapshot(), failure) == Unlock(old(Snapshot()), id, me, open, r.(pinned := pinned))
    {
      hide OpenKeyring, ReadKey;
      pinned := [];
      if r.members.None? || r.rows.None? {
        return Some(Unavailable), pinned;
      }
      var known := containers[id];
      var ringOrError;
      ringOrError, pinned := OpenRing(r.rows.value, me, r.members.value, pins, open, known);
      if ringOrError.Err? {
        return Some(ringOrError.error), pinned;
      }
      var opened_ := ringOrError.value;
      pins := pins + opened_.newPins;
      known := known.(mark := opened_.mark, digests := opened_.digests);
      containers := containers[id := known];
      ghost var remembered := containers;
      if r.hasName && ReadKey(opened_.ring, shared, keyGeneration).Some? {
        if r.marked {
          known := known.(objects := 2);
          containers := containers[id := known];
        } else if known.objects == 2 {
          return Some(OlderMeta), pinned;
        }
      }
      assert containers == remembered[id := known];
      if !r.secondSave {
        return Some(Unavailable), pinned;
      }
      file := Trust(pins, containers);
      ring, migrated := opened_.ring, known.objects == 2;
      return None, pinned;
    }

    /** refresh: raise and save the floors, then the second half. */
    method RefreshKeys(r: Report) returns (failure: Option<Error>, pinned: seq<PublicKey>)
      modifies this
      ensures (Snapshot(), failure) == Refresh(old(Snapshot()), id, me, open, r.(pinned := pinned))
    {
      hide Unlock;
      pinned := [];
      var known := if id in containers then containers[id] else FRESH;
      containers := containers[id := known];
      if r.shared < known.shared || r.keyGeneration < known.generation {
        return Some(Rollback), pinned;
      }
      known := known.(shared := r.shared, generation := r.keyGeneration);
      containers := containers[id := known];
      assert containers == old(containers)[id := known];
      if !r.firstSave {
        return Some(Unavailable), pinned;
      }
      file := Trust(pins, containers);
      keyGeneration, shared := r.keyGeneration, r.shared;
      failure, pinned := OpenAndSave(r);
    }
  }
}
