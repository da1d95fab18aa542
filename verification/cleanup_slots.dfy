/**
 * Cleanup reservations: every comment and sealed link is created with the audit slot and the row
 * padding its deletion will need, so that a deletion never has to grow the database.
 */
module CleanupSlots {
  import opened Outcome
  import opened Utf
  import opened CellLayout
  import C = CleanupCodec

  newtype SourceId = n: int | 0 <= n
  newtype ContainerId = n: int | 0 <= n

  datatype Kind = CommentSlot | LinkSlot

  datatype Slot = Slot(kind: Kind, container: Option<ContainerId>, payload: seq<Byte>)

  /** Rows keep their other columns as `rest`; a row's size does not depend on column order. */
  datatype ContainerRow = ContainerRow(deleted: bool, seqNo: int, updatedAt: seq<Byte>, pad: nat, rest: seq<Value>)
  datatype CommentRow = CommentRow(container: ContainerId, body: seq<Byte>, seqNo: int, deletedAt: seq<Byte>, pad: nat,
    rest: seq<Value>)
  datatype LinkRow = LinkRow(owner: seq<Byte>, revokedAt: seq<Byte>, pad: nat, rest: seq<Value>)

  /** The tables, with the database's text encoding, usable page size and cleanup budget. */
  datatype State = State(
    order: C.Order, usable: Usable, budget: nat,
    users: seq<seq<Byte>>,
    containers: map<ContainerId, ContainerRow>,
    comments: map<SourceId, CommentRow>,
    links: map<SourceId, LinkRow>,
    slots: map<SourceId, Slot>)

  datatype Error = NotFound | Broken | NoRoom | OverBudget | Taken

  const MAX_SEQ := 0x7FFF_FFFF_FFFF_FFFF
  const MINTED_ID := 30

  // ---- Rows as records --------------------------------------------------------------------------

  function Encoding(order: C.Order): nat {
    match order case Utf8Order => 1 case LittleEndian => 2 case BigEndian => 3
  }

  /** length(CAST(t AS BLOB)) */
  function TextBytes(t: seq<Byte>, order: C.Order): nat {
    ContentBytes(Text(t), Encoding(order))
  }

  function ContainerValues(k: ContainerRow): seq<Value> {
    k.rest + [Integer(k.seqNo), Text(k.updatedAt), Padding(k.pad)]
  }

  function CommentValues(r: CommentRow): seq<Value> {
    r.rest + [Blob(r.body), Integer(r.seqNo), Text(r.deletedAt), Padding(r.pad)]
  }

  function LinkValues(r: LinkRow): seq<Value> {
    r.rest + [Text(r.revokedAt), Padding(r.pad)]
  }

  /** counterBytes */
  function CounterBytes(n: int): nat {
    if n == 0 || n == 1 then 0
    else if n <= 127 then 1
    else if n <= 32767 then 2
    else if n <= 8388607 then 3
    else if n <= 2147483647 then 4
    else if n <= 140737488355327 then 6
    else 8
  }

  /** A counter is measured as its column is stored, and only ever widens. */
  lemma CounterBytesIsColumnWidth(n: nat, m: nat)
    ensures CounterBytes(n) == IntegerBytes(n) <= 8
    ensures n <= m ==> CounterBytes(n) <= CounterBytes(m)
  {
  }

  // ---- Transactions -------------------------------------------------------------------------------

  function Longest(users: seq<seq<Byte>>): (n: nat)
    ensures n >= MINTED_ID && forall u <- users :: |u| <= n
  {
    if users == [] then MINTED_ID
    else
      var n := Longest(users[..|users| - 1]);
      if |users[|users| - 1]| > n then |users[|users| - 1]| else n
  }

  /** ReserveCleanupAuditTx */
  function Reserve(s: State, kind: Kind, id: SourceId, container: Option<ContainerId>): Result<State, Error> {
    var size := C.SlotSize(Longest(s.users), s.order);
    if size > s.budget then Err(OverBudget)
    else
      match C.PaddedJson(C.NULL, size, s.order)
      case Err(_) => Err(Broken)
      case Ok(payload) => if id in s.slots then Err(Taken)
        else Ok(s.(slots := s.slots[id := Slot(kind, container, payload)]))
  }

  /** FillCleanupAuditTx; the slot-update trigger adds nothing its own checks do not. */
  function Fill(s: State, kind: Kind, id: SourceId, actor: seq<Byte>, request: seq<Byte>,
      now: seq<Byte>): Result<State, Error> {
    if |request| > 128 || |now| != 20 || !(id in s.slots && s.slots[id].kind == kind) ||
      !C.Unfilled(s.slots[id].payload, s.order) then Err(Broken)
    else
      match C.PaddedJson(C.RecordJson(actor, request, now), |s.slots[id].payload|, s.order)
      case Err(_) => Err(Broken)
      case Ok(record) => Ok(s.(slots := s.slots[id := s.slots[id].(payload := record)]))
  }

  function AdvanceGrowth(s: State, c: ContainerId, now: seq<Byte>): nat
    requires c in s.containers
  {
    var k := s.containers[c];
    Excess(CounterBytes(k.seqNo + 1) - CounterBytes(k.seqNo)) +
      Excess(TextBytes(now, s.order) - TextBytes(k.updatedAt, s.order))
  }

  /** AdvanceCleanupSeqTx */
  function Advance(s: State, c: ContainerId, now: seq<Byte>): Result<State, Error> {
    if !(c in s.containers && !s.containers[c].deleted) then Err(NotFound)
    else
      var k := s.containers[c];
      var growth := AdvanceGrowth(s, c, now);
      if k.seqNo < 0 || k.seqNo == MAX_SEQ || growth > k.pad then Err(Broken)
      else
        var next := k.(seqNo := k.seqNo + 1, updatedAt := now);
        match ChosenPad(ContainerValues(k), ContainerValues(next), |k.rest| + 2, k.pad - growth, Encoding(s.order),
          s.usable)
        case None => Err(NoRoom)
        case Some(pad) => Ok(s.(containers := s.containers[c := next.(pad := pad)]))
  }

  function TombstoneGrowth(s: State, r: CommentRow, now: seq<Byte>, seqNo: int): nat {
    TextBytes(now, s.order) + Excess(CounterBytes(seqNo) - CounterBytes(r.seqNo))
  }

  /** TombstoneCommentTx */
  function Tombstone(s: State, id: SourceId, now: seq<Byte>, seqNo: int): Result<State, Error> {
    if !(id in s.comments && s.comments[id].deletedAt == []) then Err(NotFound)
    else
      var r := s.comments[id];
      if r.seqNo < 0 || TombstoneGrowth(s, r, now, seqNo) > r.pad then Err(Broken)
      else
        var next := r.(deletedAt := now, body := [], seqNo := seqNo);
        match ChosenPad(CommentValues(r), CommentValues(next), |r.rest| + 3, 0, Encoding(s.order), s.usable)
        case None => Err(NoRoom)
        case Some(pad) => Ok(s.(comments := s.comments[id := next.(pad := pad)]))
  }

  /** RevokeSealedLinkTx; a link that is missing, another's or revoked already reads as not found. */
  function Revoke(s: State, id: SourceId, owner: seq<Byte>, now: seq<Byte>): Result<State, Error> {
    if !(id in s.links && s.links[id].owner == owner && s.links[id].revokedAt == []) then Err(NotFound)
    else
      var r := s.links[id];
      if TextBytes(now, s.order) > r.pad then Err(Broken)
      else
        var next := r.(revokedAt := now);
        match ChosenPad(LinkValues(r), LinkValues(next), |r.rest| + 1, r.pad - TextBytes(now, s.order),
          Encoding(s.order), s.usable)
        case None => Err(NoRoom)
        case Some(pad) => Ok(s.(links := s.links[id := next.(pad := pad)]))
  }

  /** Any ordinary write to a container: it counts up without touching the padding. */
  function Bump(s: State, c: ContainerId, now: seq<Byte>): Result<State, Error> {
    if c !in s.containers || s.containers[c].seqNo == MAX_SEQ then Err(NotFound)
    else
      var k := s.containers[c];
      Ok(s.(containers := s.containers[c := k.(seqNo := k.seqNo + 1, updatedAt := now)]))
  }

  function CreateContainer(s: State, c: ContainerId, now: seq<Byte>, rest: seq<Value>): Result<State, Error> {
    if c in s.containers then Err(Taken)
      else Ok(s.(containers := s.containers[c := ContainerRow(false, 1, now, 64, rest)]))
  }

  function CreateComment(s: State, id: SourceId, c: ContainerId, body: seq<Byte>, rest: seq<Value>,
      now: seq<Byte>): Result<State, Error> {
    var bumped :- Bump(s, c, now);
    if s.containers[c].deleted then Err(NotFound)
    else if id in s.comments then Err(Taken)
    else
      var row := CommentRow(c, body, bumped.containers[c].seqNo, [], 64, rest);
      Reserve(bumped.(comments := s.comments[id := row]), CommentSlot, id, Some(c))
  }

  function CreateLink(s: State, id: SourceId, owner: seq<Byte>, rest: seq<Value>): Result<State, Error> {
    if id in s.links then Err(Taken)
    else Reserve(s.(links := s.links[id := LinkRow(owner, [], 40, rest)]), LinkSlot, id, None)
  }

  /** Deleting a comment; repeated by an authorized caller it changes nothing. */
  function DeleteComment(s: State, id: SourceId, actor: seq<Byte>, request: seq<Byte>,
      now: seq<Byte>): Result<State, Error> {
    if !(id in s.comments && s.comments[id].container in s.containers &&
      !s.containers[s.comments[id].container].deleted) then Err(NotFound)
    else if s.comments[id].deletedAt != [] then Ok(s)
    else
      var c := s.comments[id].container;
      var advanced :- Advance(s, c, now);
      var dropped :- Tombstone(advanced, id, now, advanced.containers[c].seqNo);
      Fill(dropped, CommentSlot, id, actor, request, now)
  }

  function RevokeLink(s: State, id: SourceId, owner: seq<Byte>, request: seq<Byte>,
      now: seq<Byte>): Result<State, Error> {
    var revoked :- Revoke(s, id, owner, now);
    Fill(revoked, LinkSlot, id, owner, request, now)
  }

  /** Deleting rows outright: the triggers take their unfilled slots with them. */
  function DropComments(s: State, gone: set<SourceId>): State {
    s.(comments := s.comments - gone,
       slots := map i | i in s.slots &&
         !(i in gone && i in s.comments && s.slots[i].kind.CommentSlot? && C.Unfilled(s.slots[i].payload, s.order)) ::
         s.slots[i])
  }

  function DropLinks(s: State, gone: set<SourceId>): State {
    s.(links := s.links - gone,
       slots := map i | i in s.slots &&
         !(i in gone && i in s.links && s.slots[i].kind.LinkSlot? && C.Unfilled(s.slots[i].payload, s.order)) ::
         s.slots[i])
  }

  /** A notebook and its children close together, and lose their comments. */
  function DeleteContainers(s: State, scope: set<ContainerId>, now: seq<Byte>): Result<State, Error> {
    if exists c <- s.containers :: c in scope && s.containers[c].seqNo == MAX_SEQ then Err(Broken)
    else
      var closed := s.(containers := map c | c in s.containers ::
        if c in scope && !s.containers[c].deleted
        then s.containers[c].(deleted := true, seqNo := s.containers[c].seqNo + 1, updatedAt := now)
        else s.containers[c]);
      Ok(DropComments(closed, set i | i in s.comments && s.comments[i].container in scope))
  }

  datatype Op =
    | OpAddUser(user: seq<Byte>)
    | OpContainer(c: ContainerId, now: seq<Byte>, rest: seq<Value>)
    | OpBump(c: ContainerId, now: seq<Byte>)
    | OpComment(id: SourceId, c: ContainerId, body: seq<Byte>, rest: seq<Value>, now: seq<Byte>)
    | OpLink(id: SourceId, owner: seq<Byte>, rest: seq<Value>)
    | OpDeleteComment(id: SourceId, actor: seq<Byte>, request: seq<Byte>, now: seq<Byte>)
    | OpRevokeLink(id: SourceId, owner: seq<Byte>, request: seq<Byte>, now: seq<Byte>)
    | OpDropComments(gone: set<SourceId>)
    | OpDropLinks(gone: set<SourceId>)
    | OpDeleteContainers(scope: set<ContainerId>, now: seq<Byte>)

  function Apply(s: State, op: Op): Result<State, Error> {
    match op
    case OpAddUser(u) => Ok(s.(users := s.users + [u]))
    case OpContainer(c, now, rest) => CreateContainer(s, c, now, rest)
    case OpBump(c, now) => Bump(s, c, now)
    case OpComment(id, c, body, rest, now) => CreateComment(s, id, c, body, rest, now)
    case OpLink(id, owner, rest) => CreateLink(s, id, owner, rest)
    case OpDeleteComment(id, actor, request, now) => DeleteComment(s, id, actor, request, now)
    case OpRevokeLink(id, owner, request, now) => RevokeLink(s, id, owner, request, now)
    case OpDropComments(gone) => Ok(DropComments(s, gone))
    case OpDropLinks(gone) => Ok(DropLinks(s, gone))
    case OpDeleteContainers(scope, now) => DeleteContainers(s, scope, now)
  }

  /** What the callers supply: timestamps as CleanupTime formats them and IDs as ids.Mint makes them. */
  predicate Admissible(op: Op) {
    match op
    case OpAddUser(u) => |u| == MINTED_ID
    case OpContainer(_, now, _) => C.Timestamp(now)
    case OpBump(_, now) => C.Timestamp(now)
    case OpComment(_, _, _, _, now) => C.Timestamp(now)
    case OpDeleteComment(_, _, _, now) => C.Timestamp(now)
    case OpRevokeLink(_, _, _, now) => C.Timestamp(now)
    case OpDeleteContainers(_, now) => C.Timestamp(now)
    case OpLink(_, _, _) => true
    case OpDropComments(_) => true
    case OpDropLinks(_) => true
  }

  // ---- The invariant ------------------------------------------------------------------------------

  ghost predicate HasSlot(s: State, kind: Kind, id: SourceId, unfilled: bool) {
    id in s.slots && s.slots[id].kind == kind && C.Unfilled(s.slots[id].payload, s.order) == unfilled
  }

  ghost predicate CommentOk(s: State, id: SourceId)
    requires id in s.comments
  {
    var r := s.comments[id];
    HasSlot(s, CommentSlot, id, r.deletedAt == []) && 0 <= r.seqNo <= MAX_SEQ && (r.deletedAt == [] ==> r.pad == 64) &&
      r.container in s.containers
  }

  ghost predicate LinkOk(s: State, id: SourceId)
    requires id in s.links
  {
    HasSlot(s, LinkSlot, id, s.links[id].revokedAt == []) && (s.links[id].revokedAt == [] ==> s.links[id].pad == 40)
  }

  ghost predicate IsRecord(payload: seq<Byte>, order: C.Order) {
    exists actor, request, at ::
      |request| <= 128 && |at| == 20 && C.PaddedJson(C.RecordJson(actor, request, at), |payload|, order) == Ok(payload)
  }

  predicate LiveSource(s: State, kind: Kind, id: SourceId) {
    if kind.CommentSlot? then id in s.comments && s.comments[id].deletedAt == []
      else id in s.links && s.links[id].revokedAt == []
  }

  predicate Roomy(payload: seq<Byte>, users: seq<seq<Byte>>, order: C.Order) {
    C.SlotSize(Longest(users), order) <= |payload| && |payload| % 64 == 0
  }

  /** An unfilled slot belongs to a live source and has room for any user's record; the rest are records. */
  ghost predicate SlotOk(s: State, id: SourceId)
    requires id in s.slots
  {
    var slot := s.slots[id];
    if C.Unfilled(slot.payload, s.order)
    then LiveSource(s, slot.kind, id) && Roomy(slot.payload, s.users, s.order)
    else IsRecord(slot.payload, s.order) && |slot.payload| % 64 == 0
  }

  /** What a container's counter may still grow by is in its padding. */
  ghost predicate ContainerOk(s: State, c: ContainerId)
    requires c in s.containers
  {
    var k := s.containers[c];
    0 <= k.seqNo <= MAX_SEQ && C.Timestamp(k.updatedAt) && 64 <= k.pad + CounterBytes(k.seqNo)
  }

  ghost predicate Inv(s: State) {
    && (forall id <- s.comments :: CommentOk(s, id))
    && (forall id <- s.links :: LinkOk(s, id))
    && (forall id <- s.slots :: SlotOk(s, id))
    && (forall c <- s.containers :: ContainerOk(s, c))
  }

  lemma PlainText(t: seq<Byte>, order: C.Order)
    requires C.Timestamp(t)
    ensures TextBytes(t, order) == if order.Utf8Order? then 20 else 40
  {
    C.AsciiRunes(t);
  }

  lemma SlotSizeIsWhole(longest: nat, order: C.Order)
    ensures C.SlotSize(longest, order) % 64 == 0 && C.SlotSize(longest, order) > 4 * C.SpaceWidth(order)
  {
  }

  lemma WholeIsNotRagged(n: nat, order: C.Order)
    requires n % 64 == 0
    ensures !C.Ragged(n, order)
  {
    assert n == 2 * (32 * (n / 64));
  }

  /** Filling changes one unfilled slot's payload into a record of the same length, and nothing else. */
  lemma FillShape(s: State, kind: Kind, id: SourceId, actor: seq<Byte>, request: seq<Byte>, now: seq<Byte>)
    requires Fill(s, kind, id, actor, request, now).Ok?
    ensures HasSlot(s, kind, id, true)
    ensures var s' := Fill(s, kind, id, actor, request, now).value;
      id in s'.slots && s' == s.(slots := s.slots[id := s'.slots[id]]) && HasSlot(s', kind, id, false) &&
      s'.slots[id] == s.slots[id].(payload := s'.slots[id].payload) &&
      |s'.slots[id].payload| == |s.slots[id].payload| && IsRecord(s'.slots[id].payload, s.order)
  {
    hide C.Unfilled, C.PaddedJson, C.RecordJson;
    C.PaddedReadsBack(C.RecordJson(actor, request, now), |s.slots[id].payload|, s.order);
    C.RecordFills(actor, request, now, |s.slots[id].payload|, s.order);
  }

  lemma AdvanceShape(s: State, c: ContainerId, now: seq<Byte>)
    requires Advance(s, c, now).Ok? && c in s.containers && ContainerOk(s, c) && C.Timestamp(now)
    ensures var s' := Advance(s, c, now).value;
      c in s'.containers && s' == s.(containers := s.containers[c := s'.containers[c]]) &&
      s'.containers[c] == s.containers[c].(seqNo := s.containers[c].seqNo + 1, updatedAt := now,
        pad := s'.containers[c].pad) && ContainerOk(s', c) &&
      s.containers[c].pad -
        (CounterBytes(s.containers[c].seqNo + 1) - CounterBytes(s.containers[c].seqNo)) <= s'.containers[c].pad
  {
    hide ChosenPad, TextBytes;
    PlainText(now, s.order);
    PlainText(s.containers[c].updatedAt, s.order);
    CounterBytesIsColumnWidth(s.containers[c].seqNo, s.containers[c].seqNo + 1);
    ChosenAtLeast(ContainerValues(s.containers[c]),
      ContainerValues(s.containers[c].(seqNo := s.containers[c].seqNo + 1, updatedAt := now)),
      |s.containers[c].rest| + 2, s.containers[c].pad - AdvanceGrowth(s, c, now), Encoding(s.order), s.usable);
  }

  lemma ChosenAtLeast(was: seq<Value>, row: seq<Value>, i: nat, minimum: nat, encoding: nat, u: Usable)
    requires i < |row|
    ensures ChosenPad(was, row, i, minimum, encoding, u).Some? ==>
      ChosenPad(was, row, i, minimum, encoding, u).value >= minimum
  {
  }

  /** Id's slot became a record of the same length. */
  ghost predicate SlotFilled(s: State, s': State, kind: Kind, id: SourceId) {
    && id in s.slots && id in s'.slots
    && s'.slots[id] == s.slots[id].(payload := s'.slots[id].payload) && |s'.slots[id].payload| == |s.slots[id].payload|
    && HasSlot(s', kind, id, false) && IsRecord(s'.slots[id].payload, s.order)
  }

  /** A comment deletion counts its container up, empties and tombstones the comment, and fills its slot. */
  ghost predicate CommentClosed(s: State, s': State, id: SourceId, now: seq<Byte>) {
    && id in s.comments && id in s'.comments && SlotFilled(s, s', CommentSlot, id)
    && var c := s.comments[id].container;
    && c in s.containers && c in s'.containers
    && s' == s.(containers := s.containers[c := s'.containers[c]], comments := s.comments[id := s'.comments[id]],
      slots := s.slots[id := s'.slots[id]])
    && s'.containers[c].seqNo == s.containers[c].seqNo + 1 && ContainerOk(s', c)
    && s'.containers[c] == s.containers[c].(seqNo := s.containers[c].seqNo + 1, updatedAt := now,
         pad := s'.containers[c].pad)
    && s'.comments[id] == s.comments[id].(body := [], seqNo := s'.containers[c].seqNo, deletedAt := now,
         pad := s'.comments[id].pad)
  }

  lemma DeleteCommentShape(s: State, id: SourceId, actor: seq<Byte>, request: seq<Byte>, now: seq<Byte>)
    requires Inv(s) && C.Timestamp(now) && DeleteComment(s, id, actor, request, now).Ok? &&
      s.comments[id].deletedAt == []
    ensures CommentClosed(s, DeleteComment(s, id, actor, request, now).value, id, now)
  {
    hide Advance, Fill, ChosenPad, TextBytes, CommentValues, IsRecord, C.Unfilled, SlotOk, C.Timestamp, CounterBytes;
    var c := s.comments[id].container;
    assert ContainerOk(s, c);
    hide ContainerOk;
    AdvanceShape(s, c, now);
    var advanced := Advance(s, c, now).value;
    var dropped := Tombstone(advanced, id, now, advanced.containers[c].seqNo).value;
    FillShape(dropped, CommentSlot, id, actor, request, now);
  }

  ghost predicate LinkClosed(s: State, s': State, id: SourceId, now: seq<Byte>) {
    && id in s.links && id in s'.links && SlotFilled(s, s', LinkSlot, id)
    && s' == s.(links := s.links[id := s'.links[id]], slots := s.slots[id := s'.slots[id]])
    && s.links[id].revokedAt == [] && s'.links[id] == s.links[id].(revokedAt := now, pad := s'.links[id].pad)
  }

  lemma RevokeLinkShape(s: State, id: SourceId, owner: seq<Byte>, request: seq<Byte>, now: seq<Byte>)
    requires C.Timestamp(now) && RevokeLink(s, id, owner, request, now).Ok?
    ensures LinkClosed(s, RevokeLink(s, id, owner, request, now).value, id, now)
  {
    hide Fill, ChosenPad, TextBytes, LinkValues, IsRecord, C.Unfilled, C.Timestamp;
    FillShape(Revoke(s, id, owner, now).value, LinkSlot, id, owner, request, now);
  }

  /** Closing one source: its row is no longer live and its slot is filled. */
  lemma ClosingKeepsInv(s: State, s': State, kind: Kind, id: SourceId)
    requires Inv(s) && id in s.slots && id in s'.slots && s.slots[id].kind == kind
    requires s'.slots == s.slots[id := s'.slots[id]] && s'.order == s.order && s'.users == s.users &&
      s.containers.Keys <= s'.containers.Keys
    requires forall c <- s'.containers :: ContainerOk(s', c)
    requires SlotFilled(s, s', kind, id)
    requires forall i <- s'.comments ::
      if kind.CommentSlot? && i == id then CommentOk(s', i) else i in s.comments && s'.comments[i] == s.comments[i]
    requires forall i <- s'.links ::
      if kind.LinkSlot? && i == id then LinkOk(s', i) else i in s.links && s'.links[i] == s.links[i]
    requires forall i <- s.comments :: i in s'.comments
    requires forall i <- s.links :: i in s'.links
    ensures Inv(s')
  {
    hide C.Unfilled, IsRecord, C.SlotSize, Longest, ContainerOk, C.Timestamp;
    RowsKept(s, s', kind, id);
    forall i | i in s'.slots ensures SlotOk(s', i) {
      assert SlotOk(s, i);
    }
  }

  /** Rows other than the one touched keep their slots. */
  lemma RowsKept(s: State, s': State, kind: Kind, id: SourceId)
    requires Inv(s) && id in s'.slots && s'.slots == s.slots[id := s'.slots[id]] && s'.order == s.order &&
      s.containers.Keys <= s'.containers.Keys
    requires id in s.slots ==> s.slots[id].kind == kind
    requires s'.slots[id].kind == kind
    requires forall i <- s'.comments ::
      if kind.CommentSlot? && i == id then CommentOk(s', i) else i in s.comments && s'.comments[i] == s.comments[i]
    requires forall i <- s'.links ::
      if kind.LinkSlot? && i == id then LinkOk(s', i) else i in s.links && s'.links[i] == s.links[i]
    ensures forall i <- s'.comments :: CommentOk(s', i)
    ensures forall i <- s'.links :: LinkOk(s', i)
  {
    hide C.Unfilled, SlotOk, ContainerOk;
    forall i | i in s'.comments ensures CommentOk(s', i) {
      assert i in s.comments ==> CommentOk(s, i);
    }
    forall i | i in s'.links ensures LinkOk(s', i) {
      assert i in s.links ==> LinkOk(s, i);
    }
  }

  lemma CommentClosedKeepsInv(s: State, s': State, id: SourceId, now: seq<Byte>)
    requires Inv(s) && CommentClosed(s, s', id, now) && now != []
    ensures Inv(s')
  {
    hide C.Unfilled, IsRecord, C.SlotSize, Longest, C.Timestamp, CounterBytes, SlotOk;
    assert CommentOk(s, id);
    forall c | c in s'.containers ensures ContainerOk(s', c) {
      assert c in s.containers && ContainerOk(s, c);
    }
    assert CommentOk(s', id);
    hide ContainerOk, CommentOk;
    ClosingKeepsInv(s, s', CommentSlot, id);
  }

  lemma LinkClosedKeepsInv(s: State, s': State, id: SourceId, now: seq<Byte>)
    requires Inv(s) && LinkClosed(s, s', id, now) && now != []
    ensures Inv(s')
  {
    hide C.Unfilled, IsRecord, C.SlotSize, Longest, C.Timestamp, CounterBytes, SlotOk;
    forall c | c in s'.containers ensures ContainerOk(s', c) {
      assert ContainerOk(s, c);
    }
    assert LinkOk(s', id);
    hide ContainerOk, LinkOk;
    ClosingKeepsInv(s, s', LinkSlot, id);
  }

  lemma DeleteCommentKeepsInv(s: State, id: SourceId, actor: seq<Byte>, request: seq<Byte>, now: seq<Byte>)
    requires Inv(s) && C.Timestamp(now) && DeleteComment(s, id, actor, request, now).Ok?
    ensures Inv(DeleteComment(s, id, actor, request, now).value)
  {
    hide Inv, CommentClosed, Advance, Tombstone, Fill;
    if s.comments[id].deletedAt == [] {
      DeleteCommentShape(s, id, actor, request, now);
      CommentClosedKeepsInv(s, DeleteComment(s, id, actor, request, now).value, id, now);
    }
  }

  lemma RevokeLinkKeepsInv(s: State, id: SourceId, owner: seq<Byte>, request: seq<Byte>, now: seq<Byte>)
    requires Inv(s) && C.Timestamp(now) && RevokeLink(s, id, owner, request, now).Ok?
    ensures Inv(RevokeLink(s, id, owner, request, now).value)
  {
    hide Inv, LinkClosed, Revoke, Fill;
    RevokeLinkShape(s, id, owner, request, now);
    LinkClosedKeepsInv(s, RevokeLink(s, id, owner, request, now).value, id, now);
  }

  lemma ReserveShape(s: State, kind: Kind, id: SourceId, c: Option<ContainerId>)
    requires Reserve(s, kind, id, c).Ok?
    ensures id !in s.slots
    ensures var s' := Reserve(s, kind, id, c).value;
      id in s'.slots && s' == s.(slots := s.slots[id := s'.slots[id]]) && HasSlot(s', kind, id, true) &&
      |s'.slots[id].payload| == C.SlotSize(Longest(s.users), s.order) && |s'.slots[id].payload| % 64 == 0
  {
    hide C.Unfilled, C.PaddedJson, C.SlotSize;
    var size := C.SlotSize(Longest(s.users), s.order);
    SlotSizeIsWhole(Longest(s.users), s.order);
    C.PaddedReadsBack(C.NULL, size, s.order);
    C.NullIsUnfilled(size, s.order);
  }

  /** Opening one source: a fresh row with its padding, and its reserved slot. */
  lemma OpeningKeepsInv(s: State, s': State, kind: Kind, id: SourceId)
    requires Inv(s) && id !in s.slots && id in s'.slots
    requires s'.slots == s.slots[id := s'.slots[id]] && s'.order == s.order && s'.users == s.users &&
      s.containers.Keys <= s'.containers.Keys
    requires forall c <- s'.containers :: ContainerOk(s', c)
    requires SlotOk(s', id) && HasSlot(s', kind, id, true)
    requires forall i <- s'.comments ::
      if kind.CommentSlot? && i == id then CommentOk(s', i) else i in s.comments && s'.comments[i] == s.comments[i]
    requires forall i <- s'.links ::
      if kind.LinkSlot? && i == id then LinkOk(s', i) else i in s.links && s'.links[i] == s.links[i]
    requires forall i <- s.comments :: i in s'.comments && s'.comments[i] == s.comments[i]
    requires forall i <- s.links :: i in s'.links && s'.links[i] == s.links[i]
    ensures Inv(s')
  {
    hide C.Unfilled, IsRecord, C.SlotSize, Longest, ContainerOk, C.Timestamp;
    RowsKept(s, s', kind, id);
    forall i | i in s'.slots ensures SlotOk(s', i) {
      assert i in s.slots ==> SlotOk(s, i);
    }
  }

  lemma BumpKeepsContainers(s: State, c: ContainerId, now: seq<Byte>)
    requires Inv(s) && Bump(s, c, now).Ok? && C.Timestamp(now)
    ensures forall x <- Bump(s, c, now).value.containers :: ContainerOk(Bump(s, c, now).value, x)
  {
    hide C.Timestamp;
    forall x | x in s.containers ensures ContainerOk(Bump(s, c, now).value, x) {
      assert ContainerOk(s, x);
      CounterBytesIsColumnWidth(s.containers[x].seqNo, s.containers[x].seqNo + 1);
    }
  }

  lemma CreateCommentKeepsInv(s: State, id: SourceId, c: ContainerId, body: seq<Byte>, rest: seq<Value>, now: seq<Byte>)
    requires Inv(s) && C.Timestamp(now) && CreateComment(s, id, c, body, rest, now).Ok?
    ensures Inv(CreateComment(s, id, c, body, rest, now).value)
  {
    hide Reserve, C.Unfilled, IsRecord, C.SlotSize, Longest;
    BumpKeepsContainers(s, c, now);
    var bumped := Bump(s, c, now).value;
    var row := CommentRow(c, body, bumped.containers[c].seqNo, [], 64, rest);
    var begun := bumped.(comments := s.comments[id := row]);
    ReserveShape(begun, CommentSlot, id, Some(c));
    var s' := Reserve(begun, CommentSlot, id, Some(c)).value;
    assert ContainerOk(bumped, c);
    forall x | x in s'.containers ensures ContainerOk(s', x) {
      assert ContainerOk(bumped, x);
    }
    OpeningKeepsInv(s, s', CommentSlot, id);
  }

  lemma CreateLinkKeepsInv(s: State, id: SourceId, owner: seq<Byte>, rest: seq<Value>)
    requires Inv(s) && CreateLink(s, id, owner, rest).Ok?
    ensures Inv(CreateLink(s, id, owner, rest).value)
  {
    hide Reserve, C.Unfilled, IsRecord, C.SlotSize, Longest, C.Timestamp;
    var begun := s.(links := s.links[id := LinkRow(owner, [], 40, rest)]);
    ReserveShape(begun, LinkSlot, id, None);
    var s' := Reserve(begun, LinkSlot, id, None).value;
    forall x | x in s'.containers ensures ContainerOk(s', x) {
      assert ContainerOk(s, x);
    }
    OpeningKeepsInv(s, s', LinkSlot, id);
  }

  lemma DropCommentsKeepsInv(s: State, gone: set<SourceId>)
    requires Inv(s)
    ensures Inv(DropComments(s, gone))
  {
    hide C.Unfilled, IsRecord, C.SlotSize, Longest, C.Timestamp;
    var s' := DropComments(s, gone);
    forall i | i in s'.comments ensures CommentOk(s', i) { assert CommentOk(s, i); }
    forall i | i in s'.links ensures LinkOk(s', i) { assert LinkOk(s, i); }
    forall i | i in s'.slots ensures SlotOk(s', i) { assert SlotOk(s, i); }
    forall c | c in s'.containers ensures ContainerOk(s', c) { assert ContainerOk(s, c); }
  }

  lemma DropLinksKeepsInv(s: State, gone: set<SourceId>)
    requires Inv(s)
    ensures Inv(DropLinks(s, gone))
  {
    hide C.Unfilled, IsRecord, C.SlotSize, Longest, C.Timestamp;
    var s' := DropLinks(s, gone);
    forall i | i in s'.comments ensures CommentOk(s', i) { assert CommentOk(s, i); }
    forall i | i in s'.links ensures LinkOk(s', i) { assert LinkOk(s, i); }
    forall i | i in s'.slots ensures SlotOk(s', i) { assert SlotOk(s, i); }
    forall c | c in s'.containers ensures ContainerOk(s', c) { assert ContainerOk(s, c); }
  }

  /** Changing containers alone, each still sound, keeps the invariant. */
  lemma ContainersOnly(s: State, s': State)
    requires Inv(s) && s' == s.(containers := s'.containers) && s.containers.Keys <= s'.containers.Keys
    requires forall c <- s'.containers :: ContainerOk(s', c)
    ensures Inv(s')
  {
    hide C.Unfilled, IsRecord, C.SlotSize, Longest, ContainerOk;
    forall i | i in s'.comments ensures CommentOk(s', i) { assert CommentOk(s, i); }
    forall i | i in s'.links ensures LinkOk(s', i) { assert LinkOk(s, i); }
    forall i | i in s'.slots ensures SlotOk(s', i) { assert SlotOk(s, i); }
  }

  lemma DeleteContainersKeepsInv(s: State, scope: set<ContainerId>, now: seq<Byte>)
    requires Inv(s) && C.Timestamp(now) && DeleteContainers(s, scope, now).Ok?
    ensures Inv(DeleteContainers(s, scope, now).value)
  {
    hide DropComments, C.Timestamp, CounterBytes;
    var closed := s.(containers := map c | c in s.containers ::
      if c in scope && !s.containers[c].deleted
      then s.containers[c].(deleted := true, seqNo := s.containers[c].seqNo + 1, updatedAt := now)
      else s.containers[c]);
    forall x | x in closed.containers ensures ContainerOk(closed, x) {
      assert ContainerOk(s, x);
      CounterBytesIsColumnWidth(s.containers[x].seqNo, s.containers[x].seqNo + 1);
    }
    ContainersOnly(s, closed);
    DropCommentsKeepsInv(closed, set i | i in s.comments && s.comments[i].container in scope);
  }

  lemma LongestOfMinted(users: seq<seq<Byte>>, u: seq<Byte>)
    requires |u| == MINTED_ID
    ensures Longest(users + [u]) == Longest(users)
  {
    assert (users + [u])[..|users|] == users;
  }

  lemma AddUserKeepsInv(s: State, u: seq<Byte>)
    requires Inv(s) && |u| == MINTED_ID
    ensures Inv(s.(users := s.users + [u]))
  {
    hide C.Unfilled, IsRecord, C.SlotSize, C.Timestamp;
    var s' := s.(users := s.users + [u]);
    LongestOfMinted(s.users, u);
    hide Longest;
    forall i | i in s'.comments ensures CommentOk(s', i) { assert CommentOk(s, i); }
    forall i | i in s'.links ensures LinkOk(s', i) { assert LinkOk(s, i); }
    forall i | i in s'.slots ensures SlotOk(s', i) { assert SlotOk(s, i); }
    forall c | c in s'.containers ensures ContainerOk(s', c) { assert ContainerOk(s, c); }
  }

  /** Every transaction keeps the reservations. */
  lemma StepKeepsInv(s: State, op: Op)
    requires Inv(s) && Admissible(op) && Apply(s, op).Ok?
    ensures Inv(Apply(s, op).value)
  {
    hide Inv, CreateComment, CreateLink, DeleteComment, RevokeLink, DropComments, DropLinks, DeleteContainers;
    match op
    case OpAddUser(u) => AddUserKeepsInv(s, u);
    case OpContainer(c, now, rest) => ContainerKeepsInv(s, c, now, rest);
    case OpBump(c, now) => BumpKeepsContainers(s, c, now); ContainersOnly(s, Bump(s, c, now).value);
    case OpComment(id, c, body, rest, now) => CreateCommentKeepsInv(s, id, c, body, rest, now);
    case OpLink(id, owner, rest) => CreateLinkKeepsInv(s, id, owner, rest);
    case OpDeleteComment(id, actor, request, now) => DeleteCommentKeepsInv(s, id, actor, request, now);
    case OpRevokeLink(id, owner, request, now) => RevokeLinkKeepsInv(s, id, owner, request, now);
    case OpDropComments(gone) => DropCommentsKeepsInv(s, gone);
    case OpDropLinks(gone) => DropLinksKeepsInv(s, gone);
    case OpDeleteContainers(scope, now) => DeleteContainersKeepsInv(s, scope, now);
  }

  lemma ContainerKeepsInv(s: State, c: ContainerId, now: seq<Byte>, rest: seq<Value>)
    requires Inv(s) && C.Timestamp(now) && CreateContainer(s, c, now, rest).Ok?
    ensures Inv(CreateContainer(s, c, now, rest).value)
  {
    hide C.Timestamp;
    var s' := CreateContainer(s, c, now, rest).value;
    forall x | x in s'.containers ensures ContainerOk(s', x) {
      assert x in s.containers ==> ContainerOk(s, x);
    }
    ContainersOnly(s, s');
  }

  // ---- Runs -----------------------------------------------------------------------------------------

  ghost predicate Step(s: State, op: Op, s': State) {
    Admissible(op) && Apply(s, op) == Ok(s')
  }

  ghost predicate Run(ss: seq<State>, ops: seq<Op>) {
    |ss| == |ops| + 1 && Inv(ss[0]) && forall i :: 0 <= i < |ops| ==> Step(ss[i], ops[i], ss[i + 1])
  }

  lemma {:induction false} RunKeepsInv(ss: seq<State>, ops: seq<Op>, i: nat)
    requires Run(ss, ops) && i < |ss|
    ensures Inv(ss[i])
  {
    hide Inv, Apply, Admissible;
    if i > 0 {
      RunKeepsInv(ss, ops, i - 1);
      assert Step(ss[i - 1], ops[i - 1], ss[i]);
      StepKeepsInv(ss[i - 1], ops[i - 1]);
    }
  }

  /** A filled slot is final; an unfilled one, while it exists, keeps its binding and its length. */
  ghost predicate SlotKept(s: State, s': State, id: SourceId)
    requires id in s.slots
  {
    && s'.order == s.order
    && (!C.Unfilled(s.slots[id].payload, s.order) ==> id in s'.slots && s'.slots[id] == s.slots[id])
    && (id in s'.slots ==>
      s'.slots[id] == s.slots[id].(payload := s'.slots[id].payload) && |s'.slots[id].payload| == |s.slots[id].payload|)
  }

  lemma FilledFromUnfilled(s: State, s': State, kind: Kind, id: SourceId, other: SourceId)
    requires SlotFilled(s, s', kind, id) && HasSlot(s, kind, id, true) && other in s.slots
    requires s'.order == s.order && s'.slots == s.slots[id := s'.slots[id]]
    ensures SlotKept(s, s', other)
  {
    hide C.Unfilled, IsRecord;
  }

  lemma StepKeepsSlot(s: State, op: Op, id: SourceId)
    requires Inv(s) && Admissible(op) && Apply(s, op).Ok? && id in s.slots
    ensures SlotKept(s, Apply(s, op).value, id)
  {
    hide Advance, Tombstone, Fill, Reserve, Revoke, C.Unfilled, CommentOk, LinkOk, SlotOk, ContainerOk;
    hide IsRecord, C.Timestamp, CommentClosed, LinkClosed;
    var s' := Apply(s, op).value;
    if op.OpDeleteComment? && s.comments[op.id].deletedAt == [] {
      DeleteCommentShape(s, op.id, op.actor, op.request, op.now);
      ClosedCommentKeepsSlot(s, s', op.id, op.now, id);
    } else if op.OpRevokeLink? {
      RevokeLinkShape(s, op.id, op.owner, op.request, op.now);
      ClosedLinkKeepsSlot(s, s', op.id, op.now, id);
    } else if op.OpComment? {
      var bumped := Bump(s, op.c, op.now).value;
      var row := CommentRow(op.c, op.body, bumped.containers[op.c].seqNo, [], 64, op.rest);
      ReserveShape(bumped.(comments := s.comments[op.id := row]), CommentSlot, op.id, Some(op.c));
    } else if op.OpLink? {
      ReserveShape(s.(links := s.links[op.id := LinkRow(op.owner, [], 40, op.rest)]), LinkSlot, op.id, None);
    }
  }

  lemma ClosedCommentKeepsSlot(s: State, s': State, id: SourceId, now: seq<Byte>, other: SourceId)
    requires Inv(s) && CommentClosed(s, s', id, now) && s.comments[id].deletedAt == [] && other in s.slots
    ensures SlotKept(s, s', other)
  {
    hide C.Unfilled, SlotOk, LinkOk, ContainerOk, SlotFilled, SlotKept;
    assert CommentOk(s, id);
    FilledFromUnfilled(s, s', CommentSlot, id, other);
  }

  lemma ClosedLinkKeepsSlot(s: State, s': State, id: SourceId, now: seq<Byte>, other: SourceId)
    requires Inv(s) && LinkClosed(s, s', id, now) && other in s.slots
    ensures SlotKept(s, s', other)
  {
    hide C.Unfilled, SlotOk, CommentOk, ContainerOk, SlotFilled, SlotKept;
    assert LinkOk(s, id);
    FilledFromUnfilled(s, s', LinkSlot, id, other);
  }

  /** Over any run a slot is filled at most once: from then on it never changes and never goes. */
  lemma {:induction false} FilledSlotIsFinal(ss: seq<State>, ops: seq<Op>, i: nat, j: nat, id: SourceId)
    requires Run(ss, ops) && i <= j < |ss| && id in ss[i].slots && !C.Unfilled(ss[i].slots[id].payload, ss[i].order)
    ensures id in ss[j].slots && ss[j].slots[id] == ss[i].slots[id] && ss[j].order == ss[i].order
    decreases j
  {
    hide Inv, Apply, Admissible, C.Unfilled;
    if i < j {
      FilledSlotIsFinal(ss, ops, i, j - 1, id);
      RunKeepsInv(ss, ops, j - 1);
      assert Step(ss[j - 1], ops[j - 1], ss[j]);
      StepKeepsSlot(ss[j - 1], ops[j - 1], id);
    }
  }

  /** While a slot exists, through its filling and after, its payload keeps its length. */
  lemma {:induction false} SlotLengthNeverChanges(ss: seq<State>, ops: seq<Op>, i: nat, j: nat, id: SourceId)
    requires Run(ss, ops) && i <= j < |ss| && forall k :: i <= k <= j ==> id in ss[k].slots
    ensures |ss[j].slots[id].payload| == |ss[i].slots[id].payload| && ss[j].slots[id].kind == ss[i].slots[id].kind
    decreases j
  {
    hide Inv, Apply, Admissible, C.Unfilled;
    if i < j {
      SlotLengthNeverChanges(ss, ops, i, j - 1, id);
      RunKeepsInv(ss, ops, j - 1);
      assert Step(ss[j - 1], ops[j - 1], ss[j]);
      StepKeepsSlot(ss[j - 1], ops[j - 1], id);
    }
  }

  /** What a transaction charges to container c's padding. */
  function Charged(s: State, op: Op, c: ContainerId): nat {
    if op.OpDeleteComment? && op.id in s.comments && s.comments[op.id].container == c &&
      s.comments[op.id].deletedAt == [] && c in s.containers
    then AdvanceGrowth(s, c, op.now) else 0
  }

  ghost function TotalCharged(ss: seq<State>, ops: seq<Op>, c: ContainerId, j: nat): nat
    requires |ss| == |ops| + 1 && j <= |ops|
  {
    if j == 0 then 0 else TotalCharged(ss, ops, c, j - 1) + Charged(ss[j - 1], ops[j - 1], c)
  }

  /** A step charges exactly the widening of the counter it caused, and takes no more from the padding. */
  ghost predicate Paid(s: State, s': State, c: ContainerId, charge: nat)
    requires c in s.containers
  {
    && c in s'.containers && 0 <= s.containers[c].seqNo <= s'.containers[c].seqNo
    && charge <= CounterBytes(s'.containers[c].seqNo) - CounterBytes(s.containers[c].seqNo)
    && s.containers[c].pad <= s'.containers[c].pad + charge
  }

  lemma StepPays(s: State, op: Op, c: ContainerId)
    requires Inv(s) && Admissible(op) && Apply(s, op).Ok? && c in s.containers
    ensures Paid(s, Apply(s, op).value, c, Charged(s, op, c))
  {
    hide Advance, Tombstone, Fill, Reserve, Revoke, C.Unfilled, CommentOk, LinkOk, SlotOk, IsRecord;
    hide C.Timestamp, LinkClosed, AdvanceGrowth, TextBytes;
    var s' := Apply(s, op).value;
    assert ContainerOk(s, c);
    CounterBytesIsColumnWidth(s.containers[c].seqNo, s.containers[c].seqNo + 1);
    hide CounterBytes;
    if op.OpDeleteComment? && s.comments[op.id].deletedAt == [] {
      DeletePays(s, op, c);
    } else if op.OpRevokeLink? {
      RevokeLinkShape(s, op.id, op.owner, op.request, op.now);
      assert s'.containers == s.containers by { OnlyLinks(s, s', op.id, op.now); }
    } else if op.OpComment? {
      var bumped := Bump(s, op.c, op.now).value;
      var row := CommentRow(op.c, op.body, bumped.containers[op.c].seqNo, [], 64, op.rest);
      ReserveShape(bumped.(comments := s.comments[op.id := row]), CommentSlot, op.id, Some(op.c));
    } else if op.OpLink? {
      ReserveShape(s.(links := s.links[op.id := LinkRow(op.owner, [], 40, op.rest)]), LinkSlot, op.id, None);
    }
  }

  lemma OnlyLinks(s: State, s': State, id: SourceId, now: seq<Byte>)
    requires LinkClosed(s, s', id, now)
    ensures s'.containers == s.containers
  {
  }

  lemma DeletePays(s: State, op: Op, c: ContainerId)
    requires Inv(s) && Admissible(op) && op.OpDeleteComment? && Apply(s, op).Ok? && s.comments[op.id].deletedAt == [] &&
      c in s.containers
    ensures Paid(s, Apply(s, op).value, c, Charged(s, op, c))
  {
    hide Fill, C.Unfilled, CommentOk, LinkOk, SlotOk, IsRecord, TextBytes, ChosenPad, C.Timestamp, CounterBytes;
    hide ContainerValues, CommentValues;
    var x := s.comments[op.id].container;
    assert ContainerOk(s, x) && ContainerOk(s, c);
    PlainText(op.now, s.order);
    PlainText(s.containers[x].updatedAt, s.order);
    CounterBytesIsColumnWidth(s.containers[x].seqNo, s.containers[x].seqNo + 1);
    CounterBytesIsColumnWidth(s.containers[c].seqNo, s.containers[c].seqNo);
    AdvanceShape(s, x, op.now);
    var advanced := Advance(s, x, op.now).value;
    FillShape(Tombstone(advanced, op.id, op.now, advanced.containers[x].seqNo).value, CommentSlot, op.id, op.actor,
      op.request, op.now);
  }

  lemma {:induction false} ChargesTelescope(ss: seq<State>, ops: seq<Op>, c: ContainerId, j: nat)
    requires Run(ss, ops) && j <= |ops| && c in ss[0].containers
    ensures c in ss[j].containers && 0 <= ss[0].containers[c].seqNo <= ss[j].containers[c].seqNo <= MAX_SEQ
    ensures TotalCharged(ss, ops, c, j) <= CounterBytes(ss[j].containers[c].seqNo) -
      CounterBytes(ss[0].containers[c].seqNo)
    ensures ss[0].containers[c].pad <= ss[j].containers[c].pad + TotalCharged(ss, ops, c, j)
  {
    hide Apply, Admissible, Charged, CounterBytes, CommentOk, LinkOk, SlotOk;
    RunKeepsInv(ss, ops, j);
    if j == 0 {
      assert ContainerOk(ss[0], c);
    } else {
      ChargesTelescope(ss, ops, c, j - 1);
      RunKeepsInv(ss, ops, j - 1);
      assert Step(ss[j - 1], ops[j - 1], ss[j]);
      StepPays(ss[j - 1], ops[j - 1], c);
      assert ContainerOk(ss[j], c);
    }
  }

  /** However many comments a container loses over a run, its padding pays eight bytes at most. */
  lemma AtMostEightBytesCharged(ss: seq<State>, ops: seq<Op>, c: ContainerId)
    requires Run(ss, ops) && c in ss[0].containers
    ensures TotalCharged(ss, ops, c, |ops|) <= 8
    ensures c in ss[|ops|].containers && ss[0].containers[c].pad - 8 <= ss[|ops|].containers[c].pad
  {
    ChargesTelescope(ss, ops, c, |ops|);
    CounterBytesIsColumnWidth(ss[|ops|].containers[c].seqNo, ss[|ops|].containers[c].seqNo);
    CounterBytesIsColumnWidth(ss[0].containers[c].seqNo, ss[0].containers[c].seqNo);
  }

  // ---- A funded deletion never fails ------------------------------------------------------------------

  lemma AppendColumn(vs: seq<Value>, v: Value, encoding: nat)
    ensures Header(vs + [v], encoding) == Header(vs, encoding) + Varint(Serial(v, encoding))
    ensures Body(vs + [v], encoding) == Body(vs, encoding) + ContentBytes(v, encoding)
  {
    assert (vs + [v])[..|vs|] == vs;
  }

  /** No larger a header and body, no larger a record. */
  lemma RecordMonotone(vs: seq<Value>, ws: seq<Value>, encoding: nat)
    requires Header(vs, encoding) <= Header(ws, encoding) && Body(vs, encoding) <= Body(ws, encoding)
    ensures RecordBytes(vs, encoding) <= RecordBytes(ws, encoding)
  {
  }

  lemma SmallSerials(n: int, t: seq<Byte>, order: C.Order)
    requires t == [] || C.Timestamp(t)
    ensures Varint(Serial(Integer(n), Encoding(order))) == 1 && Varint(Serial(Text(t), Encoding(order))) == 1
  {
    if t != [] {
      PlainText(t, order);
    }
  }

  function ContainerRecord(k: ContainerRow, seqNo: int, at: seq<Byte>, pad: nat): seq<Value> {
    k.rest + [Integer(seqNo), Text(at), Padding(pad)]
  }

  lemma ContainerParts(k: ContainerRow, seqNo: nat, at: seq<Byte>, pad: nat, order: C.Order)
    requires C.Timestamp(at)
    ensures var e := Encoding(order);
      Header(ContainerRecord(k, seqNo, at, pad), e) == Header(k.rest, e) + 2 + Varint(12 + 2 * pad)
    ensures var e := Encoding(order);
      Body(ContainerRecord(k, seqNo, at, pad), e) == Body(k.rest, e) + CounterBytes(seqNo) + TextBytes(at, order) + pad
  {
    hide Header, Body, Varint, CounterBytes, IntegerBytes, C.Timestamp;
    var e := Encoding(order);
    CounterBytesIsColumnWidth(seqNo, seqNo);
    SmallSerials(seqNo, at, order);
    AppendColumn(k.rest, Integer(seqNo), e);
    AppendColumn(k.rest + [Integer(seqNo)], Text(at), e);
    AppendColumn(k.rest + [Integer(seqNo)] + [Text(at)], Padding(pad), e);
    assert ContainerRecord(k, seqNo, at, pad) == k.rest + [Integer(seqNo)] + [Text(at)] + [Padding(pad)];
  }

  function CommentRecord(r: CommentRow, body: seq<Byte>, seqNo: int, at: seq<Byte>, pad: nat): seq<Value> {
    r.rest + [Blob(body), Integer(seqNo), Text(at), Padding(pad)]
  }

  lemma CommentParts(r: CommentRow, body: seq<Byte>, seqNo: nat, at: seq<Byte>, pad: nat, order: C.Order)
    requires at == [] || C.Timestamp(at)
    ensures var e := Encoding(order);
      Header(CommentRecord(r, body, seqNo, at, pad), e) ==
      Header(r.rest, e) + Varint(12 + 2 * |body|) + 2 + Varint(12 + 2 * pad)
    ensures var e := Encoding(order);
      Body(CommentRecord(r, body, seqNo, at, pad), e) ==
      Body(r.rest, e) + |body| + CounterBytes(seqNo) + TextBytes(at, order) + pad
  {
    hide Header, Body, Varint, CounterBytes, IntegerBytes, C.Timestamp;
    var e := Encoding(order);
    CounterBytesIsColumnWidth(seqNo, seqNo);
    SmallSerials(seqNo, at, order);
    AppendColumn(r.rest, Blob(body), e);
    AppendColumn(r.rest + [Blob(body)], Integer(seqNo), e);
    AppendColumn(r.rest + [Blob(body)] + [Integer(seqNo)], Text(at), e);
    AppendColumn(r.rest + [Blob(body)] + [Integer(seqNo)] + [Text(at)], Padding(pad), e);
    assert CommentRecord(r, body, seqNo, at, pad) ==
      r.rest + [Blob(body)] + [Integer(seqNo)] + [Text(at)] + [Padding(pad)];
  }

  /** The container's row once counted up, before its padding is chosen, and the least padding it may take. */
  function AdvancedRow(k: ContainerRow, now: seq<Byte>): ContainerRow {
    k.(seqNo := k.seqNo + 1, updatedAt := now)
  }

  function LeastPad(k: ContainerRow): int {
    k.pad - (CounterBytes(k.seqNo + 1) - CounterBytes(k.seqNo))
  }

  /** The search for the counted-up row's padding is stuck. */
  predicate AdvanceStuck(k: ContainerRow, now: seq<Byte>, order: C.Order, u: Usable) {
    0 <= LeastPad(k) &&
    Stuck(ContainerValues(k), ContainerValues(AdvancedRow(k, now)), |k.rest| + 2, LeastPad(k), Encoding(order), u)
  }

  /** The search for the tombstone's padding is stuck. */
  predicate TombstoneStuck(r: CommentRow, seqNo: int, now: seq<Byte>, order: C.Order, u: Usable) {
    Stuck(CommentValues(r), CommentValues(r.(deletedAt := now, body := [], seqNo := seqNo)), |r.rest| + 3, 0,
      Encoding(order), u)
  }

  /** What the counter grows by, the padding gives: the least record is no larger than the row, and just as large
      when the padding's own header keeps its width. */
  lemma AdvanceIsFunded(k: ContainerRow, now: seq<Byte>, order: C.Order)
    requires C.Timestamp(now) && C.Timestamp(k.updatedAt) && 0 <= k.seqNo && 64 <= k.pad + CounterBytes(k.seqNo)
    ensures 0 <= LeastPad(k) <= k.pad
    ensures var e := Encoding(order);
      var least := RecordBytes(ContainerValues(AdvancedRow(k, now))[|k.rest| + 2 := Padding(LeastPad(k))], e);
      least <= RecordBytes(ContainerValues(k), e) &&
      (Varint(12 + 2 * LeastPad(k)) == Varint(12 + 2 * k.pad) ==> least == RecordBytes(ContainerValues(k), e))
  {
    hide RecordBytes, Header, Body, CounterBytes, TextBytes, Varint;
    CounterBytesIsColumnWidth(k.seqNo, k.seqNo + 1);
    CounterBytesIsColumnWidth(k.seqNo + 1, k.seqNo + 1);
    PlainText(now, order);
    PlainText(k.updatedAt, order);
    var minimum, was, row := LeastPad(k), ContainerValues(k), ContainerValues(AdvancedRow(k, now));
    assert was == ContainerRecord(k, k.seqNo, k.updatedAt, k.pad);
    assert row[|k.rest| + 2 := Padding(minimum)] == ContainerRecord(k, k.seqNo + 1, now, minimum);
    ContainerParts(k, k.seqNo, k.updatedAt, k.pad, order);
    ContainerParts(k, k.seqNo + 1, now, minimum, order);
    VarintMonotone(12 + 2 * minimum, 12 + 2 * k.pad);
    RecordMonotone(row[|k.rest| + 2 := Padding(minimum)], was, Encoding(order));
    if Varint(12 + 2 * minimum) == Varint(12 + 2 * k.pad) {
      RecordMonotone(was, row[|k.rest| + 2 := Padding(minimum)], Encoding(order));
    }
  }

  /** A live container's counter advances exactly when it is not at its last value and the search is not stuck. */
  lemma AdvanceFailsIff(s: State, c: ContainerId, now: seq<Byte>)
    requires 480 <= s.usable && C.Timestamp(now) && c in s.containers && !s.containers[c].deleted && ContainerOk(s, c)
    ensures var k := s.containers[c];
      Advance(s, c, now).Ok? <==> k.seqNo < MAX_SEQ && !AdvanceStuck(k, now, s.order, s.usable)
  {
    hide RecordBytes, ChosenPad, CounterBytes, TextBytes, Varint, Stuck, ContainerValues;
    var k := s.containers[c];
    CounterBytesIsColumnWidth(k.seqNo, k.seqNo + 1);
    PlainText(now, s.order);
    PlainText(k.updatedAt, s.order);
    AdvanceIsFunded(k, now, s.order);
    ContainerWidth(AdvancedRow(k, now));
    SearchFailsIffStuck(ContainerValues(k), ContainerValues(AdvancedRow(k, now)), |k.rest| + 2, LeastPad(k),
      Encoding(s.order), s.usable);
  }

  lemma ContainerWidth(k: ContainerRow)
    ensures |ContainerValues(k)| == |k.rest| + 3
  {
  }

  /** It never is while the padding's header keeps its width: while the padding is below 8186 bytes, only a counter
      passing 2^47 - 1 with 58 or 59 bytes left can change that. */
  lemma AdvanceSeldomStuck(k: ContainerRow, now: seq<Byte>, order: C.Order, u: Usable)
    requires 480 <= u && C.Timestamp(now) && C.Timestamp(k.updatedAt) && 0 <= k.seqNo &&
      64 <= k.pad + CounterBytes(k.seqNo)
    requires Varint(12 + 2 * LeastPad(k)) == Varint(12 + 2 * k.pad) ||
      (k.pad < 8186 && (k.seqNo == 0x7FFF_FFFF_FFFF ==> 60 <= k.pad)) ||
        RecordBytes(ContainerValues(k), Encoding(order)) <= MaxLocal(u)
    ensures !AdvanceStuck(k, now, order, u)
  {
    hide RecordBytes, TextBytes, C.Timestamp;
    AdvanceIsFunded(k, now, order);
    if RecordBytes(ContainerValues(k), Encoding(order)) > MaxLocal(u) &&
        Varint(12 + 2 * LeastPad(k)) != Varint(12 + 2 * k.pad)
    {
      OneWidth(k);
    }
    hide CounterBytes, Varint, ContainerValues, NonGrowing;
  }

  lemma OneWidth(k: ContainerRow)
    requires 0 <= k.seqNo && 64 <= k.pad + CounterBytes(k.seqNo) && k.pad < 8186 &&
      (k.seqNo == 0x7FFF_FFFF_FFFF ==> 60 <= k.pad)
    ensures Varint(12 + 2 * LeastPad(k)) == Varint(12 + 2 * k.pad)
  {
    assert 12 + 2 * k.pad < 16384;
    TwoByteVarint(12 + 2 * LeastPad(k));
    TwoByteVarint(12 + 2 * k.pad);
    hide Varint;
  }

  lemma TwoByteVarint(n: nat)
    requires n < 16384
    ensures Varint(n) == if n < 128 then 1 else 2
  {
  }

  /** Without its body and padding, and with its growth, the comment's row is no larger. */
  lemma TombstoneIsFunded(r: CommentRow, seqNo: int, now: seq<Byte>, order: C.Order)
    requires C.Timestamp(now) && r.deletedAt == [] && r.pad == 64 && 0 <= r.seqNo && 0 <= seqNo
    ensures var e := Encoding(order);
      RecordBytes(CommentValues(r.(deletedAt := now, body := [], seqNo := seqNo))[|r.rest| + 3 := Padding(0)],
        e) <= RecordBytes(CommentValues(r), e)
  {
    hide RecordBytes, Header, Body, CounterBytes, TextBytes, Varint;
    CounterBytesIsColumnWidth(r.seqNo, r.seqNo);
    CounterBytesIsColumnWidth(seqNo, seqNo);
    PlainText(now, order);
    var was, row := CommentValues(r), CommentValues(r.(deletedAt := now, body := [], seqNo := seqNo));
    assert was == CommentRecord(r, r.body, r.seqNo, [], r.pad);
    assert row[|r.rest| + 3 := Padding(0)] == CommentRecord(r, [], seqNo, now, 0);
    CommentParts(r, r.body, r.seqNo, [], r.pad, order);
    CommentParts(r, [], seqNo, now, 0, order);
    VarintMonotone(12, 12 + 2 * r.pad);
    VarintMonotone(12, 12 + 2 * |r.body|);
    RecordMonotone(row[|r.rest| + 3 := Padding(0)], was, Encoding(order));
  }

  /** A live comment's tombstone fits exactly when the search is not stuck. */
  lemma TombstoneFailsIff(s: State, id: SourceId, now: seq<Byte>, seqNo: int)
    requires 480 <= s.usable && C.Timestamp(now) && id in s.comments && s.comments[id].deletedAt == [] &&
      CommentOk(s, id)
    requires 0 <= seqNo <= MAX_SEQ
    ensures Tombstone(s, id, now, seqNo).Ok? <==> !TombstoneStuck(s.comments[id], seqNo, now, s.order, s.usable)
  {
    hide RecordBytes, ChosenPad, CounterBytes, TextBytes, Stuck, HasSlot, CommentValues;
    var r := s.comments[id];
    var next := r.(deletedAt := now, body := [], seqNo := seqNo);
    CounterBytesIsColumnWidth(r.seqNo, r.seqNo);
    CounterBytesIsColumnWidth(seqNo, seqNo);
    PlainText(now, s.order);
    TombstoneIsFunded(r, seqNo, now, s.order);
    CommentWidth(next);
    SearchFailsIffStuck(CommentValues(r), CommentValues(next), |r.rest| + 3, 0, Encoding(s.order), s.usable);
  }

  lemma CommentWidth(r: CommentRow)
    ensures |CommentValues(r)| == |r.rest| + 4
  {
  }

  /** It never is when the comment's row is inline, or two bytes past a wrap, or gives back a whole cycle and a byte,
      or its tombstone is within what any leaf keeps. */
  lemma TombstoneSeldomStuck(r: CommentRow, seqNo: int, now: seq<Byte>, order: C.Order, u: Usable)
    requires 480 <= u && C.Timestamp(now) && r.deletedAt == [] && r.pad == 64 && 0 <= r.seqNo && 0 <= seqNo
    requires var before := RecordBytes(CommentValues(r), Encoding(order));
      var least := RecordBytes(CommentRecord(r, [], seqNo, now, 0), Encoding(order));
      before <= MaxLocal(u) || 2 <= Past(before, u) || least + Cycle(u) + 1 <= before || least <= MinLocal(u) + 4
    ensures !TombstoneStuck(r, seqNo, now, order, u)
  {
    hide RecordBytes, NonGrowing, C.Timestamp, Past;
    var before := RecordBytes(CommentValues(r), Encoding(order));
    var least := RecordBytes(CommentRecord(r, [], seqNo, now, 0), Encoding(order));
    TombstoneIsFunded(r, seqNo, now, order);
    assert CommentValues(r.(deletedAt := now, body := [], seqNo := seqNo))[|r.rest| + 3 := Padding(0)] ==
      CommentRecord(r, [], seqNo, now, 0);
    if before > MaxLocal(u) && least <= MinLocal(u) + 4 {
      MinimumLeafFits(least, before, u);
    }
  }

  lemma LinkParts(r: LinkRow, at: seq<Byte>, pad: nat, order: C.Order)
    requires at == [] || C.Timestamp(at)
    ensures var e := Encoding(order);
      Header(r.rest + [Text(at), Padding(pad)], e) == Header(r.rest, e) + 1 + Varint(12 + 2 * pad)
    ensures var e := Encoding(order);
      Body(r.rest + [Text(at), Padding(pad)], e) == Body(r.rest, e) + TextBytes(at, order) + pad
  {
    hide Header, Body, Varint, IntegerBytes, C.Timestamp;
    var e := Encoding(order);
    SmallSerials(0, at, order);
    AppendColumn(r.rest, Text(at), e);
    AppendColumn(r.rest + [Text(at)], Padding(pad), e);
    assert r.rest + [Text(at), Padding(pad)] == r.rest + [Text(at)] + [Padding(pad)];
  }

  /** A live sealed link's row takes its revocation in any layout: the time goes where as much padding was. */
  lemma RevokeRowNeverFails(s: State, id: SourceId, owner: seq<Byte>, now: seq<Byte>)
    requires C.Timestamp(now) && id in s.links && s.links[id].owner == owner && s.links[id].revokedAt == [] &&
      LinkOk(s, id)
    ensures Revoke(s, id, owner, now).Ok?
  {
    hide RecordBytes, Header, Body, ChosenPad, TextBytes, Varint, HasSlot, Fits;
    var r, e := s.links[id], Encoding(s.order);
    PlainText(now, s.order);
    EmptyText(s.order);
    var minimum := r.pad - TextBytes(now, s.order);
    var was, row := LinkValues(r), LinkValues(r.(revokedAt := now));
    assert row[|r.rest| + 1 := Padding(minimum)] == r.rest + [Text(now), Padding(minimum)];
    LinkParts(r, [], r.pad, s.order);
    LinkParts(r, now, minimum, s.order);
    TwoByteVarint(12 + 2 * r.pad);
    TwoByteVarint(12 + 2 * minimum);
    RecordMonotone(row[|r.rest| + 1 := Padding(minimum)], was, e);
    RecordMonotone(was, row[|r.rest| + 1 := Padding(minimum)], e);
    SameSizeFits(was, row, |r.rest| + 1, minimum, e, s.usable);
  }

  lemma EmptyText(order: C.Order)
    ensures TextBytes([], order) == 0
  {
  }

  lemma SameSizeFits(was: seq<Value>, row: seq<Value>, i: nat, minimum: nat, encoding: nat, u: Usable)
    requires i < |row| && RecordBytes(row[i := Padding(minimum)], encoding) == RecordBytes(was, encoding)
    ensures ChosenPad(was, row, i, minimum, encoding, u).Some?
  {
    hide RecordBytes, Cell, Overflow;
    assert Fits(was, row, i, minimum, encoding, u);
  }

  /** The columns of a comment besides those a deletion touches: four IDs, a generation and a timestamp, with no
      text longer than a minted ID. */
  predicate ServerColumns(rest: seq<Value>) {
    |rest| == 6 && (forall i :: 0 <= i < 6 && i != 4 ==> rest[i].Text? && |rest[i].text| <= MINTED_ID) &&
      rest[4].Integer?
  }

  predicate Short(v: Value, encoding: nat) {
    ContentBytes(v, encoding) <= 60 && Varint(Serial(v, encoding)) <= 2
  }

  lemma ServerColumnIsShort(v: Value, order: C.Order)
    requires v.Integer? || (v.Text? && |v.text| <= MINTED_ID)
    ensures Short(v, Encoding(order))
  {
    if v.Text? {
      UnitsAtMostBytes(v.text);
      TwoByteVarint(Serial(v, Encoding(order)));
    }
  }

  lemma {:induction false} ShortColumnsSum(vs: seq<Value>, encoding: nat)
    requires forall v <- vs :: Short(v, encoding)
    ensures Header(vs, encoding) <= 2 * |vs| && Body(vs, encoding) <= 60 * |vs|
  {
    hide Varint, Serial, ContentBytes;
    if vs != [] {
      ShortColumnsSum(vs[..|vs| - 1], encoding);
      assert Short(vs[|vs| - 1], encoding);
    }
  }

  /** On pages with 3551 usable bytes or more the tombstone of any comment the server wrote is within what a leaf
      keeps, so its search is never stuck. */
  lemma ServerTombstoneFits(r: CommentRow, seqNo: int, now: seq<Byte>, order: C.Order, u: Usable)
    requires 3551 <= u && ServerColumns(r.rest)
    requires C.Timestamp(now) && r.deletedAt == [] && r.pad == 64 && 0 <= r.seqNo && 0 <= seqNo
    ensures !TombstoneStuck(r, seqNo, now, order, u)
  {
    hide RecordBytes, Header, Body, Varint, C.Timestamp, TextBytes, CounterBytes, Past, Short, TombstoneStuck;
    forall v | v in r.rest ensures Short(v, Encoding(order)) {
      ServerColumnIsShort(v, order);
    }
    ShortColumnsSum(r.rest, Encoding(order));
    PlainText(now, order);
    CounterBytesIsColumnWidth(seqNo, seqNo);
    CommentParts(r, [], seqNo, now, 0, order);
    TwoByteVarint(12);
    LeastTombstone(CommentRecord(r, [], seqNo, now, 0), Encoding(order));
    TombstoneSeldomStuck(r, seqNo, now, order, u);
  }

  lemma LeastTombstone(vs: seq<Value>, encoding: nat)
    requires Header(vs, encoding) <= 16 && Body(vs, encoding) <= 408
    ensures RecordBytes(vs, encoding) <= 425
  {
    hide Header, Body;
    ShortHeader(Header(vs, encoding), Body(vs, encoding));
  }

  /** The columns of a notebook besides those a deletion touches. */
  function NotebookColumns(id: seq<Byte>, kind: seq<Byte>, owner: seq<Byte>, team: seq<Byte>, generation: int,
      meta: seq<Byte>, metaVersion: int, created: seq<Byte>, shared: int): seq<Value> {
    [Text(id), Text(kind), Text(owner), Text(team), Integer(generation), Blob(meta), Integer(metaVersion),
      Text(created),
      Text([]), Integer(shared)]
  }

  const SOME_ID := C.Ascii("cnt_00000000000000000000000000")
  const SOME_TIME := C.Ascii("2026-01-01T00:00:00Z")
  const META := C.Spaces(3871)

  /** A project with 3871 bytes of sealed name and settings, of the 4096 the server takes. */
  const STUCK_COUNTER :=
    ContainerRow(false, 0x7FFF_FFFF_FFFF, [], 59,
      NotebookColumns(SOME_ID, C.Ascii("project"), SOME_ID, [], 2, META, 2, SOME_TIME, 2))

  /** Wider in its other columns than any comment the server writes. */
  const STUCK_COMMENT := CommentRow(0, [0, 0, 0, 0, 0, 0, 0, 0, 0, 0, 0, 0, 0], 2, [], 64, [Padding(3976)])

  /** What column n of that row adds to the content. */
  function CounterColumn(n: nat): nat {
    if n == 0 || n == 2 then 30 else if n == 1 then 7 else if n == 5 then 3871 else if n == 7 then 20
    else if n == 3 || n == 8 then 0 else 1
  }

  lemma ColumnSizes(n: nat)
    requires n < 10
    ensures Varint(Serial(STUCK_COUNTER.rest[n], 1)) == if n == 5 then 2 else 1
    ensures ContentBytes(STUCK_COUNTER.rest[n], 1) == CounterColumn(n)
  {
    assert |SOME_ID| == 30 && |SOME_TIME| == 20 && |C.Ascii("project")| == 7 && |META| == 3871;
    hide C.Ascii, C.Spaces;
  }

  function SumTo(n: nat): nat {
    if n == 0 then 0 else SumTo(n - 1) + CounterColumn(n - 1)
  }

  /** Header and body of a row's first n columns. */
  lemma {:induction false} CounterColumns(n: nat)
    requires n <= 10
    ensures Header(STUCK_COUNTER.rest[..n], 1) == n + (if n < 6 then 0 else 1)
    ensures Body(STUCK_COUNTER.rest[..n], 1) == SumTo(n)
  {
    hide Varint, Serial, ContentBytes, CounterColumn, NotebookColumns;
    if n > 0 {
      CounterColumns(n - 1);
      ColumnSizes(n - 1);
      assert |STUCK_COUNTER.rest| == 10 by { TenColumns(); }
      assert STUCK_COUNTER.rest[..n][..n - 1] == STUCK_COUNTER.rest[..n - 1];
    }
  }

  lemma TenColumns()
    ensures |STUCK_COUNTER.rest| == 10 && SumTo(10) == 3961
  {
    assert SumTo(2) == 37 && SumTo(4) == 67 && SumTo(6) == 3939 && SumTo(8) == 3960;
  }

  lemma OneColumn(n: nat, encoding: nat)
    requires 58 <= n < 8186
    ensures Header([Padding(n)], encoding) == 2 && Body([Padding(n)], encoding) == n
  {
    AppendColumn([], Padding(n), encoding);
    TwoByteVarint(12 + 2 * n);
    assert [] + [Padding(n)] == [Padding(n)];
    hide Varint;
  }

  lemma ShortHeader(header: nat, body: nat)
    requires header < 127
    ensures SizeOf(header, body) == header + body + 1
  {
  }

  /** On pages of 4096 bytes a record of 4062 bytes is the first to fall back, and takes neither of these. */
  lemma AtTheWrap()
    ensures MaxLocal(4096) == 4061 && Past(4062, 4096) == 0
    ensures !NonGrowing(4061, 4062, 4096) && !NonGrowing(4004, 4062, 4096)
  {
  }

  lemma CounterSizes(at: seq<Byte>, seqNo: int, pad: nat)
    requires C.Timestamp(at) && (seqNo == 0x7FFF_FFFF_FFFF || seqNo == 0x8000_0000_0000) && pad < 8186
    ensures RecordBytes(ContainerRecord(STUCK_COUNTER, seqNo, at, pad), 1) ==
      (if pad < 58 then 1 else 2) + pad + (if seqNo == 0x7FFF_FFFF_FFFF then 4001 else 4003)
  {
    hide Varint, Header, Body, C.Timestamp, TextBytes, SizeOf;
    TenColumns();
    CounterColumns(10);
    assert STUCK_COUNTER.rest[..10] == STUCK_COUNTER.rest;
    PlainText(at, C.Utf8Order);
    ContainerParts(STUCK_COUNTER, seqNo, at, pad, C.Utf8Order);
    TwoByteVarint(12 + 2 * pad);
    var k := ContainerRecord(STUCK_COUNTER, seqNo, at, pad);
    ShortHeader(Header(k, 1), Body(k, 1));
  }

  /** The counter's search can be stuck: passing 2^47 - 1 with 59 bytes of padding left, at the wrap. */
  lemma CounterMayBeStuck(at: seq<Byte>, now: seq<Byte>)
    requires C.Timestamp(at) && C.Timestamp(now)
    ensures AdvanceStuck(STUCK_COUNTER.(updatedAt := at), now, C.Utf8Order, 4096)
    ensures 64 <= STUCK_COUNTER.pad + CounterBytes(STUCK_COUNTER.seqNo)
  {
    hide RecordBytes, NonGrowing, C.Timestamp, Past, MaxLocal, StepsOver;
    var k := STUCK_COUNTER.(updatedAt := at);
    var row := ContainerValues(AdvancedRow(k, now));
    AtTheWrap();
    assert ContainerValues(k) == ContainerRecord(STUCK_COUNTER, k.seqNo, at, 59);
    CounterSizes(at, k.seqNo, 59);
    forall q: nat | q < 8186
      ensures RecordBytes(row[12 := Padding(q)], 1) == (if q < 58 then 1 else 2) + q + 4003
    {
      assert row[12 := Padding(q)] == ContainerRecord(STUCK_COUNTER, k.seqNo + 1, now, q);
      CounterSizes(now, k.seqNo + 1, q);
    }
    forall q: nat | 57 <= q ensures RecordBytes(row[12 := Padding(q)], 1) != 4062 {
      if q >= 58 {
        PaddingOnlyGrows(row, 12, 58, q, 1);
      }
    }
    StepsOverIff(row, 12, 57, 4062, 4062, 1);
  }

  lemma TombstoneSizes(body: seq<Byte>, seqNo: int, at: seq<Byte>, pad: nat)
    requires (at == [] && |body| == 13) || (C.Timestamp(at) && body == [])
    requires seqNo == 2 || seqNo == 3
    requires pad < 8186
    ensures RecordBytes(CommentRecord(STUCK_COMMENT, body, seqNo, at, pad), 1) ==
      (if pad < 58 then 1 else 2) + pad + (if at == [] then 3996 else 4003)
  {
    assert at == [] <==> |body| == 13;
    hide Varint, Header, Body, C.Timestamp, TextBytes, SizeOf;
    OneColumn(3976, 1);
    if at == [] {
      EmptyText(C.Utf8Order);
    } else {
      PlainText(at, C.Utf8Order);
    }
    CommentParts(STUCK_COMMENT, body, seqNo, at, pad, C.Utf8Order);
    TwoByteVarint(12 + 2 * pad);
    TwoByteVarint(12 + 2 * |body|);
    var r := CommentRecord(STUCK_COMMENT, body, seqNo, at, pad);
    ShortHeader(Header(r, 1), Body(r, 1));
  }

  /** So can the row search for a comment of that width, with no counter widening. */
  lemma TombstoneMayBeStuck(now: seq<Byte>)
    requires C.Timestamp(now)
    ensures TombstoneStuck(STUCK_COMMENT, 3, now, C.Utf8Order, 4096)
  {
    assert now != [];
    hide RecordBytes, NonGrowing, C.Timestamp, Past, MaxLocal, StepsOver;
    var r := STUCK_COMMENT;
    var row := CommentValues(r.(deletedAt := now, body := [], seqNo := 3));
    AtTheWrap();
    assert CommentValues(r) == CommentRecord(r, r.body, 2, [], 64);
    TombstoneSizes(r.body, 2, [], 64);
    forall q: nat | q < 8186
      ensures RecordBytes(row[4 := Padding(q)], 1) == (if q < 58 then 1 else 2) + q + 4003
    {
      assert row[4 := Padding(q)] == CommentRecord(r, [], 3, now, q);
      TombstoneSizes([], 3, now, q);
    }
    forall q: nat ensures RecordBytes(row[4 := Padding(q)], 1) != 4062 {
      if q >= 58 {
        PaddingOnlyGrows(row, 4, 58, q, 1);
      }
    }
    StepsOverIff(row, 4, 0, 4062, 4062, 1);
  }

  /** Any user's record goes into any unfilled slot. */
  lemma FillNeverFails(s: State, kind: Kind, id: SourceId, actor: seq<Byte>, request: seq<Byte>, now: seq<Byte>)
    requires HasSlot(s, kind, id, true) && Roomy(s.slots[id].payload, s.users, s.order) && C.Timestamp(now) &&
      |request| <= 128 && actor in s.users
    ensures Fill(s, kind, id, actor, request, now).Ok?
  {
    hide C.Unfilled, C.PaddedJson, C.RecordJson, C.SlotSize;
    WholeIsNotRagged(|s.slots[id].payload|, s.order);
    C.RecordFits(actor, request, now, Longest(s.users), |s.slots[id].payload|, s.order);
  }

  /**
   * Every reservation is enough but for the layout: deleting a live comment of a live container succeeds, for any
   * user, request ID and time, exactly when the counter is not at its last value and neither search is stuck.
   */
  lemma DeletionFailsIff(s: State, id: SourceId, actor: seq<Byte>, request: seq<Byte>, now: seq<Byte>)
    requires Inv(s) && 480 <= s.usable && C.Timestamp(now) && |request| <= 128 && actor in s.users
    requires id in s.comments && s.comments[id].deletedAt == [] && !s.containers[s.comments[id].container].deleted
    ensures var r, k := s.comments[id], s.containers[s.comments[id].container];
      DeleteComment(s, id, actor, request, now).Ok? <==>
        k.seqNo < MAX_SEQ && !AdvanceStuck(k, now, s.order, s.usable) &&
          !TombstoneStuck(r, k.seqNo + 1, now, s.order, s.usable)
  {
    hide Advance, Tombstone, Fill, CounterBytes, AdvanceStuck, TombstoneStuck, Roomy, C.Unfilled, C.Timestamp;
    hide IsRecord, LinkOk;
    var c := s.comments[id].container;
    assert CommentOk(s, id) && ContainerOk(s, c) && SlotOk(s, id);
    AdvanceFailsIff(s, c, now);
    if Advance(s, c, now).Ok? {
      AdvanceShape(s, c, now);
      var advanced := Advance(s, c, now).value;
      assert CommentOk(advanced, id);
      TombstoneFailsIff(advanced, id, now, advanced.containers[c].seqNo);
      if Tombstone(advanced, id, now, advanced.containers[c].seqNo).Ok? {
        TombstoneShape(advanced, id, now, advanced.containers[c].seqNo);
        FillNeverFails(Tombstone(advanced, id, now, advanced.containers[c].seqNo).value, CommentSlot, id, actor,
          request, now);
      }
    }
  }

  lemma TombstoneShape(s: State, id: SourceId, now: seq<Byte>, seqNo: int)
    requires Tombstone(s, id, now, seqNo).Ok?
    ensures var s' := Tombstone(s, id, now, seqNo).value; s' == s.(comments := s'.comments)
  {
    hide ChosenPad, TombstoneGrowth, CommentValues;
  }

  /** So it does unless one of the rows is spilled, and the counter is then passing 2^47 - 1 or its padding is as
      large as 8186 bytes, or the comment's record is at most a byte past a wrap and gives back less than a cycle. */
  lemma DeletionNeverFails(s: State, id: SourceId, actor: seq<Byte>, request: seq<Byte>, now: seq<Byte>)
    requires Inv(s) && 480 <= s.usable && C.Timestamp(now) && |request| <= 128 && actor in s.users
    requires id in s.comments && s.comments[id].deletedAt == [] && !s.containers[s.comments[id].container].deleted
    requires var r, k, e := s.comments[id], s.containers[s.comments[id].container], Encoding(s.order);
      var before, least := RecordBytes(CommentValues(r), e), RecordBytes(CommentRecord(r, [], k.seqNo + 1, now, 0), e);
      && k.seqNo < MAX_SEQ
      && (RecordBytes(ContainerValues(k), e) <= MaxLocal(s.usable) ||
        (k.pad < 8186 && (k.seqNo == 0x7FFF_FFFF_FFFF ==> 60 <= k.pad)))
      && (before <= MaxLocal(s.usable) || 2 <= Past(before, s.usable) || least + Cycle(s.usable) + 1 <= before ||
          least <= MinLocal(s.usable) + 4)
    ensures DeleteComment(s, id, actor, request, now).Ok?
  {
    hide DeleteComment, AdvanceStuck, TombstoneStuck, RecordBytes, Past, C.Timestamp, HasSlot, SlotOk, LinkOk;
    var r, k := s.comments[id], s.containers[s.comments[id].container];
    assert CommentOk(s, id) && ContainerOk(s, r.container);
    DeletionFailsIff(s, id, actor, request, now);
    AdvanceSeldomStuck(k, now, s.order, s.usable);
    TombstoneSeldomStuck(r, k.seqNo + 1, now, s.order, s.usable);
  }

  /** So a comment the server wrote, on pages of its size, can be deleted exactly when its notebook's counter can
      advance. */
  lemma ServerDeletionFailsIff(s: State, id: SourceId, actor: seq<Byte>, request: seq<Byte>, now: seq<Byte>)
    requires Inv(s) && 3551 <= s.usable && C.Timestamp(now) && |request| <= 128 && actor in s.users
    requires id in s.comments && s.comments[id].deletedAt == [] && !s.containers[s.comments[id].container].deleted
    requires ServerColumns(s.comments[id].rest)
    ensures var k := s.containers[s.comments[id].container];
      DeleteComment(s, id, actor, request, now).Ok? <==> k.seqNo < MAX_SEQ && !AdvanceStuck(k, now, s.order, s.usable)
  {
    hide DeleteComment, AdvanceStuck, TombstoneStuck, ServerColumns, C.Timestamp, HasSlot, SlotOk, LinkOk;
    var r, k := s.comments[id], s.containers[s.comments[id].container];
    assert CommentOk(s, id) && ContainerOk(s, r.container);
    DeletionFailsIff(s, id, actor, request, now);
    ServerTombstoneFits(r, k.seqNo + 1, now, s.order, s.usable);
  }

  const SOME_COMMENT := [Text(SOME_ID), Text(SOME_ID), Text(SOME_ID), Text(SOME_ID), Integer(2), Text(SOME_TIME)]

  function ReservedSlots(size: nat): map<SourceId, Slot> {
    var payload := C.PaddedJson(C.NULL, size, C.Utf8Order);
    if payload.Ok? then map[1 := Slot(CommentSlot, Some(0), payload.value)] else map[]
  }

  /** One comment, as the server writes it, in the notebook whose counter is stuck. */
  function StuckState(actor: seq<Byte>, at: seq<Byte>): State {
    var size := C.SlotSize(Longest([actor]), C.Utf8Order);
    State(C.Utf8Order, 4096, size, [actor], map[0 := STUCK_COUNTER.(updatedAt := at)],
      map[1 := CommentRow(0, [1], 2, [], 64, SOME_COMMENT)], map[], ReservedSlots(size))
  }

  lemma NullFits(actor: nat)
    ensures C.PaddedJson(C.NULL, C.SlotSize(actor, C.Utf8Order), C.Utf8Order).Ok?
  {
    C.NullBytes();
  }

  lemma StuckStateIsSound(actor: seq<Byte>, at: seq<Byte>)
    requires C.Timestamp(at)
    ensures Inv(StuckState(actor, at))
  {
    hide C.PaddedJson, C.SlotSize, C.Timestamp, C.Unfilled, IsRecord, NotebookColumns, Longest;
    var s := StuckState(actor, at);
    NullFits(Longest([actor]));
    var before := s.(slots := map[]);
    assert before.slots[1 := s.slots[1]] == s.slots;
    assert Reserve(before, CommentSlot, 1, Some(0)) == Ok(s);
    ReserveShape(before, CommentSlot, 1, Some(0));
  }

  lemma SomeCommentIsServers()
    ensures ServerColumns(SOME_COMMENT)
  {
    hide C.Ascii;
  }

  /** A reserved deletion can fail, but only there: in this state nobody can delete the comment, at any time. */
  lemma CounterStopsDeletion(actor: seq<Byte>, at: seq<Byte>, request: seq<Byte>, now: seq<Byte>)
    requires C.Timestamp(at) && C.Timestamp(now) && |request| <= 128
    ensures var s := StuckState(actor, at);
      && Inv(s) && 1 in s.comments && s.comments[1].deletedAt == [] && ServerColumns(s.comments[1].rest)
      && |META| <= 4096 && actor in s.users && DeleteComment(s, 1, actor, request, now).Err?
  {
    hide Inv, DeleteComment, AdvanceStuck, TombstoneStuck, C.Timestamp, C.SlotSize, ReservedSlots, Longest;
    hide NotebookColumns, ServerColumns, HasSlot, C.Ascii, C.Spaces;
    SomeCommentIsServers();
    StuckStateIsSound(actor, at);
    CounterMayBeStuck(at, now);
    ServerDeletionFailsIff(StuckState(actor, at), 1, actor, request, now);
  }

  /** Revoking a live sealed link never fails for its owner, whatever the layout. */
  lemma RevocationNeverFails(s: State, id: SourceId, owner: seq<Byte>, request: seq<Byte>, now: seq<Byte>)
    requires Inv(s) && C.Timestamp(now) && |request| <= 128 && owner in s.users
    requires id in s.links && s.links[id].owner == owner && s.links[id].revokedAt == []
    ensures RevokeLink(s, id, owner, request, now).Ok?
  {
    hide Fill, ChosenPad, TextBytes, LinkValues, Roomy, C.Unfilled, C.Timestamp, IsRecord, CommentOk, ContainerOk;
    assert LinkOk(s, id) && SlotOk(s, id);
    RevokeRowNeverFails(s, id, owner, now);
    FillNeverFails(Revoke(s, id, owner, now).value, LinkSlot, id, owner, request, now);
  }

  /** VerifyCleanupReservations, but for parsing the records of filled slots. */
  ghost predicate Verifies(s: State) {
    && (forall id <- s.slots ::
      s.slots[id].payload != [] && |s.slots[id].payload| % 64 == 0 && C.DecodedJson(s.slots[id].payload, s.order).Ok?)
    && (forall id <- s.comments :: s.comments[id].deletedAt == [] ==> HasSlot(s, CommentSlot, id, true))
    && (forall id <- s.links :: s.links[id].revokedAt == [] ==> HasSlot(s, LinkSlot, id, true))
  }

  /** What the verification at migration and restore demands, every run keeps; and no slot is orphaned. */
  lemma ReservationsVerify(ss: seq<State>, ops: seq<Op>, i: nat)
    requires Run(ss, ops) && i < |ss|
    ensures Verifies(ss[i])
    ensures forall id <- ss[i].slots :: C.Unfilled(ss[i].slots[id].payload, ss[i].order) <==>
      LiveSource(ss[i], ss[i].slots[id].kind, id)
  {
    hide C.Unfilled, C.SlotSize, C.PaddedJson, C.RecordJson, ContainerOk;
    RunKeepsInv(ss, ops, i);
    var s := ss[i];
    forall id | id in s.comments ensures CommentOk(s, id) {
    }
    forall id | id in s.links ensures LinkOk(s, id) {
    }
    forall id | id in s.slots
      ensures s.slots[id].payload != [] && |s.slots[id].payload| % 64 == 0 &&
        C.DecodedJson(s.slots[id].payload, s.order).Ok?
      ensures C.Unfilled(s.slots[id].payload, s.order) <==> LiveSource(s, s.slots[id].kind, id)
    {
      assert SlotOk(s, id);
      SlotDecodes(s, id);
    }
  }

  lemma SlotDecodes(s: State, id: SourceId)
    requires id in s.slots && SlotOk(s, id)
    ensures s.slots[id].payload != [] && C.DecodedJson(s.slots[id].payload, s.order).Ok?
  {
    hide C.RecordJson, C.PaddedJson, C.SlotSize;
    var payload := s.slots[id].payload;
    if C.Unfilled(payload, s.order) {
      SlotSizeIsWhole(Longest(s.users), s.order);
    } else {
      var actor, request, at :| C.PaddedJson(C.RecordJson(actor, request, at), |payload|, s.order) == Ok(payload);
      C.PaddedReadsBack(C.RecordJson(actor, request, at), |payload|, s.order);
      C.RecordOpens(actor, request, at);
      C.EncodedKeepsSomething(C.RecordJson(actor, request, at), s.order);
      PaddedAtLeast(C.RecordJson(actor, request, at), |payload|, s.order);
    }
  }

  lemma PaddedAtLeast(raw: seq<Byte>, size: nat, order: C.Order)
    requires C.PaddedJson(raw, size, order).Ok?
    ensures |C.Encoded(raw, order)| <= size
  {
  }
}
