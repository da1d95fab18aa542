/** What the audit slots say: every filled one names the caller of the deletion that filled it. */
module CleanupAudit {
  import opened Outcome
  import opened Utf
  import opened CellLayout
  import opened CleanupSlots
  import opened CleanupRecord
  import C = CleanupCodec

  /** The slot's payload reads back as this record. */
  predicate Says(s: State, id: SourceId, actor: seq<Byte>, request: seq<Byte>, at: seq<Byte>) {
    id in s.slots &&
      RecordIn(s.slots[id].payload, s.order) == Some(Record(Cleaned(actor), Cleaned(request), Cleaned(at)))
  }

  lemma FillSays(s: State, kind: Kind, id: SourceId, actor: seq<Byte>, request: seq<Byte>, now: seq<Byte>)
    requires Fill(s, kind, id, actor, request, now).Ok?
    ensures Says(Fill(s, kind, id, actor, request, now).value, id, actor, request, now)
  {
    hide C.Unfilled, C.PaddedJson, C.RecordJson, RecordIn, Cleaned;
    SlotReadsBack(actor, request, now, |s.slots[id].payload|, s.order);
  }

  /** The deletion of a live comment, or a link's revocation. */
  predicate Closes(s: State, op: Op) {
    (op.OpDeleteComment? && op.id in s.comments && s.comments[op.id].deletedAt == []) || op.OpRevokeLink?
  }

  function CallerOf(op: Op): seq<Byte>
    requires op.OpDeleteComment? || op.OpRevokeLink?
  {
    if op.OpDeleteComment? then op.actor else op.owner
  }

  /** Deleting a comment or revoking a link leaves a slot that says who did it, in which request, and when. */
  lemma ClosingSays(s: State, op: Op)
    requires Closes(s, op) && Apply(s, op).Ok?
    ensures Says(Apply(s, op).value, op.id, CallerOf(op), op.request, op.now)
  {
    hide Advance, Tombstone, Revoke, Fill, Says;
    if op.OpDeleteComment? {
      var c := s.comments[op.id].container;
      var advanced := Advance(s, c, op.now).value;
      AdvanceFrame(s, c, op.now);
      var dropped := Tombstone(advanced, op.id, op.now, advanced.containers[c].seqNo).value;
      FillSays(dropped, CommentSlot, op.id, op.actor, op.request, op.now);
    } else {
      FillSays(Revoke(s, op.id, op.owner, op.now).value, LinkSlot, op.id, op.owner, op.request, op.now);
    }
  }

  lemma AdvanceFrame(s: State, c: ContainerId, now: seq<Byte>)
    requires Advance(s, c, now).Ok?
    ensures c in Advance(s, c, now).value.containers
  {
    hide ChosenPad, TextBytes;
  }

  predicate Filled(s: State, id: SourceId) {
    id in s.slots && !C.Unfilled(s.slots[id].payload, s.order)
  }

  /** No other step fills a slot. */
  lemma OnlyClosingFills(s: State, op: Op, id: SourceId)
    requires Inv(s) && Admissible(op) && Apply(s, op).Ok? && Filled(Apply(s, op).value, id) && !Filled(s, id)
    ensures Closes(s, op) && op.id == id
  {
    hide Advance, Tombstone, Fill, Reserve, Revoke, C.Unfilled, CommentOk, LinkOk, SlotOk, ContainerOk;
    hide IsRecord, C.Timestamp, CommentClosed, LinkClosed;
    var s' := Apply(s, op).value;
    if op.OpDeleteComment? && s.comments[op.id].deletedAt == [] {
      DeleteCommentShape(s, op.id, op.actor, op.request, op.now);
      ClosedFillsOwn(s, s', op.id, op.now);
    } else if op.OpRevokeLink? {
      RevokeLinkShape(s, op.id, op.owner, op.request, op.now);
      RevokedFillsOwn(s, s', op.id, op.now);
    } else if op.OpComment? {
      var bumped := Bump(s, op.c, op.now).value;
      var row := CommentRow(op.c, op.body, bumped.containers[op.c].seqNo, [], 64, op.rest);
      ReserveShape(bumped.(comments := s.comments[op.id := row]), CommentSlot, op.id, Some(op.c));
    } else if op.OpLink? {
      ReserveShape(s.(links := s.links[op.id := LinkRow(op.owner, [], 40, op.rest)]), LinkSlot, op.id, None);
    }
  }

  lemma ClosedFillsOwn(s: State, s': State, id: SourceId, now: seq<Byte>)
    requires CommentClosed(s, s', id, now)
    ensures s'.order == s.order && forall i <- s'.slots :: i != id ==> i in s.slots && s'.slots[i] == s.slots[i]
  {
    hide SlotFilled, ContainerOk;
  }

  lemma RevokedFillsOwn(s: State, s': State, id: SourceId, now: seq<Byte>)
    requires LinkClosed(s, s', id, now)
    ensures s'.order == s.order && forall i <- s'.slots :: i != id ==> i in s.slots && s'.slots[i] == s.slots[i]
  {
    hide SlotFilled;
  }

  /** Over any run, a slot filled since its start was filled by one deletion or revocation of its source, and says so
      ever after. */
  lemma {:induction false} SlotNamesItsCaller(ss: seq<State>, ops: seq<Op>, i: nat, id: SourceId) returns (j: nat)
    requires Run(ss, ops) && i < |ss| && Filled(ss[i], id) && !Filled(ss[0], id)
    ensures j < i && Closes(ss[j], ops[j]) && ops[j].id == id
    ensures Says(ss[i], id, CallerOf(ops[j]), ops[j].request, ops[j].now)
  {
    hide Inv, Apply, Admissible, Filled, Says, C.Unfilled;
    j := i - 1;
    assert CleanupSlots.Step(ss[j], ops[j], ss[j + 1]);
    RunKeepsInv(ss, ops, j);
    if Filled(ss[j], id) {
      j := SlotNamesItsCaller(ss, ops, i - 1, id);
      StaysFilled(ss, ops, i - 1, i, id);
      SaysStill(ss[i - 1], ss[i], id, CallerOf(ops[j]), ops[j].request, ops[j].now);
    } else {
      OnlyClosingFills(ss[j], ops[j], id);
      ClosingSays(ss[j], ops[j]);
    }
  }

  lemma StaysFilled(ss: seq<State>, ops: seq<Op>, i: nat, j: nat, id: SourceId)
    requires Run(ss, ops) && i <= j < |ss| && Filled(ss[i], id)
    ensures Filled(ss[j], id) && id in ss[i].slots && id in ss[j].slots && ss[j].slots[id] == ss[i].slots[id] &&
      ss[j].order == ss[i].order
  {
    hide Inv, Apply, Admissible, C.Unfilled;
    FilledSlotIsFinal(ss, ops, i, j, id);
  }

  lemma SaysStill(s: State, s': State, id: SourceId, actor: seq<Byte>, request: seq<Byte>, at: seq<Byte>)
    requires Says(s, id, actor, request, at) && id in s'.slots && s'.slots[id] == s.slots[id] && s'.order == s.order
    ensures Says(s', id, actor, request, at)
  {
    hide RecordIn, Cleaned;
  }

  // ---- Verification at migration and restore --------------------------------------------------------

  /** The record in a filled slot is one verification accepts. */
  predicate Acceptable(s: State, id: SourceId)
    requires id in s.slots
  {
    var record := RecordIn(s.slots[id].payload, s.order);
    record.Some? && |record.value.request| <= 128 && |record.value.at| == 20
  }

  ghost predicate Passes(s: State) {
    Verifies(s) && forall id <- s.slots :: Filled(s, id) ==> Acceptable(s, id)
  }

  lemma StampIsClean(at: seq<Byte>)
    requires C.Timestamp(at)
    ensures Cleaned(at) == at
  {
    forall b | b in at ensures b < 0x80 {
      C.PlainByte(b);
    }
    C.AsciiRunes(at);
  }

  lemma SaidIsAcceptable(s: State, id: SourceId, actor: seq<Byte>, request: seq<Byte>, at: seq<Byte>)
    requires Says(s, id, actor, request, at) && C.Timestamp(at)
    ensures Acceptable(s, id) <==> |Cleaned(request)| <= 128
  {
    StampIsClean(at);
    hide RecordIn, Cleaned;
  }

  /**
   * Verification passes in a reachable state exactly when no deletion or revocation so far came in a request whose
   * ID reads back longer than the limit. A request ID of well-formed text never does; one with bytes that are not
   * reads back with three for each, although it was admitted at its own length.
   */
  lemma VerificationFailsIff(ss: seq<State>, ops: seq<Op>, i: nat)
    requires Run(ss, ops) && i < |ss| && Passes(ss[0])
    ensures Passes(ss[i]) <==>
      forall j :: 0 <= j < i && Closes(ss[j], ops[j]) ==> |Cleaned(ops[j].request)| <= 128
  {
    hide Inv, Apply, Admissible, Filled, Says, Acceptable, Verifies, Cleaned, C.Unfilled, C.Timestamp, LiveSource;
    ReservationsVerify(ss, ops, i);
    forall j: nat | j < i && Closes(ss[j], ops[j])
      ensures Filled(ss[i], ops[j].id) && ops[j].id in ss[i].slots &&
        (Acceptable(ss[i], ops[j].id) <==> |Cleaned(ops[j].request)| <= 128)
    {
      ClosedIsFilled(ss, ops, j, i);
    }
    if forall j :: 0 <= j < i && Closes(ss[j], ops[j]) ==> |Cleaned(ops[j].request)| <= 128 {
      forall id | id in ss[i].slots && Filled(ss[i], id) ensures Acceptable(ss[i], id) {
        if Filled(ss[0], id) {
          StaysFilled(ss, ops, 0, i, id);
          assert Acceptable(ss[0], id);
          AcceptableStill(ss[0], ss[i], id);
        } else {
          var j := SlotNamesItsCaller(ss, ops, i, id);
        }
      }
    }
  }

  lemma AcceptableStill(s: State, s': State, id: SourceId)
    requires id in s.slots && Acceptable(s, id) && id in s'.slots && s'.slots[id] == s.slots[id] && s'.order == s.order
    ensures Acceptable(s', id)
  {
    hide RecordIn;
  }

  /** The slot a closing step filled stays so, and says what it did. */
  lemma ClosedIsFilled(ss: seq<State>, ops: seq<Op>, j: nat, i: nat)
    requires Run(ss, ops) && j < i < |ss| && Closes(ss[j], ops[j])
    ensures Filled(ss[i], ops[j].id) && ops[j].id in ss[i].slots
    ensures Acceptable(ss[i], ops[j].id) <==> |Cleaned(ops[j].request)| <= 128
  {
    hide Inv, Apply, Says, Acceptable, Cleaned, C.Unfilled, C.Timestamp;
    var id := ops[j].id;
    assert CleanupSlots.Step(ss[j], ops[j], ss[j + 1]);
    RunKeepsInv(ss, ops, j);
    ClosingFills(ss[j], ops[j]);
    ClosingSays(ss[j], ops[j]);
    StaysFilled(ss, ops, j + 1, i, id);
    SaysStill(ss[j + 1], ss[i], id, CallerOf(ops[j]), ops[j].request, ops[j].now);
    SaidIsAcceptable(ss[i], id, CallerOf(ops[j]), ops[j].request, ops[j].now);
  }

  lemma ClosingFills(s: State, op: Op)
    requires Inv(s) && Admissible(op) && Closes(s, op) && Apply(s, op).Ok?
    ensures Filled(Apply(s, op).value, op.id)
  {
    hide Inv, C.Unfilled, C.Timestamp, IsRecord, ContainerOk, Advance, Tombstone, Fill, Revoke;
    if op.OpDeleteComment? {
      DeleteCommentShape(s, op.id, op.actor, op.request, op.now);
    } else {
      RevokeLinkShape(s, op.id, op.owner, op.request, op.now);
    }
  }

  // ---- Such a request exists ------------------------------------------------------------------------

  /** A byte that never occurs in UTF-8. */
  const BAD: Byte := 0xFF

  function Bad(n: nat): (s: seq<Byte>)
    ensures |s| == n
  {
    seq(n, _ => BAD)
  }

  lemma {:induction false} BadIsReplaced(n: nat)
    ensures |Cleaned(Bad(n))| == 3 * n
  {
    if n > 0 {
      var s := Bad(n);
      assert s[1..] == Bad(n - 1);
      assert Utf.Step(s) == 1 && First(s) == REPLACEMENT;
      BadIsReplaced(n - 1);
      assert Runes(s)[1..] == Runes(s[1..]);
      assert |Encode(REPLACEMENT)| == 3;
      hide Width, First, Encode;
    }
  }

  /** Nothing but a user and their sealed link, reserved. */
  function Bare(order: C.Order, usable: Usable, budget: nat, owner: seq<Byte>): State {
    State(order, usable, budget, [owner], map[], map[], map[], map[])
  }

  lemma RunOfTwo(s0: State, s1: State, s2: State, ops: seq<Op>)
    requires Inv(s0) && |ops| == 2 && CleanupSlots.Step(s0, ops[0], s1) && CleanupSlots.Step(s1, ops[1], s2)
    ensures Run([s0, s1, s2], ops)
  {
    hide Inv, Apply, Admissible;
  }

  /** The link made and then revoked in any request of an admitted length. */
  lemma LinkIsRevoked(order: C.Order, usable: Usable, budget: nat, owner: seq<Byte>, request: seq<Byte>,
      now: seq<Byte>) returns (s1: State, s2: State)
    requires C.Timestamp(now) && |owner| == MINTED_ID && |request| <= 128 && C.SlotSize(MINTED_ID, order) <= budget
    ensures CleanupSlots.Step(Bare(order, usable, budget, owner), OpLink(0, owner, []), s1)
    ensures CleanupSlots.Step(s1, OpRevokeLink(0, owner, request, now), s2)
  {
    hide RevokeLink, CreateLink, C.SlotSize, C.Timestamp, Inv, Apply, CleanupSlots.Step, Bare;
    var s0 := Bare(order, usable, budget, owner);
    BareIsSound(order, usable, budget, owner);
    LinkIsMade(order, usable, budget, owner);
    LinkingIsStep(s0, owner);
    s1 := CreateLink(s0, 0, owner, []).value;
    StepKeepsInv(s0, OpLink(0, owner, []));
    RevocationNeverFails(s1, 0, owner, request, now);
    RevocationIsStep(s1, owner, request, now);
    s2 := RevokeLink(s1, 0, owner, request, now).value;
  }

  lemma LinkingIsStep(s: State, owner: seq<Byte>)
    requires CreateLink(s, 0, owner, []).Ok?
    ensures Apply(s, OpLink(0, owner, [])) == CreateLink(s, 0, owner, [])
    ensures CleanupSlots.Step(s, OpLink(0, owner, []), CreateLink(s, 0, owner, []).value)
  {
    hide CreateLink, C.Timestamp;
  }

  lemma RevocationIsStep(s: State, owner: seq<Byte>, request: seq<Byte>, now: seq<Byte>)
    requires C.Timestamp(now) && RevokeLink(s, 0, owner, request, now).Ok?
    ensures CleanupSlots.Step(s, OpRevokeLink(0, owner, request, now), RevokeLink(s, 0, owner, request, now).value)
  {
    hide RevokeLink, C.Timestamp;
  }

  /** A run of two steps after which verification fails for good: a sealed link is made, and revoked in a request whose
      ID is 43 bytes of no text. */
  lemma UnreadableRequestFailsVerification(order: C.Order, usable: Usable, budget: nat, owner: seq<Byte>,
      now: seq<Byte>) returns (ss: seq<State>, ops: seq<Op>)
    requires C.Timestamp(now) && |owner| == MINTED_ID && C.SlotSize(MINTED_ID, order) <= budget
    ensures Run(ss, ops) && |ops| == 2 && Passes(ss[0]) && !Passes(ss[2])
    ensures ops[1] == OpRevokeLink(0, owner, Bad(43), now)
  {
    hide Apply, C.Timestamp, Inv, Passes, Cleaned, C.SlotSize, CleanupSlots.Step;
    ops := [OpLink(0, owner, []), OpRevokeLink(0, owner, Bad(43), now)];
    BareIsSound(order, usable, budget, owner);
    var s1, s2 := LinkIsRevoked(order, usable, budget, owner, Bad(43), now);
    ss := [Bare(order, usable, budget, owner), s1, s2];
    RunOfTwo(ss[0], s1, s2, ops);
    VerificationFailsIff(ss, ops, 2);
    BadIsReplaced(43);
    assert Closes(ss[1], ops[1]);
  }

  lemma BareIsSound(order: C.Order, usable: Usable, budget: nat, owner: seq<Byte>)
    ensures Inv(Bare(order, usable, budget, owner)) && Passes(Bare(order, usable, budget, owner))
  {
  }

  lemma LinkIsMade(order: C.Order, usable: Usable, budget: nat, owner: seq<Byte>)
    requires |owner| == MINTED_ID && C.SlotSize(MINTED_ID, order) <= budget
    ensures var r := CreateLink(Bare(order, usable, budget, owner), 0, owner, []);
      r.Ok? && 0 in r.value.links && r.value.links[0].owner == owner && r.value.links[0].revokedAt == [] &&
      r.value.users == [owner]
  {
    assert Longest([owner][..0]) == MINTED_ID;
    NullFitsAny(MINTED_ID, order);
    hide C.PaddedJson, C.SlotSize;
  }

  lemma NullFitsAny(actor: nat, order: C.Order)
    ensures C.PaddedJson(C.NULL, C.SlotSize(actor, order), order).Ok?
  {
    C.NullBytes();
    C.AsciiCarried(C.NULL, order);
    SlotSizeIsWhole(actor, order);
    hide C.SlotSize, C.Encoded, C.EncodedSpaces, C.Ascii;
    WholeIsNotRagged(C.SlotSize(actor, order), order);
  }
}
