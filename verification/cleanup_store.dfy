/** The cleanup transactions as they run: rows updated in place, and everything undone when one fails. */
module CleanupStore {
  import opened Outcome
  import opened Utf
  import opened CellLayout
  import opened CleanupSlots
  import A = CleanupAudit
  import C = CleanupCodec

  /** A transaction either commits what the specification says or reports its error and changes nothing. */
  ghost predicate Follows(before: State, spec: Result<State, CleanupSlots.Error>, failure: Option<CleanupSlots.Error>,
      after: State) {
    match spec
    case Ok(s) => failure == None && after == s
    case Err(e) => failure == Some(e) && after == before
  }

  function ContainerColumns(k: ContainerRow): seq<string> {
    seq(|k.rest|, _ => "") + ["change_seq", "updated_at", "cleanup_padding"]
  }

  function CommentColumns(r: CommentRow): seq<string> {
    seq(|r.rest|, _ => "") + ["body_ciphertext", "change_seq", "deleted_at", "cleanup_padding"]
  }

  function LinkColumns(r: LinkRow): seq<string> {
    seq(|r.rest|, _ => "") + ["revoked_at", "cleanup_padding"]
  }

  class Store {
    const order: C.Order
    const usable: Usable
    const budget: nat
    var users: seq<seq<Byte>>
    var containers: map<ContainerId, ContainerRow>
    var comments: map<SourceId, CommentRow>
    var links: map<SourceId, LinkRow>
    var slots: map<SourceId, Slot>

    function Snapshot(): State
      reads this
    {
      State(order, usable, budget, users, containers, comments, links, slots)
    }

    constructor (order: C.Order, usable: Usable, budget: nat)
      ensures Inv(Snapshot()) && Snapshot() == State(order, usable, budget, [], map[], map[], map[], map[])
    {
      this.order, this.usable, this.budget := order, usable, budget;
      users, containers, comments, links, slots := [], map[], map[], map[], map[];
    }

    method SlotBytes() returns (size: nat)
      ensures size == C.SlotSize(Longest(users), order)
    {
      var actorBytes := MINTED_ID;
      for i := 0 to |users|
        invariant actorBytes == Longest(users[..i])
      {
        assert users[..i + 1][..i] == users[..i];
        if |users[i]| > actorBytes {
          actorBytes := |users[i]|;
        }
      }
      assert users[..|users|] == users;
      size := (C.EMPTY_RECORD + 6 * (actorBytes + 128) + 63) / 64 * 64;
      if !order.Utf8Order? {
        size := 2 * size;
      }
    }

    method ReserveAudit(kind: Kind, id: SourceId, container: Option<ContainerId>)
        returns (failure: Option<CleanupSlots.Error>)
      modifies `slots
      ensures Follows(old(Snapshot()), Reserve(old(Snapshot()), kind, id, container), failure, Snapshot())
    {
      hide C.PaddedJson, C.SlotSize;
      var size := SlotBytes();
      if size > budget {
        return Some(OverBudget);
      }
      var payload := C.PadCleanupJson(C.NULL, size, order);
      if payload.Err? {
        return Some(Broken);
      }
      if id in slots {
        return Some(Taken);
      }
      slots := slots[id := Slot(kind, container, payload.value)];
      return None;
    }

    method FillAudit(kind: Kind, id: SourceId, actor: seq<Byte>, request: seq<Byte>, now: seq<Byte>)
        returns (failure: Option<CleanupSlots.Error>)
      modifies `slots
      ensures Follows(old(Snapshot()), Fill(old(Snapshot()), kind, id, actor, request, now), failure, Snapshot())
      ensures failure.None? ==> A.Says(Snapshot(), id, actor, request, now)
    {
      ghost var before := Snapshot();
      hide A.Says, C.PaddedJson, C.RecordJson, C.DecodedJson, C.TrimmedLeft, C.TrimmedRight;
      if |request| > 128 || |now| != 20 {
        return Some(Broken);
      }
      if id !in slots || slots[id].kind != kind {
        return Some(Broken);
      }
      var payload := slots[id].payload;
      var decoded := C.DecodeCleanupJson(payload, order);
      if decoded.Err? {
        return Some(Broken);
      }
      if C.TrimmedRight(C.TrimmedLeft(decoded.value)) != C.NULL {
        return Some(Broken);
      }
      var record := C.PadCleanupJson(C.RecordJson(actor, request, now), |payload|, order);
      if record.Err? {
        return Some(Broken);
      }
      slots := slots[id := slots[id].(payload := record.value)];
      A.FillSays(before, kind, id, actor, request, now);
      return None;
    }

    method AdvanceSeq(c: ContainerId, now: seq<Byte>) returns (failure: Option<CleanupSlots.Error>)
      modifies `containers
      ensures Follows(old(Snapshot()), Advance(old(Snapshot()), c, now), failure, Snapshot())
    {
      hide ChosenPad, CounterBytes, TextBytes;
      if c !in containers || containers[c].deleted {
        return Some(NotFound);
      }
      var k := containers[c];
      if k.seqNo < 0 || k.seqNo == MAX_SEQ {
        return Some(Broken);
      }
      var next := k.seqNo + 1;
      var growth :=
        Excess(CounterBytes(next) - CounterBytes(k.seqNo)) +
        Excess(TextBytes(now, order) - TextBytes(k.updatedAt, order));
      if growth > k.pad {
        return Some(Broken);
      }
      var changes := map["change_seq" := Integer(next), "updated_at" := Text(now)];
      AdvanceChanges(k, next, now);
      var padding :=
        CleanupRowPadding(ContainerColumns(k), Some(ContainerValues(k)), changes, k.pad - growth, Encoding(order),
        usable);
      if padding.Err? {
        return Some(NoRoom);
      }
      containers := containers[c := k.(seqNo := next, updatedAt := now, pad := padding.value)];
      return None;
    }

    method TombstoneComment(id: SourceId, now: seq<Byte>, seqNo: int) returns (failure: Option<CleanupSlots.Error>)
      modifies `comments
      ensures Follows(old(Snapshot()), Tombstone(old(Snapshot()), id, now, seqNo), failure, Snapshot())
    {
      hide ChosenPad, CounterBytes, TextBytes;
      if id !in comments || comments[id].deletedAt != [] {
        return Some(NotFound);
      }
      var r := comments[id];
      if r.seqNo < 0 {
        return Some(Broken);
      }
      var growth := TextBytes(now, order) + Excess(CounterBytes(seqNo) - CounterBytes(r.seqNo));
      if growth > r.pad {
        return Some(Broken);
      }
      var changes := map["deleted_at" := Text(now), "body_ciphertext" := Blob([]), "change_seq" := Integer(seqNo)];
      TombstoneChanges(r, now, seqNo);
      var padding := CleanupRowPadding(CommentColumns(r), Some(CommentValues(r)), changes, 0, Encoding(order), usable);
      if padding.Err? {
        return Some(NoRoom);
      }
      comments := comments[id := r.(deletedAt := now, body := [], seqNo := seqNo, pad := padding.value)];
      return None;
    }

    method RevokeSealedLink(id: SourceId, owner: seq<Byte>,
        now: seq<Byte>) returns (failure: Option<CleanupSlots.Error>)
      modifies `links
      ensures Follows(old(Snapshot()), Revoke(old(Snapshot()), id, owner, now), failure, Snapshot())
    {
      hide ChosenPad, TextBytes;
      if id !in links || links[id].owner != owner || links[id].revokedAt != [] {
        return Some(NotFound);
      }
      var r := links[id];
      if TextBytes(now, order) > r.pad {
        return Some(Broken);
      }
      RevokeChanges(r, now);
      var padding :=
        CleanupRowPadding(LinkColumns(r), Some(LinkValues(r)), map["revoked_at" := Text(now)],
        r.pad - TextBytes(now, order), Encoding(order), usable);
      if padding.Err? {
        return Some(NoRoom);
      }
      links := links[id := r.(revokedAt := now, pad := padding.value)];
      return None;
    }

    /** DELETE /api/v1/comments/{id}: three updates in one transaction. */
    method RemoveComment(id: SourceId, actor: seq<Byte>, request: seq<Byte>, now: seq<Byte>)
        returns (failure: Option<CleanupSlots.Error>)
      modifies `containers, `comments, `slots
      ensures Follows(old(Snapshot()), DeleteComment(old(Snapshot()), id, actor, request, now), failure, Snapshot())
      ensures failure.None? && old(comments)[id].deletedAt == [] ==> A.Says(Snapshot(), id, actor, request, now)
    {
      hide Advance, Tombstone, Fill, A.Says;
      if id !in comments || comments[id].container !in containers || containers[comments[id].container].deleted {
        return Some(NotFound);
      }
      if comments[id].deletedAt != [] {
        return None;
      }
      var savedContainers, savedComments := containers, comments;
      var c := comments[id].container;
      AdvanceKeepsKey(Snapshot(), c, now);
      failure := AdvanceSeq(c, now);
      if failure.Some? {
        return;
      }
      failure := TombstoneComment(id, now, containers[c].seqNo);
      if failure.None? {
        failure := FillAudit(CommentSlot, id, actor, request, now);
      }
      if failure.Some? {
        containers, comments := savedContainers, savedComments;
      }
    }
  }

  lemma AdvanceKeepsKey(s: State, c: ContainerId, now: seq<Byte>)
    ensures Advance(s, c, now).Ok? ==> c in Advance(s, c, now).value.containers
  {
    hide ChosenPad;
  }

  /** The changed columns and the padding column are the ones the specification names. */
  lemma AdvanceChanges(k: ContainerRow, next: int, now: seq<Byte>)
    ensures |ContainerColumns(k)| == |ContainerValues(k)| && PaddingColumn(ContainerColumns(k)) == Some(|k.rest| + 2)
    ensures Changed(ContainerColumns(k), ContainerValues(k),
      map["change_seq" := Integer(next), "updated_at" := Text(now)]) ==
      ContainerValues(k.(seqNo := next, updatedAt := now))
  {
    assert ContainerColumns(k)[|k.rest| + 2] == "cleanup_padding";
  }

  lemma TombstoneChanges(r: CommentRow, now: seq<Byte>, seqNo: int)
    ensures |CommentColumns(r)| == |CommentValues(r)| && PaddingColumn(CommentColumns(r)) == Some(|r.rest| + 3)
    ensures Changed(CommentColumns(r), CommentValues(r),
      map["deleted_at" := Text(now), "body_ciphertext" := Blob([]), "change_seq" := Integer(seqNo)]) ==
      CommentValues(r.(deletedAt := now, body := [], seqNo := seqNo))
  {
    assert CommentColumns(r)[|r.rest| + 3] == "cleanup_padding";
  }

  lemma RevokeChanges(r: LinkRow, now: seq<Byte>)
    ensures |LinkColumns(r)| == |LinkValues(r)| && PaddingColumn(LinkColumns(r)) == Some(|r.rest| + 1)
    ensures Changed(LinkColumns(r), LinkValues(r), map["revoked_at" := Text(now)]) == LinkValues(r.(revokedAt := now))
  {
    assert LinkColumns(r)[|r.rest| + 1] == "cleanup_padding";
  }
}
