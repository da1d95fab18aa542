/**
 * The cleanup tables row by row: when each transaction commits and what every row holds after it. Only how much padding
 * a closing leaves is not said here: that is the row search's to find.
 */
module CleanupTables {
  import opened Outcome
  import opened CellLayout
  import opened CleanupSlots
  import opened CleanupAudit
  import C = CleanupCodec

  function At<K, V>(m: map<K, V>, k: K): Option<V> {
    if k in m then Some(m[k]) else None
  }

  predicate OpenIn(s: State, c: ContainerId) {
    c in s.containers && !s.containers[c].deleted
  }

  /** A comment deletion that has something to delete. */
  predicate Deletes(s: State, op: Op) {
    op.OpDeleteComment? && op.id in s.comments && s.comments[op.id].deletedAt == []
  }

  // ---- When a transaction commits -----------------------------------------------------------------

  /** Room in the budget for another slot, and no slot of that ID. */
  predicate MayReserve(s: State, id: SourceId) {
    C.SlotSize(Longest(s.users), s.order) <= s.budget && id !in s.slots
  }

  /** The transactions that close nothing; when a closing commits is DeletionFailsIff's and RevocationNeverFails's. */
  predicate MayCommit(s: State, op: Op)
    requires !op.OpDeleteComment? && !op.OpRevokeLink?
  {
    match op
    case OpAddUser(_) => true
    case OpContainer(c, _, _) => c !in s.containers
    case OpBump(c, _) => c in s.containers && s.containers[c].seqNo != MAX_SEQ
    case OpComment(id, c, _, _, _) =>
      OpenIn(s, c) && s.containers[c].seqNo != MAX_SEQ && id !in s.comments && MayReserve(s, id)
    case OpLink(id, _, _) => id !in s.links && MayReserve(s, id)
    case OpDropComments(_) => true
    case OpDropLinks(_) => true
    case OpDeleteContainers(scope, _) => forall c <- s.containers :: c in scope ==> s.containers[c].seqNo != MAX_SEQ
  }

  // ---- Reference: one row after one committed transaction -----------------------------------------

  /** The notebook's counter goes up by one. */
  predicate Counts(s: State, op: Op, c: ContainerId)
    requires c in s.containers
  {
    || ((op.OpBump? || op.OpComment?) && c == op.c)
    || (Deletes(s, op) && c == s.comments[op.id].container)
    || (op.OpDeleteContainers? && c in op.scope && !s.containers[c].deleted)
  }

  /** A notebook's row; a comment's deletion leaves it whatever padding was found. */
  function ContainerAfter(s: State, op: Op, c: ContainerId, pad: nat): Option<ContainerRow> {
    if op.OpContainer? && c == op.c then Some(ContainerRow(false, 1, op.now, 64, op.rest))
    else if c !in s.containers then None
    else
      var k := s.containers[c];
      if !Counts(s, op, c) then Some(k)
      else Some(k.(seqNo := k.seqNo + 1, updatedAt := op.now, deleted := k.deleted || op.OpDeleteContainers?,
        pad := if op.OpDeleteComment? then pad else k.pad))
  }

  /** The comments a transaction takes out of their table. */
  predicate Drops(s: State, op: Op, id: SourceId)
    requires id in s.comments
  {
    (op.OpDropComments? && id in op.gone) || (op.OpDeleteContainers? && s.comments[id].container in op.scope)
  }

  function CommentAfter(s: State, op: Op, id: SourceId, pad: nat): Option<CommentRow> {
    if op.OpComment? && id == op.id && op.c in s.containers then
      Some(CommentRow(op.c, op.body, s.containers[op.c].seqNo + 1, [], 64, op.rest))
    else if id !in s.comments || Drops(s, op, id) then None
    else if Deletes(s, op) && id == op.id && s.comments[id].container in s.containers then
      Some(s.comments[id].(body := [], deletedAt := op.now, pad := pad,
        seqNo := s.containers[s.comments[id].container].seqNo + 1))
    else Some(s.comments[id])
  }

  function LinkAfter(s: State, op: Op, id: SourceId, pad: nat): Option<LinkRow> {
    if op.OpLink? && id == op.id then Some(LinkRow(op.owner, [], 40, op.rest))
    else if id !in s.links || (op.OpDropLinks? && id in op.gone) then None
    else if op.OpRevokeLink? && id == op.id then Some(s.links[id].(revokedAt := op.now, pad := pad))
    else Some(s.links[id])
  }

  /** A dropped source's slot, if nothing was written in it yet. */
  predicate DropsSlot(s: State, op: Op, id: SourceId)
    requires id in s.slots
  {
    C.Unfilled(s.slots[id].payload, s.order) &&
    if s.slots[id].kind.CommentSlot? then id in s.comments && Drops(s, op, id)
    else id in s.links && op.OpDropLinks? && id in op.gone
  }

  /** A reserved slot is empty and of the measured size; a closing writes its record into its own, at the same size. */
  ghost predicate SlotFollows(s: State, op: Op, s': State, id: SourceId) {
    if (op.OpComment? || op.OpLink?) && id == op.id then
      id in s'.slots && C.Unfilled(s'.slots[id].payload, s.order) &&
      |s'.slots[id].payload| == C.SlotSize(Longest(s.users), s.order) &&
      s'.slots[id] == Slot(if op.OpComment? then CommentSlot else LinkSlot,
        if op.OpComment? then Some(op.c) else None, s'.slots[id].payload)
    else if Closes(s, op) && id == op.id then
      id in s.slots && id in s'.slots && s'.slots[id] == s.slots[id].(payload := s'.slots[id].payload) &&
      |s'.slots[id].payload| == |s.slots[id].payload| && Says(s', id, CallerOf(op), op.request, op.now)
    else At(s'.slots, id) == if id in s.slots && DropsSlot(s, op, id) then None else At(s.slots, id)
  }

  ghost predicate ContainersFollow(s: State, op: Op, after: map<ContainerId, ContainerRow>) {
    forall c :: At(after, c) == ContainerAfter(s, op, c, if c in after then after[c].pad else 0)
  }

  ghost predicate CommentsFollow(s: State, op: Op, after: map<SourceId, CommentRow>) {
    forall id :: At(after, id) == CommentAfter(s, op, id, if id in after then after[id].pad else 0)
  }

  ghost predicate LinksFollow(s: State, op: Op, after: map<SourceId, LinkRow>) {
    forall id :: At(after, id) == LinkAfter(s, op, id, if id in after then after[id].pad else 0)
  }

  ghost predicate SlotsFollow(s: State, op: Op, s': State) {
    forall id :: SlotFollows(s, op, s', id)
  }

  ghost predicate Follows(s: State, op: Op, s': State) {
    && s' == s.(users := s'.users, containers := s'.containers, comments := s'.comments, links := s'.links,
         slots := s'.slots)
    && s'.users == (if op.OpAddUser? then s.users + [op.user] else s.users)
    && ContainersFollow(s, op, s'.containers) && CommentsFollow(s, op, s'.comments) && LinksFollow(s, op, s'.links)
    && SlotsFollow(s, op, s')
  }

  lemma SlotAlwaysFits(s: State, kind: Kind, id: SourceId, c: Option<ContainerId>)
    ensures Reserve(s, kind, id, c).Ok? <==> MayReserve(s, id)
  {
    NullFitsAny(Longest(s.users), s.order);
    hide C.PaddedJson, C.SlotSize;
  }

  lemma CommitsIff(s: State, op: Op)
    requires !op.OpDeleteComment? && !op.OpRevokeLink?
    ensures Apply(s, op).Ok? <==> MayCommit(s, op)
  {
    hide Reserve, C.SlotSize, DropComments, DropLinks;
    if op.OpComment? && Bump(s, op.c, op.now).Ok? {
      var bumped := Bump(s, op.c, op.now).value;
      var row := CommentRow(op.c, op.body, bumped.containers[op.c].seqNo, [], 64, op.rest);
      SlotAlwaysFits(bumped.(comments := s.comments[op.id := row]), CommentSlot, op.id, Some(op.c));
    } else if op.OpLink? {
      SlotAlwaysFits(s.(links := s.links[op.id := LinkRow(op.owner, [], 40, op.rest)]), LinkSlot, op.id, None);
    }
  }

  // ---- The transactions agree ---------------------------------------------------------------------

  lemma KeptContainers(s: State, op: Op)
    requires forall c <- s.containers :: !Counts(s, op, c)
    requires !op.OpContainer?
    ensures ContainersFollow(s, op, s.containers)
  {
  }

  lemma KeptComments(s: State, op: Op)
    requires !op.OpComment? && !Deletes(s, op) && !op.OpDropComments? && !op.OpDeleteContainers?
    ensures CommentsFollow(s, op, s.comments)
  {
  }

  lemma KeptLinks(s: State, op: Op)
    requires !op.OpLink? && !op.OpRevokeLink? && !op.OpDropLinks?
    ensures LinksFollow(s, op, s.links)
  {
  }

  lemma KeptSlots(s: State, op: Op, s': State)
    requires s'.slots == s.slots && !op.OpComment? && !op.OpLink? && !Closes(s, op)
    requires !op.OpDropComments? && !op.OpDropLinks? && !op.OpDeleteContainers?
    ensures SlotsFollow(s, op, s')
  {
    hide C.Unfilled;
  }

  lemma ReservesOne(s: State, kind: Kind, id: SourceId, c: Option<ContainerId>)
    requires Reserve(s, kind, id, c).Ok?
    ensures id !in s.slots
    ensures var s' := Reserve(s, kind, id, c).value;
      id in s'.slots && s' == s.(slots := s.slots[id := Slot(kind, c, s'.slots[id].payload)]) &&
      C.Unfilled(s'.slots[id].payload, s.order) &&
      |s'.slots[id].payload| == C.SlotSize(Longest(s.users), s.order)
  {
    ReserveShape(s, kind, id, c);
    hide C.PaddedJson, C.SlotSize, C.Unfilled;
  }

  lemma MadeComment(s: State, op: Op)
    requires op.OpComment? && CreateComment(s, op.id, op.c, op.body, op.rest, op.now).Ok?
    ensures op.c in s.containers && op.id !in s.slots && op.id !in s.comments
    ensures var s', k := CreateComment(s, op.id, op.c, op.body, op.rest, op.now).value, s.containers[op.c];
      op.id in s'.slots && s' == s.(
        containers := s.containers[op.c := k.(seqNo := k.seqNo + 1, updatedAt := op.now)],
        comments := s.comments[op.id := CommentRow(op.c, op.body, k.seqNo + 1, [], 64, op.rest)],
        slots := s.slots[op.id := Slot(CommentSlot, Some(op.c), s'.slots[op.id].payload)]) &&
      C.Unfilled(s'.slots[op.id].payload, s.order) &&
      |s'.slots[op.id].payload| == C.SlotSize(Longest(s.users), s.order)
  {
    var bumped := Bump(s, op.c, op.now).value;
    var row := CommentRow(op.c, op.body, bumped.containers[op.c].seqNo, [], 64, op.rest);
    ReservesOne(bumped.(comments := s.comments[op.id := row]), CommentSlot, op.id, Some(op.c));
    hide Reserve, C.SlotSize, C.Unfilled, Longest;
  }

  lemma CommentFollows(s: State, op: Op)
    requires op.OpComment? && Apply(s, op).Ok?
    ensures Follows(s, op, Apply(s, op).value)
  {
    var s' := CreateComment(s, op.id, op.c, op.body, op.rest, op.now).value;
    assert Apply(s, op).value == s' by { hide CreateComment; }
    MadeComment(s, op);
    MadeRowsFollow(s, op, s');
    MadeSlotFollows(s, op, s');
    KeptLinks(s, op);
    hide Apply, CreateComment, C.SlotSize, C.Unfilled, Says, Longest, ContainersFollow, CommentsFollow, LinksFollow;
    hide SlotsFollow, ContainerAfter, CommentAfter;
  }

  lemma MadeRowsFollow(s: State, op: Op, s': State)
    requires op.OpComment? && op.c in s.containers && op.id !in s.comments
    requires s'.containers == s.containers[op.c := s.containers[op.c].(seqNo := s.containers[op.c].seqNo + 1,
      updatedAt := op.now)]
    requires s'.comments ==
      s.comments[op.id := CommentRow(op.c, op.body, s.containers[op.c].seqNo + 1, [], 64, op.rest)]
    ensures ContainersFollow(s, op, s'.containers) && CommentsFollow(s, op, s'.comments)
  {
  }

  lemma MadeSlotFollows(s: State, op: Op, s': State)
    requires op.OpComment? && op.id in s'.slots
    requires s'.slots == s.slots[op.id := Slot(CommentSlot, Some(op.c), s'.slots[op.id].payload)]
    requires C.Unfilled(s'.slots[op.id].payload, s.order)
    requires |s'.slots[op.id].payload| == C.SlotSize(Longest(s.users), s.order)
    ensures SlotsFollow(s, op, s')
  {
    hide C.SlotSize, C.Unfilled, Longest, Says;
  }

  lemma LinkFollows(s: State, op: Op)
    requires op.OpLink? && Apply(s, op).Ok?
    ensures Follows(s, op, Apply(s, op).value)
  {
    hide C.SlotSize, C.Unfilled, Says, Longest, ContainersFollow, CommentsFollow;
    ReservesOne(s.(links := s.links[op.id := LinkRow(op.owner, [], 40, op.rest)]), LinkSlot, op.id, None);
    hide Reserve;
    KeptContainers(s, op);
    KeptComments(s, op);
  }

  lemma ClosedSlotsFollow(s: State, op: Op, s': State, kind: Kind)
    requires Closes(s, op) && SlotFilled(s, s', kind, op.id) && s'.slots == s.slots[op.id := s'.slots[op.id]]
    requires Says(s', op.id, CallerOf(op), op.request, op.now)
    ensures SlotsFollow(s, op, s')
  {
    hide C.Unfilled, IsRecord, Says;
  }

  lemma ClosedRowsFollow(s: State, op: Op, s': State)
    requires Deletes(s, op) && CommentClosed(s, s', op.id, op.now)
    ensures ContainersFollow(s, op, s'.containers) && CommentsFollow(s, op, s'.comments)
  {
    hide SlotFilled, ContainerOk;
  }

  lemma DeletingFollows(s: State, op: Op)
    requires Inv(s) && Admissible(op) && Deletes(s, op) && Apply(s, op).Ok?
    ensures Follows(s, op, Apply(s, op).value)
  {
    var s' := DeleteComment(s, op.id, op.actor, op.request, op.now).value;
    assert Apply(s, op).value == s' by { hide DeleteComment; }
    hide Inv, C.Timestamp;
    DeleteCommentShape(s, op.id, op.actor, op.request, op.now);
    ClosingSays(s, op);
    hide Apply, DeleteComment, Says, ContainerOk, SlotFilled, ContainersFollow, CommentsFollow, LinksFollow;
    hide SlotsFollow;
    ClosedSlotsFollow(s, op, s', CommentSlot);
    ClosedRowsFollow(s, op, s');
    KeptLinks(s, op);
  }

  lemma RevokingFollows(s: State, op: Op)
    requires Admissible(op) && op.OpRevokeLink? && Apply(s, op).Ok?
    ensures Follows(s, op, Apply(s, op).value)
  {
    var s' := Apply(s, op).value;
    hide C.Timestamp;
    RevokeLinkShape(s, op.id, op.owner, op.request, op.now);
    ClosingSays(s, op);
    hide Apply, RevokeLink, Says, SlotFilled, ContainersFollow, CommentsFollow, SlotsFollow;
    ClosedSlotsFollow(s, op, s', LinkSlot);
    KeptContainers(s, op);
    KeptComments(s, op);
  }

  lemma DropCommentsFollows(s: State, op: Op)
    requires op.OpDropComments?
    ensures Follows(s, op, DropComments(s, op.gone))
  {
    hide C.Unfilled, Says, ContainersFollow, LinksFollow;
    KeptContainers(s, op);
    KeptLinks(s, op);
  }

  lemma DropLinksFollows(s: State, op: Op)
    requires op.OpDropLinks?
    ensures Follows(s, op, DropLinks(s, op.gone))
  {
    hide C.Unfilled, Says, ContainersFollow, CommentsFollow;
    KeptContainers(s, op);
    KeptComments(s, op);
  }

  lemma DeleteContainersFollows(s: State, op: Op)
    requires op.OpDeleteContainers? && DeleteContainers(s, op.scope, op.now).Ok?
    ensures Follows(s, op, DeleteContainers(s, op.scope, op.now).value)
  {
    hide C.Unfilled, Says, LinksFollow;
    KeptLinks(s, op);
  }

  lemma PlainFollows(s: State, op: Op)
    requires (op.OpAddUser? || op.OpContainer? || op.OpBump? || (op.OpDeleteComment? && !Deletes(s, op))) &&
      Apply(s, op).Ok?
    ensures Follows(s, op, Apply(s, op).value)
  {
    hide CommentsFollow, LinksFollow, SlotsFollow;
    KeptComments(s, op);
    KeptLinks(s, op);
    KeptSlots(s, op, Apply(s, op).value);
  }

  /** Every transaction leaves every row of every table as it should, whatever padding the row search found. */
  lemma StepFollows(s: State, op: Op)
    requires Inv(s) && Admissible(op) && Apply(s, op).Ok?
    ensures Follows(s, op, Apply(s, op).value)
  {
    hide Inv, Admissible, Follows, DropComments, DropLinks, DeleteContainers, CreateComment, CreateLink, RevokeLink;
    if op.OpComment? {
      CommentFollows(s, op);
    } else if op.OpLink? {
      LinkFollows(s, op);
    } else if op.OpRevokeLink? {
      RevokingFollows(s, op);
    } else if op.OpDropComments? {
      DropCommentsFollows(s, op);
    } else if op.OpDropLinks? {
      DropLinksFollows(s, op);
    } else if op.OpDeleteContainers? {
      DeleteContainersFollows(s, op);
    } else {
      hide DeleteComment;
      if Deletes(s, op) {
        DeletingFollows(s, op);
      } else {
        PlainFollows(s, op);
      }
    }
  }
}
