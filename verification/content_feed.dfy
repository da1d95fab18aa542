/** The change feed: one sequence number per changed row, and paging that loses nothing. */
module ContentFeed {
  import opened Outcome
  import opened ContentModel

  datatype RowId = ObjectRow(o: ObjectId) | AttachmentRow(a: AttachmentId) | CommentRow(m: CommentId) |
    ConflictRow(f: ConflictId)

  datatype Entry = Entry(container: ContainerId, seqNo: nat, gone: bool)

  /** The row as the feed's query reads it. */
  function Lookup(s: Db, r: RowId): Option<Entry> {
    match r
    case ObjectRow(o) => if o in s.objects
      then Some(Entry(s.objects[o].container, s.objects[o].seqNo, s.objects[o].deleted)) else None
    case AttachmentRow(a) => if a in s.attachments
      then Some(Entry(s.attachments[a].container, s.attachments[a].seqNo, s.attachments[a].deleted)) else None
    case CommentRow(m) => if m in s.comments
      then Some(Entry(s.comments[m].container, s.comments[m].seqNo, s.comments[m].deleted)) else None
    case ConflictRow(f) => if f in s.conflicts
      then Some(Entry(s.conflicts[f].container, s.conflicts[f].seqNo, s.conflicts[f].resolved)) else None
  }

  ghost predicate HasRow(s: Db, c: ContainerId, n: int, r: RowId) {
    Lookup(s, r).Some? && Lookup(s, r).value.container == c && Lookup(s, r).value.seqNo == n
  }

  // ---- Sequence numbers ---------------------------------------------------------------------------

  ghost predicate Counted(s: Db, r: RowId) {
    Lookup(s, r).Some? ==>
      Lookup(s, r).value.container in s.containers &&
        1 <= Lookup(s, r).value.seqNo <= s.containers[Lookup(s, r).value.container].seqNo
  }

  /** Rows are numbered within their container's counter, and no two rows of a container share a number. */
  ghost predicate FeedInv(s: Db) {
    && (forall r :: Counted(s, r))
    && (forall c, n, r, q :: HasRow(s, c, n, r) && HasRow(s, c, n, q) ==> r == q)
  }

  ghost predicate SameStamp(s: Db, s': Db, r: RowId) {
    Lookup(s', r).Some? ==>
      Lookup(s, r).Some? && Lookup(s, r).value.container == Lookup(s', r).value.container &&
        Lookup(s, r).value.seqNo == Lookup(s', r).value.seqNo
  }

  ghost predicate FreshStamp(s: Db, s': Db, r: RowId) {
    Lookup(s', r).Some? && var e := Lookup(s', r).value;
    e.container in s.containers && e.container in s'.containers &&
    e.seqNo == s.containers[e.container].seqNo + 1 == s'.containers[e.container].seqNo
  }

  /** Counters only rise; at most the row `who` takes a number, its container's next; the rest keep theirs or go. */
  ghost predicate Stamps(s: Db, s': Db, who: Option<RowId>) {
    && ContainersRise(s, s')
    && (forall r :: if Some(r) == who then FreshStamp(s, s', r) else SameStamp(s, s', r))
  }

  ghost predicate ContainersRise(s: Db, s': Db) {
    forall c <- s.containers :: c in s'.containers && s.containers[c].seqNo <= s'.containers[c].seqNo
  }

  ghost predicate ObjectsStamp(s: Db, s': Db, who: Option<RowId>) {
    forall o <- s'.objects :: Some(ObjectRow(o)) != who ==>
      o in s.objects && s.objects[o].container == s'.objects[o].container && s.objects[o].seqNo == s'.objects[o].seqNo
  }

  ghost predicate AttachmentsStamp(s: Db, s': Db, who: Option<RowId>) {
    forall a <- s'.attachments :: Some(AttachmentRow(a)) != who ==>
      a in s.attachments && s.attachments[a].container == s'.attachments[a].container &&
        s.attachments[a].seqNo == s'.attachments[a].seqNo
  }

  ghost predicate CommentsStamp(s: Db, s': Db, who: Option<RowId>) {
    forall m <- s'.comments :: Some(CommentRow(m)) != who ==>
      m in s.comments && s.comments[m].container == s'.comments[m].container &&
        s.comments[m].seqNo == s'.comments[m].seqNo
  }

  ghost predicate ConflictsStamp(s: Db, s': Db, who: Option<RowId>) {
    forall f <- s'.conflicts :: Some(ConflictRow(f)) != who ==>
      f in s.conflicts && s.conflicts[f].container == s'.conflicts[f].container &&
        s.conflicts[f].seqNo == s'.conflicts[f].seqNo
  }

  lemma TablesStamp(s: Db, s': Db, who: Option<RowId>)
    requires ContainersRise(s, s') && ObjectsStamp(s, s', who) && AttachmentsStamp(s, s', who) &&
      CommentsStamp(s, s', who) && ConflictsStamp(s, s', who)
    requires who.Some? ==> FreshStamp(s, s', who.value)
    ensures Stamps(s, s', who)
  {
  }

  lemma RowsSame(s: Db, s': Db)
    requires s'.objects == s.objects && s'.attachments == s.attachments && s'.comments == s.comments &&
      s'.conflicts == s.conflicts && ContainersRise(s, s')
    ensures Stamps(s, s', None)
  {
    hide Stamps;
    TablesStamp(s, s', None);
  }

  lemma VersionStamps(s: Db, files: set<Digest>, g: Guards, o: ObjectId, base: int, d: Digest, key: Option<SaveKey>,
      f: ConflictId, now: nat)
    requires PutAdmitted(s, files, g, o, base, d, key, f) && base == s.objects[o].current
    ensures Stamps(s, Put(s, files, g, o, base, d, key, f, now).0, Some(ObjectRow(o)))
  {
    hide Kept, Claimed, Stamps;
    TablesStamp(s, Put(s, files, g, o, base, d, key, f, now).0, Some(ObjectRow(o)));
  }

  lemma ConflictStamps(s: Db, files: set<Digest>, g: Guards, o: ObjectId, base: int, d: Digest, key: Option<SaveKey>,
      f: ConflictId, now: nat)
    requires PutAdmitted(s, files, g, o, base, d, key, f) && base != s.objects[o].current
    ensures Stamps(s, Put(s, files, g, o, base, d, key, f, now).0, Some(ConflictRow(f)))
  {
    hide Kept, Claimed, Stamps;
    TablesStamp(s, Put(s, files, g, o, base, d, key, f, now).0, Some(ConflictRow(f)));
  }

  lemma PutStamps(s: Db, files: set<Digest>, g: Guards, o: ObjectId, base: int, d: Digest, key: Option<SaveKey>,
      f: ConflictId, now: nat) returns (who: Option<RowId>)
    ensures Stamps(s, Put(s, files, g, o, base, d, key, f, now).0, who)
  {
    hide Kept, Claimed, Stamps, Bumped, NextSeq;
    if !PutAdmitted(s, files, g, o, base, d, key, f) {
      who := None;
      RowsSame(s, s);
    } else if base == s.objects[o].current {
      who := Some(ObjectRow(o));
      VersionStamps(s, files, g, o, base, d, key, f, now);
    } else {
      who := Some(ConflictRow(f));
      ConflictStamps(s, files, g, o, base, d, key, f, now);
    }
  }

  lemma NewObjectStamps(s: Db, o: ObjectId, c: ContainerId)
    requires NewObject(s, o, c).Some?
    ensures Stamps(s, NewObject(s, o, c).value, Some(ObjectRow(o)))
  {
    hide Stamps;
    TablesStamp(s, NewObject(s, o, c).value, Some(ObjectRow(o)));
  }

  lemma DeleteObjectStamps(s: Db, o: ObjectId)
    requires DeleteObject(s, o).Some?
    ensures Stamps(s, DeleteObject(s, o).value, Some(ObjectRow(o)))
  {
    hide LinkedTo, LinkedElsewhere, Stamps;
    TablesStamp(s, DeleteObject(s, o).value, Some(ObjectRow(o)));
  }

  lemma ResolveStamps(s: Db, f: ConflictId)
    requires Resolve(s, f).Some?
    ensures Stamps(s, Resolve(s, f).value, Some(ConflictRow(f)))
  {
    hide Stamps;
    TablesStamp(s, Resolve(s, f).value, Some(ConflictRow(f)));
  }

  lemma NewCommentStamps(s: Db, m: CommentId, o: ObjectId)
    requires NewComment(s, m, o).Some?
    ensures Stamps(s, NewComment(s, m, o).value, Some(CommentRow(m)))
  {
    hide Stamps;
    TablesStamp(s, NewComment(s, m, o).value, Some(CommentRow(m)));
  }

  lemma DropCommentStamps(s: Db, m: CommentId)
    requires DropComment(s, m).Some?
    ensures Stamps(s, DropComment(s, m).value, Some(CommentRow(m)))
  {
    hide Stamps;
    TablesStamp(s, DropComment(s, m).value, Some(CommentRow(m)));
  }

  lemma PageStamps(s: Db, op: Op) returns (who: Option<RowId>)
    requires IsPageOp(op) && ApplyPage(s, op).Some?
    ensures Stamps(s, ApplyPage(s, op).value, who)
  {
    hide Stamps, NewObject, DeleteObject, Resolve, NewComment, DropComment;
    who := None;
    match op
    case OpNewContainer(c, team) => RowsSame(s, NewContainer(s, c, team).value);
    case OpTouch(c) => RowsSame(s, Touch(s, c).value);
    case OpNewObject(o, c) => NewObjectStamps(s, o, c); who := Some(ObjectRow(o));
    case OpResolve(f) => ResolveStamps(s, f); who := Some(ConflictRow(f));
    case OpDeleteObject(o) => DeleteObjectStamps(s, o); who := Some(ObjectRow(o));
    case OpNewComment(m, o) => NewCommentStamps(s, m, o); who := Some(CommentRow(m));
    case OpDropComment(m) => DropCommentStamps(s, m); who := Some(CommentRow(m));
  }

  lemma AttachStamps(s: Db, files: set<Digest>, a: AttachmentId, c: ContainerId, d: Digest, preview: Option<Digest>)
      returns (who: Option<RowId>)
    requires Attach(s, files, a, c, d, preview).Some?
    ensures Stamps(s, Attach(s, files, a, c, d, preview).value, who)
  {
    hide SameBytes, HasBytes, KnownPreview, Claimed, Stamps;
    who := if HasBytes(s, c, d) then None else Some(AttachmentRow(a));
    TablesStamp(s, Attach(s, files, a, c, d, preview).value, who);
  }

  lemma DeleteContainerStamps(s: Db, c: ContainerId)
    requires DeleteContainer(s, c).Some?
    ensures Stamps(s, DeleteContainer(s, c).value, None)
  {
    hide InScope, ObjectInScope, Stamps;
    TablesStamp(s, DeleteContainer(s, c).value, None);
  }

  lemma AttachmentStamps(s: Db, files: set<Digest>, op: Op) returns (who: Option<RowId>)
    requires IsAttachmentOp(op) && ApplyAttachment(s, files, op).Some?
    ensures Stamps(s, ApplyAttachment(s, files, op).value, who)
  {
    hide Stamps, Attach, DeleteContainer;
    who := None;
    match op
    case OpAttach(a, c, d, preview) => who := AttachStamps(s, files, a, c, d, preview);
    case OpClaimPreview(d) => RowsSame(s, ClaimPreview(s, files, d).value);
    case OpAddLink(a, o, version) => RowsSame(s, AddLink(s, a, o, version).value);
    case OpRemoveLinks(a, o) => RowsSame(s, RemoveLinks(s, a, o).value);
    case OpDeleteContainer(c) => DeleteContainerStamps(s, c);
  }

  lemma GcStamps(s: Db, op: Op)
    requires IsGcOp(op)
    ensures Stamps(s, ApplyGc(s, op), None)
  {
    hide Stranded, Referenced, Stamps;
    TablesStamp(s, ApplyGc(s, op), None);
  }

  lemma SweptStamps(s: Db, d: Digest)
    ensures Stamps(s, Swept(s, d), None)
  {
  }

  lemma NothingStamps(s: Db)
    ensures Stamps(s, s, None)
  {
  }

  lemma StepStamps(s: State, op: Op) returns (who: Option<RowId>)
    ensures Stamps(s.db, Apply(s, op).db, who)
  {
    hide Stamps, Put, ApplyPage, ApplyAttachment, ApplyGc, Swept, Due;
    who := None;
    NothingStamps(s.db);
    if !IsDbOp(op) {
      if s.work.Some? {
        SweptStamps(s.db, s.work.value.digest);
      }
    } else if s.work.None? {
      if op.OpPut? {
        who := PutStamps(s.db, s.files, op.g, op.o, op.base, op.d, op.key, op.f, op.now);
      } else if IsGcOp(op) {
        GcStamps(s.db, op);
      } else if IsPageOp(op) && ApplyPage(s.db, op).Some? {
        who := PageStamps(s.db, op);
      } else if IsAttachmentOp(op) && ApplyAttachment(s.db, s.files, op).Some? {
        who := AttachmentStamps(s.db, s.files, op);
      }
    }
  }

  lemma StampsKeepFeed(s: Db, s': Db, who: Option<RowId>)
    requires FeedInv(s) && Stamps(s, s', who)
    ensures FeedInv(s')
  {
    hide Lookup;
    forall r ensures Counted(s', r) {
      assert Counted(s, r);
      assert if Some(r) == who then FreshStamp(s, s', r) else SameStamp(s, s', r);
    }
    forall c, n, r, q | HasRow(s', c, n, r) && HasRow(s', c, n, q) ensures r == q {
      assert if Some(r) == who then FreshStamp(s, s', r) else SameStamp(s, s', r);
      assert if Some(q) == who then FreshStamp(s, s', q) else SameStamp(s, s', q);
      assert Counted(s, r) && Counted(s, q);
      assert Some(r) != who && Some(q) != who ==> HasRow(s, c, n, r) && HasRow(s, c, n, q);
    }
  }

  /** What a row still numbered within the old counter says, it already said. */
  ghost predicate Later(s: Db, s': Db, c: ContainerId) {
    && c in s.containers && c in s'.containers && s.containers[c].seqNo <= s'.containers[c].seqNo
    && forall n, r :: HasRow(s', c, n, r) && n <= s.containers[c].seqNo ==> HasRow(s, c, n, r)
  }

  lemma StampsMakeLater(s: Db, s': Db, who: Option<RowId>, c: ContainerId)
    requires Stamps(s, s', who) && c in s.containers
    ensures Later(s, s', c)
  {
    hide Lookup;
    forall n, r | HasRow(s', c, n, r) && n <= s.containers[c].seqNo ensures HasRow(s, c, n, r) {
      assert if Some(r) == who then FreshStamp(s, s', r) else SameStamp(s, s', r);
    }
  }

  lemma StartFeed(s: State)
    requires Start(s)
    ensures FeedInv(s.db)
  {
  }

  /** In every reachable state of every run the numbers of a container's rows are distinct. */
  lemma {:induction false} RunKeepsFeed(ss: seq<State>, ops: seq<Op>, i: nat)
    requires Run(ss, ops) && i < |ss|
    ensures FeedInv(ss[i].db)
  {
    hide Apply, FeedInv, Stamps;
    if i == 0 {
      StartFeed(ss[0]);
    } else {
      RunKeepsFeed(ss, ops, i - 1);
      assert ss[i - 1 + 1] == Apply(ss[i - 1], ops[i - 1]);
      var who := StepStamps(ss[i - 1], ops[i - 1]);
      StampsKeepFeed(ss[i - 1].db, ss[i].db, who);
    }
  }

  /** Any state of a run is later than any state before it. */
  lemma {:induction false} RunGoesLater(ss: seq<State>, ops: seq<Op>, i: nat, j: nat, c: ContainerId)
    requires Run(ss, ops) && i <= j < |ss| && c in ss[i].db.containers
    ensures Later(ss[i].db, ss[j].db, c)
    decreases j
  {
    hide Apply, FeedInv, Stamps, Lookup;
    if i < j {
      RunGoesLater(ss, ops, i, j - 1, c);
      assert ss[j - 1 + 1] == Apply(ss[j - 1], ops[j - 1]);
      var who := StepStamps(ss[j - 1], ops[j - 1]);
      StampsMakeLater(ss[j - 1].db, ss[j].db, who, c);
    }
  }

  // ---- The feed in order ----------------------------------------------------------------------------

  datatype Change = Change(row: RowId, seqNo: nat, gone: bool)

  /** The query's rows numbered above lo and up to hi, in order. */
  ghost function Changes(s: Db, c: ContainerId, lo: int, hi: nat): seq<Change>
    decreases hi - lo
  {
    if hi <= lo || hi == 0 then [] else Changes(s, c, lo, hi - 1) + ChangeAt(s, c, hi)
  }

  ghost function ChangeAt(s: Db, c: ContainerId, n: nat): seq<Change> {
    if r :| HasRow(s, c, n, r) then [Change(r, n, Lookup(s, r).value.gone)] else []
  }

  ghost function Feed(s: Db, c: ContainerId, since: int): seq<Change>
    requires c in s.containers
  {
    Changes(s, c, since, s.containers[c].seqNo)
  }

  predicate Ascending(changes: seq<Change>) {
    forall i, j :: 0 <= i < j < |changes| ==> changes[i].seqNo < changes[j].seqNo
  }

  lemma {:induction false} ChangesInOrder(s: Db, c: ContainerId, lo: int, hi: nat)
    ensures Ascending(Changes(s, c, lo, hi))
    ensures forall e <- Changes(s, c, lo, hi) ::
      lo < e.seqNo <= hi && HasRow(s, c, e.seqNo, e.row) && e.gone == Lookup(s, e.row).value.gone
    decreases hi - lo
  {
    hide Lookup;
    if hi > lo && hi > 0 {
      ChangesInOrder(s, c, lo, hi - 1);
    }
  }

  lemma {:induction false} ChangesAreComplete(s: Db, c: ContainerId, lo: int, hi: nat, r: RowId, n: nat)
    requires FeedInv(s) && HasRow(s, c, n, r) && lo < n <= hi && 0 < n
    ensures Change(r, n, Lookup(s, r).value.gone) in Changes(s, c, lo, hi)
    decreases hi
  {
    hide Lookup;
    if n < hi {
      ChangesAreComplete(s, c, lo, hi - 1, r, n);
    }
  }

  /** Whatever a notebook's pages, attachments, comments and conflicts hold now, with numbers above the cursor, the feed
      shows: each with its number, and whether it is deleted or, a conflict, resolved. */
  lemma FeedShowsEveryKind(s: Db, c: ContainerId, since: int)
    requires FeedInv(s) && c in s.containers
    ensures forall o <- s.objects :: s.objects[o].container == c && since < s.objects[o].seqNo ==>
      Change(ObjectRow(o), s.objects[o].seqNo, s.objects[o].deleted) in Feed(s, c, since)
    ensures forall a <- s.attachments :: s.attachments[a].container == c && since < s.attachments[a].seqNo ==>
      Change(AttachmentRow(a), s.attachments[a].seqNo, s.attachments[a].deleted) in Feed(s, c, since)
    ensures forall m <- s.comments :: s.comments[m].container == c && since < s.comments[m].seqNo ==>
      Change(CommentRow(m), s.comments[m].seqNo, s.comments[m].deleted) in Feed(s, c, since)
    ensures forall f <- s.conflicts :: s.conflicts[f].container == c && since < s.conflicts[f].seqNo ==>
      Change(ConflictRow(f), s.conflicts[f].seqNo, s.conflicts[f].resolved) in Feed(s, c, since)
  {
    var hi := s.containers[c].seqNo;
    forall r, n: nat | HasRow(s, c, n, r) && since < n
      ensures Change(r, n, Lookup(s, r).value.gone) in Changes(s, c, since, hi)
    {
      assert Counted(s, r);
      ChangesAreComplete(s, c, since, hi, r, n);
    }
    hide Changes, FeedInv;
    forall o | o in s.objects && s.objects[o].container == c && since < s.objects[o].seqNo
      ensures Change(ObjectRow(o), s.objects[o].seqNo, s.objects[o].deleted) in Feed(s, c, since)
    {
      assert HasRow(s, c, s.objects[o].seqNo, ObjectRow(o));
    }
    forall a | a in s.attachments && s.attachments[a].container == c && since < s.attachments[a].seqNo
      ensures Change(AttachmentRow(a), s.attachments[a].seqNo, s.attachments[a].deleted) in Feed(s, c, since)
    {
      assert HasRow(s, c, s.attachments[a].seqNo, AttachmentRow(a));
    }
    forall m | m in s.comments && s.comments[m].container == c && since < s.comments[m].seqNo
      ensures Change(CommentRow(m), s.comments[m].seqNo, s.comments[m].deleted) in Feed(s, c, since)
    {
      assert HasRow(s, c, s.comments[m].seqNo, CommentRow(m));
    }
    forall f | f in s.conflicts && s.conflicts[f].container == c && since < s.conflicts[f].seqNo
      ensures Change(ConflictRow(f), s.conflicts[f].seqNo, s.conflicts[f].resolved) in Feed(s, c, since)
    {
      assert HasRow(s, c, s.conflicts[f].seqNo, ConflictRow(f));
    }
  }

  // ---- One page -------------------------------------------------------------------------------------

  datatype Page = Page(rows: seq<Change>, next: int, hasMore: bool)

  function Min(a: int, b: int): int {
    if a < b then a else b
  }

  /** The page of at most limit changes after since. */
  function PageOf(feed: seq<Change>, since: int, limit: nat): Page {
    var rows := feed[..Min(limit, |feed|)];
    Page(rows, if rows == [] then since else rows[|rows| - 1].seqNo, |feed| > limit)
  }

  function Limit(requested: int): (limit: nat)
    ensures 0 < limit <= 1000 && (0 < requested <= 1000 ==> limit == requested)
  {
    if requested <= 0 then 200 else if requested > 1000 then 1000 else requested
  }

  /** The handler's loop over a query that was limited to one row more than the page. */
  method ChangesPage(query: seq<Change>, since: int, limit: nat, ghost feed: seq<Change>) returns (page: Page)
    requires Ascending(feed) && (forall e <- feed :: since < e.seqNo) && query == feed[..Min(limit + 1, |feed|)]
    ensures page == PageOf(feed, since, limit)
  {
    var rows, next, hasMore := [], since, false;
    for i := 0 to |query|
      invariant rows == query[..i] && i <= limit
      invariant next == if i == 0 then since else query[i - 1].seqNo
    {
      if |rows| == limit {
        hasMore := true;
        return Page(rows, next, hasMore);
      }
      if query[i].seqNo > next {
        next := query[i].seqNo;
      }
      rows := rows + [query[i]];
    }
    return Page(rows, next, hasMore);
  }

  /** A page is exactly the rows numbered between its cursor and the next, and says truly if more follow. */
  lemma PageIsWindow(s: Db, c: ContainerId, since: int, limit: nat)
    requires c in s.containers && 0 < limit
    ensures var page := PageOf(Feed(s, c, since), since, limit);
      since <= page.next && page.next <= (if since < s.containers[c].seqNo then s.containers[c].seqNo else since) &&
      (page.next > since ==> page.next > 0 && page.rows == Changes(s, c, since, page.next)) &&
        (page.next == since ==> page.rows == []) &&
      (page.hasMore ==> page.next > since && |page.rows| == limit) && |page.rows| <= limit &&
      (!page.hasMore <==> page.rows == Feed(s, c, since))
  {
    hide Lookup;
    var feed := Feed(s, c, since);
    ChangesInOrder(s, c, since, s.containers[c].seqNo);
    var k := Min(limit, |feed|);
    if k > 0 {
      assert feed[k - 1] in feed;
      PrefixIsWindow(s, c, since, s.containers[c].seqNo, k);
      assert feed[..k][k - 1] == feed[k - 1];
    }
  }

  lemma {:induction false} PrefixIsWindow(s: Db, c: ContainerId, lo: int, hi: nat, k: nat)
    requires 0 < k <= |Changes(s, c, lo, hi)|
    ensures Changes(s, c, lo, hi)[..k] == Changes(s, c, lo, Changes(s, c, lo, hi)[k - 1].seqNo)
    decreases hi
  {
    hide Lookup;
    var all := Changes(s, c, lo, hi);
    var less := Changes(s, c, lo, hi - 1);
    if k <= |less| {
      PrefixIsWindow(s, c, lo, hi - 1, k);
      assert all[..k] == less[..k];
    } else {
      assert all[..k] == all;
    }
  }

  // ---- A client paging while others write -------------------------------------------------------------

  datatype Fetch = Fetch(db: Db, limit: nat)

  ghost function Fetched(f: Fetch, c: ContainerId, since: int): Page
    requires c in f.db.containers
  {
    PageOf(Feed(f.db, c, since), since, f.limit)
  }

  /** Pages fetched from successive states, each from the cursor the one before returned. */
  ghost predicate Session(fs: seq<Fetch>, c: ContainerId, cursors: seq<int>) {
    && |cursors| == |fs| + 1
    && (forall i :: 0 <= i < |fs| ==> c in fs[i].db.containers && FeedInv(fs[i].db) && 0 < fs[i].limit)
    && (forall i :: 0 <= i < |fs| ==> cursors[i + 1] == Fetched(fs[i], c, cursors[i]).next)
    && (forall i, j :: 0 <= i < j < |fs| ==> Later(fs[i].db, fs[j].db, c))
  }

  lemma {:induction false} CursorsRise(fs: seq<Fetch>, c: ContainerId, cursors: seq<int>, i: nat, j: nat)
    requires Session(fs, c, cursors) && i <= j <= |fs|
    ensures cursors[i] <= cursors[j]
    decreases j
  {
    hide Later, FeedInv;
    if i < j {
      CursorsRise(fs, c, cursors, i, j - 1);
      PageIsWindow(fs[j - 1].db, c, cursors[j - 1], fs[j - 1].limit);
    }
  }

  /** The page whose window holds number n. */
  lemma {:induction false} WindowOf(fs: seq<Fetch>, c: ContainerId, cursors: seq<int>, n: int, j: nat) returns (i: nat)
    requires Session(fs, c, cursors) && j <= |fs| && cursors[0] < n <= cursors[j]
    ensures i < j && cursors[i] < n <= cursors[i + 1]
    decreases j
  {
    hide Later, FeedInv, Fetched;
    if cursors[j - 1] < n {
      i := j - 1;
    } else {
      i := WindowOf(fs, c, cursors, n, j - 1);
    }
  }

  /**
   * Writes between pages hide nothing: when the last page says there is no more, every row changed
   * after the first cursor, at its latest number, is on exactly one of the pages fetched.
   */
  lemma PagingLosesNothing(fs: seq<Fetch>, c: ContainerId, cursors: seq<int>, r: RowId, n: nat) returns (i: nat)
    requires Session(fs, c, cursors) && fs != [] && !Fetched(fs[|fs| - 1], c, cursors[|fs| - 1]).hasMore
    requires HasRow(fs[|fs| - 1].db, c, n, r) && cursors[0] < n
    ensures i < |fs| && Reports(Fetched(fs[i], c, cursors[i]), r, n)
    ensures forall j :: 0 <= j < |fs| && Reports(Fetched(fs[j], c, cursors[j]), r, n) ==> j == i
  {
    hide Lookup;
    var last := |fs| - 1;
    if n <= cursors[last] {
      i := WindowOf(fs, c, cursors, n, last);
    } else {
      i := last;
    }
    assert Counted(fs[last].db, r);
    WindowReports(fs, c, cursors, i, r, n);
    forall j | 0 <= j < |fs| && Reports(Fetched(fs[j], c, cursors[j]), r, n) ensures j == i {
      ReportsInWindow(fs, c, cursors, j, r, n);
      ReportsInWindow(fs, c, cursors, i, r, n);
      if j < i {
        CursorsRise(fs, c, cursors, j + 1, i);
      } else if i < j {
        CursorsRise(fs, c, cursors, i + 1, j);
      }
    }
  }

  ghost predicate Reports(page: Page, r: RowId, n: nat) {
    exists e <- page.rows :: e.row == r && e.seqNo == n
  }

  lemma WindowReports(fs: seq<Fetch>, c: ContainerId, cursors: seq<int>, i: nat, r: RowId, n: nat)
    requires Session(fs, c, cursors) && i < |fs| && HasRow(fs[|fs| - 1].db, c, n, r) && cursors[i] < n && 0 < n
    requires n <= cursors[i + 1] || (i == |fs| - 1 && !Fetched(fs[i], c, cursors[i]).hasMore)
    ensures Reports(Fetched(fs[i], c, cursors[i]), r, n)
  {
    hide Lookup, FeedInv;
    var s := fs[i].db;
    PageIsWindow(s, c, cursors[i], fs[i].limit);
    if i < |fs| - 1 {
      assert Later(s, fs[|fs| - 1].db, c);
    }
    assert HasRow(s, c, n, r);
    var gone := Lookup(s, r).value.gone;
    if Fetched(fs[i], c, cursors[i]).hasMore || i < |fs| - 1 {
      ChangesAreComplete(s, c, cursors[i], cursors[i + 1], r, n);
    } else {
      CountedWithin(s, c, n, r);
      ChangesAreComplete(s, c, cursors[i], s.containers[c].seqNo, r, n);
    }
    assert Change(r, n, gone) in Fetched(fs[i], c, cursors[i]).rows;
  }

  lemma CountedWithin(s: Db, c: ContainerId, n: nat, r: RowId)
    requires FeedInv(s) && HasRow(s, c, n, r) && c in s.containers
    ensures n <= s.containers[c].seqNo
  {
    assert Counted(s, r);
  }

  lemma ReportsInWindow(fs: seq<Fetch>, c: ContainerId, cursors: seq<int>, i: nat, r: RowId, n: nat)
    requires Session(fs, c, cursors) && i < |fs| && Reports(Fetched(fs[i], c, cursors[i]), r, n)
    ensures cursors[i] < n <= cursors[i + 1]
  {
    hide Lookup, FeedInv, Later;
    PageIsWindow(fs[i].db, c, cursors[i], fs[i].limit);
    ChangesInOrder(fs[i].db, c, cursors[i], cursors[i + 1]);
  }

  /** The states a client's pages come from may be any of a run, in order. */
  lemma RunsMakeSessions(ss: seq<State>, ops: seq<Op>, at: seq<nat>, limits: seq<nat>, c: ContainerId, since: int)
      returns (fs: seq<Fetch>, cursors: seq<int>)
    requires Run(ss, ops) && |at| == |limits| &&
      (forall i :: 0 <= i < |at| ==> at[i] < |ss| && c in ss[at[i]].db.containers && 0 < limits[i])
    requires forall i, j :: 0 <= i < j < |at| ==> at[i] <= at[j]
    ensures |fs| == |at| && Session(fs, c, cursors) && cursors[0] == since
    ensures forall i :: 0 <= i < |at| ==> fs[i] == Fetch(ss[at[i]].db, limits[i])
  {
    hide Apply, Lookup, Later, FeedInv;
    fs := seq(|at|, i requires 0 <= i < |at| => Fetch(ss[at[i]].db, limits[i]));
    cursors := [since];
    for k := 0 to |at|
      invariant |cursors| == k + 1 && cursors[0] == since
      invariant forall i :: 0 <= i < k ==> cursors[i + 1] == Fetched(fs[i], c, cursors[i]).next
    {
      cursors := cursors + [Fetched(fs[k], c, cursors[k]).next];
    }
    forall i | 0 <= i < |at| ensures FeedInv(fs[i].db) {
      RunKeepsFeed(ss, ops, at[i]);
    }
    forall i, j | 0 <= i < j < |at| ensures Later(fs[i].db, fs[j].db, c) {
      RunGoesLater(ss, ops, at[i], at[j], c);
    }
  }

  /** The cursor after the first n changes. */
  function CursorAt(feed: seq<Change>, since: int, n: nat): int
    requires n <= |feed|
  {
    if n == 0 then since else feed[n - 1].seqNo
  }

  /** From the cursor after n changes, a page is the next ones and leaves the cursor after them. */
  lemma NextPage(feed: seq<Change>, since: int, n: nat, limit: nat)
    requires Ascending(feed) && (forall e <- feed :: since < e.seqNo) && n <= |feed|
    ensures Ascending(feed[n..]) && forall e <- feed[n..] :: CursorAt(feed, since, n) < e.seqNo
    ensures var k, page := Min(limit, |feed| - n), PageOf(feed[n..], CursorAt(feed, since, n), limit);
      feed[..n] + page.rows == feed[..n + k] && page.next == CursorAt(feed, since, n + k) &&
        (page.hasMore <==> n + k < |feed|)
  {
  }

  /** The client's loop over a feed nobody writes to: it ends, with every change once and in order. */
  method Drain(feed: seq<Change>, since: int, requested: int) returns (got: seq<Change>)
    requires Ascending(feed) && (forall e <- feed :: since < e.seqNo)
    ensures got == feed
  {
    hide Ascending, PageOf;
    var limit := Limit(requested);
    var n, cursor, more := 0, since, true;
    got := [];
    while more
      invariant 0 <= n <= |feed| && got == feed[..n] && (!more ==> n == |feed|) && cursor == CursorAt(feed, since, n)
      decreases |feed| - n, more
    {
      NextPage(feed, since, n, limit);
      var query := feed[n..][..Min(limit + 1, |feed| - n)];
      var page := ChangesPage(query, cursor, limit, feed[n..]);
      got := got + page.rows;
      n, cursor, more := n + Min(limit, |feed| - n), page.next, page.hasMore;
    }
  }

  // ---- What the feed does not announce ----------------------------------------------------------------

  /** The step changed or dropped what the feed reads of r, and gave r no new number to say so under. */
  ghost predicate Unannounced(s: Db, s': Db, r: RowId) {
    Lookup(s', r) != Lookup(s, r) && !FreshStamp(s, s', r)
  }

  /** The writes that leave a row's number alone: attachments falling with a page, a revived attachment,
      and everything in a deleted notebook. */
  predicate LeavesNumber(s: Db, files: set<Digest>, op: Op, r: RowId) {
    if op.OpDeleteObject? then
      op.o in s.objects && s.objects[op.o].container in s.containers &&
      r.AttachmentRow? && r.a in s.attachments && !s.attachments[r.a].deleted && LinkedTo(s.links, r.a, op.o) &&
        !LinkedElsewhere(s.links, r.a, op.o)
    else if op.OpAttach? then
      LiveContainer(s, op.c) && op.d in files && r.AttachmentRow? && SameBytes(s, r.a, op.c, op.d) &&
        s.attachments[r.a].deleted
    else if op.OpDeleteContainer? then
      LiveContainer(s, op.c) &&
      ((r.ObjectRow? && ObjectInScope(s, op.c, r.o) && !s.objects[r.o].deleted) ||
       (r.AttachmentRow? && r.a in s.attachments && InScope(s, op.c, s.attachments[r.a].container) &&
         !s.attachments[r.a].deleted))
    else op.OpTombstoneStranded? && r.AttachmentRow? && Stranded(s, r.a) && !s.attachments[r.a].deleted
  }

  /** The writes that take rows away: what hangs on a deleted page or notebook, and swept tombstones. */
  predicate Vanishes(s: State, op: Op, r: RowId) {
    if op.OpDeleteObject? then
      op.o in s.db.objects && s.db.objects[op.o].container in s.db.containers &&
      ((r.CommentRow? && r.m in s.db.comments && s.db.comments[r.m].page == op.o) ||
       (r.ConflictRow? && r.f in s.db.conflicts && s.db.conflicts[r.f].page == op.o))
    else if op.OpDeleteContainer? then
      LiveContainer(s.db, op.c) &&
      ((r.CommentRow? && r.m in s.db.comments && InScope(s.db, op.c, s.db.comments[r.m].container)) ||
       (r.ConflictRow? && r.f in s.db.conflicts && InScope(s.db, op.c, s.db.conflicts[r.f].container)))
    else
      op.OpCommitSweep? && s.work.Some? && s.work.value.Sweep? && s.work.value.removed &&
      ((r.AttachmentRow? && r.a in s.db.attachments && s.db.attachments[r.a].digest == s.work.value.digest &&
        s.db.attachments[r.a].deleted) ||
       (r.ConflictRow? && r.f in s.db.conflicts && s.db.conflicts[r.f].digest == s.work.value.digest &&
        s.db.conflicts[r.f].resolved))
  }

  /** A condition on the state before the call. */
  predicate LeftUnsaid(s: State, op: Op, r: RowId) {
    if IsDbOp(op) then s.work.None? && (LeavesNumber(s.db, s.files, op, r) || Vanishes(s, op, r))
      else Vanishes(s, op, r)
  }

  lemma DeleteObjectUnsaid(s: State, o: ObjectId, r: RowId)
    requires FeedInv(s.db) && DeleteObject(s.db, o).Some?
    ensures Unannounced(s.db, DeleteObject(s.db, o).value, r) <==>
      LeavesNumber(s.db, s.files, OpDeleteObject(o), r) || Vanishes(s, OpDeleteObject(o), r)
  {
    hide LinkedTo, LinkedElsewhere;
    assert Counted(s.db, ObjectRow(o)) && Counted(s.db, r);
  }

  lemma AttachUnsaid(s: Db, files: set<Digest>, a: AttachmentId, c: ContainerId, d: Digest, preview: Option<Digest>,
      r: RowId)
    requires FeedInv(s) && Attach(s, files, a, c, d, preview).Some?
    ensures Unannounced(s, Attach(s, files, a, c, d, preview).value, r) <==>
      LeavesNumber(s, files, OpAttach(a, c, d, preview), r)
  {
    hide Claimed, KnownPreview;
    assert Counted(s, r);
  }

  lemma DeleteContainerUnsaid(s: State, c: ContainerId, r: RowId)
    requires FeedInv(s.db) && DeleteContainer(s.db, c).Some?
    ensures Unannounced(s.db, DeleteContainer(s.db, c).value, r) <==>
      LeavesNumber(s.db, s.files, OpDeleteContainer(c), r) || Vanishes(s, OpDeleteContainer(c), r)
  {
    hide InScope;
    assert Counted(s.db, r);
  }

  lemma GcUnsaid(s: Db, op: Op, r: RowId)
    requires FeedInv(s) && IsGcOp(op)
    ensures Unannounced(s, ApplyGc(s, op), r) <==> LeavesNumber(s, {}, op, r)
  {
    hide Referenced;
    assert Counted(s, r);
  }

  /** A page op other than a deletion changes one row at most, and gives that row a new number. */
  lemma PageAnnounces(s: Db, op: Op, r: RowId)
    requires IsPageOp(op) && !op.OpDeleteObject? && ApplyPage(s, op).Some?
    ensures !Unannounced(s, ApplyPage(s, op).value, r)
  {
  }

  lemma PutAnnounces(s: Db, files: set<Digest>, op: Op, r: RowId)
    requires op.OpPut?
    ensures !Unannounced(s, Put(s, files, op.g, op.o, op.base, op.d, op.key, op.f, op.now).0, r)
  {
    hide Kept, Claimed;
  }

  lemma FileUnsaid(s: State, op: Op, r: RowId)
    requires FeedInv(s.db) && !IsDbOp(op)
    ensures Unannounced(s.db, ApplyFile(s, op).db, r) <==> Vanishes(s, op, r)
  {
    assert Counted(s.db, r);
  }

  lemma LinksAnnounce(s: Db, files: set<Digest>, op: Op, r: RowId)
    requires (op.OpClaimPreview? || op.OpAddLink? || op.OpRemoveLinks?) && ApplyAttachment(s, files, op).Some?
    ensures !Unannounced(s, ApplyAttachment(s, files, op).value, r)
  {
  }

  predicate Refused(s: State, op: Op) {
    (IsPageOp(op) && ApplyPage(s.db, op).None?) || (IsAttachmentOp(op) && ApplyAttachment(s.db, s.files, op).None?)
  }

  lemma RefusedChangesNothing(s: State, op: Op)
    requires s.work.None? && IsDbOp(op) && Refused(s, op)
    ensures Apply(s, op) == s
  {
    hide ApplyPage, ApplyAttachment, ApplyGc, Put;
  }

  lemma RefusedPageSaysNothing(s: State, op: Op, r: RowId)
    requires IsPageOp(op) && ApplyPage(s.db, op).None?
    ensures !LeavesNumber(s.db, s.files, op, r) && !Vanishes(s, op, r)
  {
    hide LinkedTo, LinkedElsewhere, InScope, ObjectInScope, NewContainer, Touch, NewObject, Resolve, NewComment;
    hide DropComment;
  }

  lemma RefusedAttachmentSaysNothing(s: State, op: Op, r: RowId)
    requires IsAttachmentOp(op) && ApplyAttachment(s.db, s.files, op).None?
    ensures !LeavesNumber(s.db, s.files, op, r) && !Vanishes(s, op, r)
  {
    hide InScope, ObjectInScope, ClaimPreview, AddLink, RemoveLinks, LinkedTo, LinkedElsewhere;
  }

  lemma RefusedSaysNothing(s: State, op: Op, r: RowId)
    requires s.work.None? && IsDbOp(op) && Refused(s, op)
    ensures Apply(s, op) == s && !LeavesNumber(s.db, s.files, op, r) && !Vanishes(s, op, r)
  {
    hide Apply, LeavesNumber, Vanishes, ApplyPage, ApplyAttachment;
    RefusedChangesNothing(s, op);
    if IsPageOp(op) {
      RefusedPageSaysNothing(s, op, r);
    } else {
      RefusedAttachmentSaysNothing(s, op, r);
    }
  }

  lemma PageUnsaid(s: State, op: Op, r: RowId)
    requires FeedInv(s.db) && IsPageOp(op) && ApplyPage(s.db, op).Some?
    ensures Unannounced(s.db, ApplyPage(s.db, op).value, r) <==>
      LeavesNumber(s.db, s.files, op, r) || Vanishes(s, op, r)
  {
    hide Lookup, FreshStamp, FeedInv, NewContainer, Touch, NewObject, Resolve, NewComment, DropComment, DeleteObject;
    if op.OpDeleteObject? {
      DeleteObjectUnsaid(s, op.o, r);
    } else {
      PageAnnounces(s.db, op, r);
    }
  }

  lemma AttachmentUnsaid(s: State, op: Op, r: RowId)
    requires FeedInv(s.db) && IsAttachmentOp(op) && ApplyAttachment(s.db, s.files, op).Some?
    ensures Unannounced(s.db, ApplyAttachment(s.db, s.files, op).value, r) <==>
      LeavesNumber(s.db, s.files, op, r) || Vanishes(s, op, r)
  {
    hide Lookup, FreshStamp, FeedInv, Attach, DeleteContainer, AddLink, ClaimPreview, RemoveLinks;
    if op.OpAttach? {
      AttachUnsaid(s.db, s.files, op.a, op.c, op.d, op.preview, r);
    } else if op.OpDeleteContainer? {
      DeleteContainerUnsaid(s, op.c, r);
    } else {
      LinksAnnounce(s.db, s.files, op, r);
    }
  }

  /** Exactly when what the feed reads of a row changes, or goes, without a new number. */
  lemma UnannouncedIff(s: State, op: Op, r: RowId)
    requires FeedInv(s.db)
    ensures Unannounced(s.db, Apply(s, op).db, r) <==> LeftUnsaid(s, op, r)
  {
    hide FeedInv, Lookup, FreshStamp, Put, ApplyFile, ApplyGc, ApplyPage, ApplyAttachment;
    if !IsDbOp(op) {
      FileUnsaid(s, op, r);
    } else if s.work.None? {
      if op.OpPut? {
        PutAnnounces(s.db, s.files, op, r);
      } else if IsGcOp(op) {
        GcUnsaid(s.db, op, r);
      } else if Refused(s, op) {
        RefusedSaysNothing(s, op, r);
      } else if IsPageOp(op) {
        PageUnsaid(s, op, r);
      } else {
        AttachmentUnsaid(s, op, r);
      }
    }
  }

  ghost function WithAttachment(seqNo: nat, files: set<Digest>, links: set<Link>): State {
    State(EMPTY.(containers := map[0 := Container(None, seqNo, false)], objects := map[0 := Object(0, 0, 2, false)],
      attachments := map[0 := Attachment(0, 0, None, 3, false)], blobs := map[0 := Blob(None)], links := links), files,
        None)
  }

  /** A page is made, an attachment is uploaded and linked to it, and the page is deleted. */
  ghost function Scene(i: nat): State {
    if i == 0 then State(EMPTY, {}, None)
    else if i == 1 then State(EMPTY.(containers := map[0 := Container(None, 1, false)]), {}, None)
    else if i == 2
      then State(EMPTY.(containers := map[0 := Container(None, 2, false)], objects := map[0 := Object(0, 0, 2, false)]),
      {}, None)
    else if i == 3
      then State(EMPTY.(containers := map[0 := Container(None, 2, false)], objects := map[0 := Object(0, 0, 2, false)]),
      {0}, None)
    else if i == 4 then WithAttachment(3, {0}, {})
    else WithAttachment(3, {0}, {Link(0, 0, 1)})
  }

  const SCENE_OPS :=
    [OpNewContainer(0, None), OpNewObject(0, 0), OpPublish(0), OpAttach(0, 0, 0, None), OpAddLink(0, 0, 1),
    OpDeleteObject(0)]

  lemma SceneBefore(i: nat)
    requires i < 3
    ensures Apply(Scene(i), SCENE_OPS[i]) == Scene(i + 1)
  {
  }

  lemma SceneAttached()
    ensures Apply(Scene(3), SCENE_OPS[3]) == Scene(4)
  {
    assert !HasBytes(Scene(3).db, 0, 0);
    hide HasBytes;
  }

  lemma SceneLinked()
    ensures Apply(Scene(4), SCENE_OPS[4]) == Scene(5)
  {
  }

  /** Such writes are reachable: a deleted page's attachment reads as gone under the number it had, so
      a client past that number is never told. */
  lemma FallenAttachmentIsSilent() returns (ss: seq<State>, ops: seq<Op>)
    ensures Run(ss, ops) && |ops| > 0 && Unannounced(ss[|ops| - 1].db, ss[|ops|].db, AttachmentRow(0))
  {
    hide Apply;
    ops := SCENE_OPS;
    var last := Apply(Scene(5), SCENE_OPS[5]);
    ss := seq(7, i requires 0 <= i < 7 => if i < 6 then Scene(i) else last);
    forall i: nat | i < 5 ensures Apply(Scene(i), SCENE_OPS[i]) == Scene(i + 1) {
      if i < 3 {
        SceneBefore(i);
      } else if i == 3 {
        SceneAttached();
      } else {
        SceneLinked();
      }
    }
    LastIsSilent();
  }

  lemma LastIsSilent()
    ensures Unannounced(Scene(5).db, Apply(Scene(5), SCENE_OPS[5]).db, AttachmentRow(0))
  {
    var s := Scene(5).db;
    assert Link(0, 0, 1) in s.links && LinkedTo(s.links, 0, 0) && !LinkedElsewhere(s.links, 0, 0);
    hide LinkedTo, LinkedElsewhere;
  }

  /** A page is made, commented on and deleted. */
  ghost function Remarks(i: nat): Db {
    if i == 0 then EMPTY
    else if i == 1 then EMPTY.(containers := map[0 := Container(None, 1, false)])
    else EMPTY.(containers := map[0 := Container(None, i, false)],
      objects := map[0 := Object(0, 0, if i < 4 then 2 else 4, i >= 4)],
      comments := if i == 3 then map[0 := Comment(0, 0, 3, false)] else map[])
  }

  const REMARK_OPS := [OpNewContainer(0, None), OpNewObject(0, 0), OpNewComment(0, 0), OpDeleteObject(0)]

  lemma RemarkStep(i: nat)
    requires i < 4
    ensures Apply(State(Remarks(i), {}, None), REMARK_OPS[i]) == State(Remarks(i + 1), {}, None)
  {
  }

  /** So is the other kind: a deleted page's live comment is gone and no later feed names it. */
  lemma FallenCommentVanishes() returns (ss: seq<State>, ops: seq<Op>)
    ensures Run(ss, ops) && |ops| > 0 && Lookup(ss[|ops|].db, CommentRow(0)).None?
    ensures Lookup(ss[|ops| - 1].db, CommentRow(0)).Some? && !Lookup(ss[|ops| - 1].db, CommentRow(0)).value.gone
  {
    hide Apply;
    ops, ss := REMARK_OPS, seq(5, i requires 0 <= i < 5 => State(Remarks(i), {}, None));
    forall i: nat | i < 4 ensures Apply(ss[i], REMARK_OPS[i]) == ss[i + 1] {
      RemarkStep(i);
    }
  }
}
