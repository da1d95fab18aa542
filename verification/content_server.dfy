/** The save, delete and garbage-collection code as it runs, table by table, against its specification. */
module ContentServer {
  import opened Outcome
  import opened ContentModel
  import opened ContentBlobs
  import opened ContentTables

  /** What sweeping a set of unreferenced digests leaves. */
  function SweptAll(s: Db, ds: set<Digest>): Db {
    s.(blobs := s.blobs - ds,
      attachments := map a | a in s.attachments && !(s.attachments[a].digest in ds && s.attachments[a].deleted) ::
        s.attachments[a],
      conflicts := map f | f in s.conflicts && !(s.conflicts[f].digest in ds && s.conflicts[f].resolved) ::
        s.conflicts[f])
  }

  /** The tables once old deletions are finished and old keys dropped. */
  function Finished(s: Db, keyCut: int): Db {
    PruneKeys(TombstoneStranded(s), keyCut)
  }

  /** The digests a collection finds due. */
  function DueDigests(s: Db, cut: int): set<Digest> {
    set d | d in s.blobs && Due(s, d, cut)
  }

  function AfterGC(s: Db, now: nat, cut: int, keyCut: int): Db {
    Mark(Unmark(SweptAll(Finished(s, keyCut), DueDigests(Finished(s, keyCut), cut))), now)
  }

  // ---- What a collection must do, on the tables before it -----------------------------------------

  /** An attachment an earlier release left in a deleted notebook. */
  predicate Left(s: Db, a: AttachmentId) {
    a in s.attachments && var c := s.attachments[a].container; c in s.containers && s.containers[c].deleted
  }

  /** Nothing but what deleted notebooks left needs digest d. */
  ghost predicate Needless(s: Db, d: Digest) {
    && (forall k <- s.versions :: s.versions[k].digest != d)
    && (forall f <- s.conflicts :: s.conflicts[f].digest == d ==> s.conflicts[f].resolved)
    && (forall a <- s.attachments :: s.attachments[a].digest == d || s.attachments[a].preview == Some(d) ==>
         Left(s, a) || (s.attachments[a].deleted && forall l <- s.links :: l.attachment != a))
  }

  /** Recorded, marked before the cut, and needed by nothing. */
  ghost predicate Gone(s: Db, d: Digest, cut: int) {
    d in s.blobs && s.blobs[d].mark.Some? && s.blobs[d].mark.value < cut && Needless(s, d)
  }

  /** The rows that go with the digests, with deleted notebooks and with their time. */
  ghost predicate RowsCollected(s: Db, s': Db, cut: int, keyCut: int) {
    && s' == s.(blobs := s'.blobs, attachments := s'.attachments, conflicts := s'.conflicts, links := s'.links,
         keys := s'.keys)
    && (forall a :: At(s'.attachments, a) ==
         if a !in s.attachments then None
         else
           var row := s.attachments[a].(deleted := s.attachments[a].deleted || Left(s, a));
           if row.deleted && Gone(s, row.digest, cut) then None else Some(row))
    && (forall f :: At(s'.conflicts, f) ==
         if f in s.conflicts && s.conflicts[f].resolved && Gone(s, s.conflicts[f].digest, cut) then None
         else At(s.conflicts, f))
    && (forall l :: l in s'.links <==> l in s.links && !Left(s, l.attachment))
    && (forall k :: At(s'.keys, k) ==
         if k in s.keys && s.keys[k].created < keyCut then None else At(s.keys, k))
  }

  /** What collecting at now, of what was marked before the cut, leaves of tables and files. */
  ghost predicate Collected(s: Db, files: set<Digest>, s': Db, files': set<Digest>, now: nat, cut: int, keyCut: int) {
    && RowsCollected(s, s', cut, keyCut)
    && (forall d :: d in files' <==> d in files && !Gone(s, d, cut))
    && (forall d :: d in s'.blobs <==> d in s.blobs && !Gone(s, d, cut))
    && (forall d <- s'.blobs :: s'.blobs[d].mark ==
         if !Needless(s, d) then None else if s.blobs[d].mark.Some? then s.blobs[d].mark else Some(now))
  }

  class Server {
    var containers: map<ContainerId, Container>
    var objects: map<ObjectId, Object>
    var versions: map<VersionKey, Version>
    var conflicts: map<ConflictId, Conflict>
    var comments: map<CommentId, Comment>
    var attachments: map<AttachmentId, Attachment>
    var links: set<Link>
    var blobs: map<Digest, Blob>
    var keys: map<SaveKey, KeyRow>
    var previews: set<Digest>
    var files: set<Digest>

    function Snapshot(): Db
      reads this
    {
      Db(containers, objects, versions, conflicts, comments, attachments, links, blobs, keys, previews)
    }

    constructor ()
      ensures Snapshot() == EMPTY && files == {}
    {
      containers, objects, versions, conflicts, comments := map[], map[], map[], map[], map[];
      attachments, links, blobs, keys, previews, files := map[], {}, map[], map[], {}, {};
    }

    method ClaimBlob(d: Digest) returns (ok: bool)
      modifies `blobs
      ensures blobs == Claimed(old(Snapshot()), d) && ok == (d in files)
    {
      if d in blobs {
        blobs := blobs[d := blobs[d].(mark := None)];
      } else {
        blobs := blobs[d := Blob(None)];
      }
      ok := d in files;
    }

    /** The file goes unless a row claims its digest, so committed rows keep every file they need. */
    method DropUnclaimed(d: Digest)
      modifies `files
      ensures files == old(files) - ({d} - blobs.Keys)
      ensures RowsOk(Snapshot(), old(files)) ==> RowsOk(Snapshot(), files)
    {
      hide Referenced, RowsOk;
      if d !in blobs {
        files := files - {d};
        if RowsOk(Snapshot(), old(files)) {
          FilesKeepRows(Snapshot(), old(files), files, d);
        }
      }
    }

    /** The writes of an admitted save, rolled back together when the file is not there. */
    method StoreSave(o: ObjectId, base: int, d: Digest, key: Option<SaveKey>, f: ConflictId, now: nat)
        returns (r: PutResult)
      requires LiveObject(Snapshot(), o) && (key.Some? ==> key.value !in keys)
      modifies `containers, `objects, `versions, `conflicts, `blobs, `keys
      ensures (Snapshot(), r) == Put(old(Snapshot()), files, Guards(true, true), o, base, d, key, f, now)
    {
      var savedContainers, savedBlobs := containers, blobs;
      var row := objects[o];
      var changeSeq := containers[row.container].seqNo + 1;
      containers := containers[row.container := containers[row.container].(seqNo := changeSeq)];
      var claimed := ClaimBlob(d);
      if !claimed || (base != row.current && f in conflicts) {
        containers, blobs := savedContainers, savedBlobs;
        return NotSaved;
      }
      if base != row.current {
        conflicts := conflicts[f := Conflict(o, row.container, base, row.current, d, changeSeq, false)];
        if key.Some? {
          keys := keys[key.value := KeyRow(Refused(f, row.current), now)];
        }
        return Done(Refused(f, row.current));
      }
      var next := row.current + 1;
      versions := versions[VersionKey(o, next) := Version(d, base, changeSeq)];
      objects := objects[o := row.(current := next, seqNo := changeSeq)];
      if key.Some? {
        keys := keys[key.value := KeyRow(Saved(o, next), now)];
      }
      return Done(Saved(o, next));
    }

    /** The transaction of PUT /objects/{id}; a replay or an early refusal drops its file unless claimed. */
    method SaveObject(g: Guards, o: ObjectId, base: int, d: Digest, key: Option<SaveKey>, f: ConflictId, now: nat)
        returns (r: PutResult)
      modifies `containers, `objects, `versions, `conflicts, `blobs, `keys, `files
      ensures (Snapshot(), r) == Put(old(Snapshot()), old(files), g, o, base, d, key, f, now)
      ensures files == if d !in old(blobs) && (r.Denied? || r.Replayed? || !g.room || !LiveObject(old(Snapshot()), o))
        then old(files) - {d} else old(files)
    {
      hide RowsOk;
      if !g.admitted {
        DropUnclaimed(d);
        return Denied;
      }
      if key.Some? && key.value in keys {
        DropUnclaimed(d);
        return Replayed(keys[key.value].answer);
      }
      if !g.room {
        DropUnclaimed(d);
        return NotSaved;
      }
      if o !in objects || objects[o].deleted || objects[o].container !in containers {
        DropUnclaimed(d);
        return NotSaved;
      }
      r := StoreSave(o, base, d, key, f, now);
    }

    /** DELETE /objects/{id} */
    method RemoveObject(o: ObjectId) returns (ok: bool)
      modifies `containers, `objects, `versions, `conflicts, `comments, `attachments, `links
      ensures ok == DeleteObject(old(Snapshot()), o).Some?
      ensures Snapshot() == if ok then DeleteObject(old(Snapshot()), o).value else old(Snapshot())
    {
      hide AttachmentsWithout, LinksWithout, CommentsWithout, ConflictsWithout, VersionsWithout;
      if o !in objects || objects[o].container !in containers {
        return false;
      }
      var c := objects[o].container;
      var changeSeq := containers[c].seqNo + 1;
      containers := containers[c := containers[c].(seqNo := changeSeq)];
      objects := objects[o := objects[o].(deleted := true, seqNo := changeSeq)];
      attachments := AttachmentsWithout(attachments, links, o);
      links := LinksWithout(links, o);
      comments := CommentsWithout(comments, o);
      conflicts := ConflictsWithout(conflicts, o);
      versions := VersionsWithout(versions, o);
      return true;
    }

    /** sweepBlob, undisturbed: re-check, delete tombstones and rows, delete the file, commit. */
    method SweepBlob(d: Digest, cut: int) returns (deleted: bool)
      modifies `blobs, `attachments, `conflicts, `files
      ensures deleted == Due(old(Snapshot()), d, cut)
      ensures Snapshot() == if deleted then Swept(old(Snapshot()), d) else old(Snapshot())
      ensures files == if deleted then old(files) - {d} else old(files)
    {
      hide Referenced;
      if !Due(Snapshot(), d, cut) {
        return false;
      }
      hide Due, AttachmentsUnswept, ConflictsUnswept;
      attachments := AttachmentsUnswept(attachments, d);
      conflicts := ConflictsUnswept(conflicts, d);
      blobs := blobs - {d};
      files := files - {d};
      return true;
    }

    /** The loop over the digests RunGC selected: each is re-checked and swept. */
    method SweepEach(selected: set<Digest>, cut: int) returns (deletedBlobs: nat)
      requires forall d <- selected :: Due(Snapshot(), d, cut)
      modifies `blobs, `attachments, `conflicts, `files
      ensures Snapshot() == SweptAll(old(Snapshot()), selected) && files == old(files) - selected &&
        deletedBlobs == |selected|
    {
      hide Due, Swept, SweptAll;
      ghost var before := Snapshot();
      var digests := selected;
      deletedBlobs := 0;
      SweepNone(before);
      assert selected - digests == {};
      while digests != {}
        invariant digests <= selected && Snapshot() == SweptAll(before, selected - digests) &&
          files == old(files) - (selected - digests)
        invariant forall d <- digests :: Due(Snapshot(), d, cut)
        invariant deletedBlobs + |digests| == |selected|
        decreases digests
      {
        var d :| d in digests;
        ghost var was := Snapshot();
        var deleted := SweepBlob(d, cut);
        SweepOne(before, selected - digests, d);
        forall x | x in digests - {d} ensures Due(Snapshot(), x, cut) {
          SweepSparesOthers(was, d, x, cut);
        }
        assert selected - (digests - {d}) == (selected - digests) + {d};
        digests := digests - {d};
        deletedBlobs := deletedBlobs + 1;
      }
      assert selected - digests == selected;
    }

    /** RunGC's first transaction. */
    method FinishDeletions()
      modifies `links, `attachments
      ensures Snapshot() == TombstoneStranded(old(Snapshot()))
    {
      hide Stranded, StrandedTombstoned;
      var before := Snapshot();
      links := set l | l in links && !Stranded(before, l.attachment);
      attachments := StrandedTombstoned(before);
    }

    /** RunGC's blob half: a recorded digest goes, row and file, exactly if it was marked before the cut and nothing
        needs it; of the rest, what is needed is unmarked, and what is newly needless is marked with now. */
    method RunGC(now: nat, cut: int, keyCut: int) returns (deletedBlobs: nat)
      modifies this
      ensures Snapshot() == AfterGC(old(Snapshot()), now, cut, keyCut)
      ensures deletedBlobs == |DueDigests(Finished(old(Snapshot()), keyCut), cut)|
      ensures Collected(old(Snapshot()), old(files), Snapshot(), files, now, cut, keyCut)
    {
      hide Referenced, SweptAll, Collected, TombstoneStranded, DueDigests;
      ghost var before, wereFiles := Snapshot(), files;
      FinishDeletions();
      keys := PruneKeys(Snapshot(), keyCut).keys;
      var digests := DueDigests(Snapshot(), cut);
      AllDue(Snapshot(), cut);
      deletedBlobs := SweepEach(digests, cut);
      blobs := Unmark(Snapshot()).blobs;
      blobs := Mark(Snapshot(), now).blobs;
      CollectionFollows(before, wereFiles, now, cut, keyCut);
    }
  }

  lemma AllDue(s: Db, cut: int)
    ensures forall d <- DueDigests(s, cut) :: Due(s, d, cut)
  {
  }

  /** Finishing deletions first makes what deleted notebooks left needless. */
  lemma FinishedIsNeedless(s: Db, keyCut: int, d: Digest)
    ensures Unused(Finished(s, keyCut), d) <==> Needless(s, d)
  {
    var t := Finished(s, keyCut);
    assert t.versions == s.versions && t.conflicts == s.conflicts && t.attachments.Keys == s.attachments.Keys;
    forall a | a in s.attachments
      ensures (forall l <- t.links :: l.attachment != a) <==> Left(s, a) || forall l <- s.links :: l.attachment != a
    {
    }
  }

  /** Sweeping takes nothing that makes another digest needed. */
  lemma SweptAllKeepsNeed(s: Db, ds: set<Digest>, x: Digest)
    requires forall d <- ds :: Unused(s, d)
    ensures Unused(SweptAll(s, ds), x) <==> Unused(s, x)
  {
    var u := SweptAll(s, ds);
    forall a | a in s.attachments && a !in u.attachments
      ensures s.attachments[a].deleted && forall l <- s.links :: l.attachment != a
    {
      assert Unused(s, s.attachments[a].digest);
    }
    forall f | f in s.conflicts && f !in u.conflicts ensures s.conflicts[f].resolved {
    }
    assert u.versions == s.versions && u.links == s.links;
    forall a | a in u.attachments ensures a in s.attachments && u.attachments[a] == s.attachments[a] {
    }
    forall f | f in u.conflicts ensures f in s.conflicts && u.conflicts[f] == s.conflicts[f] {
    }
    hide SweptAll;
  }

  /** Which digests are due, and what the marks go by. */
  lemma DueIsGone(s: Db, keyCut: int, cut: int)
    ensures var t := Finished(s, keyCut);
      && (forall d :: d in DueDigests(t, cut) <==> Gone(s, d, cut))
      && (forall d :: !Referenced(SweptAll(t, DueDigests(t, cut)), d) <==> Needless(s, d))
  {
    var t := Finished(s, keyCut);
    var due := DueDigests(t, cut);
    assert t.blobs == s.blobs;
    hide Finished;
    forall d
      ensures Unused(t, d) <==> Needless(s, d)
      ensures !Referenced(t, d) <==> Needless(s, d)
    {
      FinishedIsNeedless(s, keyCut, d);
      UnusedIff(t, d);
    }
    hide Unused, Referenced, Needless, SweptAll;
    forall d ensures !Referenced(SweptAll(t, due), d) <==> Needless(s, d) {
      SweptAllKeepsNeed(t, due, d);
      UnusedIff(SweptAll(t, due), d);
    }
  }

  lemma SweptAttachments(s: Db, keyCut: int, cut: int, due: set<Digest>)
    requires forall d :: d in due <==> Gone(s, d, cut)
    ensures var u := SweptAll(Finished(s, keyCut), due);
      forall a :: At(u.attachments, a) ==
        if a !in s.attachments then None
        else
          var row := s.attachments[a].(deleted := s.attachments[a].deleted || Left(s, a));
          if row.deleted && Gone(s, row.digest, cut) then None else Some(row)
  {
    hide Gone;
  }

  lemma SweptConflicts(s: Db, keyCut: int, cut: int, due: set<Digest>)
    requires forall d :: d in due <==> Gone(s, d, cut)
    ensures var u := SweptAll(Finished(s, keyCut), due);
      forall f :: At(u.conflicts, f) ==
        if f in s.conflicts && s.conflicts[f].resolved && Gone(s, s.conflicts[f].digest, cut) then None
        else At(s.conflicts, f)
  {
    hide Gone, StrandedTombstoned;
  }

  lemma SweptFrame(s: Db, keyCut: int, due: set<Digest>)
    ensures var u := SweptAll(Finished(s, keyCut), due);
      && u == s.(blobs := s.blobs - due, attachments := u.attachments, conflicts := u.conflicts, links := u.links,
           keys := u.keys)
      && (forall l :: l in u.links <==> l in s.links && !Left(s, l.attachment))
      && (forall k :: At(u.keys, k) == if k in s.keys && s.keys[k].created < keyCut then None else At(s.keys, k))
  {
    hide StrandedTombstoned;
  }

  lemma SweptRows(s: Db, keyCut: int, cut: int, due: set<Digest>)
    requires forall d :: d in due <==> Gone(s, d, cut)
    ensures var u := SweptAll(Finished(s, keyCut), due);
      RowsCollected(s, u, cut, keyCut) && u.blobs == s.blobs - due
  {
    SweptAttachments(s, keyCut, cut, due);
    SweptConflicts(s, keyCut, cut, due);
    SweptFrame(s, keyCut, due);
    hide Gone, SweptAll, Finished;
  }

  lemma FinalMarks(s: Db, now: nat)
    ensures var v := Mark(Unmark(s), now);
      v == s.(blobs := v.blobs) && v.blobs.Keys == s.blobs.Keys &&
      forall d <- v.blobs :: v.blobs[d].mark ==
        if Referenced(s, d) then None else if s.blobs[d].mark.Some? then s.blobs[d].mark else Some(now)
  {
    SameNeeds(s);
    hide Referenced;
  }

  lemma CollectionFollows(s: Db, files: set<Digest>, now: nat, cut: int, keyCut: int)
    ensures Collected(s, files, AfterGC(s, now, cut, keyCut), files - DueDigests(Finished(s, keyCut), cut), now, cut,
      keyCut)
  {
    var due := DueDigests(Finished(s, keyCut), cut);
    DueIsGone(s, keyCut, cut);
    SweptRows(s, keyCut, cut, due);
    var u := SweptAll(Finished(s, keyCut), due);
    FinalMarks(u, now);
    hide Referenced, Needless, Gone, SweptAll, Finished, DueDigests, Mark, Unmark, RowsCollected, Collected;
    MarkedIsCollected(s, files, u, Mark(Unmark(u), now), due, now, cut, keyCut);
  }

  lemma MarkedIsCollected(s: Db, files: set<Digest>, u: Db, v: Db, due: set<Digest>, now: nat, cut: int, keyCut: int)
    requires RowsCollected(s, u, cut, keyCut) && u.blobs == s.blobs - due
    requires forall d :: d in due <==> Gone(s, d, cut)
    requires forall d :: !Referenced(u, d) <==> Needless(s, d)
    requires v == u.(blobs := v.blobs) && v.blobs.Keys == u.blobs.Keys
    requires forall d <- v.blobs ::
      v.blobs[d].mark == if Referenced(u, d) then None else if u.blobs[d].mark.Some? then u.blobs[d].mark else Some(now)
    ensures Collected(s, files, v, files - due, now, cut, keyCut)
  {
    hide Referenced, Needless, Gone;
  }

  /** Clearing marks changes no need. */
  lemma SameNeeds(s: Db)
    ensures forall d :: Referenced(Unmark(s), d) == Referenced(s, d)
  {
    forall d ensures Referenced(Unmark(s), d) == Referenced(s, d) {
      UnusedIff(s, d);
      UnusedIff(Unmark(s), d);
      hide Referenced;
    }
  }

  lemma SweepNone(s: Db)
    ensures SweptAll(s, {}) == s
  {
  }

  lemma SweepOne(s: Db, ds: set<Digest>, d: Digest)
    ensures Swept(SweptAll(s, ds), d) == SweptAll(s, ds + {d})
  {
  }

  /** Sweeping one unreferenced digest leaves every other's references, and its mark, as they were. */
  lemma SweepSparesOthers(s: Db, d: Digest, x: Digest, cut: int)
    requires Due(s, d, cut) && x != d && Due(s, x, cut)
    ensures Due(Swept(s, d), x, cut)
  {
    var s' := Swept(s, d);
    forall a ensures Linked(s', a) == Linked(s, a) {
    }
    hide Linked;
  }

  /** A whole undisturbed collection keeps what committed rows need on disk. */
  lemma CollectionIsSafe(s: Db, files: set<Digest>, cut: int, keyCut: int, now: nat)
    requires RowsOk(s, files)
    ensures RowsOk(AfterGC(s, now, cut, keyCut), files - DueDigests(Finished(s, keyCut), cut))
  {
    hide Needs, Stranded, Mark, Unmark, SweptAll, TombstoneStranded, PruneKeys, RowsOk, Referenced;
    DbNeeds(s, files, OpTombstoneStranded);
    NeedsKeepsRows(s, files, TombstoneStranded(s));
    DbNeeds(TombstoneStranded(s), files, OpPruneKeys(keyCut));
    var t := Finished(s, keyCut);
    NeedsKeepsRows(TombstoneStranded(s), files, t);
    var due := DueDigests(t, cut);
    SweptAllKeepsRows(t, files, due);
    var swept := SweptAll(t, due);
    DbNeeds(swept, files - due, OpUnmark);
    NeedsKeepsRows(swept, files - due, Unmark(swept));
    DbNeeds(Unmark(swept), files - due, OpMark(now));
    NeedsKeepsRows(Unmark(swept), files - due, Mark(Unmark(swept), now));
  }

  lemma SweptAllKeepsRows(s: Db, files: set<Digest>, ds: set<Digest>)
    requires RowsOk(s, files) && forall d <- ds :: !Referenced(s, d)
    ensures RowsOk(SweptAll(s, ds), files - ds)
  {
    forall d | d in ds
      ensures forall k <- s.versions :: s.versions[k].digest != d
      ensures forall f <- s.conflicts :: s.conflicts[f].digest == d ==> s.conflicts[f].resolved
      ensures forall a <- s.attachments :: s.attachments[a].digest == d ==> s.attachments[a].deleted
    {
      UnreferencedMeans(s, d);
    }
    hide Referenced;
    var s' := SweptAll(s, ds);
    forall k | k in s'.versions ensures VersionOk(s', files - ds, k) { assert VersionOk(s, files, k); }
    forall f | f in s'.conflicts ensures ConflictOk(s', files - ds, f) { assert ConflictOk(s, files, f); }
    forall a | a in s'.attachments ensures AttachmentOk(s', files - ds, a) { assert AttachmentOk(s, files, a); }
  }
}
