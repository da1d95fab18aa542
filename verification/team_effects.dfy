/** What the team-key transactions must do, and when they must succeed, row by row. */
module TeamEffects {
  import opened Outcome
  import opened TeamModel
  import opened TeamInvariant

  // ---- Storing envelopes ------------------------------------------------------------------------

  predicate Names(vs: seq<EnvelopeIn>, d: DeviceId, generation: nat) {
    exists v <- vs :: v.device == d && v.generation == generation
  }

  /** No later entry names what entry i names. */
  predicate LastNaming(vs: seq<EnvelopeIn>, i: nat)
    requires i < |vs|
  {
    !Names(vs[i + 1..], vs[i].device, vs[i].generation)
  }

  /** What storing a list must leave: the bytes of the last entry naming a key under that key, all else as it was. */
  ghost predicate Stored(before: map<EnvelopeKey, Sealed>, after: map<EnvelopeKey, Sealed>, c: ContainerId,
      vs: seq<EnvelopeIn>) {
    && (forall i :: 0 <= i < |vs| && LastNaming(vs, i) ==>
         var k := EnvelopeKey(c, vs[i].device, vs[i].generation); k in after && after[k] == vs[i].sealed)
    && (forall k: EnvelopeKey :: !(k.container == c && Names(vs, k.device, k.generation)) ==>
         (k in after <==> k in before) && (k in before ==> after[k] == before[k]))
  }

  lemma NamesMore(vs: seq<EnvelopeIn>, d: DeviceId, g: nat)
    requires vs != []
    ensures Names(vs, d, g) <==>
      Names(vs[..|vs| - 1], d, g) || (vs[|vs| - 1].device == d && vs[|vs| - 1].generation == g)
  {
    assert vs == vs[..|vs| - 1] + [vs[|vs| - 1]];
  }

  /** An entry stays the last of its name when the one appended names something else. */
  lemma StaysLast(vs: seq<EnvelopeIn>, i: nat)
    requires i < |vs| - 1
    ensures var v := vs[|vs| - 1];
      LastNaming(vs, i) <==>
        (LastNaming(vs[..|vs| - 1], i) && !(v.device == vs[i].device && v.generation == vs[i].generation))
  {
    var later := vs[i + 1..];
    assert later[..|later| - 1] == vs[..|vs| - 1][i + 1..] && later[|later| - 1] == vs[|vs| - 1];
    NamesMore(later, vs[i].device, vs[i].generation);
  }

  /** One more entry, written last. */
  lemma StoredMore(before: map<EnvelopeKey, Sealed>, between: map<EnvelopeKey, Sealed>, c: ContainerId,
      vs: seq<EnvelopeIn>)
    requires vs != [] && Stored(before, between, c, vs[..|vs| - 1])
    ensures var v := vs[|vs| - 1];
      Stored(before, between[EnvelopeKey(c, v.device, v.generation) := v.sealed], c, vs)
  {
    hide Names, LastNaming;
    var n, v := |vs| - 1, vs[|vs| - 1];
    var after := between[EnvelopeKey(c, v.device, v.generation) := v.sealed];
    forall i | 0 <= i < |vs| && LastNaming(vs, i)
      ensures var k := EnvelopeKey(c, vs[i].device, vs[i].generation); k in after && after[k] == vs[i].sealed
    {
      if i < n {
        StaysLast(vs, i);
        assert vs[..n][i] == vs[i];
      }
    }
    forall k: EnvelopeKey | !(k.container == c && Names(vs, k.device, k.generation))
      ensures (k in after <==> k in before) && (k in before ==> after[k] == before[k])
    {
      NamesMore(vs, k.device, k.generation);
    }
  }

  lemma StoredNothing(before: map<EnvelopeKey, Sealed>, c: ContainerId)
    ensures Stored(before, before, c, [])
  {
  }

  lemma InsertStores(s: State, c: ContainerId, g: nat, caller: UserId, role: Role, v: EnvelopeIn)
    requires InsertEnvelope(s, c, g, caller, role, v).Ok?
    ensures v.generation == g
    ensures InsertEnvelope(s, c, g, caller, role, v).value ==
      s.(envelopes := s.envelopes[EnvelopeKey(c, v.device, g) := v.sealed])
  {
  }

  lemma {:induction false} InsertAllStored(s: State, c: ContainerId, g: nat, caller: UserId, role: Role,
      vs: seq<EnvelopeIn>)
    requires InsertAll(s, c, g, caller, role, vs).Ok?
    ensures Stored(s.envelopes, InsertAll(s, c, g, caller, role, vs).value.envelopes, c, vs)
    ensures forall v <- vs :: v.generation == g
    decreases |vs|
  {
    hide InsertEnvelope, Stored;
    if vs == [] {
      StoredNothing(s.envelopes, c);
    } else {
      var less, v := vs[..|vs| - 1], vs[|vs| - 1];
      var before := InsertAll(s, c, g, caller, role, less).value;
      InsertAllStored(s, c, g, caller, role, less);
      InsertStores(before, c, g, caller, role, v);
      StoredMore(s.envelopes, before.envelopes, c, vs);
      assert vs == less + [v];
    }
  }

  lemma {:induction false} PutAllStored(s: State, c: ContainerId, hi: nat, caller: UserId, role: Role,
      vs: seq<EnvelopeIn>)
    requires c in s.containers && PutAll(s, c, hi, caller, role, vs).Ok?
    ensures Stored(s.envelopes, PutAll(s, c, hi, caller, role, vs).value.envelopes, c, vs)
    decreases |vs|
  {
    hide InsertEnvelope, Stored, GenerationHeld;
    if vs == [] {
      StoredNothing(s.envelopes, c);
    } else {
      var v := vs[|vs| - 1];
      var before := PutAll(s, c, hi, caller, role, vs[..|vs| - 1]).value;
      PutAllStored(s, c, hi, caller, role, vs[..|vs| - 1]);
      InsertStores(before, c, v.generation, caller, role, v);
      StoredMore(s.envelopes, before.envelopes, c, vs);
    }
  }

  /** A PUT that succeeds stores all it was sent, and touches nothing else. */
  lemma PutStores(s: State, caller: UserId, c: ContainerId, vs: seq<EnvelopeIn>)
    requires PutEnvelopes(s, caller, c, vs).Ok?
    ensures var s' := PutEnvelopes(s, caller, c, vs).value;
      s' == s.(envelopes := s'.envelopes) && Stored(s.envelopes, s'.envelopes, c, vs)
  {
    PutAllStored(s, c, s.containers[c].generation, caller, MemberRole(s, c, caller).value, vs);
    hide Stored, InsertEnvelope;
  }

  /** A rotation that succeeds stores all it was sent, at the generation it mints, and drops the container's
      invitation envelopes of older generations. */
  lemma RotateStores(s: State, caller: UserId, c: ContainerId, expected: nat, vs: seq<EnvelopeIn>)
    requires Rotate(s, caller, c, expected, vs).Ok?
    ensures c in s.containers && s.containers[c].generation == expected
    ensures var s', k := Rotate(s, caller, c, expected, vs).value, s.containers[c];
      && s' == s.(containers := s.containers[c := k.(generation := expected + 1,
           shared := if k.shared == 0 then expected + 1 else k.shared)],
           envelopes := s'.envelopes, inviteEnvelopes := s'.inviteEnvelopes)
      && Stored(s.envelopes, s'.envelopes, c, vs) && (forall v <- vs :: v.generation == expected + 1)
      && s'.inviteEnvelopes == map e | e in s.inviteEnvelopes &&
           !(e.container == c && s.inviteEnvelopes[e].generation <= expected) :: s.inviteEnvelopes[e]
  {
    RotationStored(s, caller, c, expected, vs);
    RotateShape(s, caller, c, expected, vs);
    hide Stored, Rotate, Covered, OwnIdentityEnvelope;
    var s' := Rotate(s, caller, c, expected, vs).value;
    assert s' == Minting(s, c).(envelopes := s'.envelopes);
  }

  lemma RotationStored(s: State, caller: UserId, c: ContainerId, expected: nat, vs: seq<EnvelopeIn>)
    requires Rotate(s, caller, c, expected, vs).Ok?
    ensures Stored(s.envelopes, Rotate(s, caller, c, expected, vs).value.envelopes, c, vs)
    ensures forall v <- vs :: v.generation == expected + 1
  {
    var minted := s.(containers := s.containers[c := Minted(s.containers[c])]);
    InsertAllStored(minted, c, expected + 1, caller, StewardRole(s, c, caller).value, vs);
    hide Stored, InsertAll, Covered, OwnIdentityEnvelope, DropStaleInvites;
  }

  // ---- When storing must succeed ----------------------------------------------------------------

  /** A live device of an active, approved member. */
  predicate Recipient(s: State, c: ContainerId, d: DeviceId) {
    d in s.devices && !s.devices[d].revoked &&
    var u := s.devices[d].user;
    u in s.active && s.active[u] && Seat(c, u) in s.members && !s.members[Seat(c, u)].revoked &&
      s.members[Seat(c, u)].approved
  }

  /** A taken key is re-wrapped by its owner's identity only; a free one is filled by a steward, or by the owner of
      the paired device. */
  predicate MayStore(s: State, caller: UserId, role: Role, d: DeviceId, taken: bool)
    requires d in s.devices
  {
    var own, identity := s.devices[d].user == caller, s.devices[d].identity;
    if taken then own && identity else role.Owner? || role.Admin? || (own && !identity)
  }

  predicate Storable(s: State, c: ContainerId, caller: UserId, role: Role, v: EnvelopeIn, taken: bool) {
    (v.sealed.alg.HpkeAuth? || v.sealed.alg.LegacyX25519?) && 0 < |v.sealed.bytes| <= 4096 &&
      Recipient(s, c, v.device) && MayStore(s, caller, role, v.device, taken)
  }

  lemma InsertSucceedsIff(s: State, c: ContainerId, g: nat, caller: UserId, role: Role, v: EnvelopeIn)
    ensures InsertEnvelope(s, c, g, caller, role, v).Ok? <==>
      v.generation == g && Storable(s, c, caller, role, v, EnvelopeKey(c, v.device, g) in s.envelopes)
  {
  }

  /** Entry i may be stored after the ones before it. */
  ghost predicate Fits(s: State, c: ContainerId, caller: UserId, role: Role, vs: seq<EnvelopeIn>, i: nat)
    requires i < |vs|
  {
    Storable(s, c, caller, role, vs[i],
      EnvelopeKey(c, vs[i].device, vs[i].generation) in s.envelopes ||
        Names(vs[..i], vs[i].device, vs[i].generation))
  }

  /** A generation some envelope of the container holds, from the first shared one to the current one. */
  ghost predicate Extendable(s: State, c: ContainerId, generation: nat)
    requires c in s.containers
  {
    0 < s.containers[c].shared <= generation <= s.containers[c].generation &&
      exists k <- s.envelopes :: k.container == c && k.generation == generation
  }

  /** Which keys a stored list takes. */
  lemma StoredKeys(before: map<EnvelopeKey, Sealed>, after: map<EnvelopeKey, Sealed>, c: ContainerId,
      vs: seq<EnvelopeIn>, k: EnvelopeKey)
    requires Stored(before, after, c, vs)
    ensures k in after <==> k in before || (k.container == c && Names(vs, k.device, k.generation))
  {
    if k.container == c && Names(vs, k.device, k.generation) {
      var i := LastOf(vs, k.device, k.generation);
      assert k == EnvelopeKey(c, vs[i].device, vs[i].generation);
    }
  }

  lemma {:induction false} LastOf(vs: seq<EnvelopeIn>, d: DeviceId, g: nat) returns (i: nat)
    requires Names(vs, d, g)
    ensures i < |vs| && vs[i].device == d && vs[i].generation == g && LastNaming(vs, i)
  {
    i := |vs| - 1;
    if !(vs[i].device == d && vs[i].generation == g) {
      NamesMore(vs, d, g);
      i := LastOf(vs[..|vs| - 1], d, g);
      StaysLast(vs, i);
    }
  }

  lemma MemberOrNot(s: State, c: ContainerId, u: UserId)
    ensures MemberRole(s, c, u).Ok? <==>
      Seat(c, u) in s.members && !s.members[Seat(c, u)].revoked && c in s.containers && !s.containers[c].deleted &&
      match s.containers[c].team
      case None => true
      case Some(t) => t in s.containers && !s.containers[t].deleted
    ensures MemberRole(s, c, u).Ok? ==> MemberRole(s, c, u).value == s.members[Seat(c, u)].role
  {
  }

  lemma {:induction false} InsertAllSucceedsIff(s: State, c: ContainerId, g: nat, caller: UserId, role: Role,
      vs: seq<EnvelopeIn>)
    ensures InsertAll(s, c, g, caller, role, vs).Ok? <==>
      forall i :: 0 <= i < |vs| ==> vs[i].generation == g && Fits(s, c, caller, role, vs, i)
    decreases |vs|
  {
    hide InsertEnvelope, Storable, Names;
    if vs != [] {
      var n, v := |vs| - 1, vs[|vs| - 1];
      InsertAllSucceedsIff(s, c, g, caller, role, vs[..n]);
      forall i | 0 <= i < n ensures Fits(s, c, caller, role, vs, i) <==> Fits(s, c, caller, role, vs[..n], i) {
        assert vs[..n][..i] == vs[..i];
      }
      if InsertAll(s, c, g, caller, role, vs[..n]).Ok? {
        var before := InsertAll(s, c, g, caller, role, vs[..n]).value;
        InsertAllStored(s, c, g, caller, role, vs[..n]);
        InsertAllWrites(s, c, g, caller, role, vs[..n]);
        InsertSucceedsIff(before, c, g, caller, role, v);
        StoredKeys(s.envelopes, before.envelopes, c, vs[..n], EnvelopeKey(c, v.device, g));
        SameRecipients(s, before, c, caller, role, v,
          EnvelopeKey(c, v.device, g) in s.envelopes || Names(vs[..n], v.device, g));
        assert forall i :: 0 <= i < n ==> vs[..n][i] == vs[i];
      }
    }
  }

  lemma SameRecipients(s: State, s': State, c: ContainerId, caller: UserId, role: Role, v: EnvelopeIn, taken: bool)
    requires s'.devices == s.devices && s'.members == s.members && s'.active == s.active
    ensures Storable(s', c, caller, role, v, taken) == Storable(s, c, caller, role, v, taken)
  {
  }

  lemma {:induction false} PutAllSucceedsIff(s: State, c: ContainerId, caller: UserId, role: Role,
      vs: seq<EnvelopeIn>)
    requires c in s.containers
    ensures PutAll(s, c, s.containers[c].generation, caller, role, vs).Ok? <==>
      forall i :: 0 <= i < |vs| ==> Extendable(s, c, vs[i].generation) && Fits(s, c, caller, role, vs, i)
    decreases |vs|
  {
    hide InsertEnvelope, PutGeneration, Extendable, Storable, Names;
    if vs != [] {
      var n := |vs| - 1;
      PutAllSucceedsIff(s, c, caller, role, vs[..n]);
      forall i | 0 <= i < n ensures Fits(s, c, caller, role, vs, i) <==> Fits(s, c, caller, role, vs[..n], i) {
        assert vs[..n][..i] == vs[..i];
      }
      hide Fits;
      assert forall i :: 0 <= i < n ==> vs[..n][i] == vs[i];
      if PutAll(s, c, s.containers[c].generation, caller, role, vs[..n]).Ok? {
        PutLastIff(s, c, caller, role, vs);
      }
      hide PutAll;
    }
  }

  /** The last envelope, once the ones before it are stored. */
  lemma PutLastIff(s: State, c: ContainerId, caller: UserId, role: Role, vs: seq<EnvelopeIn>)
    requires c in s.containers && vs != []
    requires PutAll(s, c, s.containers[c].generation, caller, role, vs[..|vs| - 1]).Ok?
    ensures PutAll(s, c, s.containers[c].generation, caller, role, vs).Ok? <==>
      Extendable(s, c, vs[|vs| - 1].generation) && Fits(s, c, caller, role, vs, |vs| - 1)
  {
    hide InsertEnvelope, Storable, Names;
    var n, v, hi := |vs| - 1, vs[|vs| - 1], s.containers[c].generation;
    var before := PutAll(s, c, hi, caller, role, vs[..n]).value;
    PutAllStored(s, c, hi, caller, role, vs[..n]);
    SameHeld(s, before, c, hi, caller, role, vs[..n], v.generation);
    InsertSucceedsIff(before, c, v.generation, caller, role, v);
    StoredKeys(s.envelopes, before.envelopes, c, vs[..n], EnvelopeKey(c, v.device, v.generation));
    SameRecipients(s, before, c, caller, role, v,
      EnvelopeKey(c, v.device, v.generation) in s.envelopes || Names(vs[..n], v.device, v.generation));
    hide Stored, GenerationHeld;
  }

  /** The loop of a PUT finds a generation held exactly if it was at the start. */
  lemma SameHeld(s: State, before: State, c: ContainerId, hi: nat, caller: UserId, role: Role, vs: seq<EnvelopeIn>,
      g: nat)
    requires c in s.containers && PutAll(s, c, hi, caller, role, vs) == Ok(before)
    ensures GenerationHeld(before, c, g) <==> exists k <- s.envelopes :: k.container == c && k.generation == g
  {
    PutAllWrites(s, c, hi, caller, role, vs);
    if k :| k in before.envelopes && k.container == c && k.generation == g {
      PutAllExtendsHeld(s, c, hi, caller, role, vs, k);
    }
  }

  /**
   * A PUT succeeds exactly when the caller is a live member of a live container and each envelope extends a
   * generation already held, for a live device of an active, approved member, by someone who may store it there.
   */
  lemma PutSucceedsIff(s: State, caller: UserId, c: ContainerId, vs: seq<EnvelopeIn>)
    ensures PutEnvelopes(s, caller, c, vs).Ok? <==>
      MemberRole(s, c, caller).Ok? && forall i :: 0 <= i < |vs| ==>
        Extendable(s, c, vs[i].generation) && Fits(s, c, caller, s.members[Seat(c, caller)].role, vs, i)
  {
    hide PutAll, Fits, Extendable;
    MemberOrNot(s, c, caller);
    if MemberRole(s, c, caller).Ok? {
      PutAllSucceedsIff(s, c, caller, s.members[Seat(c, caller)].role, vs);
    }
  }

  /** What the envelopes of a rotation must be: for the generation it mints, storable where nothing is stored, for
      every identity of an active, approved member, the caller's own among them. */
  ghost predicate Complete(s: State, caller: UserId, c: ContainerId, role: Role, next: nat, vs: seq<EnvelopeIn>) {
    && (forall v <- vs :: v.generation == next && Storable(s, c, caller, role, v, false))
    && (forall d <- s.devices :: s.devices[d].identity && Recipient(s, c, d) ==> Names(vs, d, next))
    && (exists v <- vs :: v.device in s.devices && s.devices[v.device].user == caller && s.devices[v.device].identity)
  }

  /** In a sound state a rotation succeeds exactly when a steward sends the current generation and a complete list
      that names no device twice. */
  lemma RotateSucceedsIff(s: State, caller: UserId, c: ContainerId, expected: nat, vs: seq<EnvelopeIn>)
    requires Inv(s)
    ensures Rotate(s, caller, c, expected, vs).Ok? <==>
      MemberRole(s, c, caller).Ok? && s.containers[c].generation == expected &&
      var role := s.members[Seat(c, caller)].role;
      (role.Owner? || role.Admin?) && (forall i, j :: 0 <= i < j < |vs| ==> vs[i].device != vs[j].device) &&
        Complete(s, caller, c, role, expected + 1, vs)
  {
    MemberOrNot(s, c, caller);
    hide Inv, InsertEnvelope, Storable, Stored;
    if MemberRole(s, c, caller).Ok? && s.containers[c].generation == expected && DistinctDevices(vs) &&
      IsSteward(s.members[Seat(c, caller)].role)
    {
      RotateOutcome(s, caller, c, vs);
    }
  }

  /** The minted generation is free, and a device named once finds it so. */
  lemma MintedIsFree(s: State, minted: State, c: ContainerId, caller: UserId, role: Role, vs: seq<EnvelopeIn>, i: nat)
    requires Inv(s) && c in s.containers && minted == s.(containers := s.containers[c := Minted(s.containers[c])])
    requires DistinctDevices(vs) && i < |vs| && vs[i].generation == s.containers[c].generation + 1
    ensures Fits(minted, c, caller, role, vs, i) <==> Storable(s, c, caller, role, vs[i], false)
  {
    var k := EnvelopeKey(c, vs[i].device, vs[i].generation);
    assert k in s.envelopes ==> EnvelopeOk(s, k);
    SameRecipients(s, minted, c, caller, role, vs[i], false);
    hide Storable;
  }

  /** The checks after the loop ask just that the list names every identity to cover, and one of the caller's. */
  lemma CoverageIsNaming(s: State, filled: State, caller: UserId, c: ContainerId, next: nat, vs: seq<EnvelopeIn>)
    requires filled == s.(containers := filled.containers, envelopes := filled.envelopes)
    requires Stored(s.envelopes, filled.envelopes, c, vs)
    requires forall v <- vs :: v.generation == next && v.device in s.devices && !s.devices[v.device].revoked
    requires forall k <- s.envelopes :: k.container == c ==> k.generation != next
    ensures Covered(filled, c, next) <==>
      forall d <- s.devices :: s.devices[d].identity && Recipient(s, c, d) ==> Names(vs, d, next)
    ensures OwnIdentityEnvelope(filled, caller, c, next) <==>
      exists v <- vs :: v.device in s.devices && s.devices[v.device].user == caller && s.devices[v.device].identity
  {
    forall k: EnvelopeKey ensures k in filled.envelopes <==>
      k in s.envelopes || (k.container == c && Names(vs, k.device, k.generation)) {
      StoredKeys(s.envelopes, filled.envelopes, c, vs, k);
    }
    hide Stored;
    forall d ensures MustCover(filled, c, d) <==> d in s.devices && s.devices[d].identity && Recipient(s, c, d) {
    }
    if v :| v in vs && s.devices[v.device].user == caller && s.devices[v.device].identity {
      assert Names(vs, v.device, next);
      assert EnvelopeKey(c, v.device, next) in filled.envelopes;
    }
  }

  lemma RotateOutcome(s: State, caller: UserId, c: ContainerId, vs: seq<EnvelopeIn>)
    requires Inv(s) && MemberRole(s, c, caller).Ok? && DistinctDevices(vs) &&
      IsSteward(s.members[Seat(c, caller)].role)
    ensures var expected, role := s.containers[c].generation, s.members[Seat(c, caller)].role;
      1 <= expected &&
        (Rotate(s, caller, c, expected, vs).Ok? <==> Complete(s, caller, c, role, expected + 1, vs))
  {
    var expected, role := s.containers[c].generation, s.members[Seat(c, caller)].role;
    var next, minted := expected + 1, s.(containers := s.containers[c := Minted(s.containers[c])]);
    InsertAllSucceedsIff(minted, c, next, caller, role, vs);
    forall i: nat | i < |vs| && vs[i].generation == next
      ensures Fits(minted, c, caller, role, vs, i) <==> Storable(s, c, caller, role, vs[i], false)
    {
      MintedIsFree(s, minted, c, caller, role, vs, i);
    }
    FreeAbove(s, c);
    hide Inv, InsertEnvelope, Fits, Stored, DropStaleInvites;
    if InsertAll(minted, c, next, caller, role, vs).Ok? {
      var filled := InsertAll(minted, c, next, caller, role, vs).value;
      InsertAllWrites(minted, c, next, caller, role, vs);
      InsertAllStored(minted, c, next, caller, role, vs);
      CoverageIsNaming(s, filled, caller, c, next, vs);
      SweepSparesCoverage(filled, caller, c, next);
    }
  }

  lemma FreeAbove(s: State, c: ContainerId)
    requires Inv(s) && c in s.containers
    ensures 1 <= s.containers[c].generation
    ensures forall k <- s.envelopes :: k.container == c ==> k.generation <= s.containers[c].generation
  {
    forall k | k in s.envelopes && k.container == c ensures k.generation <= s.containers[c].generation {
      assert EnvelopeOk(s, k);
    }
  }

  lemma SweepSparesCoverage(s: State, caller: UserId, c: ContainerId, next: nat)
    ensures var swept := s.(inviteEnvelopes := DropStaleInvites(s, {c}));
      Covered(swept, c, next) == Covered(s, c, next) &&
      OwnIdentityEnvelope(swept, caller, c, next) == OwnIdentityEnvelope(s, caller, c, next)
  {
    hide DropStaleInvites;
  }
}
