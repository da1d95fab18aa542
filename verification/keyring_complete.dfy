/**
 * What the opened keyring must hold, generation by generation: the key of the first row that offers one agreeing
 * with what is known, else, below the mark, of the first deferred row that an earlier pin opens.
 */
module KeyringComplete {
  import opened Outcome
  import opened Keyring

  function At<K, V>(m: map<K, V>, k: K): Option<V> {
    if k in m then Some(m[k]) else None
  }

  // ---- Reference --------------------------------------------------------------------------------------

  /** A current steward other than the bridge's own user, with that identity. */
  predicate Qualifies(m: Member, me: Self, d: DeviceId) {
    match m.identity
    case None => false
    case Some(identity) => identity.device == d && m.steward && m.wellFormed && m.user != me.user
  }

  /** Member j is the last who qualifies. */
  ghost predicate Speaks(members: seq<Member>, me: Self, d: DeviceId, j: nat) {
    j < |members| && Qualifies(members[j], me, d) && forall i :: j < i < |members| ==> !Qualifies(members[i], me, d)
  }

  /** The steward a row claims to be from, and the public key that steward shows. */
  ghost predicate Shows(row: Row, me: Self, members: seq<Member>, u: UserId, shown: Pin) {
    row.device == me.device && row.sender.Some? && row.sender.value != me.device &&
    exists j: nat :: Speaks(members, me, row.sender.value, j) && members[j].user == u &&
      members[j].identity.value.publicKey == shown
  }

  ghost predicate Foreign(row: Row, me: Self, members: seq<Member>) {
    row.device == me.device && row.sender.Some? && row.sender.value != me.device &&
    forall j: nat :: !Speaks(members, me, row.sender.value, j)
  }

  function Opens(row: Row, sender: PublicKey, open: Opener): Option<Key> {
    if 1 <= row.generation < 0x1_0000_0000 then open(row.envelope, row.generation, sender) else None
  }

  /** The row is for this device and opens to key under the bridge's own identity or its sender's, a steward's. */
  ghost predicate Offers(row: Row, key: Key, me: Self, members: seq<Member>, open: Opener) {
    || (row.device == me.device && row.sender == Some(me.device) && Opens(row, me.publicKey, open) == Some(key))
    || exists u, p :: Shows(row, me, members, u, Some(p)) && Opens(row, p, open) == Some(key)
  }

  /** A row put off: its own or its steward's key does not open it, or no steward claims it. */
  ghost predicate PutOff(row: Row, me: Self, members: seq<Member>, open: Opener) {
    || (row.device == me.device && row.sender == Some(me.device) && Opens(row, me.publicKey, open).None?)
    || Foreign(row, me, members)
    || exists u, p :: Shows(row, me, members, u, Some(p)) && Opens(row, p, open).None?
  }

  /** Key is not known to be another. */
  predicate Agrees(known: KeyState, generation: int, key: Key) {
    generation in known.digests ==> known.digests[generation] == Digest(key)
  }

  ghost predicate Gives(row: Row, g: int, key: Key, me: Self, members: seq<Member>, open: Opener, known: KeyState) {
    row.generation == g && Offers(row, key, me, members, open) && Agrees(known, g, key)
  }

  /** Row i is the first of its generation that offers a key agreeing with what is known, and offers this one. */
  ghost predicate FirstOffer(rows: seq<Row>, i: nat, g: int, key: Key, me: Self, members: seq<Member>, open: Opener,
      known: KeyState) {
    && i < |rows| && Gives(rows[i], g, key, me, members, open, known)
    && forall j, k :: 0 <= j < i ==> !Gives(rows[j], g, k, me, members, open, known)
  }

  ghost predicate Offered(rows: seq<Row>, g: int, key: Key, me: Self, members: seq<Member>, open: Opener,
      known: KeyState) {
    exists i: nat :: FirstOffer(rows, i, g, key, me, members, open, known)
  }

  /** Of the pinned identities, in their order, the first that opens the row opens it to key. */
  ghost predicate OpensTo(row: Row, key: Key, pinned: seq<PublicKey>, open: Opener) {
    exists n: nat :: n < |pinned| && Opens(row, pinned[n], open) == Some(key) &&
      forall m :: 0 <= m < n ==> Opens(row, pinned[m], open).None?
  }

  ghost predicate Recalls(row: Row, g: int, key: Key, me: Self, members: seq<Member>, pinned: seq<PublicKey>,
      open: Opener, known: KeyState) {
    row.generation == g && PutOff(row, me, members, open) && OpensTo(row, key, pinned, open) && Agrees(known, g, key)
  }

  /** Row i is the first row put off of its generation that a pinned identity opens to an agreeing key, this one. */
  ghost predicate FirstRecall(rows: seq<Row>, i: nat, g: int, key: Key, me: Self, members: seq<Member>,
      pinned: seq<PublicKey>, open: Opener, known: KeyState) {
    && i < |rows| && Recalls(rows[i], g, key, me, members, pinned, open, known)
    && forall j, k :: 0 <= j < i ==> !Recalls(rows[j], g, k, me, members, pinned, open, known)
  }

  ghost predicate Recalled(rows: seq<Row>, g: int, key: Key, me: Self, members: seq<Member>, pinned: seq<PublicKey>,
      open: Opener, known: KeyState) {
    exists i: nat :: FirstRecall(rows, i, g, key, me, members, pinned, open, known)
  }

  /** Row i is accepted: it offers the key its generation gets. */
  ghost predicate Taken(rows: seq<Row>, i: nat, me: Self, members: seq<Member>, open: Opener, known: KeyState)
    requires i < |rows|
  {
    exists key :: Offers(rows[i], key, me, members, open) &&
      Offered(rows[..i + 1], rows[i].generation, key, me, members, open, known)
  }

  /** Accepted row i is the first from a steward of this user, who shows p. */
  ghost predicate FirstContact(rows: seq<Row>, i: nat, u: UserId, p: Pin, me: Self, members: seq<Member>, open: Opener,
      known: KeyState) {
    && i < |rows| && Shows(rows[i], me, members, u, p) && p.Some? && Taken(rows, i, me, members, open, known)
    && forall j, q :: 0 <= j < i && Shows(rows[j], me, members, u, q) && q.Some? ==>
         !Taken(rows, j, me, members, open, known)
  }

  /** Row n shows p for u, whom an old or new pin holds to another key. */
  ghost predicate ClashesOver(rows: seq<Row>, n: nat, u: UserId, p: PublicKey, me: Self, members: seq<Member>,
      pins: map<UserId, Pin>, open: Opener, known: KeyState)
    requires n < |rows|
  {
    Shows(rows[n], me, members, u, Some(p)) &&
      if u in pins then pins[u] != Some(p)
      else exists j, q :: FirstContact(rows[..n], j, u, q, me, members, open, known) && q != Some(p)
  }

  /** Row n is from a steward who shows another key than the pin, old or of this call. */
  ghost predicate Clashes(rows: seq<Row>, n: nat, me: Self, members: seq<Member>, pins: map<UserId, Pin>, open: Opener,
      known: KeyState)
    requires n < |rows|
  {
    exists u, p :: ClashesOver(rows, n, u, p, me, members, pins, open, known)
  }

  // ---- One row, computed ------------------------------------------------------------------------------

  lemma QualifiesIff(m: Member, me: Self, d: DeviceId)
    ensures Qualifies(m, me, d) <==> IsStewardFor(m, me, d)
  {
  }

  lemma LastSpeaks(members: seq<Member>, me: Self, d: DeviceId)
    requires members != [] && Qualifies(members[|members| - 1], me, d)
    ensures forall j: nat :: Speaks(members, me, d, j) <==> j == |members| - 1
  {
    hide Qualifies;
  }

  lemma EarlierSpeaks(members: seq<Member>, me: Self, d: DeviceId, j: nat)
    requires members != [] && !Qualifies(members[|members| - 1], me, d)
    ensures Speaks(members, me, d, j) <==> Speaks(members[..|members| - 1], me, d, j)
  {
    hide Qualifies;
    var less := members[..|members| - 1];
    assert forall i :: 0 <= i < |less| ==> less[i] == members[i];
  }

  /** The steward found is the one who speaks. */
  lemma {:induction false} StewardSpeaks(members: seq<Member>, me: Self, d: DeviceId)
    ensures forall j: nat :: Speaks(members, me, d, j) ==> StewardOf(members, me, d) == Some(members[j])
    ensures StewardOf(members, me, d).Some? ==> exists j: nat :: Speaks(members, me, d, j)
  {
    if members != [] {
      var n := |members| - 1;
      QualifiesIff(members[n], me, d);
      hide Qualifies, IsStewardFor;
      if Qualifies(members[n], me, d) {
        LastSpeaks(members, me, d);
        hide Speaks;
        assert Speaks(members, me, d, n);
      } else {
        hide Speaks;
        StewardSpeaks(members[..n], me, d);
        forall j: nat ensures Speaks(members, me, d, j) <==> Speaks(members[..n], me, d, j) {
          EarlierSpeaks(members, me, d, j);
        }
        forall j: nat | Speaks(members, me, d, j) ensures StewardOf(members, me, d) == Some(members[j]) {
          SpeakerInRange(members[..n], me, d, j);
        }
      }
    }
  }

  lemma SpeakerInRange(members: seq<Member>, me: Self, d: DeviceId, j: nat)
    requires Speaks(members, me, d, j)
    ensures j < |members| && Qualifies(members[j], me, d)
  {
  }

  /** The steward a row is from. */
  function ShownBy(row: Row, me: Self, members: seq<Member>): (m: Option<Member>)
    ensures m.Some? ==> m.value.identity.Some?
  {
    if row.device == me.device && row.sender.Some? && row.sender.value != me.device
    then StewardOf(members, me, row.sender.value) else None
  }

  predicate IsShown(row: Row, me: Self, members: seq<Member>, u: UserId, p: Pin) {
    var m := ShownBy(row, me, members);
    m.Some? && m.value.user == u && m.value.identity.value.publicKey == p
  }

  function OfferOf(row: Row, me: Self, members: seq<Member>, open: Opener): Option<Key> {
    var m := ShownBy(row, me, members);
    if row.device == me.device && row.sender == Some(me.device) then Open(open, row, me.publicKey)
    else if m.Some? && m.value.identity.value.publicKey.Some?
    then Open(open, row, m.value.identity.value.publicKey.value) else None
  }

  predicate PutOffBy(row: Row, me: Self, members: seq<Member>, open: Opener) {
    var m := ShownBy(row, me, members);
    row.device == me.device && row.sender.Some? && OfferOf(row, me, members, open).None? &&
      (m.Some? ==> m.value.identity.value.publicKey.Some?)
  }

  lemma ShowsIff(row: Row, me: Self, members: seq<Member>, u: UserId, p: Pin)
    ensures Shows(row, me, members, u, p) <==> IsShown(row, me, members, u, p)
  {
    if row.device == me.device && row.sender.Some? && row.sender.value != me.device {
      StewardSpeaks(members, me, row.sender.value);
      hide StewardOf, Qualifies, IsStewardFor;
    }
  }

  lemma ForeignIff(row: Row, me: Self, members: seq<Member>)
    ensures Foreign(row, me, members) <==>
      row.device == me.device && row.sender.Some? && row.sender.value != me.device && ShownBy(row, me, members).None?
  {
    if row.device == me.device && row.sender.Some? && row.sender.value != me.device {
      StewardSpeaks(members, me, row.sender.value);
      hide StewardOf, Speaks;
    }
  }

  lemma OffersIff(row: Row, key: Key, me: Self, members: seq<Member>, open: Opener)
    ensures Offers(row, key, me, members, open) <==> OfferOf(row, me, members, open) == Some(key)
  {
    forall u, p ensures Shows(row, me, members, u, p) <==> IsShown(row, me, members, u, p) {
      ShowsIff(row, me, members, u, p);
    }
    hide Shows, StewardOf;
    var m := ShownBy(row, me, members);
    if m.Some? && m.value.identity.value.publicKey.Some? {
      assert Shows(row, me, members, m.value.user, Some(m.value.identity.value.publicKey.value));
    }
  }

  lemma PutOffIff(row: Row, me: Self, members: seq<Member>, open: Opener)
    ensures PutOff(row, me, members, open) <==> PutOffBy(row, me, members, open)
  {
    forall u, p ensures Shows(row, me, members, u, p) <==> IsShown(row, me, members, u, p) {
      ShowsIff(row, me, members, u, p);
    }
    ForeignIff(row, me, members);
    hide Shows, Foreign, StewardOf;
    var m := ShownBy(row, me, members);
    if m.Some? && m.value.identity.value.publicKey.Some? {
      assert Shows(row, me, members, m.value.user, Some(m.value.identity.value.publicKey.value));
    }
  }

  // ---- The scan, generation by generation -------------------------------------------------------------

  function FirstKey(rows: seq<Row>, g: int, me: Self, members: seq<Member>, open: Opener,
      known: KeyState): Option<Key> {
    if rows == [] then None
    else
      var before, row := FirstKey(rows[..|rows| - 1], g, me, members, open, known), rows[|rows| - 1];
      var offer := OfferOf(row, me, members, open);
      if before.Some? then before
      else if row.generation == g && offer.Some? && Agrees(known, g, offer.value) then offer else None
  }

  /** The last row is accepted. */
  predicate TakenLast(rows: seq<Row>, me: Self, members: seq<Member>, open: Opener, known: KeyState)
    requires rows != []
  {
    var row := rows[|rows| - 1];
    var offer := OfferOf(row, me, members, open);
    offer.Some? && FirstKey(rows, row.generation, me, members, open, known) == offer
  }

  function NewPin(rows: seq<Row>, u: UserId, me: Self, members: seq<Member>, open: Opener,
      known: KeyState): Option<Pin> {
    if rows == [] then None
    else
      var before := NewPin(rows[..|rows| - 1], u, me, members, open, known);
      var m := ShownBy(rows[|rows| - 1], me, members);
      if before.Some? then before
      else if m.Some? && m.value.user == u && m.value.identity.value.publicKey.Some? &&
        TakenLast(rows, me, members, open, known) then Some(m.value.identity.value.publicKey)
      else None
  }

  /** The pin the last row's steward is held to. */
  function PinThen(rows: seq<Row>, u: UserId, me: Self, members: seq<Member>, pins: map<UserId, Pin>, open: Opener,
      known: KeyState): Option<Pin> {
    if u in pins then Some(pins[u]) else NewPin(rows, u, me, members, open, known)
  }

  predicate ClashesLast(rows: seq<Row>, me: Self, members: seq<Member>, pins: map<UserId, Pin>, open: Opener,
      known: KeyState)
    requires rows != []
  {
    var m := ShownBy(rows[|rows| - 1], me, members);
    m.Some? && m.value.identity.value.publicKey.Some? &&
    var pin := PinThen(rows[..|rows| - 1], m.value.user, me, members, pins, open, known);
    pin.Some? && pin.value != m.value.identity.value.publicKey
  }

  predicate ClashesAt(rows: seq<Row>, n: nat, me: Self, members: seq<Member>, pins: map<UserId, Pin>, open: Opener,
      known: KeyState)
    requires n < |rows|
  {
    ClashesLast(rows[..n + 1], me, members, pins, open, known)
  }

  function RowsPutOff(rows: seq<Row>, me: Self, members: seq<Member>, open: Opener): seq<Row> {
    if rows == [] then []
    else
      var before := RowsPutOff(rows[..|rows| - 1], me, members, open);
      if PutOffBy(rows[|rows| - 1], me, members, open) then before + [rows[|rows| - 1]] else before
  }

  ghost predicate RingIs(r: Ring, rows: seq<Row>, me: Self, members: seq<Member>, open: Opener, known: KeyState) {
    && (forall g :: At(r.ring, g) == FirstKey(rows, g, me, members, open, known))
    && (forall g :: At(r.digests, g) == if g in r.ring then Some(Digest(r.ring[g])) else At(known.digests, g))
    && known.mark <= r.mark && (forall g <- r.ring :: g <= r.mark) && (r.mark == known.mark || r.mark in r.ring)
  }

  ghost predicate ScanIs(r: Ring, rows: seq<Row>, me: Self, members: seq<Member>, pins: map<UserId, Pin>, open: Opener,
      known: KeyState) {
    && RingIs(r, rows, me, members, open, known)
    && r.deferred == RowsPutOff(rows, me, members, open)
    && forall u :: At(r.newPins, u) == if u in pins then None else NewPin(rows, u, me, members, open, known)
  }

  /** What one row does. */
  lemma ScanRowIs(r: Ring, row: Row, me: Self, members: seq<Member>, pins: map<UserId, Pin>, open: Opener)
    ensures var m, offer := ShownBy(row, me, members), OfferOf(row, me, members, open);
      var shown := m.Some? && m.value.identity.value.publicKey.Some?;
      ScanRow(r, row, me, members, pins, open) ==
        if shown && PinOf(pins, r.newPins, m.value.user).Some? &&
          PinOf(pins, r.newPins, m.value.user).value != m.value.identity.value.publicKey
        then Err(PinChanged(m.value.user))
        else if offer.None? then Ok(if PutOffBy(row, me, members, open) then Defer(r, row) else r)
        else if !Accepts(r, row.generation, offer.value) then Ok(r)
        else
          var taken := Took(r, row, offer.value);
          Ok(if shown && PinOf(pins, r.newPins, m.value.user).None?
            then taken.(newPins := taken.newPins[m.value.user := m.value.identity.value.publicKey]) else taken)
  {
    hide StewardOf, Open, Accepts, Took, Defer;
  }

  /** The last row is taken exactly if the scan before it accepts its offer. */
  lemma TakenIff(r: Ring, rows: seq<Row>, me: Self, members: seq<Member>, open: Opener, known: KeyState)
    requires rows != [] && RingIs(r, rows[..|rows| - 1], me, members, open, known)
    ensures var row, offer := rows[|rows| - 1], OfferOf(rows[|rows| - 1], me, members, open);
      TakenLast(rows, me, members, open, known) <==> offer.Some? && Accepts(r, row.generation, offer.value)
  {
    hide OfferOf;
    var g := rows[|rows| - 1].generation;
    assert At(r.ring, g) == FirstKey(rows[..|rows| - 1], g, me, members, open, known);
  }

  /** A row not taken changes no generation's key. */
  lemma PassedOver(r: Ring, r': Ring, rows: seq<Row>, me: Self, members: seq<Member>, open: Opener, known: KeyState)
    requires rows != [] && RingIs(r, rows[..|rows| - 1], me, members, open, known)
    requires !TakenLast(rows, me, members, open, known) && r' == r.(deferred := r'.deferred)
    ensures RingIs(r', rows, me, members, open, known)
  {
    TakenIff(r, rows, me, members, open, known);
    hide OfferOf;
    forall g ensures FirstKey(rows, g, me, members, open, known) ==
      FirstKey(rows[..|rows| - 1], g, me, members, open, known) {
      assert At(r.ring, g) == FirstKey(rows[..|rows| - 1], g, me, members, open, known);
    }
    hide FirstKey;
  }

  /** A row taken gives its generation the key, if it has none yet. */
  lemma TakenIn(r: Ring, r': Ring, rows: seq<Row>, me: Self, members: seq<Member>, open: Opener, known: KeyState)
    requires rows != [] && RingIs(r, rows[..|rows| - 1], me, members, open, known)
    requires TakenLast(rows, me, members, open, known)
    requires var row := rows[|rows| - 1];
      r' == Took(r, row, OfferOf(row, me, members, open).value).(newPins := r'.newPins)
    ensures RingIs(r', rows, me, members, open, known)
  {
    TakenIff(r, rows, me, members, open, known);
    var row := rows[|rows| - 1];
    hide OfferOf;
    forall g ensures At(r'.ring, g) == FirstKey(rows, g, me, members, open, known) {
      assert At(r.ring, g) == FirstKey(rows[..|rows| - 1], g, me, members, open, known);
    }
    forall g ensures At(r'.digests, g) == if g in r'.ring then Some(Digest(r'.ring[g])) else At(known.digests, g) {
      assert At(r.digests, g) == if g in r.ring then Some(Digest(r.ring[g])) else At(known.digests, g);
    }
    hide FirstKey;
  }

  lemma {:induction false} ScanComputes(rows: seq<Row>, me: Self, members: seq<Member>, pins: map<UserId, Pin>,
      open: Opener, known: KeyState)
    ensures Scan(rows, me, members, pins, open, known).Ok? ==>
      ScanIs(Scan(rows, me, members, pins, open, known).value, rows, me, members, pins, open, known)
    ensures Scan(rows, me, members, pins, open, known).Ok? <==>
      forall n: nat :: n < |rows| ==> !ClashesAt(rows, n, me, members, pins, open, known)
  {
    hide ScanRow, ClashesLast, OfferOf, ShownBy, PutOffBy;
    if rows != [] {
      var less, row := rows[..|rows| - 1], rows[|rows| - 1];
      ScanComputes(less, me, members, pins, open, known);
      forall n: nat | n < |less|
        ensures ClashesAt(rows, n, me, members, pins, open, known) == ClashesAt(less, n, me, members, pins, open, known)
      {
        assert rows[..n + 1] == less[..n + 1];
      }
      assert rows[..|less| + 1] == rows;
      hide ClashesAt;
      assert ClashesAt(rows, |less|, me, members, pins, open, known) ==
        ClashesLast(rows, me, members, pins, open, known) by { LastClashes(rows, me, members, pins, open, known); }
      if Scan(less, me, members, pins, open, known).Ok? {
        RowComputes(Scan(less, me, members, pins, open, known).value, rows, me, members, pins, open, known);
      }
      hide ScanIs;
    }
  }

  lemma LastClashes(rows: seq<Row>, me: Self, members: seq<Member>, pins: map<UserId, Pin>, open: Opener,
      known: KeyState)
    requires rows != []
    ensures ClashesAt(rows, |rows| - 1, me, members, pins, open, known) ==
      ClashesLast(rows, me, members, pins, open, known)
  {
    hide ClashesLast;
    assert rows[..|rows| - 1 + 1] == rows;
  }

  /** When a row is an error. */
  lemma RowClashes(r: Ring, rows: seq<Row>, me: Self, members: seq<Member>, pins: map<UserId, Pin>, open: Opener,
      known: KeyState)
    requires rows != []
    requires forall u :: At(r.newPins, u) == if u in pins then None
      else NewPin(rows[..|rows| - 1], u, me, members, open, known)
    ensures ScanRow(r, rows[|rows| - 1], me, members, pins, open).Ok? <==>
      !ClashesLast(rows, me, members, pins, open, known)
  {
    var row := rows[|rows| - 1];
    ScanRowIs(r, row, me, members, pins, open);
    var m := ShownBy(row, me, members);
    if m.Some? {
      assert PinOf(pins, r.newPins, m.value.user) ==
        PinThen(rows[..|rows| - 1], m.value.user, me, members, pins, open, known) by {
        assert At(r.newPins, m.value.user) == if m.value.user in pins then None
          else NewPin(rows[..|rows| - 1], m.value.user, me, members, open, known);
      }
    }
    hide ScanRow, OfferOf, ShownBy, PinOf, PinThen, Accepts;
  }

  /** One more row. */
  lemma RowComputes(r: Ring, rows: seq<Row>, me: Self, members: seq<Member>, pins: map<UserId, Pin>, open: Opener,
      known: KeyState)
    requires rows != [] && ScanIs(r, rows[..|rows| - 1], me, members, pins, open, known)
    ensures var result := ScanRow(r, rows[|rows| - 1], me, members, pins, open);
      (result.Ok? <==> !ClashesLast(rows, me, members, pins, open, known)) &&
      (result.Ok? ==> ScanIs(result.value, rows, me, members, pins, open, known))
  {
    var row, result := rows[|rows| - 1], ScanRow(r, rows[|rows| - 1], me, members, pins, open);
    RowClashes(r, rows, me, members, pins, open, known);
    if result.Ok? {
      NewPinsComputed(r, result.value, rows, me, members, pins, open, known);
      hide ClashesLast, NewPin;
      ScanRowIs(r, row, me, members, pins, open);
      TakenIff(r, rows, me, members, open, known);
      hide ScanRow, RingIs, TakenLast, OfferOf, ShownBy, PinOf, Accepts;
      if TakenLast(rows, me, members, open, known) {
        TakenIn(r, result.value, rows, me, members, open, known);
      } else {
        PassedOver(r, result.value, rows, me, members, open, known);
      }
    }
  }

  lemma NewPinsComputed(r: Ring, r': Ring, rows: seq<Row>, me: Self, members: seq<Member>, pins: map<UserId, Pin>,
      open: Opener, known: KeyState)
    requires rows != [] && ScanIs(r, rows[..|rows| - 1], me, members, pins, open, known)
    requires ScanRow(r, rows[|rows| - 1], me, members, pins, open) == Ok(r')
    ensures forall u :: At(r'.newPins, u) == if u in pins then None else NewPin(rows, u, me, members, open, known)
  {
    ScanRowIs(r, rows[|rows| - 1], me, members, pins, open);
    TakenIff(r, rows, me, members, open, known);
    hide ScanRow, RingIs, TakenLast, OfferOf, ShownBy, Accepts, PutOffBy;
    forall u ensures At(r'.newPins, u) == if u in pins then None else NewPin(rows, u, me, members, open, known) {
      assert At(r.newPins, u) == if u in pins then None
        else NewPin(rows[..|rows| - 1], u, me, members, open, known);
    }
  }

  // ---- History, generation by generation --------------------------------------------------------------

  function RecallOf(rows: seq<Row>, g: int, me: Self, members: seq<Member>, pinned: seq<PublicKey>, open: Opener,
      known: KeyState): Option<Key> {
    if rows == [] then None
    else
      var before, row := RecallOf(rows[..|rows| - 1], g, me, members, pinned, open, known), rows[|rows| - 1];
      var key := OpenWithAny(row, pinned, open);
      if before.Some? then before
      else if row.generation == g && PutOffBy(row, me, members, open) && key.Some? && Agrees(known, g, key.value)
      then key else None
  }

  /** What is added below the mark of scan r by the deferred rows among some rows. */
  ghost predicate Recollected(r: Ring, r': Ring, rows: seq<Row>, me: Self, members: seq<Member>,
      pinned: seq<PublicKey>, open: Opener, known: KeyState) {
    && (forall g :: At(r'.ring, g) == if g in r.ring then Some(r.ring[g])
         else if g < r.mark then RecallOf(rows, g, me, members, pinned, open, known) else None)
    && (forall g :: At(r'.digests, g) == if g in r'.ring then Some(Digest(r'.ring[g])) else At(known.digests, g))
    && r'.mark == r.mark && r'.newPins == r.newPins
  }

  lemma {:induction false} HistoryComputes(r: Ring, rows: seq<Row>, me: Self, members: seq<Member>,
      pinned: seq<PublicKey>, open: Opener, known: KeyState)
    requires forall g :: At(r.digests, g) == if g in r.ring then Some(Digest(r.ring[g])) else At(known.digests, g)
    ensures Recollected(r, History(r, RowsPutOff(rows, me, members, open), pinned, open), rows, me, members, pinned,
      open, known)
  {
    if rows != [] {
      var less, row := rows[..|rows| - 1], rows[|rows| - 1];
      HistoryComputes(r, less, me, members, pinned, open, known);
      var before := History(r, RowsPutOff(less, me, members, open), pinned, open);
      hide PutOffBy, OpenWithAny;
      if PutOffBy(row, me, members, open) {
        assert (RowsPutOff(less, me, members, open) + [row])[..|RowsPutOff(less, me, members, open)|] ==
          RowsPutOff(less, me, members, open);
        hide History, RowsPutOff;
        RecallsOne(r, before, rows, me, members, pinned, open, known);
      } else {
        forall g ensures RecallOf(rows, g, me, members, pinned, open, known) ==
          RecallOf(less, g, me, members, pinned, open, known) {
        }
        hide RecallOf;
      }
    }
  }

  lemma RecallsOne(r: Ring, before: Ring, rows: seq<Row>, me: Self, members: seq<Member>, pinned: seq<PublicKey>,
      open: Opener, known: KeyState)
    requires rows != [] && PutOffBy(rows[|rows| - 1], me, members, open)
    requires Recollected(r, before, rows[..|rows| - 1], me, members, pinned, open, known)
    ensures Recollected(r, HistoryRow(before, rows[|rows| - 1], pinned, open), rows, me, members, pinned, open, known)
  {
    hide PutOffBy, OpenWithAny;
    var less, row, after := rows[..|rows| - 1], rows[|rows| - 1], HistoryRow(before, rows[|rows| - 1], pinned, open);
    forall g ensures At(after.ring, g) == if g in r.ring then Some(r.ring[g])
      else if g < r.mark then RecallOf(rows, g, me, members, pinned, open, known) else None
    {
      assert At(before.ring, g) == if g in r.ring then Some(r.ring[g])
        else if g < r.mark then RecallOf(less, g, me, members, pinned, open, known) else None;
      assert At(before.digests, g) == if g in before.ring then Some(Digest(before.ring[g])) else At(known.digests, g);
    }
    forall g ensures At(after.digests, g) == if g in after.ring then Some(Digest(after.ring[g]))
      else At(known.digests, g)
    {
      assert At(before.digests, g) == if g in before.ring then Some(Digest(before.ring[g])) else At(known.digests, g);
    }
    hide RecallOf;
  }

  // ---- What the computed keys mean --------------------------------------------------------------------

  function GiftOf(row: Row, g: int, me: Self, members: seq<Member>, open: Opener, known: KeyState): Option<Key> {
    var offer := OfferOf(row, me, members, open);
    if row.generation == g && offer.Some? && Agrees(known, g, offer.value) then offer else None
  }

  lemma GivesIff(row: Row, g: int, key: Key, me: Self, members: seq<Member>, open: Opener, known: KeyState)
    ensures Gives(row, g, key, me, members, open, known) <==> GiftOf(row, g, me, members, open, known) == Some(key)
  {
    OffersIff(row, key, me, members, open);
    hide Offers, OfferOf;
  }

  lemma FirstKeyOf(rows: seq<Row>, g: int, me: Self, members: seq<Member>, open: Opener, known: KeyState)
    ensures FirstKey(rows, g, me, members, open, known) ==
      if rows == [] then None
      else
        var before := FirstKey(rows[..|rows| - 1], g, me, members, open, known);
        if before.Some? then before else GiftOf(rows[|rows| - 1], g, me, members, open, known)
  {
    hide OfferOf;
  }

  lemma {:induction false} FirstKeyIs(rows: seq<Row>, g: int, me: Self, members: seq<Member>, open: Opener,
      known: KeyState) returns (i: nat)
    ensures var first := FirstKey(rows, g, me, members, open, known);
      if first.Some? then
        i < |rows| && GiftOf(rows[i], g, me, members, open, known) == first &&
          forall j :: 0 <= j < i ==> GiftOf(rows[j], g, me, members, open, known).None?
      else
        i == |rows| && forall j :: 0 <= j < i ==> GiftOf(rows[j], g, me, members, open, known).None?
  {
    FirstKeyOf(rows, g, me, members, open, known);
    hide FirstKey, GiftOf;
    i := 0;
    if rows != [] {
      i := FirstKeyIs(rows[..|rows| - 1], g, me, members, open, known);
      if i == |rows| - 1 && GiftOf(rows[i], g, me, members, open, known).None? {
        i := |rows|;
      }
    }
  }

  lemma FirstKeyMeans(rows: seq<Row>, g: int, key: Key, me: Self, members: seq<Member>, open: Opener,
      known: KeyState)
    ensures FirstKey(rows, g, me, members, open, known) == Some(key) <==>
      Offered(rows, g, key, me, members, open, known)
  {
    var i := FirstKeyIs(rows, g, me, members, open, known);
    forall j, k | 0 <= j < |rows|
      ensures Gives(rows[j], g, k, me, members, open, known) <==>
        GiftOf(rows[j], g, me, members, open, known) == Some(k)
    {
      GivesIff(rows[j], g, k, me, members, open, known);
    }
    hide Gives, GiftOf, FirstKey;
    if FirstKey(rows, g, me, members, open, known) == Some(key) {
      assert FirstOffer(rows, i, g, key, me, members, open, known);
    }
    if Offered(rows, g, key, me, members, open, known) {
      var n: nat :| FirstOffer(rows, n, g, key, me, members, open, known);
      if i < n {
        var first := FirstKey(rows, g, me, members, open, known);
        assert first.Some? ==> Gives(rows[i], g, first.value, me, members, open, known);
      }
    }
  }

  lemma {:induction false} OpensToIff(row: Row, key: Key, pinned: seq<PublicKey>, open: Opener)
    ensures OpensTo(row, key, pinned, open) <==> OpenWithAny(row, pinned, open) == Some(key)
  {
    if pinned != [] {
      var rest := pinned[1..];
      OpensToIff(row, key, rest, open);
      hide Opens, Open;
      OpensIsOpen(row, pinned[0], open);
      if Opens(row, pinned[0], open).None? {
        if OpensTo(row, key, rest, open) {
          var n: nat :| n < |rest| && Opens(row, rest[n], open) == Some(key) &&
            forall m :: 0 <= m < n ==> Opens(row, rest[m], open).None?;
          assert Opens(row, pinned[n + 1], open) == Some(key);
          assert forall m :: 0 <= m < n + 1 ==> m == 0 || pinned[m] == rest[m - 1];
        }
        if OpensTo(row, key, pinned, open) {
          var n: nat :| n < |pinned| && Opens(row, pinned[n], open) == Some(key) &&
            forall m :: 0 <= m < n ==> Opens(row, pinned[m], open).None?;
          assert Opens(row, rest[n - 1], open) == Some(key);
          assert forall m :: 0 <= m < n - 1 ==> rest[m] == pinned[m + 1];
        }
      } else {
        assert pinned[0] == pinned[0];
      }
    }
  }

  lemma OpensIsOpen(row: Row, sender: PublicKey, open: Opener)
    ensures Opens(row, sender, open) == Open(open, row, sender)
  {
  }

  function MemoryOf(row: Row, g: int, me: Self, members: seq<Member>, pinned: seq<PublicKey>, open: Opener,
      known: KeyState): Option<Key> {
    var key := OpenWithAny(row, pinned, open);
    if row.generation == g && PutOffBy(row, me, members, open) && key.Some? && Agrees(known, g, key.value)
    then key else None
  }

  lemma RecallsIff(row: Row, g: int, key: Key, me: Self, members: seq<Member>, pinned: seq<PublicKey>, open: Opener,
      known: KeyState)
    ensures Recalls(row, g, key, me, members, pinned, open, known) <==>
      MemoryOf(row, g, me, members, pinned, open, known) == Some(key)
  {
    OpensToIff(row, key, pinned, open);
    PutOffIff(row, me, members, open);
    hide PutOff, PutOffBy, OpensTo, OpenWithAny;
  }

  lemma {:induction false} RecallIs(rows: seq<Row>, g: int, me: Self, members: seq<Member>, pinned: seq<PublicKey>,
      open: Opener, known: KeyState) returns (i: nat)
    ensures var first := RecallOf(rows, g, me, members, pinned, open, known);
      if first.Some? then
        i < |rows| && MemoryOf(rows[i], g, me, members, pinned, open, known) == first &&
          forall j :: 0 <= j < i ==> MemoryOf(rows[j], g, me, members, pinned, open, known).None?
      else
        i == |rows| && forall j :: 0 <= j < i ==> MemoryOf(rows[j], g, me, members, pinned, open, known).None?
  {
    hide PutOffBy, OpenWithAny;
    i := 0;
    if rows != [] {
      i := RecallIs(rows[..|rows| - 1], g, me, members, pinned, open, known);
      if i == |rows| - 1 && MemoryOf(rows[i], g, me, members, pinned, open, known).None? {
        i := |rows|;
      }
    }
  }

  lemma RecallMeans(rows: seq<Row>, g: int, key: Key, me: Self, members: seq<Member>, pinned: seq<PublicKey>,
      open: Opener, known: KeyState)
    ensures RecallOf(rows, g, me, members, pinned, open, known) == Some(key) <==>
      Recalled(rows, g, key, me, members, pinned, open, known)
  {
    var i := RecallIs(rows, g, me, members, pinned, open, known);
    forall j, k | 0 <= j < |rows|
      ensures Recalls(rows[j], g, k, me, members, pinned, open, known) <==>
        MemoryOf(rows[j], g, me, members, pinned, open, known) == Some(k)
    {
      RecallsIff(rows[j], g, k, me, members, pinned, open, known);
    }
    hide Recalls, MemoryOf, RecallOf, PutOff, PutOffBy, OpensTo, OpenWithAny;
    var first := RecallOf(rows, g, me, members, pinned, open, known);
    if first == Some(key) {
      assert FirstRecall(rows, i, g, key, me, members, pinned, open, known);
    }
    if Recalled(rows, g, key, me, members, pinned, open, known) {
      var n: nat :| FirstRecall(rows, n, g, key, me, members, pinned, open, known);
      if i < n {
        assert first.Some? ==> Recalls(rows[i], g, first.value, me, members, pinned, open, known);
      }
    }
  }

  lemma TakenMeans(rows: seq<Row>, i: nat, me: Self, members: seq<Member>, open: Opener, known: KeyState)
    requires i < |rows|
    ensures Taken(rows, i, me, members, open, known) <==> TakenLast(rows[..i + 1], me, members, open, known)
  {
    var g, upto := rows[i].generation, rows[..i + 1];
    forall key
      ensures Offers(rows[i], key, me, members, open) <==> OfferOf(rows[i], me, members, open) == Some(key)
      ensures Offered(upto, g, key, me, members, open, known) <==>
        FirstKey(upto, g, me, members, open, known) == Some(key)
    {
      OffersIff(rows[i], key, me, members, open);
      FirstKeyMeans(upto, g, key, me, members, open, known);
    }
    hide Offers, OfferOf, Offered, FirstKey;
  }

  /** The pin row j brings for the user, if it is accepted. */
  function ContactOf(rows: seq<Row>, j: nat, u: UserId, me: Self, members: seq<Member>, open: Opener,
      known: KeyState): Option<Pin>
    requires j < |rows|
  {
    var m := ShownBy(rows[j], me, members);
    if m.Some? && m.value.user == u && m.value.identity.value.publicKey.Some? &&
      TakenLast(rows[..j + 1], me, members, open, known) then Some(m.value.identity.value.publicKey) else None
  }

  lemma ContactIff(rows: seq<Row>, j: nat, u: UserId, p: Pin, me: Self, members: seq<Member>, open: Opener,
      known: KeyState)
    requires j < |rows|
    ensures ContactOf(rows, j, u, me, members, open, known) == Some(p) <==>
      Shows(rows[j], me, members, u, p) && p.Some? && Taken(rows, j, me, members, open, known)
  {
    ShowsIff(rows[j], me, members, u, p);
    TakenMeans(rows, j, me, members, open, known);
    hide Shows, Taken, TakenLast, ShownBy;
  }

  lemma {:induction false} NewPinIs(rows: seq<Row>, u: UserId, me: Self, members: seq<Member>, open: Opener,
      known: KeyState) returns (i: nat)
    ensures var first := NewPin(rows, u, me, members, open, known);
      if first.Some? then
        i < |rows| && ContactOf(rows, i, u, me, members, open, known) == first &&
          forall j :: 0 <= j < i ==> ContactOf(rows, j, u, me, members, open, known).None?
      else
        i == |rows| && forall j :: 0 <= j < i ==> ContactOf(rows, j, u, me, members, open, known).None?
  {
    hide TakenLast, ShownBy;
    i := 0;
    if rows != [] {
      var less := rows[..|rows| - 1];
      i := NewPinIs(less, u, me, members, open, known);
      forall j | 0 <= j < |less|
        ensures ContactOf(rows, j, u, me, members, open, known) == ContactOf(less, j, u, me, members, open, known)
      {
        assert less[..j + 1] == rows[..j + 1];
      }
      assert rows[..|rows|] == rows;
      if i == |rows| - 1 && ContactOf(rows, i, u, me, members, open, known).None? {
        i := |rows|;
      }
    }
  }

  lemma NewPinMeans(rows: seq<Row>, u: UserId, p: Pin, me: Self, members: seq<Member>, open: Opener, known: KeyState)
    ensures NewPin(rows, u, me, members, open, known) == Some(p) <==>
      exists j: nat :: FirstContact(rows, j, u, p, me, members, open, known)
  {
    var i := NewPinIs(rows, u, me, members, open, known);
    forall j: nat, q | j < |rows|
      ensures ContactOf(rows, j, u, me, members, open, known) == Some(q) <==>
        Shows(rows[j], me, members, u, q) && q.Some? && Taken(rows, j, me, members, open, known)
    {
      ContactIff(rows, j, u, q, me, members, open, known);
    }
    hide Shows, Taken, NewPin, ContactOf;
    var first := NewPin(rows, u, me, members, open, known);
    if first == Some(p) {
      assert FirstContact(rows, i, u, p, me, members, open, known);
    }
    if n: nat :| FirstContact(rows, n, u, p, me, members, open, known) {
      assert ContactOf(rows, n, u, me, members, open, known) == Some(p);
      if i < n {
        assert first.Some? ==> ContactOf(rows, i, u, me, members, open, known) == Some(first.value);
      }
    }
  }

  lemma PinThenMeans(rows: seq<Row>, u: UserId, q: Pin, me: Self, members: seq<Member>, pins: map<UserId, Pin>,
      open: Opener, known: KeyState)
    ensures PinThen(rows, u, me, members, pins, open, known) == Some(q) <==>
      if u in pins then pins[u] == q else exists j: nat :: FirstContact(rows, j, u, q, me, members, open, known)
  {
    NewPinMeans(rows, u, q, me, members, open, known);
    hide NewPin, FirstContact;
  }

  lemma ClashIsOverPin(rows: seq<Row>, n: nat, u: UserId, p: PublicKey, me: Self, members: seq<Member>,
      pins: map<UserId, Pin>, open: Opener, known: KeyState)
    requires n < |rows|
    ensures ClashesOver(rows, n, u, p, me, members, pins, open, known) <==>
      IsShown(rows[n], me, members, u, Some(p)) && PinThen(rows[..n], u, me, members, pins, open, known).Some? &&
        PinThen(rows[..n], u, me, members, pins, open, known) != Some(Some(p))
  {
    ShowsIff(rows[n], me, members, u, Some(p));
    var pin := PinThen(rows[..n], u, me, members, pins, open, known);
    if pin.Some? {
      PinThenMeans(rows[..n], u, pin.value, me, members, pins, open, known);
    }
    if u !in pins {
      forall j, q | FirstContact(rows[..n], j, u, q, me, members, open, known) ensures pin == Some(q) {
        PinThenMeans(rows[..n], u, q, me, members, pins, open, known);
      }
    }
    hide Shows, IsShown, FirstContact, NewPin;
  }

  lemma ClashMeans(rows: seq<Row>, n: nat, me: Self, members: seq<Member>, pins: map<UserId, Pin>, open: Opener,
      known: KeyState)
    requires n < |rows|
    ensures Clashes(rows, n, me, members, pins, open, known) <==> ClashesAt(rows, n, me, members, pins, open, known)
  {
    assert rows[..n + 1][..n] == rows[..n];
    var m := ShownBy(rows[n], me, members);
    if ClashesAt(rows, n, me, members, pins, open, known) {
      var p := m.value.identity.value.publicKey.value;
      ClashIsOverPin(rows, n, m.value.user, p, me, members, pins, open, known);
      assert ClashesOver(rows, n, m.value.user, p, me, members, pins, open, known);
    }
    if u, p :| ClashesOver(rows, n, u, p, me, members, pins, open, known) {
      ClashIsOverPin(rows, n, u, p, me, members, pins, open, known);
    }
    hide ShownBy, PinThen, ClashesOver;
  }

  // ---- The theorem ------------------------------------------------------------------------------------

  /** Opening succeeds exactly when no row is from a steward who shows another key than the pin. */
  lemma OpensIff(rows: seq<Row>, me: Self, members: seq<Member>, pins: map<UserId, Pin>, pinned: seq<PublicKey>,
      open: Opener, known: KeyState)
    ensures OpenKeyring(rows, me, members, pins, pinned, open, known).Ok? <==>
      forall n: nat :: n < |rows| ==> !Clashes(rows, n, me, members, pins, open, known)
  {
    ScanComputes(rows, me, members, pins, open, known);
    forall n: nat | n < |rows|
      ensures Clashes(rows, n, me, members, pins, open, known) <==>
        ClashesAt(rows, n, me, members, pins, open, known)
    {
      ClashMeans(rows, n, me, members, pins, open, known);
    }
    hide Scan, History, Clashes, ClashesAt, ScanIs;
  }

  /** The key a generation must have: offered, or recalled from history. */
  ghost predicate Due(r: Ring, rows: seq<Row>, g: int, key: Key, me: Self, members: seq<Member>,
      pinned: seq<PublicKey>, open: Opener, known: KeyState) {
    || Offered(rows, g, key, me, members, open, known)
    || (g < r.mark && (forall k :: !Offered(rows, g, k, me, members, open, known)) &&
        Recalled(rows, g, key, me, members, pinned, open, known))
  }

  /** What an opened ring must be: every key due and no other, their digests stored, the mark at the highest offered
      generation or where it was, and every steward whose row was accepted pinned. */
  ghost predicate Complete(r: Ring, rows: seq<Row>, me: Self, members: seq<Member>, pins: map<UserId, Pin>,
      pinned: seq<PublicKey>, open: Opener, known: KeyState) {
    && (forall g, key :: At(r.ring, g) == Some(key) <==> Due(r, rows, g, key, me, members, pinned, open, known))
    && (forall g :: At(r.digests, g) == if g in r.ring then Some(Digest(r.ring[g])) else At(known.digests, g))
    && known.mark <= r.mark
    && (forall g, key :: Offered(rows, g, key, me, members, open, known) ==> g <= r.mark)
    && (r.mark == known.mark || exists key :: Offered(rows, r.mark, key, me, members, open, known))
    && (forall u, p :: At(r.newPins, u) == Some(p) <==>
         u !in pins && exists j: nat :: FirstContact(rows, j, u, p, me, members, open, known))
  }

  lemma RingIsComplete(rows: seq<Row>, me: Self, members: seq<Member>, pins: map<UserId, Pin>,
      pinned: seq<PublicKey>, open: Opener, known: KeyState)
    requires OpenKeyring(rows, me, members, pins, pinned, open, known).Ok?
    ensures Complete(OpenKeyring(rows, me, members, pins, pinned, open, known).value, rows, me, members, pins, pinned,
      open, known)
  {
    ScanComputes(rows, me, members, pins, open, known);
    var scanned := Scan(rows, me, members, pins, open, known).value;
    HistoryComputes(scanned, rows, me, members, pinned, open, known);
    var r := OpenKeyring(rows, me, members, pins, pinned, open, known).value;
    hide Scan, History, OpenKeyring, RowsPutOff;
    ComputedIsComplete(scanned, r, rows, me, members, pins, pinned, open, known);
  }

  lemma PinsAreComplete(scanned: Ring, rows: seq<Row>, me: Self, members: seq<Member>, pins: map<UserId, Pin>,
      open: Opener, known: KeyState)
    requires ScanIs(scanned, rows, me, members, pins, open, known)
    ensures forall u, p :: At(scanned.newPins, u) == Some(p) <==>
      u !in pins && exists j: nat :: FirstContact(rows, j, u, p, me, members, open, known)
  {
    forall u, p
      ensures At(scanned.newPins, u) == Some(p) <==>
        u !in pins && exists j: nat :: FirstContact(rows, j, u, p, me, members, open, known)
    {
      NewPinMeans(rows, u, p, me, members, open, known);
      assert At(scanned.newPins, u) == if u in pins then None else NewPin(rows, u, me, members, open, known);
    }
  }

  lemma ComputedIsComplete(scanned: Ring, r: Ring, rows: seq<Row>, me: Self, members: seq<Member>,
      pins: map<UserId, Pin>, pinned: seq<PublicKey>, open: Opener, known: KeyState)
    requires ScanIs(scanned, rows, me, members, pins, open, known)
    requires Recollected(scanned, r, rows, me, members, pinned, open, known)
    ensures Complete(r, rows, me, members, pins, pinned, open, known)
  {
    forall g, key
      ensures FirstKey(rows, g, me, members, open, known) == Some(key) <==>
        Offered(rows, g, key, me, members, open, known)
      ensures RecallOf(rows, g, me, members, pinned, open, known) == Some(key) <==>
        Recalled(rows, g, key, me, members, pinned, open, known)
    {
      FirstKeyMeans(rows, g, key, me, members, open, known);
      RecallMeans(rows, g, key, me, members, pinned, open, known);
    }
    PinsAreComplete(scanned, rows, me, members, pins, open, known);
    hide FirstKey, RecallOf, NewPin, Offered, Recalled, FirstContact, RowsPutOff;
    forall g, key ensures At(r.ring, g) == Some(key) <==> Due(r, rows, g, key, me, members, pinned, open, known) {
      assert At(scanned.ring, g) == FirstKey(rows, g, me, members, open, known);
      var first := FirstKey(rows, g, me, members, open, known);
      if first.Some? {
        assert Offered(rows, g, first.value, me, members, open, known);
      }
    }
    forall g, key | Offered(rows, g, key, me, members, open, known) ensures g <= r.mark {
      assert At(scanned.ring, g) == FirstKey(rows, g, me, members, open, known);
    }
    if r.mark != known.mark {
      assert At(scanned.ring, r.mark) == FirstKey(rows, r.mark, me, members, open, known);
      assert Offered(rows, r.mark, scanned.ring[r.mark], me, members, open, known);
    }
  }
}
