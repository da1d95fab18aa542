/**
 * The bridge's keyring: keys are accepted from the bridge's own identity, from current stewards whose
 * identity keys match what was pinned at first contact, and, below the highest generation so accepted,
 * from any identity pinned before. Opening an envelope is a function parameter; digests are modelled
 * as collision-free.
 */
module Keyring {
  import opened Outcome

  newtype UserId = n: int | 0 <= n
  newtype DeviceId = n: int | 0 <= n
  newtype PublicKey = n: int | 0 <= n
  newtype Key = n: int | 0 <= n
  newtype Envelope = n: int | 0 <= n

  /** SHA-256 of a notebook key. */
  datatype Digest = Digest(of: Key)

  /** A pinned or reported public key; None is text that is not 32 bytes of base64. */
  type Pin = Option<PublicKey>

  datatype Identity = Identity(device: DeviceId, publicKey: Pin)
  datatype Member = Member(user: UserId, steward: bool, wellFormed: bool, identity: Option<Identity>)

  /** An envelope row; sender is what the envelope claims, None when row, algorithm or envelope is unusable. */
  datatype Row = Row(device: DeviceId, sender: Option<DeviceId>, envelope: Envelope, generation: int)

  datatype Self = Self(user: UserId, device: DeviceId, publicKey: PublicKey)

  type Opener = (Envelope, int, PublicKey) -> Option<Key>

  /** What the bridge remembers per notebook. */
  datatype KeyState = KeyState(mark: int, shared: int, generation: int, digests: map<int, Digest>, objects: int)

  const FRESH := KeyState(0, 0, 0, map[], 0)

  datatype Ring = Ring(ring: map<int, Key>, digests: map<int, Digest>, mark: int, newPins: map<UserId, Pin>,
    deferred: seq<Row>)

  datatype Error = PinChanged(user: UserId) | Rollback | OlderMeta | Unavailable

  predicate SameKey(a: Pin, b: Pin) {
    a.Some? && a == b
  }

  function Max(a: int, b: int): int {
    if a > b then a else b
  }

  // ---- One row --------------------------------------------------------------------------------------

  /** The first key for a generation wins, in this call and, by digest, across calls. */
  predicate Accepts(r: Ring, generation: int, key: Key) {
    if generation in r.ring then r.ring[generation] == key
    else generation in r.digests ==> r.digests[generation] == Digest(key)
  }

  function Accept(r: Ring, generation: int, key: Key): Ring {
    if !Accepts(r, generation, key) || generation in r.ring then r
    else r.(ring := r.ring[generation := key], digests := r.digests[generation := Digest(key)])
  }

  function Open(open: Opener, row: Row, sender: PublicKey): Option<Key> {
    if row.generation < 1 || row.generation > 0xFFFF_FFFF then None else open(row.envelope, row.generation, sender)
  }

  predicate IsStewardFor(m: Member, me: Self, sender: DeviceId) {
    m.identity.Some? && m.identity.value.device == sender && m.user != me.user && m.steward && m.wellFormed
  }

  /** The last current steward whose identity the sender is. */
  function StewardOf(members: seq<Member>, me: Self, sender: DeviceId): (m: Option<Member>)
    ensures m.Some? ==> m.value in members && IsStewardFor(m.value, me, sender)
  {
    if members == [] then None
    else if IsStewardFor(members[|members| - 1], me, sender) then Some(members[|members| - 1])
    else StewardOf(members[..|members| - 1], me, sender)
  }

  function PinOf(pins: map<UserId, Pin>, newPins: map<UserId, Pin>, u: UserId): Option<Pin> {
    if u in pins then Some(pins[u]) else if u in newPins then Some(newPins[u]) else None
  }

  function Took(r: Ring, row: Row, key: Key): Ring {
    var taken := Accept(r, row.generation, key);
    taken.(mark := Max(taken.mark, row.generation))
  }

  function Defer(r: Ring, row: Row): Ring {
    r.(deferred := r.deferred + [row])
  }

  function OwnRow(r: Ring, row: Row, me: Self, open: Opener): Ring {
    var key := Open(open, row, me.publicKey);
    if key.None? then Defer(r, row) else if !Accepts(r, row.generation, key.value) then r else Took(r, row, key.value)
  }

  /** A steward's row: a changed key is an error, an accepted first key pins the steward. */
  function StewardRow(r: Ring, row: Row, m: Member, pins: map<UserId, Pin>, open: Opener): Result<Ring, Error>
    requires m.identity.Some?
  {
    var public := m.identity.value.publicKey;
    var pin := PinOf(pins, r.newPins, m.user);
    if public.None? then Ok(r)
    else if pin.Some? && !SameKey(pin.value, public) then Err(PinChanged(m.user))
    else
      var key := Open(open, row, public.value);
      if key.None? then Ok(Defer(r, row))
      else if !Accepts(r, row.generation, key.value) then Ok(r)
      else
        var taken := Took(r, row, key.value);
        Ok(if pin.None? then taken.(newPins := taken.newPins[m.user := public]) else taken)
  }

  function ScanRow(r: Ring, row: Row, me: Self, members: seq<Member>, pins: map<UserId, Pin>,
      open: Opener): Result<Ring, Error> {
    if row.device != me.device || row.sender.None? then Ok(r)
    else if row.sender.value == me.device then Ok(OwnRow(r, row, me, open))
    else
      var steward := StewardOf(members, me, row.sender.value);
      if steward.None? then Ok(Defer(r, row)) else StewardRow(r, row, steward.value, pins, open)
  }

  function Scan(rows: seq<Row>, me: Self, members: seq<Member>, pins: map<UserId, Pin>, open: Opener,
      known: KeyState): Result<Ring, Error> {
    if rows == [] then Ok(Ring(map[], known.digests, known.mark, map[], []))
    else
      var before :- Scan(rows[..|rows| - 1], me, members, pins, open, known);
      ScanRow(before, rows[|rows| - 1], me, members, pins, open)
  }

  /** The key of the first pinned identity that opens the row. */
  function OpenWithAny(row: Row, pinned: seq<PublicKey>, open: Opener): Option<Key> {
    if pinned == [] then None
    else if Open(open, row, pinned[0]).Some? then Open(open, row, pinned[0])
    else OpenWithAny(row, pinned[1..], open)
  }

  /** A deferred row counts only below the mark, and only if some earlier pin opens it. */
  function HistoryRow(r: Ring, row: Row, pinned: seq<PublicKey>, open: Opener): Ring {
    var key := OpenWithAny(row, pinned, open);
    if row.generation >= r.mark || key.None? then r else Accept(r, row.generation, key.value)
  }

  function History(r: Ring, deferred: seq<Row>, pinned: seq<PublicKey>, open: Opener): Ring {
    if deferred == [] then r
    else HistoryRow(History(r, deferred[..|deferred| - 1], pinned, open), deferred[|deferred| - 1], pinned, open)
  }

  /** openKeyring; pinned enumerates the well-formed pins in whatever order the map yields them. */
  function OpenKeyring(rows: seq<Row>, me: Self, members: seq<Member>, pins: map<UserId, Pin>, pinned: seq<PublicKey>,
      open: Opener, known: KeyState): Result<Ring, Error> {
    var scanned :- Scan(rows, me, members, pins, open, known);
    Ok(History(scanned, scanned.deferred, pinned, open))
  }

  predicate Enumerates(pinned: seq<PublicKey>, pins: map<UserId, Pin>) {
    forall p <- pinned :: exists u <- pins :: pins[u] == Some(p)
  }

  // ---- Where accepted keys come from --------------------------------------------------------------------

  /** Key opens at generation from the bridge itself, or from a current steward whose key is its pin now. */
  ghost predicate Vouched(generation: int, key: Key, rows: seq<Row>, me: Self, members: seq<Member>,
      pins: map<UserId, Pin>, newPins: map<UserId, Pin>, open: Opener) {
    exists row <- rows ::
      row.device == me.device && row.generation == generation && row.sender.Some? &&
      VouchedBy(row, key, me, members, pins, newPins, open)
  }

  ghost predicate VouchedBy(row: Row, key: Key, me: Self, members: seq<Member>, pins: map<UserId, Pin>,
      newPins: map<UserId, Pin>, open: Opener)
    requires row.sender.Some?
  {
    || (row.sender.value == me.device && Open(open, row, me.publicKey) == Some(key))
    || exists m <- members :: StewardVouches(m, row, key, me, pins, newPins, open)
  }

  ghost predicate StewardVouches(m: Member, row: Row, key: Key, me: Self, pins: map<UserId, Pin>,
      newPins: map<UserId, Pin>, open: Opener)
    requires row.sender.Some?
  {
    IsStewardFor(m, me, row.sender.value) && m.identity.value.publicKey.Some? &&
      Open(open, row, m.identity.value.publicKey.value) == Some(key) &&
    PinOf(pins, newPins, m.user) == Some(m.identity.value.publicKey)
  }

  /** Key opens at generation from an identity pinned before the call. */
  ghost predicate Historic(generation: int, key: Key, rows: seq<Row>, pins: map<UserId, Pin>, open: Opener) {
    exists row, p :: row in rows && row.generation == generation && Open(open, row, p) == Some(key) &&
      exists u <- pins :: pins[u] == Some(p)
  }

  /** Stored digests never change; each ring key has its digest; the mark only rises, over every ring key. */
  ghost predicate RingOk(r: Ring, known: KeyState) {
    && (forall g <- known.digests :: g in r.digests && r.digests[g] == known.digests[g])
    && (forall g <- r.ring :: g in r.digests && r.digests[g] == Digest(r.ring[g]) && 1 <= g <= r.mark)
    && known.mark <= r.mark
  }

  lemma AcceptKeepsRing(r: Ring, known: KeyState, generation: int, key: Key)
    requires RingOk(r, known) && 1 <= generation <= r.mark
    ensures RingOk(Accept(r, generation, key), known)
  {
  }

  lemma TookKeepsRing(r: Ring, row: Row, key: Key, known: KeyState)
    requires RingOk(r, known) && 1 <= row.generation
    ensures RingOk(Took(r, row, key), known) && Took(r, row, key).newPins == r.newPins
  {
    hide Accepts, Accept, RingOk;
    var raised := r.(mark := Max(r.mark, row.generation));
    MarkKeepsRing(r, raised.mark, known);
    AcceptKeepsRing(raised, known, row.generation, key);
    TookIsAccepted(r, row, key);
  }

  lemma MarkKeepsRing(r: Ring, mark: int, known: KeyState)
    requires RingOk(r, known) && r.mark <= mark
    ensures RingOk(r.(mark := mark), known)
  {
  }

  lemma TookIsAccepted(r: Ring, row: Row, key: Key)
    ensures Took(r, row, key) == Accept(r.(mark := Max(r.mark, row.generation)), row.generation, key)
    ensures Took(r, row, key).newPins == r.newPins
  {
  }

  /** Deferring a row or pinning a steward touches nothing the ring's soundness speaks of. */
  lemma AsideKeepsRing(r: Ring, r': Ring, known: KeyState)
    requires RingOk(r, known) && r' == r.(newPins := r'.newPins, deferred := r'.deferred)
    ensures RingOk(r', known)
  {
  }

  lemma OwnRowKeepsRing(r: Ring, row: Row, me: Self, open: Opener, known: KeyState)
    requires RingOk(r, known)
    ensures RingOk(OwnRow(r, row, me, open), known)
  {
    var key := Open(open, row, me.publicKey);
    hide RingOk, Took, Accepts;
    if key.None? {
      AsideKeepsRing(r, Defer(r, row), known);
    } else {
      TookKeepsRing(r, row, key.value, known);
    }
  }

  lemma StewardRowKeepsRing(r: Ring, row: Row, m: Member, pins: map<UserId, Pin>, open: Opener, known: KeyState)
    requires RingOk(r, known) && m.identity.Some? && StewardRow(r, row, m, pins, open).Ok?
    ensures RingOk(StewardRow(r, row, m, pins, open).value, known)
  {
    hide RingOk, Took, Accepts, PinOf;
    var public := m.identity.value.publicKey;
    if public.Some? {
      var key := Open(open, row, public.value);
      if key.None? {
        AsideKeepsRing(r, Defer(r, row), known);
      } else if Accepts(r, row.generation, key.value) {
        TookKeepsRing(r, row, key.value, known);
        AsideKeepsRing(Took(r, row, key.value), StewardRow(r, row, m, pins, open).value, known);
      }
    }
  }

  lemma ScanRowKeepsRing(r: Ring, row: Row, me: Self, members: seq<Member>, pins: map<UserId, Pin>, open: Opener,
      known: KeyState)
    requires RingOk(r, known) && ScanRow(r, row, me, members, pins, open).Ok?
    ensures RingOk(ScanRow(r, row, me, members, pins, open).value, known)
  {
    hide RingOk, OwnRow, StewardRow, StewardOf;
    if row.device == me.device && row.sender.Some? {
      if row.sender.value == me.device {
        OwnRowKeepsRing(r, row, me, open, known);
      } else {
        var steward := StewardOf(members, me, row.sender.value);
        if steward.None? {
          AsideKeepsRing(r, Defer(r, row), known);
        } else {
          StewardRowKeepsRing(r, row, steward.value, pins, open, known);
        }
      }
    }
  }

  lemma {:induction false} ScanKeepsRing(rows: seq<Row>, me: Self, members: seq<Member>, pins: map<UserId, Pin>,
      open: Opener, known: KeyState)
    requires Scan(rows, me, members, pins, open, known).Ok?
    ensures RingOk(Scan(rows, me, members, pins, open, known).value, known)
  {
    hide ScanRow;
    if rows != [] {
      ScanKeepsRing(rows[..|rows| - 1], me, members, pins, open, known);
      ScanRowKeepsRing(Scan(rows[..|rows| - 1], me, members, pins, open, known).value, rows[|rows| - 1], me, members,
        pins, open, known);
    }
  }

  lemma {:induction false} HistoryKeepsRing(r: Ring, deferred: seq<Row>, pinned: seq<PublicKey>, open: Opener,
      known: KeyState)
    requires RingOk(r, known)
    ensures RingOk(History(r, deferred, pinned, open), known)
    ensures History(r, deferred, pinned, open).mark == r.mark && History(r, deferred, pinned, open).newPins == r.newPins
  {
    hide Accepts;
    if deferred != [] {
      var row := deferred[|deferred| - 1];
      HistoryKeepsRing(r, deferred[..|deferred| - 1], pinned, open, known);
      OpensInRange(row, pinned, open);
      var before, key := History(r, deferred[..|deferred| - 1], pinned, open), OpenWithAny(row, pinned, open);
      if key.Some? && row.generation < before.mark {
        AcceptKeepsRing(before, known, row.generation, key.value);
      }
    }
  }

  lemma {:induction false} OpensInRange(row: Row, pinned: seq<PublicKey>, open: Opener)
    ensures OpenWithAny(row, pinned, open).Some? ==>
      1 <= row.generation && exists p <- pinned :: Open(open, row, p) == OpenWithAny(row, pinned, open)
  {
    if pinned != [] && Open(open, row, pinned[0]).None? {
      OpensInRange(row, pinned[1..], open);
    }
  }

  /** No refresh ever changes a stored digest, lowers the mark, or lets a key above the mark in. */
  lemma KeyringKeepsRing(rows: seq<Row>, me: Self, members: seq<Member>, pins: map<UserId, Pin>, pinned: seq<PublicKey>,
      open: Opener, known: KeyState)
    requires OpenKeyring(rows, me, members, pins, pinned, open, known).Ok?
    ensures RingOk(OpenKeyring(rows, me, members, pins, pinned, open, known).value, known)
  {
    hide Scan, History, RingOk;
    ScanKeepsRing(rows, me, members, pins, open, known);
    var scanned := Scan(rows, me, members, pins, open, known).value;
    HistoryKeepsRing(scanned, scanned.deferred, pinned, open, known);
  }

  /** Only stewards not pinned yet are pinned, with the key they show now. */
  ghost predicate PinsOk(newPins: map<UserId, Pin>, members: seq<Member>, pins: map<UserId, Pin>) {
    forall u <- newPins :: u !in pins && newPins[u].Some? &&
      exists m <- members :: m.user == u && m.steward && m.identity.Some? && m.identity.value.publicKey == newPins[u]
  }

  /** Every key the scan took is vouched for, every row it put off is one of the rows. */
  ghost predicate ScanOk(r: Ring, rows: seq<Row>, me: Self, members: seq<Member>, pins: map<UserId, Pin>,
      open: Opener) {
    && (forall g <- r.ring :: Vouched(g, r.ring[g], rows, me, members, pins, r.newPins, open))
    && (forall row <- r.deferred :: row in rows)
    && PinsOk(r.newPins, members, pins)
  }

  lemma MoreRowsVouch(g: int, key: Key, rows: seq<Row>, more: seq<Row>, me: Self, members: seq<Member>,
      pins: map<UserId, Pin>, newPins: map<UserId, Pin>, newPins': map<UserId, Pin>, open: Opener)
    requires Vouched(g, key, rows, me, members, pins, newPins, open) && (forall row <- rows :: row in more)
    requires forall u <- newPins :: u in newPins' && newPins'[u] == newPins[u]
    ensures Vouched(g, key, more, me, members, pins, newPins', open)
  {
    hide Open, IsStewardFor;
    var row :| row in rows && row.device == me.device && row.generation == g && row.sender.Some? &&
      VouchedBy(row, key, me, members, pins, newPins, open);
    if m :| m in members && StewardVouches(m, row, key, me, pins, newPins, open) {
      assert StewardVouches(m, row, key, me, pins, newPins', open);
    }
    assert VouchedBy(row, key, me, members, pins, newPins', open);
  }

  /** What one row may add to the scan: nothing, a deferral, or one vouched key and perhaps one pin. */
  ghost predicate RowAdds(r: Ring, r': Ring, row: Row, me: Self, members: seq<Member>, pins: map<UserId, Pin>,
      open: Opener) {
    && (forall u <- r.newPins :: u in r'.newPins && r'.newPins[u] == r.newPins[u])
    && (forall g <- r'.ring :: (g in r.ring && r'.ring[g] == r.ring[g]) ||
         (row.device == me.device && row.generation == g && row.sender.Some? &&
           VouchedBy(row, r'.ring[g], me, members, pins, r'.newPins, open)))
    && (forall d <- r'.deferred :: d in r.deferred || d == row)
    && (forall u <- r'.newPins :: u in r.newPins || (u !in pins && r'.newPins[u].Some? &&
         exists m <- members ::
           m.user == u && m.steward && m.identity.Some? && m.identity.value.publicKey == r'.newPins[u]))
  }

  lemma OwnRowAdds(r: Ring, row: Row, me: Self, members: seq<Member>, pins: map<UserId, Pin>, open: Opener)
    requires row.device == me.device && row.sender == Some(me.device)
    ensures RowAdds(r, OwnRow(r, row, me, open), row, me, members, pins, open)
  {
    hide Open;
  }

  /** What a steward's row may add to the ring, its sender vouches for. */
  lemma StewardRowVouches(r: Ring, row: Row, m: Member, me: Self, members: seq<Member>, pins: map<UserId, Pin>,
      open: Opener, g: int)
    requires row.sender.Some? && m in members && IsStewardFor(m, me, row.sender.value)
    requires StewardRow(r, row, m, pins, open).Ok?
    requires var r' := StewardRow(r, row, m, pins, open).value;
      g in r'.ring && !(g in r.ring && r'.ring[g] == r.ring[g])
    ensures var r' := StewardRow(r, row, m, pins, open).value;
      row.generation == g && VouchedBy(row, r'.ring[g], me, members, pins, r'.newPins, open)
  {
    hide Open;
    var r' := StewardRow(r, row, m, pins, open).value;
    assert StewardVouches(m, row, r'.ring[g], me, pins, r'.newPins, open);
  }

  /** And it pins no one but that sender, with the key shown. */
  lemma StewardRowPins(r: Ring, row: Row, m: Member, pins: map<UserId, Pin>, open: Opener)
    requires m.identity.Some? && StewardRow(r, row, m, pins, open).Ok?
    ensures var r' := StewardRow(r, row, m, pins, open).value;
      && (r'.newPins == r.newPins || (m.user !in pins && m.user !in r.newPins && m.identity.value.publicKey.Some? &&
           r'.newPins == r.newPins[m.user := m.identity.value.publicKey]))
      && (r'.deferred == r.deferred || r'.deferred == r.deferred + [row])
  {
    hide Open, Accepts;
  }

  lemma StewardRowAdds(r: Ring, row: Row, m: Member, me: Self, members: seq<Member>, pins: map<UserId, Pin>,
      open: Opener)
    requires row.device == me.device && row.sender.Some? && m in members && IsStewardFor(m, me, row.sender.value) &&
      StewardRow(r, row, m, pins, open).Ok?
    ensures RowAdds(r, StewardRow(r, row, m, pins, open).value, row, me, members, pins, open)
  {
    hide StewardRow, VouchedBy;
    var r' := StewardRow(r, row, m, pins, open).value;
    StewardRowPins(r, row, m, pins, open);
    forall g | g in r'.ring && !(g in r.ring && r'.ring[g] == r.ring[g])
      ensures row.generation == g && VouchedBy(row, r'.ring[g], me, members, pins, r'.newPins, open)
    {
      StewardRowVouches(r, row, m, me, members, pins, open, g);
    }
  }

  lemma ScanRowAdds(r: Ring, row: Row, me: Self, members: seq<Member>, pins: map<UserId, Pin>, open: Opener)
    requires ScanRow(r, row, me, members, pins, open).Ok?
    ensures RowAdds(r, ScanRow(r, row, me, members, pins, open).value, row, me, members, pins, open)
  {
    hide VouchedBy, OwnRow, StewardRow;
    if row.device == me.device && row.sender.Some? {
      if row.sender.value == me.device {
        OwnRowAdds(r, row, me, members, pins, open);
      } else {
        var steward := StewardOf(members, me, row.sender.value);
        if steward.Some? {
          StewardRowAdds(r, row, steward.value, me, members, pins, open);
        }
      }
    }
  }

  lemma {:induction false} ScanIsVouched(rows: seq<Row>, me: Self, members: seq<Member>, pins: map<UserId, Pin>,
      open: Opener, known: KeyState)
    requires Scan(rows, me, members, pins, open, known).Ok?
    ensures ScanOk(Scan(rows, me, members, pins, open, known).value, rows, me, members, pins, open)
  {
    hide ScanRow, VouchedBy;
    if rows != [] {
      var less, row := rows[..|rows| - 1], rows[|rows| - 1];
      ScanIsVouched(less, me, members, pins, open, known);
      var r, r' := Scan(less, me, members, pins, open, known).value, Scan(rows, me, members, pins, open, known).value;
      ScanRowAdds(r, row, me, members, pins, open);
      forall g | g in r'.ring ensures Vouched(g, r'.ring[g], rows, me, members, pins, r'.newPins, open) {
        if g in r.ring && r'.ring[g] == r.ring[g] {
          MoreRowsVouch(g, r.ring[g], less, rows, me, members, pins, r.newPins, r'.newPins, open);
        } else {
          assert row in rows;
        }
      }
    }
  }

  lemma {:induction false} HistoryIsPinned(r: Ring, deferred: seq<Row>, pins: map<UserId, Pin>, pinned: seq<PublicKey>,
      open: Opener)
    requires Enumerates(pinned, pins)
    ensures var r' := History(r, deferred, pinned, open);
      forall g <- r'.ring ::
        (g in r.ring && r'.ring[g] == r.ring[g]) || (g < r.mark && Historic(g, r'.ring[g], deferred, pins, open))
    ensures History(r, deferred, pinned, open).mark == r.mark
  {
    hide Accepts, Open;
    if deferred != [] {
      var n := |deferred| - 1;
      HistoryIsPinned(r, deferred[..n], pins, pinned, open);
      OpensInRange(deferred[n], pinned, open);
      var before, after := History(r, deferred[..n], pinned, open), History(r, deferred, pinned, open);
      forall g | g in after.ring && !(g in r.ring && after.ring[g] == r.ring[g])
        ensures g < r.mark && Historic(g, after.ring[g], deferred, pins, open)
      {
        if g in before.ring && before.ring[g] == after.ring[g] {
          MoreRowsHistoric(g, after.ring[g], deferred[..n], deferred, pins, open);
        } else {
          assert deferred[n] in deferred;
        }
      }
    }
  }

  lemma MoreRowsHistoric(g: int, key: Key, rows: seq<Row>, more: seq<Row>, pins: map<UserId, Pin>, open: Opener)
    requires Historic(g, key, rows, pins, open) && forall row <- rows :: row in more
    ensures Historic(g, key, more, pins, open)
  {
  }

  /**
   * Every key in the opened ring is vouched for by the bridge itself or by a current steward matching
   * its pin, or lies strictly below the mark and opens from an identity pinned before the call; and
   * pins are only added, for current stewards on first contact.
   */
  lemma RingKeysAreTrusted(rows: seq<Row>, me: Self, members: seq<Member>, pins: map<UserId, Pin>,
      pinned: seq<PublicKey>, open: Opener, known: KeyState)
    requires Enumerates(pinned, pins) && OpenKeyring(rows, me, members, pins, pinned, open, known).Ok?
    ensures var r := OpenKeyring(rows, me, members, pins, pinned, open, known).value;
      PinsOk(r.newPins, members, pins) &&
      forall g <- r.ring ::
        Vouched(g, r.ring[g], rows, me, members, pins, r.newPins, open) ||
        (g < r.mark && Historic(g, r.ring[g], rows, pins, open))
  {
    hide Scan, History, Vouched, PinsOk;
    ScanIsVouched(rows, me, members, pins, open, known);
    var scanned := Scan(rows, me, members, pins, open, known).value;
    ScanKeepsRing(rows, me, members, pins, open, known);
    HistoryIsPinned(scanned, scanned.deferred, pins, pinned, open);
    HistoryKeepsRing(scanned, scanned.deferred, pinned, open, known);
    var r := History(scanned, scanned.deferred, pinned, open);
    forall g | g in r.ring && !(g in scanned.ring && r.ring[g] == scanned.ring[g])
      ensures Historic(g, r.ring[g], rows, pins, open)
    {
      MoreRowsHistoric(g, r.ring[g], scanned.deferred, rows, pins, open);
    }
  }
}
