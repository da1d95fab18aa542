/**
 * The audit record a cleanup slot holds: how it is written as JSON, padded to the slot's fixed size
 * in the database's text encoding, and read back.
 */
module CleanupCodec {
  import opened Outcome
  import opened Utf

  /** cleanupJSONOrder: no order for a UTF-8 database, a byte order for a UTF-16 one. */
  datatype Order = Utf8Order | LittleEndian | BigEndian

  datatype Error = Capacity | Invariant

  const SPACE: Byte := 0x20

  function Ascii(s: string): (r: seq<Byte>)
    ensures |r| == |s|
  {
    seq(|s|, i requires 0 <= i < |s| => (s[i] as int) % 0x80)
  }

  function Spaces(n: nat): (r: seq<Byte>)
    ensures |r| == n
  {
    seq(n, _ => SPACE)
  }

  // ---- UTF-16 in either byte order --------------------------------------------------------------

  /** Byte k, 0 or 1, of a unit as PutUint16 stores it. */
  function UnitByte(order: Order, u: Unit, k: nat): Byte {
    if (k == 0) == order.BigEndian? then u / 0x100 else u % 0x100
  }

  function Uint16(order: Order, a: Byte, b: Byte): Unit {
    if order.BigEndian? then 0x100 * a + b else 0x100 * b + a
  }

  function Stored(order: Order, us: seq<Unit>): (r: seq<Byte>)
    ensures |r| == 2 * |us|
  {
    seq(2 * |us|, k requires 0 <= k < 2 * |us| => UnitByte(order, us[k / 2], k % 2))
  }

  function Loaded(order: Order, raw: seq<Byte>): (r: seq<Unit>)
    ensures |r| == |raw| / 2
  {
    seq(|raw| / 2, i requires 0 <= i < |raw| / 2 => Uint16(order, raw[2 * i], raw[2 * i + 1]))
  }

  lemma LoadedStored(order: Order, us: seq<Unit>)
    ensures Loaded(order, Stored(order, us)) == us
  {
    var raw := Stored(order, us);
    forall i | 0 <= i < |us| ensures Loaded(order, raw)[i] == us[i] {
      assert raw[2 * i] == UnitByte(order, us[i], 0) && raw[2 * i + 1] == UnitByte(order, us[i], 1);
    }
  }

  // ---- Padding and reading ----------------------------------------------------------------------

  function Encoded(raw: seq<Byte>, order: Order): seq<Byte> {
    if order.Utf8Order? then raw else Stored(order, Utf16(Runes(raw)))
  }

  /** n spaces in the slot's encoding. */
  function EncodedSpaces(n: nat, order: Order): seq<Byte> {
    if order.Utf8Order? then Spaces(n) else Stored(order, Spaces(n))
  }

  function SpaceWidth(order: Order): nat {
    if order.Utf8Order? then 1 else 2
  }

  /** Spaces that fill n bytes. */
  function SpacesIn(n: nat, order: Order): nat {
    if order.Utf8Order? then n else n / 2
  }

  predicate Ragged(n: nat, order: Order) {
    !order.Utf8Order? && n % 2 != 0
  }

  function PaddedJson(raw: seq<Byte>, size: nat, order: Order): Result<seq<Byte>, Error> {
    var text := Encoded(raw, order);
    if |text| > size || Ragged(size - |text|, order) then Err(Invariant)
    else Ok(text + EncodedSpaces(SpacesIn(size - |text|, order), order))
  }

  function DecodedJson(raw: seq<Byte>, order: Order): Result<seq<Byte>, Error> {
    if order.Utf8Order? then Ok(raw)
    else if |raw| % 2 != 0 then Err(Invariant)
    else Ok(Utf8(FromUtf16(Loaded(order, raw))))
  }

  method PutUnits(units: seq<Unit>, order: Order) returns (raw: seq<Byte>)
    ensures raw == Stored(order, units)
  {
    var buffer := new Byte[2 * |units|];
    for i := 0 to |units|
      invariant forall k :: 0 <= k < 2 * i ==> buffer[k] == Stored(order, units)[k]
    {
      assert Stored(order, units)[2 * i] == UnitByte(order, units[i], 0);
      assert Stored(order, units)[2 * i + 1] == UnitByte(order, units[i], 1);
      buffer[2 * i], buffer[2 * i + 1] := UnitByte(order, units[i], 0), UnitByte(order, units[i], 1);
    }
    assert buffer[..] == Stored(order, units);
    return buffer[..];
  }

  lemma StoredConcat(order: Order, us: seq<Unit>, vs: seq<Unit>)
    ensures Stored(order, us + vs) == Stored(order, us) + Stored(order, vs)
  {
    assert |Stored(order, us + vs)| == |Stored(order, us) + Stored(order, vs)|;
    forall k | 0 <= k < 2 * |us + vs| ensures Stored(order, us + vs)[k] == (Stored(order, us) + Stored(order, vs))[k] {
      if k >= 2 * |us| {
        assert k / 2 == |us| + (k - 2 * |us|) / 2 && k % 2 == (k - 2 * |us|) % 2;
      }
    }
  }

  /** One more space in either encoding. */
  lemma OneMoreSpace(n: nat, order: Order)
    ensures |EncodedSpaces(1, order)| == SpaceWidth(order)
    ensures EncodedSpaces(n + 1, order) == EncodedSpaces(n, order) + EncodedSpaces(1, order)
  {
    assert Spaces(n + 1) == Spaces(n) + Spaces(1);
    StoredConcat(order, Spaces(n), Spaces(1));
  }

  function Times(n: nat, width: nat): nat
    requires width > 0
  {
    n / width
  }

  function Rest(n: nat, width: nat): nat
    requires width > 0
  {
    n % width
  }

  lemma OneSpace(order: Order)
    ensures EncodedSpaces(1, order) == if order.Utf8Order? then [SPACE] else Stored(order, [SPACE])
    ensures |EncodedSpaces(1, order)| == SpaceWidth(order)
  {
    assert Spaces(1) == [SPACE];
  }

  method PadCleanupJson(raw: seq<Byte>, size: nat, order: Order) returns (r: Result<seq<Byte>, Error>)
    ensures r == PaddedJson(raw, size, order)
  {
    hide Stored, Spaces, Runes, Utf16, UnitByte;
    OneSpace(order);
    var text, space := raw, [SPACE];
    if !order.Utf8Order? {
      text := PutUnits(Utf16(Runes(raw)), order);
      space := PutUnits([SPACE], order);
    }
    if |text| > size {
      return Err(Invariant);
    }
    hide Times, Rest;
    DivideByWidth(size - |text|, |space|, order);
    if Rest(size - |text|, |space|) != 0 {
      return Err(Invariant);
    }
    var spaces := Repeat(space, Times(size - |text|, |space|), order);
    return Ok(text + spaces);
  }

  method Repeat(space: seq<Byte>, count: nat, order: Order) returns (spaces: seq<Byte>)
    requires space == EncodedSpaces(1, order)
    ensures spaces == EncodedSpaces(count, order)
  {
    hide EncodedSpaces;
    spaces := [];
    NoSpaces(order);
    for k := 0 to count
      invariant spaces == EncodedSpaces(k, order)
    {
      OneMoreSpace(k, order);
      spaces := spaces + space;
    }
  }

  lemma DivideByWidth(n: nat, width: nat, order: Order)
    requires width == SpaceWidth(order)
    ensures Times(n, width) == SpacesIn(n, order) && (Rest(n, width) != 0 <==> Ragged(n, order))
  {
    if order.Utf8Order? {
      assert width == 1;
    } else {
      assert width == 2;
    }
  }

  lemma NoSpaces(order: Order)
    ensures EncodedSpaces(0, order) == []
  {
  }

  method DecodeCleanupJson(raw: seq<Byte>, order: Order) returns (r: Result<seq<Byte>, Error>)
    ensures r == DecodedJson(raw, order)
  {
    if order.Utf8Order? {
      return Ok(raw);
    }
    if |raw| % 2 != 0 {
      return Err(Invariant);
    }
    var units := new Unit[|raw| / 2];
    for i := 0 to units.Length
      invariant forall j :: 0 <= j < i ==> units[j] == Loaded(order, raw)[j]
    {
      units[i] := Uint16(order, raw[2 * i], raw[2 * i + 1]);
    }
    assert units[..] == Loaded(order, raw);
    return Ok(Utf8(FromUtf16(units[..])));
  }

  lemma {:induction false} SpacesAsText(n: nat)
    ensures Utf16(Spaces(n)) == Spaces(n) && Utf8(Spaces(n)) == Spaces(n)
  {
    if n > 0 {
      assert Spaces(n) == [SPACE] + Spaces(n - 1);
      SpacesAsText(n - 1);
    }
  }

  /** Spaces a padded text ends with beyond its own. */
  function PadCount(raw: seq<Byte>, size: nat, order: Order): nat
    requires |Encoded(raw, order)| <= size
  {
    SpacesIn(size - |Encoded(raw, order)|, order)
  }

  /** The text a slot of this database can carry: ill-formed bytes are replaced in a UTF-16 one. */
  function Carried(raw: seq<Byte>, order: Order): seq<Byte> {
    if order.Utf8Order? then raw else Utf8(Runes(raw))
  }

  lemma SpacedUnitsReadBack(rs: seq<Scalar>, n: nat, order: Order)
    ensures Utf8(FromUtf16(Loaded(order, Stored(order, Utf16(rs)) + Stored(order, Spaces(n))))) == Utf8(rs) + Spaces(n)
  {
    hide Stored, Loaded, Spaces;
    StoredConcat(order, Utf16(rs), Spaces(n));
    LoadedStored(order, Utf16(rs) + Spaces(n));
    SpacesAsText(n);
    Utf16Concat(rs, Spaces(n));
    FromUtf16OfUtf16(rs + Spaces(n));
    Utf8Concat(rs, Spaces(n));
  }

  /** A padded text has exactly the size asked for and reads back as what the database carries of it,
      followed by spaces only. */
  lemma PaddedReadsBack(raw: seq<Byte>, size: nat, order: Order)
    requires PaddedJson(raw, size, order).Ok?
    ensures |PaddedJson(raw, size, order).value| == size
    ensures DecodedJson(PaddedJson(raw, size, order).value, order) ==
      Ok(Carried(raw, order) + Spaces(PadCount(raw, size, order)))
  {
    hide Stored, Loaded, Spaces, Runes, Utf16, FromUtf16, Utf8;
    SpacedUnitsReadBack(Runes(raw), PadCount(raw, size, order), order);
  }

  /** The round trip loses nothing exactly when the text is well formed or the database is UTF-8. */
  lemma RoundTripIff(raw: seq<Byte>, size: nat, order: Order)
    requires PaddedJson(raw, size, order).Ok?
    ensures DecodedJson(PaddedJson(raw, size, order).value, order) == Ok(raw + Spaces(PadCount(raw, size, order))) <==>
      order.Utf8Order? || WellFormed(raw)
  {
    PaddedReadsBack(raw, size, order);
    WellFormedIff(raw);
    var n := PadCount(raw, size, order);
    assert (raw + Spaces(n))[..|raw|] == raw;
    assert Carried(raw, order) + Spaces(n) == raw + Spaces(n) ==> |Carried(raw, order)| == |raw|;
    assert (Carried(raw, order) + Spaces(n))[..|Carried(raw, order)|] == Carried(raw, order);
  }

  // ---- The record as JSON -------------------------------------------------------------------------

  function Hex(d: int): Byte
    requires 0 <= d < 16
  {
    if d < 10 then 0x30 + d else 0x57 + d
  }

  /** The characters JSON must escape and the three Go escapes for HTML. */
  function EscapedAscii(b: Byte): seq<Byte>
    requires b < 0x80
  {
    if b == 0x22 || b == 0x5C then [0x5C, b]
    else if b == 8 then Ascii("\\b")
    else if b == 9 then Ascii("\\t")
    else if b == 10 then Ascii("\\n")
    else if b == 12 then Ascii("\\f")
    else if b == 13 then Ascii("\\r")
    else if b < 0x20 || b == 0x3C || b == 0x3E || b == 0x26 then Ascii("\\u00") + [Hex(b / 16), Hex(b % 16)]
    else [b]
  }

  /** json.Marshal of a string, without its quotes. */
  function Escaped(s: seq<Byte>): seq<Byte> {
    if s == [] then []
    else if s[0] < 0x80 then EscapedAscii(s[0]) + Escaped(s[1..])
    else if Width(s) == 0 then Ascii("\\ufffd") + Escaped(s[1..])
    else if First(s) == 0x2028 || First(s) == 0x2029 then Ascii("\\u202") + [Hex(First(s) % 16)] + Escaped(s[Step(s)..])
    else s[..Step(s)] + Escaped(s[Step(s)..])
  }

  function RecordJson(actor: seq<Byte>, request: seq<Byte>, at: seq<Byte>): seq<Byte> {
    Ascii("{\"actor\":\"") + Escaped(actor) + Ascii("\",\"request\":\"") + Escaped(request) +
      Ascii("\",\"at\":\"") + Escaped(at) + Ascii("\"}")
  }

  /** Escaping multiplies a text's length by six at worst. */
  lemma {:induction false} EscapedAtMostSix(s: seq<Byte>)
    ensures |Escaped(s)| <= 6 * |s|
  {
    if s != [] {
      EscapedAtMostSix(s[1..]);
      EscapedAtMostSix(s[Step(s)..]);
    }
  }

  /** Digits, letters, '-' and ':': what a timestamp is made of. */
  predicate Plain(b: Byte) {
    b == 0x2D || 0x30 <= b <= 0x3A || 0x41 <= b <= 0x5A
  }

  lemma PlainByte(b: Byte)
    requires Plain(b)
    ensures b < 0x80 && EscapedAscii(b) == [b]
  {
  }

  lemma {:induction false} PlainIsCopied(s: seq<Byte>)
    requires forall b <- s :: Plain(b)
    ensures Escaped(s) == s
  {
    if s != [] {
      PlainByte(s[0]);
      hide EscapedAscii, Width, First, Ascii;
      PlainIsCopied(s[1..]);
      assert s == [s[0]] + s[1..];
    }
  }

  // ---- What a slot holds --------------------------------------------------------------------------

  predicate White(b: Byte) {
    b == 0x20 || 9 <= b <= 13
  }

  function TrimmedLeft(s: seq<Byte>): seq<Byte> {
    if s != [] && White(s[0]) then TrimmedLeft(s[1..]) else s
  }

  function TrimmedRight(s: seq<Byte>): seq<Byte> {
    if s != [] && White(s[|s| - 1]) then TrimmedRight(s[..|s| - 1]) else s
  }

  const NULL := Ascii("null")

  /** The payload holds the JSON null of a reserved slot. */
  predicate Unfilled(payload: seq<Byte>, order: Order) {
    DecodedJson(payload, order).Ok? && TrimmedRight(TrimmedLeft(DecodedJson(payload, order).value)) == NULL
  }

  lemma {:induction false} TrimSpaces(s: seq<Byte>, n: nat)
    requires s != [] && !White(s[|s| - 1])
    ensures TrimmedRight(s + Spaces(n)) == s
  {
    var t := s + Spaces(n);
    if n > 0 {
      assert t[..|t| - 1] == s + Spaces(n - 1);
      TrimSpaces(s, n - 1);
    } else {
      assert t == s;
    }
  }

  lemma {:induction false} TrimKeepsFirst(s: seq<Byte>)
    requires s != [] && !White(s[0])
    ensures TrimmedRight(s) != [] && TrimmedRight(s)[0] == s[0]
  {
    if White(s[|s| - 1]) {
      TrimKeepsFirst(s[..|s| - 1]);
    }
  }

  lemma AsciiCarried(s: seq<Byte>, order: Order)
    requires forall b <- s :: b < 0x80
    ensures Carried(s, order) == s && |Encoded(s, order)| == if order.Utf8Order? then |s| else 2 * |s|
  {
    AsciiRunes(s);
  }

  lemma {:induction false} AsciiRunes(s: seq<Byte>)
    requires forall b <- s :: b < 0x80
    ensures Runes(s) == s && Utf8(s) == s && Utf16(s) == s
  {
    if s != [] {
      assert s == [s[0]] + s[1..] && s[0] in s;
      assert forall b <- s[1..] :: b in s;
      AsciiRunes(s[1..]);
    }
  }

  lemma NullBytes()
    ensures NULL == [0x6E, 0x75, 0x6C, 0x6C]
  {
  }

  lemma TrimsToNull(n: nat)
    ensures TrimmedRight(TrimmedLeft(NULL + Spaces(n))) == NULL
  {
    NullBytes();
    hide Ascii, Spaces;
    assert (NULL + Spaces(n))[0] == 0x6E;
    TrimSpaces(NULL, n);
  }

  lemma NullIsUnfilled(size: nat, order: Order)
    requires PaddedJson(NULL, size, order).Ok?
    ensures Unfilled(PaddedJson(NULL, size, order).value, order)
  {
    assert |Encoded(NULL, order)| <= size;
    hide PaddedJson, Carried, Spaces, DecodedJson, TrimmedLeft, TrimmedRight, PadCount, Encoded;
    NullBytes();
    hide Ascii;
    PaddedReadsBack(NULL, size, order);
    AsciiCarried(NULL, order);
    TrimsToNull(PadCount(NULL, size, order));
  }

  lemma CarriedKeepsAsciiFirst(s: seq<Byte>, order: Order)
    requires s != [] && s[0] < 0x80
    ensures Carried(s, order) != [] && Carried(s, order)[0] == s[0]
  {
    assert Width(s) == 1;
    assert Runes(s) == [s[0]] + Runes(s[1..]);
  }

  lemma RecordOpens(actor: seq<Byte>, request: seq<Byte>, at: seq<Byte>)
    ensures RecordJson(actor, request, at) != [] && RecordJson(actor, request, at)[0] == 0x7B
  {
    hide Escaped;
    assert Ascii("{\"actor\":\"")[0] == 0x7B;
  }

  lemma EncodedKeepsSomething(s: seq<Byte>, order: Order)
    requires s != []
    ensures Encoded(s, order) != []
  {
    assert Runes(s) == [First(s)] + Runes(s[Step(s)..]);
  }

  lemma OpeningBraceIsNotNull(s: seq<Byte>)
    requires s != [] && s[0] == 0x7B
    ensures TrimmedRight(TrimmedLeft(s)) != NULL
  {
    TrimKeepsFirst(s);
    assert NULL[0] == 0x6E;
  }

  /** A written record is never taken for an empty slot. */
  lemma RecordFills(actor: seq<Byte>, request: seq<Byte>, at: seq<Byte>, size: nat, order: Order)
    requires PaddedJson(RecordJson(actor, request, at), size, order).Ok?
    ensures !Unfilled(PaddedJson(RecordJson(actor, request, at), size, order).value, order)
  {
    hide RecordJson, PaddedJson, DecodedJson, Carried, Spaces, TrimmedLeft, TrimmedRight, Ascii;
    var record := RecordJson(actor, request, at);
    RecordOpens(actor, request, at);
    PaddedReadsBack(record, size, order);
    CarriedKeepsAsciiFirst(record, order);
    OpeningBraceIsNotNull(Carried(record, order) + Spaces(PadCount(record, size, order)));
  }

  const EMPTY_RECORD := 53

  /** cleanupSlotBytes before its budget check, for IDs of at most `actor` bytes. */
  function SlotSize(actor: nat, order: Order): nat {
    var n := (EMPTY_RECORD + 6 * (actor + 128) + 63) / 64 * 64;
    if order.Utf8Order? then n else 2 * n
  }

  predicate Timestamp(at: seq<Byte>) {
    |at| == 20 && forall b <- at :: Plain(b)
  }

  lemma RecordParts(actor: seq<Byte>, request: seq<Byte>, at: seq<Byte>)
    ensures |RecordJson(actor, request, at)| == 33 + |Escaped(actor)| + |Escaped(request)| + |Escaped(at)|
  {
    hide Escaped;
  }

  lemma EmptyRecord()
    ensures |RecordJson([], [], Ascii("2000-01-01T00:00:00Z"))| == EMPTY_RECORD
  {
    var stamp := Ascii("2000-01-01T00:00:00Z");
    assert forall b <- stamp :: Plain(b);
    PlainIsCopied(stamp);
    RecordParts([], [], stamp);
    hide RecordJson, Ascii;
  }

  lemma RecordLength(actor: seq<Byte>, request: seq<Byte>, at: seq<Byte>)
    requires Timestamp(at)
    ensures |RecordJson(actor, request, at)| <= EMPTY_RECORD + 6 * (|actor| + |request|)
  {
    hide RecordJson, Escaped;
    PlainIsCopied(at);
    EscapedAtMostSix(actor);
    EscapedAtMostSix(request);
    RecordParts(actor, request, at);
  }

  /** Any record of an actor whose ID is no longer than the slot was sized for fits it, in either encoding. */
  lemma RecordFits(actor: seq<Byte>, request: seq<Byte>, at: seq<Byte>, longest: nat, size: nat, order: Order)
    requires Timestamp(at) && |request| <= 128 && |actor| <= longest
    requires SlotSize(longest, order) <= size && !Ragged(size, order)
    ensures PaddedJson(RecordJson(actor, request, at), size, order).Ok?
  {
    hide RecordJson, Stored, Runes, Utf16;
    RecordLength(actor, request, at);
    UnitsAtMostBytes(RecordJson(actor, request, at));
  }
}
