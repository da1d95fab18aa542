/**
 * Text as the cleanup code converts it: Go strings are bytes, ranged over as Unicode scalars with
 * U+FFFD for each byte that starts no well-formed sequence (RFC 3629), and UTF-16 as RFC 2781 has it.
 */
module Utf {
  type Byte = n: int | 0 <= n < 0x100 witness 0
  type Unit = n: int | 0 <= n < 0x1_0000 witness 0
  type Scalar = n: int | 0 <= n < 0xD800 || 0xE000 <= n < 0x11_0000 witness 0

  const REPLACEMENT: Scalar := 0xFFFD

  predicate Tail(b: Byte) {
    0x80 <= b < 0xC0
  }

  /** Bytes in the well-formed sequence that s starts with, or 0 when it starts with none. */
  function Width(s: seq<Byte>): nat
    requires s != []
  {
    if s[0] < 0x80 then 1
    else if 0xC2 <= s[0] < 0xE0 && |s| >= 2 && Tail(s[1]) then 2
    else if 0xE0 <= s[0] < 0xF0 && |s| >= 3 && Tail(s[1]) && Tail(s[2])
      && (s[0] == 0xE0 ==> 0xA0 <= s[1]) && (s[0] == 0xED ==> s[1] < 0xA0) then 3
    else if 0xF0 <= s[0] < 0xF5 && |s| >= 4 && Tail(s[1]) && Tail(s[2]) && Tail(s[3])
      && (s[0] == 0xF0 ==> 0x90 <= s[1]) && (s[0] == 0xF4 ==> s[1] < 0x90) then 4
    else 0
  }

  /** What byte b carries beyond its marker. */
  function Bits(b: int, marker: int): int {
    b - marker
  }

  /** The scalar s starts with, U+FFFD when it starts with none. */
  function First(s: seq<Byte>): Scalar
    requires s != []
  {
    match Width(s)
    case 0 => REPLACEMENT
    case 1 => s[0]
    case 2 => 0x40 * Bits(s[0], 0xC0) + Bits(s[1], 0x80)
    case 3 => 0x1000 * Bits(s[0], 0xE0) + 0x40 * Bits(s[1], 0x80) + Bits(s[2], 0x80)
    case 4 => 0x4_0000 * Bits(s[0], 0xF0) + 0x1000 * Bits(s[1], 0x80) + 0x40 * Bits(s[2], 0x80) + Bits(s[3], 0x80)
  }

  function Step(s: seq<Byte>): (n: nat)
    requires s != []
    ensures 1 <= n <= |s|
  {
    if Width(s) == 0 then 1 else Width(s)
  }

  function Runes(s: seq<Byte>): seq<Scalar> {
    if s == [] then [] else [First(s)] + Runes(s[Step(s)..])
  }

  function Encode(r: Scalar): seq<Byte> {
    if r < 0x80 then [r]
    else if r < 0x800 then [0xC0 + r / 0x40, 0x80 + r % 0x40]
    else if r < 0x1_0000 then [0xE0 + r / 0x1000, 0x80 + r / 0x40 % 0x40, 0x80 + r % 0x40]
    else [0xF0 + r / 0x4_0000, 0x80 + r / 0x1000 % 0x40, 0x80 + r / 0x40 % 0x40, 0x80 + r % 0x40]
  }

  function Utf8(rs: seq<Scalar>): seq<Byte> {
    if rs == [] then [] else Encode(rs[0]) + Utf8(rs[1..])
  }

  function Units(r: Scalar): seq<Unit> {
    if r < 0x1_0000 then [r] else [0xD800 + (r - 0x1_0000) / 0x400, 0xDC00 + (r - 0x1_0000) % 0x400]
  }

  function Utf16(rs: seq<Scalar>): seq<Unit> {
    if rs == [] then [] else Units(rs[0]) + Utf16(rs[1..])
  }

  predicate Paired(us: seq<Unit>) {
    |us| >= 2 && 0xD800 <= us[0] < 0xDC00 <= us[1] < 0xE000
  }

  /** utf16.Decode: a surrogate without its partner reads as U+FFFD. */
  function FromUtf16(us: seq<Unit>): seq<Scalar> {
    if us == [] then []
    else if us[0] < 0xD800 || 0xE000 <= us[0] then [us[0]] + FromUtf16(us[1..])
    else if Paired(us) then [0x1_0000 + (us[0] - 0xD800) * 0x400 + (us[1] - 0xDC00)] + FromUtf16(us[2..])
    else [REPLACEMENT] + FromUtf16(us[1..])
  }

  /** The byte sequence of some scalars. */
  ghost predicate WellFormed(s: seq<Byte>) {
    exists rs :: Utf8(rs) == s
  }

  /** The base-64 digits of r put r together again. */
  lemma Digits(r: nat)
    ensures r == 0x40 * (r / 0x40) + r % 0x40
    ensures r == 0x1000 * (r / 0x1000) + 0x40 * (r / 0x40 % 0x40) + r % 0x40
    ensures r == 0x4_0000 * (r / 0x4_0000) + 0x1000 * (r / 0x1000 % 0x40) + 0x40 * (r / 0x40 % 0x40) + r % 0x40
  {
    assert r / 0x1000 == r / 0x40 / 0x40;
    assert r / 0x4_0000 == r / 0x1000 / 0x40;
  }

  lemma EncodeWidth(r: Scalar, rest: seq<Byte>)
    ensures Width(Encode(r) + rest) == |Encode(r)|
  {
    Digits(r);
  }

  lemma EncodeThenFirst(r: Scalar, rest: seq<Byte>)
    ensures var s := Encode(r) + rest; Width(s) == |Encode(r)| && First(s) == r && s[|Encode(r)|..] == rest
  {
    var s := Encode(r) + rest;
    assert s[|Encode(r)|..] == rest;
    EncodeWidth(r, rest);
    Digits(r);
    hide Width;
  }

  /** Putting base-64 digits together and taking them apart. */
  lemma DigitsOf(a: nat, b: nat, c: nat, d: nat)
    requires b < 0x40 && c < 0x40 && d < 0x40
    ensures var r := 0x40 * (0x40 * (0x40 * a + b) + c) + d;
      r / 0x4_0000 == a && r / 0x1000 % 0x40 == b && r / 0x40 % 0x40 == c && r % 0x40 == d
  {
    var r := 0x40 * (0x40 * (0x40 * a + b) + c) + d;
    assert r / 0x40 == 0x40 * (0x40 * a + b) + c;
    assert r / 0x40 / 0x40 == 0x40 * a + b;
    assert r / 0x1000 == r / 0x40 / 0x40 && r / 0x4_0000 == r / 0x1000 / 0x40;
  }

  lemma TwoIsEncoded(s: seq<Byte>)
    requires s != [] && Width(s) == 2
    ensures s[..2] == Encode(First(s))
  {
    DigitsOf(0, 0, s[0] - 0xC0, s[1] - 0x80);
  }

  lemma ThreeIsEncoded(s: seq<Byte>)
    requires s != [] && Width(s) == 3
    ensures s[..3] == Encode(First(s))
  {
    DigitsOf(0, s[0] - 0xE0, s[1] - 0x80, s[2] - 0x80);
    DigitsOf(0, 0, s[0] - 0xE0, s[1] - 0x80);
  }

  lemma FourIsEncoded(s: seq<Byte>)
    requires s != [] && Width(s) == 4
    ensures s[..4] == Encode(First(s))
  {
    DigitsOf(s[0] - 0xF0, s[1] - 0x80, s[2] - 0x80, s[3] - 0x80);
  }

  /** A sequence is recognized only if it is the encoding of the scalar it is read as. */
  lemma FirstIsEncoded(s: seq<Byte>)
    requires s != [] && Width(s) > 0
    ensures s[..Width(s)] == Encode(First(s))
  {
    if Width(s) == 2 {
      TwoIsEncoded(s);
    } else if Width(s) == 3 {
      ThreeIsEncoded(s);
    } else if Width(s) == 4 {
      FourIsEncoded(s);
    }
  }

  /** So bytes start a well-formed sequence exactly when they start with some scalar's encoding, which is then what
      is read; every other byte is read by itself, as the replacement character. */
  lemma ReadsEncodingsOnly(s: seq<Byte>)
    requires s != []
    ensures (exists r :: Encode(r) <= s) <==> Width(s) > 0
    ensures forall r :: Encode(r) <= s ==> First(s) == r && Step(s) == |Encode(r)|
    ensures Width(s) == 0 ==> First(s) == REPLACEMENT && Step(s) == 1
  {
    forall r | Encode(r) <= s ensures First(s) == r && Width(s) == |Encode(r)| {
      assert s == Encode(r) + s[|Encode(r)|..];
      EncodeThenFirst(r, s[|Encode(r)|..]);
    }
    if Width(s) > 0 {
      FirstIsEncoded(s);
    }
    hide Width, First, Encode;
  }

  /** Reading back what was written, and the encoding is unambiguous. */
  lemma {:induction false} RunesOfUtf8(rs: seq<Scalar>)
    ensures Runes(Utf8(rs)) == rs
  {
    if rs != [] {
      EncodeThenFirst(rs[0], Utf8(rs[1..]));
      RunesOfUtf8(rs[1..]);
    }
  }

  /** Bytes are well formed exactly when reading and rewriting them changes nothing. */
  lemma WellFormedIff(s: seq<Byte>)
    ensures WellFormed(s) <==> Utf8(Runes(s)) == s
  {
    if WellFormed(s) {
      var rs :| Utf8(rs) == s;
      RunesOfUtf8(rs);
    }
  }

  lemma {:induction false} FromUtf16OfUtf16(rs: seq<Scalar>)
    ensures FromUtf16(Utf16(rs)) == rs
  {
    if rs != [] {
      var us := Utf16(rs);
      assert us[|Units(rs[0])|..] == Utf16(rs[1..]);
      FromUtf16OfUtf16(rs[1..]);
    }
  }

  lemma {:induction false} Utf16Concat(a: seq<Scalar>, b: seq<Scalar>)
    ensures Utf16(a + b) == Utf16(a) + Utf16(b)
  {
    if a == [] {
      assert a + b == b;
    } else {
      assert (a + b)[1..] == a[1..] + b;
      Utf16Concat(a[1..], b);
    }
  }

  lemma {:induction false} Utf8Concat(a: seq<Scalar>, b: seq<Scalar>)
    ensures Utf8(a + b) == Utf8(a) + Utf8(b)
  {
    if a == [] {
      assert a + b == b;
    } else {
      assert (a + b)[1..] == a[1..] + b;
      Utf8Concat(a[1..], b);
    }
  }

  lemma FewUnits(s: seq<Byte>)
    requires s != []
    ensures |Units(First(s))| <= Step(s)
  {
  }

  /** A text never has more UTF-16 units than bytes. */
  lemma {:induction false} UnitsAtMostBytes(s: seq<Byte>)
    ensures |Utf16(Runes(s))| <= |s|
  {
    if s != [] {
      var rest := Runes(s[Step(s)..]);
      UnitsAtMostBytes(s[Step(s)..]);
      FewUnits(s);
      assert ([First(s)] + rest)[1..] == rest;
    }
  }
}
