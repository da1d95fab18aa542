/**
 * The audit record read back: a reader of its JSON (RFC 8259, sections 4 and 7) that knows nothing of the writer,
 * and what it finds in what the writer stored.
 */
module CleanupRecord {
  import opened Outcome
  import opened Utf
  import opened CleanupCodec

  datatype Record = Record(actor: seq<Byte>, request: seq<Byte>, at: seq<Byte>)

  /** What was read, and what follows it. */
  datatype Read = Read(value: seq<Byte>, rest: seq<Byte>)

  // ---- The reader -----------------------------------------------------------------------------------

  function HexDigit(b: Byte): (d: Option<nat>)
    ensures d.Some? ==> d.value < 0x10
  {
    if 0x30 <= b <= 0x39 then Some(b - 0x30)
    else if 0x41 <= b <= 0x46 then Some(b - 0x37)
    else if 0x61 <= b <= 0x66 then Some(b - 0x57)
    else None
  }

  /** The code unit of an escape that starts s: a backslash, a u and four digits. */
  function EscapedUnit(s: seq<Byte>): (u: Option<nat>)
    ensures u.Some? ==> |s| >= 6 && u.value < 0x1_0000
  {
    if |s| < 6 || s[0] != 0x5C || s[1] != 0x75 then None
    else
      var a, b, c, d := HexDigit(s[2]), HexDigit(s[3]), HexDigit(s[4]), HexDigit(s[5]);
      if a.Some? && b.Some? && c.Some? && d.Some?
      then Some(0x1000 * a.value + 0x100 * b.value + 0x10 * c.value + d.value) else None
  }

  /** What a two-character escape stands for. */
  function EscapedByte(b: Byte): Option<Byte> {
    if b == 0x22 || b == 0x5C || b == 0x2F then Some(b)
    else if b == 0x62 then Some(8)
    else if b == 0x66 then Some(12)
    else if b == 0x6E then Some(10)
    else if b == 0x72 then Some(13)
    else if b == 0x74 then Some(9)
    else None
  }

  function Then(value: seq<Byte>, r: Option<Read>): Option<Read> {
    if r.None? then None else Some(Read(value + r.value.value, r.value.rest))
  }

  predicate High(u: nat) {
    0xD800 <= u < 0xDC00
  }

  predicate Low(u: nat) {
    0xDC00 <= u < 0xE000
  }

  /** A string from behind its opening quote: plain bytes and escapes up to the closing one. */
  function ReadString(s: seq<Byte>): Option<Read> {
    if s == [] || s[0] < 0x20 then None
    else if s[0] == 0x22 then Some(Read([], s[1..]))
    else if s[0] != 0x5C then Then([s[0]], ReadString(s[1..]))
    else
      var unit := EscapedUnit(s);
      if unit.Some? then
        var low := EscapedUnit(s[6..]);
        if High(unit.value) && low.Some? && Low(low.value) then
          Then(Encode(0x1_0000 + (unit.value - 0xD800) * 0x400 + (low.value - 0xDC00)), ReadString(s[12..]))
        else if High(unit.value) || Low(unit.value) then Then(Encode(REPLACEMENT), ReadString(s[6..]))
        else Then(Encode(unit.value), ReadString(s[6..]))
      else if |s| >= 2 && EscapedByte(s[1]).Some? then Then([EscapedByte(s[1]).value], ReadString(s[2..]))
      else None
  }

  /** A string behind the given text. */
  function ReadAfter(s: seq<Byte>, text: seq<Byte>): Option<Read> {
    if text <= s then ReadString(s[|text|..]) else None
  }

  /** The object with its three members, and white space. */
  function ReadRecord(s: seq<Byte>): Option<Record> {
    var actor := ReadAfter(s, Ascii("{\"actor\":\""));
    if actor.None? then None
    else
      var request := ReadAfter(actor.value.rest, Ascii(",\"request\":\""));
      if request.None? then None
      else
        var at := ReadAfter(request.value.rest, Ascii(",\"at\":\""));
        if at.None? || !(Ascii("}") <= at.value.rest) || exists b <- at.value.rest[1..] :: !White(b) then None
        else Some(Record(actor.value.value, request.value.value, at.value.value))
  }

  // ---- Reading what was escaped ---------------------------------------------------------------------

  /** Text with every byte that starts no well-formed sequence replaced. */
  function Cleaned(s: seq<Byte>): seq<Byte> {
    Utf8(Runes(s))
  }

  /** What a text's first scalar is escaped to. */
  function Piece(s: seq<Byte>): seq<Byte>
    requires s != []
  {
    if s[0] < 0x80 then EscapedAscii(s[0])
    else if Width(s) == 0 then Ascii("\\ufffd")
    else if First(s) == 0x2028 || First(s) == 0x2029 then Ascii("\\u202") + [Hex(First(s) % 16)]
    else s[..Step(s)]
  }

  lemma EscapedInPieces(s: seq<Byte>)
    requires s != []
    ensures Escaped(s) == Piece(s) + Escaped(s[Step(s)..])
  {
  }

  lemma ThenThen(a: seq<Byte>, b: seq<Byte>, r: Option<Read>)
    ensures Then(a, Then(b, r)) == Then(a + b, r) && Then([], r) == r
  {
    if r.Some? {
      assert a + (b + r.value.value) == (a + b) + r.value.value && [] + r.value.value == r.value.value;
    }
  }

  /** Bytes of a multi-byte sequence are copied. */
  lemma {:induction false} CopiesTails(bs: seq<Byte>, tail: seq<Byte>)
    requires forall b <- bs :: b >= 0x80
    ensures ReadString(bs + tail) == Then(bs, ReadString(tail))
  {
    if bs == [] {
      assert bs + tail == tail;
      ThenThen([], [], ReadString(tail));
    } else {
      assert (bs + tail)[1..] == bs[1..] + tail && bs[0] in bs;
      assert forall b <- bs[1..] :: b in bs;
      CopiesTails(bs[1..], tail);
      assert bs == [bs[0]] + bs[1..];
      ThenThen([bs[0]], bs[1..], ReadString(tail));
    }
  }

  /** A six-byte escape of a scalar. */
  lemma ReadsUnit(r: Scalar, e: seq<Byte>, tail: seq<Byte>)
    requires |e| == 6 && EscapedUnit(e) == Some(r)
    ensures ReadString(e + tail) == Then(Encode(r), ReadString(tail))
  {
    var s := e + tail;
    assert s[..6] == e && s[6..] == tail;
    assert EscapedUnit(s) == Some(r);
    hide EscapedUnit, Encode;
  }

  lemma HexReads(d: int)
    requires 0 <= d < 16
    ensures HexDigit(Hex(d)) == Some(d)
  {
  }

  /** A two-byte escape. */
  lemma ReadsPair(b: Byte, c: Byte, tail: seq<Byte>)
    requires EscapedByte(c) == Some(b)
    ensures ReadString([0x5C, c] + tail) == Then([b], ReadString(tail))
  {
    var s := [0x5C, c] + tail;
    assert s[2..] == tail && s[0] == 0x5C && s[1] == c;
    assert EscapedUnit(s).None?;
  }

  lemma ReadsPlain(b: Byte, tail: seq<Byte>)
    requires b >= 0x20 && b != 0x22 && b != 0x5C
    ensures ReadString([b] + tail) == Then([b], ReadString(tail))
  {
    assert ([b] + tail)[1..] == tail;
  }

  lemma ReadsControl(b: Byte, tail: seq<Byte>)
    requires b < 0x80
    ensures ReadString(Ascii("\\u00") + [Hex(b / 16), Hex(b % 16)] + tail) == Then([b], ReadString(tail))
  {
    var e := Ascii("\\u00") + [Hex(b / 16), Hex(b % 16)];
    HexReads(b / 16);
    HexReads(b % 16);
    assert e[..4] == [0x5C, 0x75, 0x30, 0x30];
    assert EscapedUnit(e) == Some(b);
    ReadsUnit(b, e, tail);
  }

  lemma Escapes()
    ensures Ascii("\\b") == [0x5C, 0x62] && Ascii("\\t") == [0x5C, 0x74] && Ascii("\\n") == [0x5C, 0x6E]
    ensures Ascii("\\f") == [0x5C, 0x66] && Ascii("\\r") == [0x5C, 0x72]
    ensures Ascii("\\ufffd") == [0x5C, 0x75, 0x66, 0x66, 0x66, 0x64] &&
      Ascii("\\u202") == [0x5C, 0x75, 0x32, 0x30, 0x32]
  {
  }

  lemma ReadsAscii(b: Byte, tail: seq<Byte>)
    requires b < 0x80
    ensures ReadString(EscapedAscii(b) + tail) == Then([b], ReadString(tail))
  {
    Escapes();
    hide Ascii, ReadString, Hex;
    if b == 0x22 || b == 0x5C {
      ReadsPair(b, b, tail);
    } else if b == 8 {
      ReadsPair(b, 0x62, tail);
    } else if b == 9 {
      ReadsPair(b, 0x74, tail);
    } else if b == 10 {
      ReadsPair(b, 0x6E, tail);
    } else if b == 12 {
      ReadsPair(b, 0x66, tail);
    } else if b == 13 {
      ReadsPair(b, 0x72, tail);
    } else if b < 0x20 || b == 0x3C || b == 0x3E || b == 0x26 {
      ReadsControl(b, tail);
    } else {
      ReadsPlain(b, tail);
    }
  }

  /** Whatever a scalar was escaped to reads back as its encoding. */
  lemma ReadsPiece(s: seq<Byte>, tail: seq<Byte>)
    requires s != []
    ensures ReadString(Piece(s) + tail) == Then(Encode(First(s)), ReadString(tail))
  {
    Escapes();
    if s[0] < 0x80 {
      hide ReadString, EscapedAscii;
      ReadsAscii(s[0], tail);
    } else if Width(s) == 0 {
      hide ReadString;
      ReadsUnit(REPLACEMENT, Piece(s), tail);
    } else if First(s) == 0x2028 || First(s) == 0x2029 {
      hide ReadString, Width;
      HexReads(First(s) % 16);
      ReadsUnit(First(s), Piece(s), tail);
    } else {
      FirstIsEncoded(s);
      hide ReadString;
      CopiesTails(Piece(s), tail);
    }
  }

  /** The reader stops where the string ends, with the text its bytes stand for. */
  lemma {:induction false} ReadsEscaped(s: seq<Byte>, rest: seq<Byte>)
    ensures ReadString(Escaped(s) + [0x22] + rest) == Some(Read(Cleaned(s), rest))
  {
    if s == [] {
      assert Escaped(s) + [0x22] + rest == [0x22] + rest && ([0x22] + rest)[1..] == rest;
    } else {
      var tail := Escaped(s[Step(s)..]) + [0x22] + rest;
      EscapedInPieces(s);
      assert Escaped(s) + [0x22] + rest == Piece(s) + tail;
      ReadsPiece(s, tail);
      ReadsEscaped(s[Step(s)..], rest);
      hide ReadString, Escaped, Piece, Encode, First;
      assert Runes(s)[1..] == Runes(s[Step(s)..]);
    }
  }

  // ---- Reading the record back ----------------------------------------------------------------------

  lemma ReadsAfter(text: seq<Byte>, s: seq<Byte>, rest: seq<Byte>)
    ensures ReadAfter(text + Escaped(s) + [0x22] + rest, text) == Some(Read(Cleaned(s), rest))
  {
    var whole := text + Escaped(s) + [0x22] + rest;
    assert whole[..|text|] == text && whole[|text|..] == Escaped(s) + [0x22] + rest;
    ReadsEscaped(s, rest);
    hide ReadString, Escaped, Cleaned;
  }

  lemma Quotes()
    ensures Ascii("\",\"request\":\"") == [0x22] + Ascii(",\"request\":\"")
    ensures Ascii("\",\"at\":\"") == [0x22] + Ascii(",\"at\":\"")
    ensures Ascii("\"}") == [0x22] + Ascii("}")
  {
  }

  lemma Closing(n: nat)
    ensures var last := Ascii("}") + Spaces(n);
      Ascii("}") <= last && last[1..] == Spaces(n) && forall b <- Spaces(n) :: White(b)
  {
    hide Ascii;
  }

  lemma RecordShape(actor: seq<Byte>, request: seq<Byte>, at: seq<Byte>, tail: seq<Byte>)
    ensures RecordJson(actor, request, at) + tail ==
      Ascii("{\"actor\":\"") + Escaped(actor) + [0x22] +
        (Ascii(",\"request\":\"") + Escaped(request) + [0x22] +
          (Ascii(",\"at\":\"") + Escaped(at) + [0x22] + (Ascii("}") + tail)))
  {
    Quotes();
    hide Ascii, Escaped;
  }

  /** The object written for an actor, a request and a time, with any spaces behind it, reads back as theirs. */
  lemma RecordReadsBack(actor: seq<Byte>, request: seq<Byte>, at: seq<Byte>, n: nat)
    ensures ReadRecord(RecordJson(actor, request, at) + Spaces(n)) ==
      Some(Record(Cleaned(actor), Cleaned(request), Cleaned(at)))
  {
    var last := Ascii("}") + Spaces(n);
    var third := Ascii(",\"at\":\"") + Escaped(at) + [0x22] + last;
    var second := Ascii(",\"request\":\"") + Escaped(request) + [0x22] + third;
    RecordShape(actor, request, at, Spaces(n));
    Closing(n);
    hide RecordJson, Ascii, Spaces, Cleaned, ReadAfter, Escaped;
    ReadsAfter(Ascii("{\"actor\":\""), actor, second);
    ReadsAfter(Ascii(",\"request\":\""), request, third);
    ReadsAfter(Ascii(",\"at\":\""), at, last);
  }

  // ---- What is written is well formed, whatever it is written of ------------------------------------

  lemma WellFormedConcat(a: seq<Byte>, b: seq<Byte>)
    requires WellFormed(a) && WellFormed(b)
    ensures WellFormed(a + b)
  {
    var rs, qs :| Utf8(rs) == a && Utf8(qs) == b;
    Utf8Concat(rs, qs);
  }

  lemma AsciiIsWellFormed(s: seq<Byte>)
    requires forall b <- s :: b < 0x80
    ensures WellFormed(s)
  {
    AsciiRunes(s);
    assert Utf8(s) == s;
  }

  lemma PieceIsWellFormed(s: seq<Byte>)
    requires s != []
    ensures WellFormed(Piece(s))
  {
    if s[0] >= 0x80 && Width(s) > 0 && First(s) != 0x2028 && First(s) != 0x2029 {
      FirstIsEncoded(s);
      assert Utf8([First(s)]) == Encode(First(s));
    } else {
      AsciiIsWellFormed(Piece(s));
    }
  }

  lemma {:induction false} EscapedIsWellFormed(s: seq<Byte>)
    ensures WellFormed(Escaped(s))
  {
    if s == [] {
      AsciiIsWellFormed([]);
    } else {
      EscapedInPieces(s);
      PieceIsWellFormed(s);
      EscapedIsWellFormed(s[Step(s)..]);
      WellFormedConcat(Piece(s), Escaped(s[Step(s)..]));
      hide Escaped, Piece, WellFormed;
    }
  }

  lemma RecordIsWellFormed(actor: seq<Byte>, request: seq<Byte>, at: seq<Byte>)
    ensures WellFormed(RecordJson(actor, request, at))
  {
    var a, b, c, d := Ascii("{\"actor\":\""), Ascii("\",\"request\":\""), Ascii("\",\"at\":\""), Ascii("\"}");
    AsciiIsWellFormed(a);
    AsciiIsWellFormed(b);
    AsciiIsWellFormed(c);
    AsciiIsWellFormed(d);
    EscapedIsWellFormed(actor);
    EscapedIsWellFormed(request);
    EscapedIsWellFormed(at);
    hide WellFormed, Escaped, Ascii;
    WellFormedConcat(a, Escaped(actor));
    WellFormedConcat(a + Escaped(actor), b);
    WellFormedConcat(a + Escaped(actor) + b, Escaped(request));
    WellFormedConcat(a + Escaped(actor) + b + Escaped(request), c);
    WellFormedConcat(a + Escaped(actor) + b + Escaped(request) + c, Escaped(at));
    WellFormedConcat(a + Escaped(actor) + b + Escaped(request) + c + Escaped(at), d);
  }

  // ---- What a filled slot says ----------------------------------------------------------------------

  /** The record a slot's payload holds, if it holds one. */
  function RecordIn(payload: seq<Byte>, order: Order): Option<Record> {
    var decoded := DecodedJson(payload, order);
    if decoded.Ok? then ReadRecord(decoded.value) else None
  }

  /** In either encoding, a written slot reads back as the actor, the request and the time it was written for, each
      byte that starts no well-formed sequence replaced. */
  lemma SlotReadsBack(actor: seq<Byte>, request: seq<Byte>, at: seq<Byte>, size: nat, order: Order)
    requires PaddedJson(RecordJson(actor, request, at), size, order).Ok?
    ensures RecordIn(PaddedJson(RecordJson(actor, request, at), size, order).value, order) ==
      Some(Record(Cleaned(actor), Cleaned(request), Cleaned(at)))
  {
    var json := RecordJson(actor, request, at);
    PaddedReadsBack(json, size, order);
    RecordIsWellFormed(actor, request, at);
    WellFormedIff(json);
    assert Carried(json, order) == json;
    RecordReadsBack(actor, request, at, PadCount(json, size, order));
    hide RecordJson, PaddedJson, DecodedJson, ReadRecord, Spaces, PadCount, Carried;
  }

  /** Text that is well formed reads back as it was. */
  lemma CleanedIff(s: seq<Byte>)
    ensures Cleaned(s) == s <==> WellFormed(s)
  {
    WellFormedIff(s);
  }
}
