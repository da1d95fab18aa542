/**
 * Row sizes as SQLite stores them (Database File Format, section 2.1 for records and section 1.6
 * for table leaf cells), and the search for a padding that lets a replacement row shrink in place.
 */
module CellLayout {
  import opened Outcome
  import opened Utf

  // ---- Varints and record headers -------------------------------------------------------------

  /** Bytes of the varint that holds n as an unsigned 64-bit value. */
  function Varint(n: int): int {
    if n < 0 then 9
    else if n < 0x80 then 1
    else if n < 0x4000 then 2
    else if n < 0x20_0000 then 3
    else if n < 0x1000_0000 then 4
    else if n < 0x8_0000_0000 then 5
    else if n < 0x400_0000_0000 then 6
    else if n < 0x2_0000_0000_0000 then 7
    else if n < 0x100_0000_0000_0000 then 8
    else 9
  }

  /** 1 << 7k */
  function Shifted(k: nat): (r: nat)
    ensures r > 0
  {
    if k == 0 then 1 else 0x80 * Shifted(k - 1)
  }

  /** uint64(n) for a signed 64-bit n. */
  function Unsigned(n: int): nat
    requires -0x8000_0000_0000_0000 <= n
  {
    if n < 0 then n + 0x1_0000_0000_0000_0000 else n
  }

  lemma Shifts()
    ensures Shifted(1) == 0x80 && Shifted(2) == 0x4000 && Shifted(3) == 0x20_0000 && Shifted(4) == 0x1000_0000
    ensures Shifted(5) == 0x8_0000_0000 && Shifted(6) == 0x400_0000_0000 && Shifted(7) == 0x2_0000_0000_0000
    ensures Shifted(8) == 0x100_0000_0000_0000
  {
    assert Shifted(4) == 0x80 * Shifted(3);
    assert Shifted(6) == 0x80 * Shifted(5);
    assert Shifted(8) == 0x80 * Shifted(7);
  }

  method VarintBytes(n: int) returns (size: int)
    requires -0x8000_0000_0000_0000 <= n
    ensures size == Varint(n)
    ensures 1 <= size <= 9 && (size > 1 ==> Shifted(size - 1) <= Unsigned(n)) &&
      (size < 9 ==> Unsigned(n) < Shifted(size))
  {
    Shifts();
    size := 1;
    while size < 9
      invariant 1 <= size <= 9
      invariant size > 1 ==> Shifted(size - 1) <= Unsigned(n)
    {
      if Unsigned(n) < Shifted(size) {
        return;
      }
      size := size + 1;
    }
    return 9;
  }

  /** The header length varint counts itself: the least length consistent with that. */
  function HeaderLen(header: nat): (k: nat) {
    if header + 1 < 0x80 then 1
    else if header + 2 < 0x4000 then 2
    else if header + 3 < 0x20_0000 then 3
    else if header + 4 < 0x1000_0000 then 4
    else if header + 5 < 0x8_0000_0000 then 5
    else if header + 6 < 0x400_0000_0000 then 6
    else if header + 7 < 0x2_0000_0000_0000 then 7
    else if header + 8 < 0x100_0000_0000_0000 then 8
    else 9
  }

  /** A header of `header` serial-type bytes whose length takes k bytes to write. */
  predicate Consistent(header: nat, k: int) {
    Varint(header + k) == k
  }

  /** A consistent header length exists, is at most nine bytes, and HeaderLen is the least. */
  lemma HeaderLenIsLeastFixpoint(header: nat, k: nat)
    ensures 1 <= HeaderLen(header) <= 9 && Consistent(header, HeaderLen(header))
    ensures 1 <= k < HeaderLen(header) ==> !Consistent(header, k)
  {
  }

  function SizeOf(header: nat, body: nat): nat {
    header + HeaderLen(header) + body
  }

  method RecordSize(header: nat, body: nat) returns (total: nat)
    ensures total == SizeOf(header, body)
    ensures exists k: nat ::
      Consistent(header, k) && 1 <= k <= 9 && total == header + k + body &&
      forall j: nat :: 1 <= j < k ==> !Consistent(header, j)
  {
    hide Varint, HeaderLen;
    var size := 1;
    HeaderLenIsLeastFixpoint(header, 1);
    while true
      invariant 1 <= size <= HeaderLen(header) <= 9
      invariant forall j: nat :: 1 <= j < size ==> !Consistent(header, j)
      decreases 9 - size
    {
      HeaderLenIsLeastFixpoint(header, size);
      var v := VarintBytes(header + size);
      if v == size {
        return header + size + body;
      }
      size := size + 1;
    }
  }

  // ---- Records --------------------------------------------------------------------------------

  datatype Value =
    | Null
    | Integer(number: int)
    | Real
    | Padding(len: nat)
    | Blob(bytes: seq<Byte>)
    | Text(text: seq<Byte>)

  predicate IsWide(encoding: nat) {
    encoding == 2 || encoding == 3
  }

  /** Content bytes of an integer: 0 and 1 have serial types of their own. */
  function IntegerBytes(n: int): nat {
    if n == 0 || n == 1 then 0
    else if -0x80 <= n < 0x80 then 1
    else if -0x8000 <= n < 0x8000 then 2
    else if -0x80_0000 <= n < 0x80_0000 then 3
    else if -0x8000_0000 <= n < 0x8000_0000 then 4
    else if -0x8000_0000_0000 <= n < 0x8000_0000_0000 then 6
    else 8
  }

  function ContentBytes(v: Value, encoding: nat): nat {
    match v
    case Null => 0
    case Integer(n) => IntegerBytes(n)
    case Real => 8
    case Padding(n) => n
    case Blob(b) => |b|
    case Text(t) => if IsWide(encoding) then 2 * |Utf16(Runes(t))| else |t|
  }

  function Serial(v: Value, encoding: nat): nat {
    match v
    case Null => 0
    case Integer(n) =>
      if n == 0 then 8 else if n == 1 then 9 else if IntegerBytes(n) == 6 then 5 else if IntegerBytes(n) == 8 then 6
        else IntegerBytes(n)
    case Real => 7
    case Padding(n) => 12 + 2 * n
    case Blob(b) => 12 + 2 * |b|
    case Text(_) => 13 + 2 * ContentBytes(v, encoding)
  }

  function Header(vs: seq<Value>, encoding: nat): nat {
    if vs == [] then 0
    else Header(vs[..|vs| - 1], encoding) + Varint(Serial(vs[|vs| - 1], encoding))
  }

  function Body(vs: seq<Value>, encoding: nat): nat {
    if vs == [] then 0
    else Body(vs[..|vs| - 1], encoding) + ContentBytes(vs[|vs| - 1], encoding)
  }

  function RecordBytes(vs: seq<Value>, encoding: nat): nat {
    SizeOf(Header(vs, encoding), Body(vs, encoding))
  }

  method RecordParts(vs: seq<Value>, encoding: nat) returns (header: nat, body: nat)
    ensures header == Header(vs, encoding) && body == Body(vs, encoding)
  {
    header, body := 0, 0;
    for i := 0 to |vs|
      invariant header == Header(vs[..i], encoding) && body == Body(vs[..i], encoding)
    {
      assert vs[..i + 1][..i] == vs[..i];
      var serial, n := 0, 0;
      match vs[i] {
        case Null =>
        case Integer(value) =>
          if value == 0 {
            serial := 8;
          } else if value == 1 {
            serial := 9;
          } else if value >= -128 && value <= 127 {
            serial, n := 1, 1;
          } else if value >= -32768 && value <= 32767 {
            serial, n := 2, 2;
          } else if value >= -8388608 && value <= 8388607 {
            serial, n := 3, 3;
          } else if value >= -2147483648 && value <= 2147483647 {
            serial, n := 4, 4;
          } else if value >= -140737488355328 && value <= 140737488355327 {
            serial, n := 5, 6;
          } else {
            serial, n := 6, 8;
          }
        case Real => serial, n := 7, 8;
        case Padding(len) => n := len; serial := 12 + 2 * n;
        case Blob(bytes) => n := |bytes|; serial := 12 + 2 * n;
        case Text(text) =>
          n := |text|;
          if encoding == 2 || encoding == 3 {
            n := 2 * |Utf16(Runes(text))|;
          }
          serial := 13 + 2 * n;
      }
      var size := VarintBytes(serial);
      header, body := header + size, body + n;
    }
    assert vs[..|vs|] == vs;
  }

  /** -2^(8w-1) <= n < 2^(8w-1): n fits w bytes of two's complement. */
  predicate FitsSigned(n: int, w: nat)
    requires 1 <= w <= 8
  {
    -HalfRange(w) <= n < HalfRange(w)
  }

  function HalfRange(w: nat): int
    requires 1 <= w <= 8
  {
    if w == 1 then 0x80 else 0x100 * HalfRange(w - 1)
  }

  lemma HalfRanges()
    ensures HalfRange(2) == 0x8000 && HalfRange(3) == 0x80_0000 && HalfRange(4) == 0x8000_0000 &&
      HalfRange(5) == 0x80_0000_0000
    ensures HalfRange(6) == 0x8000_0000_0000 && HalfRange(7) == 0x80_0000_0000_0000 &&
      HalfRange(8) == 0x8000_0000_0000_0000
  {
    assert HalfRange(4) == 0x100 * HalfRange(3);
    assert HalfRange(6) == 0x100 * HalfRange(5);
    assert HalfRange(8) == 0x100 * HalfRange(7);
  }

  /** Of the widths the format offers, an integer other than 0 and 1 takes the least that holds it. */
  lemma IntegerBytesIsLeast(n: int, w: nat)
    requires -0x8000_0000_0000_0000 <= n < 0x8000_0000_0000_0000 && n != 0 && n != 1
    requires w in {1, 2, 3, 4, 6, 8}
    ensures 1 <= IntegerBytes(n) <= 8 && FitsSigned(n, IntegerBytes(n))
    ensures FitsSigned(n, w) ==> IntegerBytes(n) <= w
  {
    HalfRanges();
  }

  // ---- Leaf cells and overflow pages ----------------------------------------------------------

  /** The usable page bytes of any SQLite database: at least 512 bytes less a one-byte reserve. */
  type Usable = u: int | 257 <= u witness 4096

  /** Bytes one overflow page holds. */
  function Cycle(u: Usable): int {
    u - 4
  }

  function MaxLocal(u: Usable): int {
    u - 35
  }

  function MinLocal(u: Usable): int {
    (u - 12) * 32 / 255 - 23
  }

  /** Bytes of a payload of p bytes kept on its leaf page. */
  function Local(p: nat, u: Usable): int {
    if p <= MaxLocal(u) then p
    else
      var k := MinLocal(u) + (p - MinLocal(u)) % Cycle(u);
      if k <= MaxLocal(u) then k else MinLocal(u)
  }

  function Overflow(p: nat, u: Usable): int {
    if p <= MaxLocal(u) then 0 else (p - Local(p, u) + Cycle(u) - 1) / Cycle(u)
  }

  function Cell(p: nat, u: Usable): int {
    Varint(p) + Local(p, u) + if Overflow(p, u) > 0 then 4 else 0
  }

  method Layout(payload: nat, usable: Usable) returns (cell: int, overflow: int)
    ensures cell == Cell(payload, usable) && overflow == Overflow(payload, usable)
  {
    var local := payload;
    overflow := 0;
    if payload > usable - 35 {
      var minimum := (usable - 12) * 32 / 255 - 23;
      local := minimum + (payload - minimum) % (usable - 4);
      if local > usable - 35 {
        local := minimum;
      }
      overflow := (payload - local + usable - 5) / (usable - 4);
    }
    var size := VarintBytes(payload);
    cell := size + local;
    if overflow > 0 {
      cell := cell + 4;
    }
  }

  lemma MinLocalRange(u: Usable)
    ensures 7 <= MinLocal(u) < MaxLocal(u)
    ensures u >= 480 ==> 35 <= MinLocal(u)
  {
  }

  lemma DivBounds(x: int, d: int)
    requires 0 < d
    ensures x / d * d <= x < x / d * d + d
  {
  }

  lemma MulMonotone(a: int, b: int, d: int)
    requires 0 <= d
    ensures a < b ==> a * d + d <= b * d
  {
    if a < b {
      ProductNonNegative(b - a - 1, d);
      assert b * d == a * d + d + (b - a - 1) * d;
    }
  }

  lemma ProductNonNegative(x: nat, y: nat)
    ensures 0 <= x * y
  {
  }

  lemma DivUnique(x: int, d: int, q: int)
    requires 0 < d && q * d <= x < q * d + d
    ensures x / d == q && x % d == x - q * d
  {
    DivBounds(x, d);
    MulMonotone(q, x / d, d);
    MulMonotone(x / d, q, d);
  }

  /** The payload is stored exactly: the leaf part and full overflow pages, only the last one partly full. */
  lemma LayoutHoldsPayload(p: nat, u: Usable)
    ensures 0 <= Local(p, u) <= MaxLocal(u)
    ensures Overflow(p, u) == 0 <==> p <= MaxLocal(u)
    ensures Overflow(p, u) == 0 ==> Local(p, u) == p
    ensures Overflow(p, u) > 0 ==>
      MinLocal(u) <= Local(p, u) && (Overflow(p, u) - 1) * Cycle(u) < p - Local(p, u) <= Overflow(p, u) * Cycle(u)
  {
    MinLocalRange(u);
    if p > MaxLocal(u) {
      var x := p - Local(p, u) + Cycle(u) - 1;
      DivBounds(x, Cycle(u));
      if Overflow(p, u) == 0 {
        SpilledLocalBelow(p, u);
      }
    }
  }

  lemma SpilledLocalBelow(p: nat, u: Usable)
    requires p > MaxLocal(u)
    ensures MinLocal(u) <= Local(p, u) <= MaxLocal(u)
  {
    MinLocalRange(u);
  }

  // ---- The padding search ---------------------------------------------------------------------

  datatype Error = NoRow | BrokenInvariant | NoLayout

  function Changed(columns: seq<string>, row: seq<Value>, changes: map<string, Value>): (r: seq<Value>)
    requires |columns| == |row|
    ensures |r| == |row|
  {
    seq(|row|, i requires 0 <= i < |row| => if columns[i] in changes then changes[columns[i]] else row[i])
  }

  /** A record of p bytes may replace one of old bytes: it, its leaf cell and its overflow never grow. */
  predicate NonGrowing(p: nat, old_: nat, u: Usable) {
    p <= old_ && Cell(p, u) <= Cell(old_, u) && Overflow(p, u) <= Overflow(old_, u)
  }

  /** Record size with pad bytes of padding, from the parts h and b measured with none. */
  function Padded(h: nat, b: nat, pad: nat): nat
    requires h > 0
  {
    SizeOf(h - 1 + Varint(12 + 2 * pad), b + pad)
  }

  method FindPadding(h: nat, b: nat, oldSize: nat, usable: Usable, minimum: nat) returns (r: Option<nat>)
    requires h > 0
    ensures r.Some? ==>
      minimum <= r.value <= minimum + usable + 18 && NonGrowing(Padded(h, b, r.value), oldSize, usable)
    ensures forall q :: minimum <= q <= minimum + usable + 18 && (r.Some? ==> q < r.value) ==>
      !NonGrowing(Padded(h, b, q), oldSize, usable)
  {
    hide Varint, HeaderLen, Cell, Overflow;
    var oldCell, oldOverflow := Layout(oldSize, usable);
    var pad := minimum;
    while pad <= minimum + usable + 18
      invariant minimum <= pad
      invariant forall q :: minimum <= q < pad ==> !NonGrowing(Padded(h, b, q), oldSize, usable)
    {
      var serial := VarintBytes(12 + 2 * pad);
      var size := RecordSize(h - 1 + serial, b + pad);
      if size > oldSize {
        forall q | pad <= q ensures !NonGrowing(Padded(h, b, q), oldSize, usable) {
          PaddedMonotone(h, b, pad, q);
        }
        return None;
      }
      var cell, overflow := Layout(size, usable);
      if cell <= oldCell && overflow <= oldOverflow {
        return Some(pad);
      }
      pad := pad + 1;
    }
    return None;
  }

  lemma VarintStep(m: nat, n: nat)
    requires m <= n <= m + 2
    ensures Varint(m) <= Varint(n) <= Varint(m) + 1
  {
  }

  lemma VarintMonotone(m: nat, n: nat)
    requires m <= n
    ensures 1 <= Varint(m) <= Varint(n) <= 9
  {
  }

  lemma HeaderLenStep(m: nat, n: nat)
    requires m <= n <= m + 1
    ensures HeaderLen(m) <= HeaderLen(n) <= HeaderLen(m) + 1
  {
  }

  /** Each extra byte of padding grows the record by one to three bytes. */
  lemma PadGrowsByOneToThree(h: nat, b: nat, pad: nat)
    requires h > 0
    ensures Padded(h, b, pad) + 1 <= Padded(h, b, pad + 1) <= Padded(h, b, pad) + 3
  {
    hide Varint, HeaderLen;
    VarintMonotone(0, 12 + 2 * pad);
    VarintStep(12 + 2 * pad, 12 + 2 * (pad + 1));
    HeaderLenStep(h - 1 + Varint(12 + 2 * pad), h - 1 + Varint(12 + 2 * (pad + 1)));
  }

  lemma {:induction false} PaddedMonotone(h: nat, b: nat, p: nat, q: nat)
    requires h > 0 && p <= q
    ensures Padded(h, b, p) + (q - p) <= Padded(h, b, q)
    decreases q
  {
    hide Padded;
    if p < q {
      PaddedMonotone(h, b, p, q - 1);
      PadGrowsByOneToThree(h, b, q - 1);
    }
  }

  /** Growing by at most three bytes, the record cannot jump over three consecutive sizes. */
  lemma {:induction false} PadReaches(h: nat, b: nat, p: nat, target: nat) returns (q: nat)
    requires h > 0 && Padded(h, b, p) <= target + 2
    ensures p <= q && target <= Padded(h, b, q) <= target + 2
    decreases target - Padded(h, b, p)
  {
    hide Padded;
    if target <= Padded(h, b, p) {
      q := p;
    } else {
      PadGrowsByOneToThree(h, b, p);
      q := PadReaches(h, b, p + 1, target);
    }
  }

  /** Overflow pages are the payload beyond the inline limit, in whole cycles. */
  lemma OverflowIsCeiling(p: nat, u: Usable)
    requires p > MaxLocal(u)
    ensures (Overflow(p, u) - 1) * Cycle(u) < p - MaxLocal(u) <= Overflow(p, u) * Cycle(u)
  {
    MinLocalRange(u);
    var d, m, x := Cycle(u), MinLocal(u), MaxLocal(u);
    var q := (p - m) / d;
    DivBounds(p - m, d);
    var r := p - m - q * d;
    DivUnique(p - m, d, q);
    if m + r <= x {
      assert Local(p, u) == m + r;
      DivUnique(p - (m + r) + d - 1, d, q);
    } else {
      assert Local(p, u) == m;
      assert (q + 1) * d == q * d + d;
      DivUnique(p - m + d - 1, d, q + 1);
    }
  }

  lemma OverflowMonotone(p: nat, q: nat, u: Usable)
    requires p <= q
    ensures 0 <= Overflow(p, u) <= Overflow(q, u)
  {
    LayoutHoldsPayload(p, u);
    LayoutHoldsPayload(q, u);
    if p > MaxLocal(u) {
      OverflowIsCeiling(p, u);
      OverflowIsCeiling(q, u);
      var d := Cycle(u);
      hide Overflow, Local;
      MulMonotone(Overflow(q, u), Overflow(p, u) - 1, d);
      assert Overflow(q, u) < Overflow(p, u) - 1 ==> Overflow(q, u) * d + d <= (Overflow(p, u) - 1) * d;
    }
  }

  /** Two bytes at and after the wrap, the leaf keeps no more than the minimum. */
  lemma LocalAfterWrap(p: nat, u: Usable, j: nat)
    requires 480 <= u && MaxLocal(u) + 1 + j * Cycle(u) <= p <= MaxLocal(u) + 3 + j * Cycle(u)
    ensures p > MaxLocal(u) && Local(p, u) == MinLocal(u)
  {
    MinLocalRange(u);
    ProductNonNegative(j, Cycle(u));
    DivUnique(p - MinLocal(u), Cycle(u), j);
  }

  /** The first wrap at or after s. */
  lemma NextWrap(s: nat, u: Usable) returns (j: nat)
    requires MinLocal(u) + 4 < s
    ensures s <= MaxLocal(u) + 1 + j * Cycle(u) <= s + Cycle(u) - 1
  {
    MinLocalRange(u);
    if s <= MaxLocal(u) + 1 {
      j := 0;
    } else {
      j := (s - MaxLocal(u) - 1 + Cycle(u) - 1) / Cycle(u);
      DivBounds(s - MaxLocal(u) - 1 + Cycle(u) - 1, Cycle(u));
    }
  }

  /** A spilled row leaves room for any smaller record that keeps no more than the minimum on its leaf. */
  lemma MinimumLeafFits(p: nat, old_: nat, u: Usable)
    requires p <= old_ && old_ > MaxLocal(u)
    requires p <= MinLocal(u) + 4 || (p > MaxLocal(u) && Local(p, u) == MinLocal(u))
    ensures NonGrowing(p, old_, u)
  {
    hide Local, Overflow, Varint;
    OverflowMonotone(p, old_, u);
    VarintMonotone(p, old_);
    LayoutHoldsPayload(p, u);
    LayoutHoldsPayload(old_, u);
  }

  /** One cycle less one byte above the minimum padding, a spilled row always has a layout that fits. */
  lemma SpilledRowHasLayout(h: nat, b: nat, old_: nat, u: Usable, minimum: nat) returns (pad: nat)
    requires h > 0 && 480 <= u && old_ > MaxLocal(u) && Padded(h, b, minimum) + u - 3 <= old_
    ensures minimum <= pad <= minimum + u - 3 && NonGrowing(Padded(h, b, pad), old_, u)
  {
    hide Padded, Local, NonGrowing;
    var s := Padded(h, b, minimum);
    if s <= MinLocal(u) + 4 {
      pad := minimum;
    } else {
      var j := NextWrap(s, u);
      pad := PadReaches(h, b, minimum, MaxLocal(u) + 1 + j * Cycle(u));
      PaddedMonotone(h, b, minimum, pad);
      LocalAfterWrap(Padded(h, b, pad), u, j);
    }
    MinimumLeafFits(Padded(h, b, pad), old_, u);
  }

  /** The bounded window loses nothing: if any padding at all from the minimum up fits, one inside it does. */
  lemma WindowIsComplete(h: nat, b: nat, old_: nat, u: Usable, minimum: nat, some: nat) returns (pad: nat)
    requires h > 0 && 480 <= u && minimum <= some && NonGrowing(Padded(h, b, some), old_, u)
    ensures minimum <= pad <= minimum + u + 18 && NonGrowing(Padded(h, b, pad), old_, u)
  {
    if some <= minimum + u + 18 {
      pad := some;
    } else {
      PaddedMonotone(h, b, minimum, some);
      pad := SpilledRowHasLayout(h, b, old_, u, minimum);
    }
  }

  /** An inline row takes any record no larger. */
  lemma InlineRowTakesSmaller(p: nat, old_: nat, u: Usable)
    requires p <= old_ <= MaxLocal(u)
    ensures NonGrowing(p, old_, u)
  {
    hide Varint;
    VarintMonotone(p, old_);
  }

  lemma {:induction false} PartsOfChangedPadding(vs: seq<Value>, encoding: nat, i: nat, pad: nat)
    requires i < |vs| && vs[i] == Padding(0)
    ensures Header(vs, encoding) > 0
    ensures Header(vs[i := Padding(pad)], encoding) == Header(vs, encoding) - 1 + Varint(12 + 2 * pad)
    ensures Body(vs[i := Padding(pad)], encoding) == Body(vs, encoding) + pad
    decreases |vs|
  {
    hide Varint;
    var n, ws := |vs| - 1, vs[i := Padding(pad)];
    VarintMonotone(0, Serial(vs[n], encoding));
    if i == n {
      assert ws[..n] == vs[..n];
      assert Varint(12) == 1 by { VarintOfTwelve(); }
    } else {
      PartsOfChangedPadding(vs[..n], encoding, i, pad);
      assert ws[..n] == vs[..n][i := Padding(pad)];
    }
  }

  lemma VarintOfTwelve()
    ensures Varint(12) == 1
  {
  }

  /** The incremental size the search uses is the size of the row measured again with that padding. */
  lemma PaddedIsRemeasured(vs: seq<Value>, encoding: nat, i: nat, pad: nat)
    requires i < |vs| && vs[i] == Padding(0)
    ensures Header(vs, encoding) > 0
    ensures Padded(Header(vs, encoding), Body(vs, encoding), pad) == RecordBytes(vs[i := Padding(pad)], encoding)
  {
    PartsOfChangedPadding(vs, encoding, i, pad);
  }

  /** The record of row, with pad bytes in its padding column i, may replace the record of was. */
  predicate Fits(was: seq<Value>, row: seq<Value>, i: nat, pad: nat, encoding: nat, u: Usable)
    requires i < |row|
  {
    NonGrowing(RecordBytes(row[i := Padding(pad)], encoding), RecordBytes(was, encoding), u)
  }

  /** The least padding from lo to hi with which row may replace was. */
  function FirstFit(was: seq<Value>, row: seq<Value>, i: nat, lo: nat, hi: nat, encoding: nat,
      u: Usable): (r: Option<nat>)
    requires i < |row|
    ensures r.Some? ==> lo <= r.value <= hi && Fits(was, row, i, r.value, encoding, u)
    ensures forall q :: lo <= q <= hi && (r.Some? ==> q < r.value) ==> !Fits(was, row, i, q, encoding, u)
    decreases hi - lo
  {
    if lo > hi then None
    else if Fits(was, row, i, lo, encoding, u) then Some(lo)
    else FirstFit(was, row, i, lo + 1, hi, encoding, u)
  }

  function ChosenPad(was: seq<Value>, row: seq<Value>, i: nat, minimum: nat, encoding: nat, u: Usable): Option<nat>
    requires i < |row|
  {
    FirstFit(was, row, i, minimum, minimum + u + 18, encoding, u)
  }

  lemma FitsIsNonGrowing(was: seq<Value>, row: seq<Value>, i: nat, encoding: nat, u: Usable)
    requires i < |row|
    ensures var blank := row[i := Padding(0)]; Header(blank, encoding) > 0 && forall q: nat ::
      Fits(was, row, i, q, encoding, u) <==>
        NonGrowing(Padded(Header(blank, encoding), Body(blank, encoding), q), RecordBytes(was, encoding), u)
  {
    hide Header, Body, SizeOf, Padded, NonGrowing, Varint;
    var blank := row[i := Padding(0)];
    PaddedIsRemeasured(blank, encoding, i, 0);
    forall q: nat
      ensures Fits(was, row, i, q, encoding, u) <==>
        NonGrowing(Padded(Header(blank, encoding), Body(blank, encoding), q), RecordBytes(was, encoding), u)
    {
      PaddedIsRemeasured(blank, encoding, i, q);
      assert blank[i := Padding(q)] == row[i := Padding(q)];
    }
  }

  /** The search fails only when no padding whatsoever from the minimum up would do. */
  lemma SearchIsComplete(was: seq<Value>, row: seq<Value>, i: nat, minimum: nat, encoding: nat, u: Usable)
    requires i < |row| && 480 <= u
    ensures ChosenPad(was, row, i, minimum, encoding, u).Some? <==>
      exists q: nat :: minimum <= q && Fits(was, row, i, q, encoding, u)
  {
    hide Header, Body, RecordBytes, Padded, NonGrowing, Fits;
    FitsIsNonGrowing(was, row, i, encoding, u);
    var blank := row[i := Padding(0)];
    var h, b := Header(blank, encoding), Body(blank, encoding);
    forall q: nat | minimum <= q && Fits(was, row, i, q, encoding, u)
      ensures ChosenPad(was, row, i, minimum, encoding, u).Some?
    {
      var pad := WindowIsComplete(h, b, RecordBytes(was, encoding), u, minimum, q);
      assert Fits(was, row, i, pad, encoding, u);
    }
  }

  /** The search succeeds for an inline row whose minimal replacement is no larger, and for a spilled
      row that gives back an overflow cycle and a byte or shrinks to what any leaf must keep. */
  lemma SearchSucceeds(was: seq<Value>, row: seq<Value>, i: nat, minimum: nat, encoding: nat, u: Usable)
    requires i < |row| && 480 <= u
    requires var before, after := RecordBytes(was, encoding), RecordBytes(row[i := Padding(minimum)], encoding);
      if before <= MaxLocal(u) then after <= before
      else after + Cycle(u) + 1 <= before || (after <= before && after <= MinLocal(u) + 4)
    ensures ChosenPad(was, row, i, minimum, encoding, u).Some?
  {
    hide RecordBytes, Padded, NonGrowing, Header, Body, Varint;
    var before, blank := RecordBytes(was, encoding), row[i := Padding(0)];
    var h, b := Header(blank, encoding), Body(blank, encoding);
    FitsIsNonGrowing(was, row, i, encoding, u);
    PaddedIsRemeasured(blank, encoding, i, minimum);
    assert blank[i := Padding(minimum)] == row[i := Padding(minimum)];
    if before <= MaxLocal(u) {
      InlineRowTakesSmaller(Padded(h, b, minimum), before, u);
      assert Fits(was, row, i, minimum, encoding, u);
    } else if Padded(h, b, minimum) <= before && Padded(h, b, minimum) <= MinLocal(u) + 4 {
      MinimumLeafFits(Padded(h, b, minimum), before, u);
      assert Fits(was, row, i, minimum, encoding, u);
    } else {
      var pad := SpilledRowHasLayout(h, b, before, u, minimum);
      assert Fits(was, row, i, pad, encoding, u);
    }
  }

  /** Bytes a spilled record is past the last size at which its leaf part fell back to the minimum. */
  function Past(p: nat, u: Usable): (d: nat)
    requires p > MaxLocal(u)
    ensures d < Cycle(u) && d < p - MaxLocal(u)
  {
    (p - MaxLocal(u) - 1) % Cycle(u)
  }

  /** Between two such sizes the leaf part is the minimum first, then rises by one a byte. */
  lemma LocalInStretch(p: nat, u: Usable, j: nat, e: nat)
    requires 480 <= u && p == MaxLocal(u) + 1 + j * Cycle(u) + e && e < Cycle(u)
    ensures p > MaxLocal(u) && Local(p, u) == MinLocal(u) + Excess(e - 30 - MinLocal(u))
  {
    MinLocalRange(u);
    ProductNonNegative(j, Cycle(u));
    var x := p - MinLocal(u);
    if e <= 29 + MinLocal(u) {
      DivUnique(x, Cycle(u), j);
    } else {
      assert (j + 1) * Cycle(u) == j * Cycle(u) + Cycle(u);
      DivUnique(x, Cycle(u), j + 1);
    }
  }

  function Excess(n: int): nat {
    if n > 0 then n else 0
  }

  /** Within the stretch old is in, every record no larger fits. */
  lemma SameStretchFits(p: nat, old_: nat, u: Usable)
    requires 480 <= u && old_ > MaxLocal(u) && old_ - Past(old_, u) <= p <= old_
    ensures NonGrowing(p, old_, u)
  {
    hide Varint, Local, Overflow;
    var j := (old_ - MaxLocal(u) - 1) / Cycle(u);
    DivBounds(old_ - MaxLocal(u) - 1, Cycle(u));
    var d := Past(old_, u);
    assert old_ == MaxLocal(u) + 1 + j * Cycle(u) + d;
    LocalInStretch(old_, u, j, d);
    LocalInStretch(p, u, j, d - (old_ - p));
    VarintMonotone(p, old_);
    OverflowMonotone(p, old_, u);
    LayoutHoldsPayload(p, u);
    LayoutHoldsPayload(old_, u);
  }

  /** In the stretch before it, a record fits only if every smaller one there does. */
  lemma EarlierStretchMonotone(p: nat, q: nat, old_: nat, u: Usable)
    requires 480 <= u && old_ > MaxLocal(u) && old_ - Cycle(u) <= p <= q < old_ - Past(old_, u) &&
      NonGrowing(q, old_, u)
    ensures NonGrowing(p, old_, u)
  {
    hide Varint, Local, Overflow, Past;
    VarintMonotone(p, q);
    OverflowMonotone(p, q, u);
    LayoutHoldsPayload(p, u);
    LayoutHoldsPayload(q, u);
    EarlierStretch(p, q, old_, u);
  }

  lemma EarlierStretch(p: nat, q: nat, old_: nat, u: Usable)
    requires 480 <= u && old_ > MaxLocal(u) && old_ - Cycle(u) <= p <= q < old_ - Past(old_, u)
    ensures q > MaxLocal(u) ==> p > MaxLocal(u) && Local(p, u) <= Local(q, u)
  {
    hide Local;
    var x := old_ - MaxLocal(u) - 1;
    var j := x / Cycle(u);
    DivBounds(x, Cycle(u));
    assert old_ - Past(old_, u) == MaxLocal(u) + 1 + j * Cycle(u);
    if q > MaxLocal(u) {
      assert j > 0 by { ProductNonNegative(0, Cycle(u)); }
      assert j * Cycle(u) == (j - 1) * Cycle(u) + Cycle(u);
      ProductNonNegative(j - 1, Cycle(u));
      var w := MaxLocal(u) + 1 + (j - 1) * Cycle(u);
      LocalInStretch(p, u, j - 1, p - w);
      LocalInStretch(q, u, j - 1, q - w);
    }
  }

  /** The paddings at which the padding's own serial type first takes another byte of header. */
  const WIDENINGS: seq<nat> :=
    [58, 8186, 1048570, 134217722, 17179869178, 2199023255546, 281474976710650, 36028797018963962]

  /** Anywhere else one byte of padding makes the record one byte longer. */
  lemma OneByteMore(h: nat, b: nat, q: nat)
    requires h > 0 && q > 0 && q !in WIDENINGS
    ensures Padded(h, b, q) == Padded(h, b, q - 1) + 1
  {
    SameVarint(q);
    hide Varint, HeaderLen;
  }

  lemma SameVarint(q: nat)
    requires q > 0 && q !in WIDENINGS
    ensures Varint(12 + 2 * q) == Varint(12 + 2 * (q - 1))
  {
    assert forall k :: 0 <= k < 8 ==> q != WIDENINGS[k];
    assert q != WIDENINGS[0] && q != WIDENINGS[1] && q != WIDENINGS[2] && q != WIDENINGS[3];
    assert q != WIDENINGS[4] && q != WIDENINGS[5] && q != WIDENINGS[6] && q != WIDENINGS[7];
  }

  /** From below lo, growing the padding steps over lo to hi: one of the eight widenings takes it from short of lo
      to past hi. */
  predicate StepsOver(row: seq<Value>, i: nat, minimum: nat, lo: int, hi: int, encoding: nat)
    requires i < |row|
  {
    exists q <- WIDENINGS ::
      minimum < q && RecordBytes(row[i := Padding(q - 1)], encoding) < lo &&
        hi < RecordBytes(row[i := Padding(q)], encoding)
  }

  /** The first padding past p whose record reaches lo. */
  lemma {:induction false} FirstReaching(h: nat, b: nat, p: nat, lo: int) returns (q: nat)
    requires h > 0 && Padded(h, b, p) < lo
    ensures p < q && Padded(h, b, q - 1) < lo <= Padded(h, b, q)
    decreases lo - Padded(h, b, p)
  {
    hide Padded;
    PadGrowsByOneToThree(h, b, p);
    if lo <= Padded(h, b, p + 1) {
      q := p + 1;
    } else {
      q := FirstReaching(h, b, p + 1, lo);
    }
  }

  /** Being stepped over is having no padding land between. */
  lemma StepsOverIff(row: seq<Value>, i: nat, minimum: nat, lo: int, hi: int, encoding: nat)
    requires i < |row| && RecordBytes(row[i := Padding(minimum)], encoding) < lo <= hi
    ensures StepsOver(row, i, minimum, lo, hi, encoding) <==>
      forall q: nat :: minimum <= q ==> !(lo <= RecordBytes(row[i := Padding(q)], encoding) <= hi)
  {
    hide RecordBytes, Padded, Header, Body;
    var blank := row[i := Padding(0)];
    var h, b := Header(blank, encoding), Body(blank, encoding);
    PaddedIsRemeasured(blank, encoding, i, 0);
    forall q: nat ensures RecordBytes(row[i := Padding(q)], encoding) == Padded(h, b, q) {
      PaddedIsRemeasured(blank, encoding, i, q);
      assert blank[i := Padding(q)] == row[i := Padding(q)];
    }
    if StepsOver(row, i, minimum, lo, hi, encoding) {
      var w :| w in WIDENINGS && minimum < w && Padded(h, b, w - 1) < lo && hi < Padded(h, b, w);
      forall q: nat | minimum <= q ensures !(lo <= Padded(h, b, q) <= hi) {
        if q < w {
          PaddedMonotone(h, b, q, w - 1);
        } else {
          PaddedMonotone(h, b, w, q);
        }
      }
    } else {
      var q := FirstReaching(h, b, minimum, lo);
      if hi < Padded(h, b, q) {
        if q !in WIDENINGS {
          OneByteMore(h, b, q);
        }
      }
    }
  }

  /**
   * What defeats the search for a replacement that is itself no larger: the old record is spilled and at most a
   * byte past a wrap, the least replacement falls less than a cycle short of it, before the wrap, and keeps too
   * much on its leaf there, and a widening of the padding's header steps over what lies from the wrap to the old
   * record's size. Eight sizes decide it.
   */
  predicate Stuck(was: seq<Value>, row: seq<Value>, i: nat, minimum: nat, encoding: nat, u: Usable)
    requires i < |row|
  {
    var before, least := RecordBytes(was, encoding), RecordBytes(row[i := Padding(minimum)], encoding);
    before > MaxLocal(u) && Past(before, u) < 2 && before <= least + Cycle(u) && least < before - Past(before, u) &&
    !NonGrowing(least, before, u) && StepsOver(row, i, minimum, before - Past(before, u), before, encoding)
  }

  /** Two bytes past a wrap, the padding cannot step over what is left of the stretch. */
  lemma PadLandsInStretch(h: nat, b: nat, old_: nat, u: Usable, minimum: nat) returns (pad: nat)
    requires h > 0 && 480 <= u && old_ > MaxLocal(u) && 2 <= Past(old_, u) &&
      Padded(h, b, minimum) < old_ - Past(old_, u)
    ensures minimum <= pad && NonGrowing(Padded(h, b, pad), old_, u)
  {
    hide Padded, NonGrowing, Past;
    pad := PadReaches(h, b, minimum, old_ - Past(old_, u));
    SameStretchFits(Padded(h, b, pad), old_, u);
  }

  lemma NoStuckNoFailure(was: seq<Value>, row: seq<Value>, i: nat, minimum: nat, encoding: nat, u: Usable)
    requires i < |row| && 480 <= u && RecordBytes(row[i := Padding(minimum)], encoding) <= RecordBytes(was, encoding)
    requires !Stuck(was, row, i, minimum, encoding, u)
    ensures ChosenPad(was, row, i, minimum, encoding, u).Some?
  {
    hide RecordBytes, Padded, NonGrowing, Header, Body, Varint, Past, ChosenPad, StepsOver;
    var before, least := RecordBytes(was, encoding), RecordBytes(row[i := Padding(minimum)], encoding);
    SearchIsComplete(was, row, i, minimum, encoding, u);
    if before <= MaxLocal(u) || before > least + Cycle(u) {
      SearchSucceeds(was, row, i, minimum, encoding, u);
    } else if NonGrowing(least, before, u) {
      assert Fits(was, row, i, minimum, encoding, u);
    } else if before - Past(before, u) <= least {
      SameStretchFits(least, before, u);
    } else if Past(before, u) < 2 {
      StepsOverIff(row, i, minimum, before - Past(before, u), before, encoding);
      var q: nat :| minimum <= q && before - Past(before, u) <= RecordBytes(row[i := Padding(q)], encoding) <= before;
      SameStretchFits(RecordBytes(row[i := Padding(q)], encoding), before, u);
      assert Fits(was, row, i, q, encoding, u);
    } else {
      var blank := row[i := Padding(0)];
      FitsIsNonGrowing(was, row, i, encoding, u);
      PaddedIsRemeasured(blank, encoding, i, minimum);
      assert blank[i := Padding(minimum)] == row[i := Padding(minimum)];
      var pad := PadLandsInStretch(Header(blank, encoding), Body(blank, encoding), before, u, minimum);
      assert Fits(was, row, i, pad, encoding, u);
    }
  }

  lemma StuckFails(was: seq<Value>, row: seq<Value>, i: nat, minimum: nat, encoding: nat, u: Usable)
    requires i < |row| && 480 <= u && Stuck(was, row, i, minimum, encoding, u)
    ensures ChosenPad(was, row, i, minimum, encoding, u).None?
  {
    hide RecordBytes, NonGrowing, Past, Cell, Overflow, ChosenPad, Padded, StepsOver;
    SearchIsComplete(was, row, i, minimum, encoding, u);
    var before, least := RecordBytes(was, encoding), RecordBytes(row[i := Padding(minimum)], encoding);
    StepsOverIff(row, i, minimum, before - Past(before, u), before, encoding);
    forall q: nat | minimum <= q ensures !Fits(was, row, i, q, encoding, u) {
      if Fits(was, row, i, q, encoding, u) {
        var size := RecordBytes(row[i := Padding(q)], encoding);
        PaddingOnlyGrows(row, i, minimum, q, encoding);
        assert size <= before by { FitsNoLarger(was, row, i, q, encoding, u); }
        EarlierStretchMonotone(least, size, before, u);
      }
    }
  }

  lemma FitsNoLarger(was: seq<Value>, row: seq<Value>, i: nat, q: nat, encoding: nat, u: Usable)
    requires i < |row| && Fits(was, row, i, q, encoding, u)
    ensures RecordBytes(row[i := Padding(q)], encoding) <= RecordBytes(was, encoding)
  {
    hide RecordBytes;
  }

  lemma PaddingOnlyGrows(row: seq<Value>, i: nat, p: nat, q: nat, encoding: nat)
    requires i < |row| && p <= q
    ensures RecordBytes(row[i := Padding(p)], encoding) <= RecordBytes(row[i := Padding(q)], encoding)
  {
    hide RecordBytes, Padded, Header, Body;
    var blank := row[i := Padding(0)];
    PaddedIsRemeasured(blank, encoding, i, p);
    PaddedIsRemeasured(blank, encoding, i, q);
    assert blank[i := Padding(p)] == row[i := Padding(p)] && blank[i := Padding(q)] == row[i := Padding(q)];
    PaddedMonotone(Header(blank, encoding), Body(blank, encoding), p, q);
  }

  /** For a replacement that can be made no larger, the search fails in exactly one situation. */
  lemma SearchFailsIffStuck(was: seq<Value>, row: seq<Value>, i: nat, minimum: nat, encoding: nat, u: Usable)
    requires i < |row| && 480 <= u && RecordBytes(row[i := Padding(minimum)], encoding) <= RecordBytes(was, encoding)
    ensures ChosenPad(was, row, i, minimum, encoding, u).None? <==> Stuck(was, row, i, minimum, encoding, u)
  {
    hide Stuck, ChosenPad, RecordBytes;
    if Stuck(was, row, i, minimum, encoding, u) {
      StuckFails(was, row, i, minimum, encoding, u);
    } else {
      NoStuckNoFailure(was, row, i, minimum, encoding, u);
    }
  }

  /** The last column holding cleanup padding. */
  function PaddingColumn(columns: seq<string>): (r: Option<nat>)
    ensures r.Some? ==> r.value < |columns|
  {
    if columns == [] then None
    else if columns[|columns| - 1] == "cleanup_padding" then Some(|columns| - 1)
    else PaddingColumn(columns[..|columns| - 1])
  }

  /** cleanupRowPaddingTx: the incremental search finds what measuring every candidate row afresh would. */
  method CleanupRowPadding(columns: seq<string>, found: Option<seq<Value>>, changes: map<string, Value>, minimum: nat,
      encoding: nat, usable: Usable)
    returns (r: Result<nat, Error>)
    requires found.Some? ==> |columns| == |found.value|
    ensures found.None? ==> r == Err(NoRow)
    ensures found.Some? && PaddingColumn(columns).None? ==> r == Err(BrokenInvariant)
    ensures found.Some? && PaddingColumn(columns).Some? ==>
      r == match ChosenPad(found.value, Changed(columns, found.value, changes), PaddingColumn(columns).value, minimum,
        encoding, usable)
           case Some(pad) => Ok(pad)
           case None => Err(NoLayout)
  {
    hide Header, Body, SizeOf, Padded, NonGrowing, Varint, Fits;
    if found.None? {
      return Err(NoRow);
    }
    var values := found.value;
    ghost var row := Changed(columns, values, changes);
    var oldHeader, oldBody := RecordParts(values, encoding);
    var oldSize := RecordSize(oldHeader, oldBody);
    assert oldSize == RecordBytes(found.value, encoding);
    var padIndex := -1;
    for i := 0 to |columns|
      invariant |values| == |columns|
      invariant forall j :: 0 <= j < |columns| ==> values[j] == if j < i then row[j] else found.value[j]
      invariant padIndex == if PaddingColumn(columns[..i]).None? then -1 else PaddingColumn(columns[..i]).value
    {
      assert columns[..i + 1][..i] == columns[..i];
      if columns[i] in changes {
        values := values[i := changes[columns[i]]];
      }
      if columns[i] == "cleanup_padding" {
        padIndex := i;
      }
    }
    assert columns == columns[..|columns|];
    if padIndex < 0 {
      return Err(BrokenInvariant);
    }
    assert values == row;
    values := values[padIndex := Padding(0)];
    var header, body := RecordParts(values, encoding);
    FitsIsNonGrowing(found.value, row, padIndex, encoding, usable);
    var pad := FindPadding(header, body, oldSize, usable, minimum);
    if pad.None? {
      return Err(NoLayout);
    }
    assert Fits(found.value, row, padIndex, pad.value, encoding, usable);
    return Ok(pad.value);
  }
}
