/** Eight lanes of 32-bit signed arithmetic, and the conversion row written with them. */
module Avx2 {
  import opened Wrappers
  import opened Pixels

  const TWO32 := 0x1_0000_0000
  const TWO31 := 0x8000_0000

  /** A 32-bit signed number. */
  type i32 = x: int | -0x8000_0000 <= x < 0x8000_0000

  /** What a 32-bit register keeps: the one 32-bit number that differs from the exact result by a multiple of 2 to the 32. */
  function Wrap(x: int): (r: i32)
    ensures (x - r) % TWO32 == 0
  {
    if -TWO31 <= x < TWO31 then x
    else
      var m := x % TWO32;
      if m >= TWO31 then m - TWO32 else m
  }

  function Unsigned(x: i32): nat { if x < 0 then x + TWO32 else x }

  /** Bitwise or of the lowest bits of two numbers. */
  function OrBits(a: nat, b: nat, bits: nat): nat {
    if bits == 0 then 0
    else (if a % 2 == 1 || b % 2 == 1 then 1 else 0) + 2 * OrBits(a / 2, b / 2, bits - 1)
  }

  function Power2(k: nat): (p: nat)
    ensures p > 0
  {
    if k == 0 then 1 else 2 * Power2(k - 1)
  }

  lemma {:induction false} OrWithZero(b: nat, bits: nat)
    requires b < Power2(bits)
    ensures OrBits(0, b, bits) == b
  {
    if bits > 0 { OrWithZero(b / 2, bits - 1); }
  }

  lemma HalvingMultiple(b: nat, k: nat)
    requires k > 0 && b % Power2(k) == 0
    ensures b % 2 == 0 && b / 2 % Power2(k - 1) == 0
  {
    var p, m := Power2(k - 1), b / Power2(k);
    assert b == Power2(k) * m == 2 * (p * m);
    MultipleHasNoRemainder(m, p);
  }

  lemma MultipleHasNoRemainder(m: nat, p: nat)
    requires p > 0
    ensures p * m % p == 0
  {
    IndexIsUnique(p, m, 0, p * m / p, p * m % p);
  }

  /** Numbers without a common bit: their or is their sum. */
  lemma {:induction false} OrOfSeparateBits(a: nat, b: nat, k: nat, bits: nat)
    requires k <= bits && a < Power2(k) && b % Power2(k) == 0 && b < Power2(bits)
    ensures OrBits(a, b, bits) == a + b
  {
    if k == 0 {
      OrWithZero(b, bits);
    } else {
      HalvingMultiple(b, k);
      OrOfSeparateBits(a / 2, b / 2, k - 1, bits - 1);
    }
  }

  // -----------------------------------------------------------------------------------------------------------------
  // Vectors of eight lanes
  // -----------------------------------------------------------------------------------------------------------------

  type Lanes = s: seq<i32> | |s| == 8 witness [0, 0, 0, 0, 0, 0, 0, 0]

  function Set1(x: i32): Lanes { [x, x, x, x, x, x, x, x] }

  function Lanewise(op: (i32, i32) -> i32, a: Lanes, b: Lanes): (r: Lanes)
    ensures forall i | 0 <= i < 8 :: r[i] == op(a[i], b[i])
  {
    [op(a[0], b[0]), op(a[1], b[1]), op(a[2], b[2]), op(a[3], b[3]), op(a[4], b[4]), op(a[5], b[5]), op(a[6], b[6]), op(a[7], b[7])]
  }

  function EachLane(op: i32 -> i32, a: Lanes): (r: Lanes)
    ensures forall i | 0 <= i < 8 :: r[i] == op(a[i])
  {
    [op(a[0]), op(a[1]), op(a[2]), op(a[3]), op(a[4]), op(a[5]), op(a[6]), op(a[7])]
  }

  function AddLane(a: i32, b: i32): i32 { Wrap(a + b) }
  function SubLane(a: i32, b: i32): i32 { Wrap(a - b) }
  function MulLane(a: i32, b: i32): i32 { Wrap(a * b) }
  function MaxLane(a: i32, b: i32): i32 { if a < b then b else a }
  function MinLane(a: i32, b: i32): i32 { if a < b then a else b }
  function OrLane(a: i32, b: i32): i32 { Wrap(OrBits(Unsigned(a), Unsigned(b), 32)) }

  /** Shifts by a count fixed in the instruction: arithmetic to the right, logical to the left. */
  function ShiftRight8Lane(a: i32): i32 { a / 256 }
  function ShiftLeft8Lane(a: i32): i32 { Wrap(a * 256) }
  function ShiftLeft16Lane(a: i32): i32 { Wrap(a * 65536) }

  /** What the lanes compute for one pixel. */
  function LumaLane(y: byte): i32 { AddLane(MulLane(MaxLane(0, SubLane(y, 16)), 298), 128) }
  function ClampLane(v: i32): i32 { MinLane(255, MaxLane(0, v)) }
  function RedOf(luma: i32, e: i32): i32 { ClampLane(ShiftRight8Lane(AddLane(luma, MulLane(e, 409)))) }
  function GreenOf(luma: i32, d: i32, e: i32): i32 { ClampLane(ShiftRight8Lane(SubLane(SubLane(luma, MulLane(d, 100)), MulLane(e, 208)))) }
  function BlueOf(luma: i32, d: i32): i32 { ClampLane(ShiftRight8Lane(AddLane(luma, MulLane(d, 516)))) }
  function PackLane(r: i32, g: i32, b: i32): i32 {
    OrLane(OrLane(r, ShiftLeft8Lane(g)), OrLane(ShiftLeft16Lane(b), -16777216))
  }

  lemma LumaLaneIsExact(y: byte)
    ensures LumaLane(y) == 298 * LumaTerm(y) + 128
  {
  }

  lemma RedLaneIsExact(y: byte, e: i32)
    requires -128 <= e < 128
    ensures RedOf(LumaLane(y), e) == Red(LumaTerm(y), e)
  {
    LumaLaneIsExact(y);
  }

  lemma GreenLaneIsExact(y: byte, d: i32, e: i32)
    requires -128 <= d < 128 && -128 <= e < 128
    ensures GreenOf(LumaLane(y), d, e) == Green(LumaTerm(y), d, e)
  {
    LumaLaneIsExact(y);
  }

  lemma BlueLaneIsExact(y: byte, d: i32)
    requires -128 <= d < 128
    ensures BlueOf(LumaLane(y), d) == Blue(LumaTerm(y), d)
  {
    LumaLaneIsExact(y);
  }

  lemma SmallPowers()
    ensures Power2(8) == 256 && Power2(16) == 65536 && Power2(24) == 16777216 && Power2(32) == TWO32
  {
  }

  lemma UnsignedOfWrap(n: nat)
    requires n < TWO32
    ensures Unsigned(Wrap(n)) == n
  {
  }

  lemma OrLaneAdds(a: i32, b: i32, k: nat)
    requires k <= 32 && Unsigned(a) < Power2(k) && Unsigned(b) % Power2(k) == 0 && Unsigned(a) + Unsigned(b) < TWO32
    ensures Unsigned(OrLane(a, b)) == Unsigned(a) + Unsigned(b)
  {
    SmallPowers();
    OrOfSeparateBits(Unsigned(a), Unsigned(b), k, 32);
    UnsignedOfWrap(Unsigned(a) + Unsigned(b));
  }

  /** The number that some bytes in memory stand for, lowest first. */
  function FromLe(s: seq<byte>): nat {
    if s == [] then 0 else s[0] + 256 * FromLe(s[1..])
  }

  lemma LowestByte(first: byte, rest: nat)
    ensures (first + 256 * rest) % 256 == first && (first + 256 * rest) / 256 == rest
  {
  }

  lemma {:induction false} LeIsUnique(s: seq<byte>, t: seq<byte>)
    requires |s| == |t| && FromLe(s) == FromLe(t)
    ensures s == t
  {
    if s != [] {
      LowestByte(s[0], FromLe(s[1..]));
      LowestByte(t[0], FromLe(t[1..]));
      LeIsUnique(s[1..], t[1..]);
      assert s == [s[0]] + s[1..] && t == [t[0]] + t[1..];
    }
  }

  lemma FourBytes(r: byte, g: byte, b: byte, a: byte)
    ensures FromLe([r, g, b, a]) == r + 256 * g + 65536 * b + 16777216 * a
  {
    var one: seq<byte>, two: seq<byte>, three: seq<byte>, four: seq<byte> := [a], [b, a], [g, b, a], [r, g, b, a];
    assert four[1..] == three && three[1..] == two && two[1..] == one && one[1..] == [];
    assert FromLe(one) == a + 256 * FromLe(one[1..]);
    assert FromLe(two) == b + 256 * FromLe(two[1..]);
    assert FromLe(three) == g + 256 * FromLe(three[1..]);
    assert FromLe(four) == r + 256 * FromLe(four[1..]);
  }

  /** Packing puts the three colours and the opaque alpha side by side. */
  lemma PackingIsConcatenation(r: byte, g: byte, b: byte)
    ensures Unsigned(PackLane(r, g, b)) == FromLe([r, g, b, 255])
  {
    LowHalf(r, g);
    HighHalf(b);
    SmallPowers();
    OrLaneAdds(OrLane(r, ShiftLeft8Lane(g)), OrLane(ShiftLeft16Lane(b), -16777216), 16);
    FourBytes(r, g, b, 255);
  }

  lemma LowHalf(r: byte, g: byte)
    ensures Unsigned(OrLane(r, ShiftLeft8Lane(g))) == r + 256 * g
  {
    SmallPowers();
    OrLaneAdds(r, g * 256, 8);
  }

  lemma HighHalf(b: byte)
    ensures Unsigned(OrLane(ShiftLeft16Lane(b), -16777216)) == 65536 * b + 16777216 * 255
  {
    SmallPowers();
    OrLaneAdds(b * 65536, -16777216, 24);
  }

  function Lane(y: byte, d: i32, e: i32): i32 { PackLane(RedOf(LumaLane(y), e), GreenOf(LumaLane(y), d, e), BlueOf(LumaLane(y), d)) }

  function Pixel(y: byte, u: byte, v: byte): seq<byte> { seq(4, channel requires 0 <= channel < 4 => Rgba(y, u, v, channel)) }

  /** No 32-bit operation overflows: what one lane holds is exactly the scalar pixel. */
  lemma LaneIsPixel(y: byte, u: byte, v: byte)
    ensures Unsigned(Lane(y, u - 128, v - 128)) == FromLe(Pixel(y, u, v))
  {
    RedLaneIsExact(y, v - 128);
    GreenLaneIsExact(y, u - 128, v - 128);
    BlueLaneIsExact(y, u - 128);
    PackingIsConcatenation(Rgba(y, u, v, 0), Rgba(y, u, v, 1), Rgba(y, u, v, 2));
    assert Pixel(y, u, v) == [Rgba(y, u, v, 0), Rgba(y, u, v, 1), Rgba(y, u, v, 2), 255];
  }

  // -----------------------------------------------------------------------------------------------------------------
  // The row
  // -----------------------------------------------------------------------------------------------------------------

  /** Stores a number as four bytes of a buffer. */
  method Store(rgba: array<byte>, at: nat, v: nat)
    requires v < TWO32 && at + 4 <= rgba.Length
    modifies rgba
    ensures FromLe(rgba[at..at + 4]) == v
    ensures forall k | 0 <= k < rgba.Length && !(at <= k < at + 4) :: rgba[k] == old(rgba[k])
  {
    var rest := v;
    rgba[at], rest := rest % 256, rest / 256;
    rgba[at + 1], rest := rest % 256, rest / 256;
    rgba[at + 2], rest := rest % 256, rest / 256;
    rgba[at + 3] := rest;
    FourBytes(rgba[at], rgba[at + 1], rgba[at + 2], rgba[at + 3]);
    assert rgba[at..at + 4] == [rgba[at], rgba[at + 1], rgba[at + 2], rgba[at + 3]];
  }

  /** Stores all eight lanes behind each other. */
  method StoreLanes(rgba: array<byte>, at: nat, lanes: Lanes)
    requires at + 32 <= rgba.Length
    modifies rgba
    ensures forall i: nat | i < 8 :: FromLe(PixelAt(rgba[..], at, i)) == Unsigned(lanes[i])
    ensures forall k | 0 <= k < rgba.Length && !(at <= k < at + 32) :: rgba[k] == old(rgba[k])
  {
    for i := 0 to 8
      invariant forall j: nat | j < i :: FromLe(PixelAt(rgba[..], at, j)) == Unsigned(lanes[j])
      invariant forall k | 0 <= k < rgba.Length && !(at <= k < at + 4 * i) :: rgba[k] == old(rgba[k])
    {
      ghost var before := rgba[..];
      Store(rgba, at + 4 * i, Unsigned(lanes[i]));
      forall j: nat | j < i ensures FromLe(PixelAt(rgba[..], at, j)) == Unsigned(lanes[j]) {
        assert PixelAt(rgba[..], at, j) == PixelAt(before, at, j);
      }
      assert PixelAt(rgba[..], at, i) == rgba[at + 4 * i..at + 4 * i + 4];
    }
  }

  method Widened(y: seq<byte>) returns (luma: Lanes)
    requires |y| == 8
    ensures forall i | 0 <= i < 8 :: luma[i] == LumaLane(y[i])
  {
    var loaded: Lanes := [y[0], y[1], y[2], y[3], y[4], y[5], y[6], y[7]];
    var c := Lanewise(MaxLane, Set1(0), Lanewise(SubLane, loaded, Set1(16)));
    luma := Lanewise(AddLane, Lanewise(MulLane, c, Set1(298)), Set1(128));
  }

  method Clamped(v: Lanes) returns (r: Lanes)
    ensures forall i | 0 <= i < 8 :: r[i] == ClampLane(ShiftRight8Lane(v[i]))
  {
    r := Lanewise(MinLane, Set1(255), Lanewise(MaxLane, Set1(0), EachLane(ShiftRight8Lane, v)));
  }

  method Packed(r: Lanes, g: Lanes, b: Lanes) returns (packed: Lanes)
    ensures forall i | 0 <= i < 8 :: packed[i] == PackLane(r[i], g[i], b[i])
  {
    packed := Lanewise(OrLane, Lanewise(OrLane, r, EachLane(ShiftLeft8Lane, g)),
                       Lanewise(OrLane, EachLane(ShiftLeft16Lane, b), Set1(-16777216)));
  }

  method RedLanes(luma: Lanes, e: Lanes) returns (r: Lanes)
    ensures forall i | 0 <= i < 8 :: r[i] == RedOf(luma[i], e[i])
  {
    r := Clamped(Lanewise(AddLane, luma, Lanewise(MulLane, e, Set1(409))));
  }

  method GreenLanes(luma: Lanes, d: Lanes, e: Lanes) returns (g: Lanes)
    ensures forall i | 0 <= i < 8 :: g[i] == GreenOf(luma[i], d[i], e[i])
  {
    g := Clamped(Lanewise(SubLane, Lanewise(SubLane, luma, Lanewise(MulLane, d, Set1(100))), Lanewise(MulLane, e, Set1(208))));
  }

  method BlueLanes(luma: Lanes, d: Lanes) returns (b: Lanes)
    ensures forall i | 0 <= i < 8 :: b[i] == BlueOf(luma[i], d[i])
  {
    b := Clamped(Lanewise(AddLane, luma, Lanewise(MulLane, d, Set1(516))));
  }

  /** Both chroma bytes of a pixel are there. */
  predicate Paired(uv: seq<byte>, x: nat) { x + 1 < |uv| || (x < |uv| && |uv| % 2 == 0) }

  /** The chroma bytes that a pixel of a row shares with its neighbour. */
  function U(uv: seq<byte>, x: nat): byte
    requires Paired(uv, x)
  {
    uv[x / 2 * 2]
  }

  function V(uv: seq<byte>, x: nat): byte
    requires Paired(uv, x)
  {
    uv[x / 2 * 2 + 1]
  }

  /** One chroma byte of each of four pairs, spread over two lanes each. */
  function Spread(uv: seq<byte>, x: nat): Lanes
    requires |uv| == 8 && x < 2
  {
    var a: i32, b: i32, c: i32, d: i32 := uv[x] as int - 128, uv[x + 2] as int - 128, uv[x + 4] as int - 128, uv[x + 6] as int - 128;
    [a, a, b, b, c, c, d, d]
  }

  lemma SpreadIsChroma(uv: seq<byte>)
    requires |uv| == 8
    ensures forall i: nat | i < 8 :: Spread(uv, 0)[i] == U(uv, i) as int - 128 && Spread(uv, 1)[i] == V(uv, i) as int - 128
  {
  }

  /** The vector expression for eight pixels: every lane holds its pixel. */
  method Convert(y: seq<byte>, uv: seq<byte>) returns (packed: Lanes)
    requires |y| == 8 && |uv| == 8
    ensures forall i: nat | i < 8 :: Unsigned(packed[i]) == FromLe(Pixel(y[i], U(uv, i), V(uv, i)))
  {
    var d, e := Spread(uv, 0), Spread(uv, 1);
    SpreadIsChroma(uv);
    var luma := Widened(y);
    var r := RedLanes(luma, e);
    var g := GreenLanes(luma, d, e);
    var b := BlueLanes(luma, d);
    packed := Packed(r, g, b);
    LanesArePacked(y, luma, d, e, r, g, b, packed);
    ghost var u: seq<byte>, v: seq<byte> := seq(8, i requires 0 <= i < 8 => U(uv, i)), seq(8, i requires 0 <= i < 8 => V(uv, i));
    LanesArePixels(y, u, v, packed);
  }

  lemma LanesArePacked(y: seq<byte>, luma: Lanes, d: Lanes, e: Lanes, r: Lanes, g: Lanes, b: Lanes, packed: Lanes)
    requires |y| == 8
    requires forall i | 0 <= i < 8 :: luma[i] == LumaLane(y[i])
    requires forall i | 0 <= i < 8 :: r[i] == RedOf(luma[i], e[i])
    requires forall i | 0 <= i < 8 :: g[i] == GreenOf(luma[i], d[i], e[i])
    requires forall i | 0 <= i < 8 :: b[i] == BlueOf(luma[i], d[i])
    requires forall i | 0 <= i < 8 :: packed[i] == PackLane(r[i], g[i], b[i])
    ensures forall i | 0 <= i < 8 :: packed[i] == Lane(y[i], d[i], e[i])
  {
  }

  /** What holds of one lane holds of every lane. */
  lemma LanesHold(lane: (byte, i32, i32) -> i32, pixel: (byte, byte, byte) -> nat, y: seq<byte>, u: seq<byte>, v: seq<byte>, packed: Lanes)
    requires |y| == |u| == |v| == 8
    requires forall a: byte, b: byte, c: byte {:trigger pixel(a, b, c)} :: Unsigned(lane(a, b as int - 128, c as int - 128)) == pixel(a, b, c)
    requires forall i | 0 <= i < 8 :: packed[i] == lane(y[i], u[i] as int - 128, v[i] as int - 128)
    ensures forall i | 0 <= i < 8 :: Unsigned(packed[i]) == pixel(y[i], u[i], v[i])
  {
  }

  function Word(y: byte, u: byte, v: byte): nat { FromLe(Pixel(y, u, v)) }

  lemma LanesArePixels(y: seq<byte>, u: seq<byte>, v: seq<byte>, packed: Lanes)
    requires |y| == |u| == |v| == 8
    requires forall i | 0 <= i < 8 :: packed[i] == Lane(y[i], u[i] as int - 128, v[i] as int - 128)
    ensures forall i | 0 <= i < 8 :: Unsigned(packed[i]) == FromLe(Pixel(y[i], u[i], v[i]))
  {
    forall a: byte, b: byte, c: byte ensures Unsigned(Lane(a, b as int - 128, c as int - 128)) == Word(a, b, c) { LaneIsPixel(a, b, c); }
    LanesHold(Lane, Word, y, u, v, packed);
  }

  /** What a row's pixel converts to. */
  function RowPixel(y: seq<byte>, uv: seq<byte>, x: nat): seq<byte>
    requires x < |y| && Paired(uv, x)
  {
    Pixel(y[x], U(uv, x), V(uv, x))
  }

  /** The first pixels of a row are done in a buffer. */
  ghost predicate PixelsDone(y: seq<byte>, uv: seq<byte>, rgba: seq<byte>, base: nat, n: nat)
    requires n <= |y| && base + 4 * n <= |rgba|
  {
    forall x: nat | x < n :: PixelDone(y, uv, rgba, base, x)
  }

  ghost predicate PixelDone(y: seq<byte>, uv: seq<byte>, rgba: seq<byte>, base: nat, x: nat)
    requires x < |y| && base + 4 * x + 4 <= |rgba|
  {
    Paired(uv, x) && PixelAt(rgba, base, x) == RowPixel(y, uv, x)
  }

  function PixelAt(rgba: seq<byte>, base: nat, x: nat): seq<byte>
    requires base + 4 * x + 4 <= |rgba|
  {
    rgba[base + 4 * x..base + 4 * x + 4]
  }

  /**
   Converts as many whole groups of eight pixels as the row has, into a part of the output. Every pixel gets exactly its
   scalar value, and nothing else is touched.
   */
  method Row(y: seq<byte>, uv: seq<byte>, rgba: array<byte>, base: nat) returns (pixels: nat)
    requires |y| / 8 * 8 <= |uv| && base + |y| / 8 * 8 * 4 <= rgba.Length
    modifies rgba
    ensures pixels == |y| / 8 * 8 && PixelsDone(y, uv, rgba[..], base, pixels)
    ensures forall k | 0 <= k < rgba.Length && !(base <= k < base + 4 * pixels) :: rgba[k] == old(rgba[k])
  {
    pixels := |y| / 8 * 8;
    var x := 0;
    while x < pixels
      invariant 0 <= x <= pixels && x % 8 == 0
      invariant PixelsDone(y, uv, rgba[..], base, x)
      invariant forall k | 0 <= k < rgba.Length && !(base <= k < base + 4 * x) :: rgba[k] == old(rgba[k])
    {
      var packed := Convert(y[x..x + 8], uv[x..x + 8]);
      ghost var before := rgba[..];
      StoreLanes(rgba, base + 4 * x, packed);
      GroupDone(y, uv, before, rgba[..], base, x, packed);
      x := x + 8;
    }
  }

  lemma GroupDone(y: seq<byte>, uv: seq<byte>, before: seq<byte>, after: seq<byte>, base: nat, x: nat, packed: Lanes)
    requires x + 8 <= |y| && x + 8 <= |uv| && x % 8 == 0 && |before| == |after| && base + 4 * x + 32 <= |after|
    requires forall i: nat | i < 8 :: Unsigned(packed[i]) == FromLe(Pixel(y[x..x + 8][i], U(uv[x..x + 8], i), V(uv[x..x + 8], i)))
    requires forall i: nat | i < 8 :: FromLe(PixelAt(after, base + 4 * x, i)) == Unsigned(packed[i])
    requires forall k | 0 <= k < |after| && !(base + 4 * x <= k < base + 4 * x + 32) :: after[k] == before[k]
    requires PixelsDone(y, uv, before, base, x)
    ensures PixelsDone(y, uv, after, base, x + 8)
  {
    forall j: nat | j < x + 8 ensures PixelDone(y, uv, after, base, j) {
      if j < x {
        assert PixelDone(y, uv, before, base, j);
        PixelKept(before, after, base, x, j);
      } else {
        GroupPixel(y, uv, after, base, x, j - x, Unsigned(packed[j - x]));
      }
    }
  }

  lemma PixelKept(before: seq<byte>, after: seq<byte>, base: nat, x: nat, j: nat)
    requires |before| == |after| && j < x && base + 4 * x + 32 <= |after|
    requires forall k | 0 <= k < |after| && !(base + 4 * x <= k < base + 4 * x + 32) :: after[k] == before[k]
    ensures PixelAt(after, base, j) == PixelAt(before, base, j)
  {
  }

  lemma GroupPixel(y: seq<byte>, uv: seq<byte>, rgba: seq<byte>, base: nat, x: nat, i: nat, stored: nat)
    requires x + 8 <= |y| && x + 8 <= |uv| && x % 8 == 0 && base + 4 * x + 32 <= |rgba| && i < 8
    requires stored == FromLe(Pixel(y[x..x + 8][i], U(uv[x..x + 8], i), V(uv[x..x + 8], i))) && FromLe(PixelAt(rgba, base + 4 * x, i)) == stored
    ensures PixelDone(y, uv, rgba, base, x + i)
  {
    LeIsUnique(PixelAt(rgba, base + 4 * x, i), Pixel(y[x..x + 8][i], U(uv[x..x + 8], i), V(uv[x..x + 8], i)));
    SlicedPixel(y, uv, x, i);
  }

  lemma SlicedPixel(y: seq<byte>, uv: seq<byte>, x: nat, i: nat)
    requires x + 8 <= |y| && x + 8 <= |uv| && x % 8 == 0 && i < 8
    ensures Paired(uv, x + i)
    ensures Pixel(y[x..x + 8][i], U(uv[x..x + 8], i), V(uv[x..x + 8], i)) == RowPixel(y, uv, x + i)
  {
    PairOf(x, i);
    var k := i / 2 * 2;
    assert y[x..x + 8][i] == y[x + i] && uv[x..x + 8][k] == uv[x + k] && uv[x..x + 8][k + 1] == uv[x + k + 1];
  }

  lemma PairOf(x: nat, i: nat)
    requires x % 8 == 0
    ensures (x + i) / 2 * 2 == x + i / 2 * 2
  {
  }
}
