/** Turning and scaling a frame by nearest samples. */
module Rotation {
  import opened Wrappers
  import opened Pixels

  datatype Turn = None0 | Quarter | Half | ThreeQuarters

  function Degrees(clockwise: nat): Option<Turn> {
    if clockwise == 0 then Some(None0) else if clockwise == 90 then Some(Quarter)
    else if clockwise == 180 then Some(Half) else if clockwise == 270 then Some(ThreeQuarters) else None
  }

  /** The size of a turned frame. */
  function TurnedWidth(t: Turn, width: nat, height: nat): nat { if t.Quarter? || t.ThreeQuarters? then height else width }
  function TurnedHeight(t: Turn, width: nat, height: nat): nat { if t.Quarter? || t.ThreeQuarters? then width else height }

  /** The sample at a place of a length, for a place in another length. */
  function Sample(place: nat, from: nat, to: nat): nat
    requires to > 0
  {
    place * from / to
  }

  lemma QuotientIsBelow(n: nat, from: nat, to: nat)
    requires to > 0 && n < from * to
    ensures n / to < from
  {
    var row, column := IndexJoins(to, from, n);
    IndexIsUnique(to, row, column, n / to, n % to);
  }

  lemma SampleInBounds(place: nat, from: nat, to: nat)
    requires place < to && from > 0
    ensures Sample(place, from, to) < from
  {
    ProductGrows(place + 1, to, from);
    assert (place + 1) * from == place * from + from && to * from == from * to;
    QuotientIsBelow(place * from, from, to);
  }

  lemma NativeSample(place: nat, from: nat)
    requires place < from
    ensures Sample(place, from, from) == place
  {
    IndexIsUnique(from, place, 0, place * from / from, place * from % from);
  }

  /** Where an oriented pixel comes from. */
  function Unturned(t: Turn, width: nat, height: nat, ox: nat, oy: nat): (int, int) {
    match t
    case None0 => (ox, oy)
    case Quarter => (oy, height - 1 - ox)
    case Half => (width - 1 - ox, height - 1 - oy)
    case ThreeQuarters => (width - 1 - oy, ox)
  }

  lemma UnturnedInBounds(t: Turn, width: nat, height: nat, ox: nat, oy: nat)
    requires ox < TurnedWidth(t, width, height) && oy < TurnedHeight(t, width, height)
    ensures var (sx, sy) := Unturned(t, width, height, ox, oy); 0 <= sx < width && 0 <= sy < height
  {
  }

  /** Where a pixel of the output comes from. */
  function Source(f: Bgra, t: Turn, width: nat, height: nat, x: nat, y: nat): (s: (nat, nat))
    requires WholeFrame(f) && x < width && y < height
    ensures s.0 < f.width && s.1 < f.height
  {
    var ow, oh := TurnedWidth(t, f.width, f.height), TurnedHeight(t, f.width, f.height);
    SampleInBounds(x, ow, width);
    SampleInBounds(y, oh, height);
    UnturnedInBounds(t, f.width, f.height, Sample(x, ow, width), Sample(y, oh, height));
    Unturned(t, f.width, f.height, Sample(x, ow, width), Sample(y, oh, height))
  }

  /** Every pixel of the output is its source pixel. */
  ghost predicate IsTurned(f: Bgra, t: Turn, out: Bgra)
    requires WholeFrame(f) && WholeFrame(out)
  {
    forall x: nat, y: nat | x < out.width && y < out.height :: PixelIs(f, t, out, x, y)
  }

  ghost predicate PixelIs(f: Bgra, t: Turn, out: Bgra, x: nat, y: nat)
    requires WholeFrame(f) && WholeFrame(out) && x < out.width && y < out.height
  {
    var (sx, sy) := Source(f, t, out.width, out.height, x, y);
    forall channel: nat | channel < 4 :: Channel(out, x, y, channel) == Channel(f, sx, sy, channel)
  }

  lemma NativeIsItself(f: Bgra)
    requires WholeFrame(f)
    ensures IsTurned(f, None0, f)
  {
    forall x: nat, y: nat | x < f.width && y < f.height ensures PixelIs(f, None0, f, x, y) {
      NativeSample(x, f.width);
      NativeSample(y, f.height);
    }
  }

  /** The four bytes of a pixel. */
  function PixelBytes(f: Bgra, x: nat, y: nat): (s: seq<byte>)
    requires WholeFrame(f) && x < f.width && y < f.height
    ensures |s| == 4
  {
    IndexFits(f.width, f.height, y, x);
    f.bytes[(y * f.width + x) * 4..(y * f.width + x) * 4 + 4]
  }

  /** What a row of the output is to become, as pixels. */
  ghost predicate RowDone(f: Bgra, t: Turn, width: nat, height: nat, y: nat, out: seq<byte>, base: nat, n: nat)
    requires WholeFrame(f) && y < height && n <= width && base + n * 4 <= |out|
  {
    forall x: nat | x < n :: TakesPixel(f, t, width, height, x, y, out[base + x * 4..base + x * 4 + 4])
  }

  ghost predicate TakesPixel(f: Bgra, t: Turn, width: nat, height: nat, x: nat, y: nat, pixel: seq<byte>)
    requires WholeFrame(f) && x < width && y < height
  {
    pixel == PixelBytes(f, Source(f, t, width, height, x, y).0, Source(f, t, width, height, x, y).1)
  }

  method TurnRow(f: Bgra, t: Turn, width: nat, height: nat, y: nat, out: array<byte>, base: nat)
    requires WholeFrame(f) && y < height && base + width * 4 <= out.Length
    modifies out
    ensures RowDone(f, t, width, height, y, out[..], base, width)
    ensures forall k | 0 <= k < out.Length && !(base <= k < base + width * 4) :: out[k] == old(out[k])
  {
    for x := 0 to width
      invariant RowDone(f, t, width, height, y, out[..], base, x)
      invariant forall k | 0 <= k < out.Length && !(base <= k < base + x * 4) :: out[k] == old(out[k])
    {
      var (sx, sy) := Source(f, t, width, height, x, y);
      var pixel := PixelBytes(f, sx, sy);
      var p := base + x * 4;
      ghost var before := out[..];
      out[p], out[p + 1], out[p + 2], out[p + 3] := pixel[0], pixel[1], pixel[2], pixel[3];
      assert out[..][p..p + 4] == pixel;
      EarlierPixelsStay(f, t, width, height, y, before, out[..], base, x);
    }
  }

  lemma EarlierPixelsStay(f: Bgra, t: Turn, width: nat, height: nat, y: nat, before: seq<byte>, after: seq<byte>, base: nat, n: nat)
    requires WholeFrame(f) && y < height && n < width && base + width * 4 <= |before| == |after|
    requires RowDone(f, t, width, height, y, before, base, n)
    requires TakesPixel(f, t, width, height, n, y, after[base + n * 4..base + n * 4 + 4])
    requires forall k | 0 <= k < |after| && !(base + n * 4 <= k < base + n * 4 + 4) :: after[k] == before[k]
    ensures RowDone(f, t, width, height, y, after, base, n + 1)
  {
    forall x: nat | x < n + 1 ensures TakesPixel(f, t, width, height, x, y, after[base + x * 4..base + x * 4 + 4]) {
      if x < n { assert after[base + x * 4..base + x * 4 + 4] == before[base + x * 4..base + x * 4 + 4]; }
    }
  }

  ghost predicate RowsDone(f: Bgra, t: Turn, width: nat, height: nat, out: seq<byte>, n: nat)
    requires WholeFrame(f) && n <= height
  {
    forall y: nat | y < n :: RowAt(f, t, width, height, out, y)
  }

  ghost predicate RowAt(f: Bgra, t: Turn, width: nat, height: nat, out: seq<byte>, y: nat)
    requires WholeFrame(f) && y < height
  {
    var base := y * width * 4;
    0 <= base && base + width * 4 <= |out| && RowDone(f, t, width, height, y, out, base, width)
  }

  lemma RowStays(f: Bgra, t: Turn, width: nat, height: nat, r: nat, before: seq<byte>, after: seq<byte>, start: nat)
    requires WholeFrame(f) && r < height && start + width * 4 <= |before| == |after|
    requires RowDone(f, t, width, height, r, before, start, width)
    requires forall k | start <= k < start + width * 4 :: after[k] == before[k]
    ensures RowDone(f, t, width, height, r, after, start, width)
  {
    forall x: nat | x < width ensures TakesPixel(f, t, width, height, x, r, after[start + x * 4..start + x * 4 + 4]) {
      assert after[start + x * 4..start + x * 4 + 4] == before[start + x * 4..start + x * 4 + 4];
    }
  }

  lemma EarlierRowsStay(f: Bgra, t: Turn, width: nat, height: nat, before: seq<byte>, after: seq<byte>, y: nat, base: nat)
    requires WholeFrame(f) && y < height && base == y * width * 4 && |before| == |after|
    requires RowsDone(f, t, width, height, before, y)
    requires forall k | 0 <= k < |after| && !(base <= k < base + width * 4) :: after[k] == before[k]
    ensures RowsDone(f, t, width, height, after, y)
  {
    forall r: nat | r < y ensures RowAt(f, t, width, height, after, r) {
      assert RowAt(f, t, width, height, before, r);
      ProductGrows(r + 1, y, width);
      var start := r * width * 4;
      assert start + width * 4 <= base;
      RowStays(f, t, width, height, r, before, after, start);
    }
  }

  method RotateScale(f: Bgra, clockwise: nat, width: nat, height: nat) returns (r: Result<Bgra, MediaError>)
    ensures r.Ok? <==> WholeFrame(f) && Degrees(clockwise).Some? && PixelCount(width, height).Ok?
    ensures r.Ok? ==> WholeFrame(r.value) && r.value.width == width && r.value.height == height
                      && IsTurned(f, Degrees(clockwise).value, r.value)
    ensures r.Err? ==>
              r.error == if PixelCount(f.width, f.height).Ok? && (!WholeFrame(f) || Degrees(clockwise).None?) then BadFrame else Dimensions
  {
    var count := PixelCount(f.width, f.height);
    if count.Err? { return Err(count.error); }
    if |f.bytes| != count.value * 4 || Degrees(clockwise).None? { return Err(BadFrame); }
    count := PixelCount(width, height);
    if count.Err? { return Err(count.error); }
    var t := Degrees(clockwise).value;
    if clockwise == 0 && width == f.width && height == f.height {
      NativeIsItself(f);
      return Ok(f);
    }
    var out := new byte[count.value * 4](_ => 0);
    for y := 0 to height
      invariant RowsDone(f, t, width, height, out[..], y)
    {
      IndexFits(width, height, y, 0);
      ghost var before := out[..];
      TurnRow(f, t, width, height, y, out, y * width * 4);
      EarlierRowsStay(f, t, width, height, before, out[..], y, y * width * 4);
      assert RowAt(f, t, width, height, out[..], y);
    }
    var turned := Bgra(width, height, out[..]);
    AllTurned(f, t, turned);
    return Ok(turned);
  }

  lemma AllTurned(f: Bgra, t: Turn, out: Bgra)
    requires WholeFrame(f) && WholeFrame(out) && RowsDone(f, t, out.width, out.height, out.bytes, out.height)
    ensures IsTurned(f, t, out)
  {
    forall x: nat, y: nat | x < out.width && y < out.height ensures PixelIs(f, t, out, x, y) {
      assert RowAt(f, t, out.width, out.height, out.bytes, y);
      var base := y * out.width * 4;
      var (sx, sy) := Source(f, t, out.width, out.height, x, y);
      assert TakesPixel(f, t, out.width, out.height, x, y, out.bytes[base + x * 4..base + x * 4 + 4]);
      SamePixels(out, x, y, f, sx, sy);
    }
  }

  lemma SamePixels(a: Bgra, x: nat, y: nat, b: Bgra, sx: nat, sy: nat)
    requires WholeFrame(a) && WholeFrame(b) && x < a.width && y < a.height && sx < b.width && sy < b.height
    requires y * a.width * 4 + x * 4 + 4 <= |a.bytes| && 0 <= y * a.width * 4
    requires a.bytes[y * a.width * 4 + x * 4..y * a.width * 4 + x * 4 + 4] == PixelBytes(b, sx, sy)
    ensures forall channel: nat | channel < 4 :: Channel(a, x, y, channel) == Channel(b, sx, sy, channel)
  {
    IndexFits(a.width, a.height, y, x);
    IndexFits(b.width, b.height, sy, sx);
    var p, q := y * a.width * 4 + x * 4, (sy * b.width + sx) * 4;
    forall channel: nat | channel < 4 ensures Channel(a, x, y, channel) == Channel(b, sx, sy, channel) {
      assert a.bytes[p..p + 4][channel] == b.bytes[q..q + 4][channel];
      assert (y * a.width + x) * 4 + channel == p + channel;
    }
  }

  /** One turn after another. */
  function Both(a: Turn, b: Turn): Turn {
    if a.None0? then b else if b.None0? then a
    else if a.Quarter? then if b.Quarter? then Half else if b.Half? then ThreeQuarters else None0
    else if a.Half? then if b.Quarter? then ThreeQuarters else if b.Half? then None0 else Quarter
    else if b.Quarter? then None0 else if b.Half? then Quarter else Half
  }

  /** Adding the angles modulo 360 is what Both does. */
  lemma AnglesAdd(a: nat, b: nat)
    requires Degrees(a).Some? && Degrees(b).Some?
    ensures Degrees((a + b) % 360) == Some(Both(Degrees(a).value, Degrees(b).value))
  {
  }

  predicate Native(f: Bgra, t: Turn, out: Bgra) {
    out.width == TurnedWidth(t, f.width, f.height) && out.height == TurnedHeight(t, f.width, f.height)
  }

  lemma NativeSource(f: Bgra, t: Turn, out: Bgra, x: nat, y: nat)
    requires WholeFrame(f) && WholeFrame(out) && Native(f, t, out) && x < out.width && y < out.height
    ensures Source(f, t, out.width, out.height, x, y) == Unturned(t, f.width, f.height, x, y)
  {
    NativeSample(x, out.width);
    NativeSample(y, out.height);
  }

  /** At native size, turning by one angle and then by another is turning once by their sum modulo 360. */
  lemma TurnsCompose(f: Bgra, a: nat, g: Bgra, b: nat, h: Bgra)
    requires WholeFrame(f) && WholeFrame(g) && WholeFrame(h) && Degrees(a).Some? && Degrees(b).Some?
    requires Native(f, Degrees(a).value, g) && Native(g, Degrees(b).value, h)
    requires IsTurned(f, Degrees(a).value, g) && IsTurned(g, Degrees(b).value, h)
    ensures var sum := Degrees((a + b) % 360); sum.Some? && Native(f, sum.value, h) && IsTurned(f, sum.value, h)
  {
    AnglesAdd(a, b);
    TurnedTwice(f, Degrees(a).value, g, Degrees(b).value, h);
  }

  lemma TurnedTwice(f: Bgra, a: Turn, g: Bgra, b: Turn, h: Bgra)
    requires WholeFrame(f) && WholeFrame(g) && WholeFrame(h) && Native(f, a, g) && Native(g, b, h)
    requires IsTurned(f, a, g) && IsTurned(g, b, h)
    ensures Native(f, Both(a, b), h) && IsTurned(f, Both(a, b), h)
  {
    forall x: nat, y: nat | x < h.width && y < h.height ensures PixelIs(f, Both(a, b), h, x, y) {
      assert PixelIs(g, b, h, x, y);
      var gx, gy := SourceTwice(f, a, g, b, h, x, y);
      assert PixelIs(f, a, g, gx, gy);
    }
  }

  /** The source of a source is the source under both turns. */
  lemma SourceTwice(f: Bgra, a: Turn, g: Bgra, b: Turn, h: Bgra, x: nat, y: nat) returns (gx: nat, gy: nat)
    requires WholeFrame(f) && WholeFrame(g) && WholeFrame(h) && Native(f, a, g) && Native(g, b, h) && x < h.width && y < h.height
    ensures (gx, gy) == Source(g, b, h.width, h.height, x, y) && gx < g.width && gy < g.height
    ensures Source(f, a, g.width, g.height, gx, gy) == Source(f, Both(a, b), h.width, h.height, x, y)
  {
    NativeSource(g, b, h, x, y);
    var s := Source(g, b, h.width, h.height, x, y);
    gx, gy := s.0, s.1;
    NativeSource(f, a, g, gx, gy);
    NativeSource(f, Both(a, b), h, x, y);
  }

  /** A pixel of one frame is a pixel of another. */
  ghost predicate Same(a: Bgra, x: nat, y: nat, b: Bgra, px: nat, py: nat)
    requires WholeFrame(a) && WholeFrame(b)
  {
    x < a.width && y < a.height && px < b.width && py < b.height
    && forall channel: nat | channel < 4 :: Channel(a, x, y, channel) == Channel(b, px, py, channel)
  }

  lemma SizesArePositive(f: Bgra)
    requires WholeFrame(f)
    ensures f.width > 0 && f.height > 0
  {
  }

  /** A sample is the source pixel that the place falls on when both lengths are stretched to the same. */
  lemma SampleIsItsPlace(place: nat, from: nat, to: nat)
    requires to > 0
    ensures Sample(place, from, to) * to <= place * from < (Sample(place, from, to) + 1) * to
  {
    assert place * from == place * from / to * to + place * from % to;
  }

  /**
   Angles are clockwise. At native size the top row, read from the left, becomes the right column read downward after a
   quarter turn, the bottom row read backward after a half turn, and the left column read upward after three quarters.
   */
  lemma TurnsGoClockwise(f: Bgra, clockwise: nat, out: Bgra, i: nat)
    requires WholeFrame(f) && WholeFrame(out) && Degrees(clockwise).Some?
    requires Native(f, Degrees(clockwise).value, out) && IsTurned(f, Degrees(clockwise).value, out) && i < f.width
    ensures clockwise == 0 ==> Same(out, i, 0, f, i, 0)
    ensures clockwise == 90 ==> Same(out, out.width - 1, i, f, i, 0)
    ensures clockwise == 180 ==> Same(out, out.width - 1 - i, out.height - 1, f, i, 0)
    ensures clockwise == 270 ==> Same(out, 0, out.height - 1 - i, f, i, 0)
  {
    var t := Degrees(clockwise).value;
    SizesArePositive(f);
    SizesArePositive(out);
    var at: (nat, nat) := match t {
      case None0 => (i, 0)
      case Quarter => (out.width - 1, i)
      case Half => (out.width - 1 - i, out.height - 1)
      case ThreeQuarters => (0, out.height - 1 - i)
    };
    NativeSource(f, t, out, at.0, at.1);
    assert PixelIs(f, t, out, at.0, at.1);
  }
}
