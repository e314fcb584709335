/** The conversion loops, filling their output in place, with and without the eight-lane row. */
module Conversion {
  import opened Wrappers
  import opened Pixels
  import opened Avx2

  function LumaByte(f: Bgra, k: nat): byte
    requires Convertible(f) && k < f.width * f.height
  {
    Luma(f.bytes[k * 4 + 2], f.bytes[k * 4 + 1], f.bytes[k * 4])
  }

  /** Luma is done up to an index. */
  ghost predicate LumaDone(f: Bgra, out: seq<byte>, n: nat)
    requires Convertible(f) && n <= f.width * f.height && n <= |out|
  {
    forall k: nat | k < n :: out[k] == LumaByte(f, k)
  }

  /** A row of chroma is done up to a column. */
  ghost predicate ChromaDone(f: Bgra, out: seq<byte>, start: nat, row: nat, n: nat)
    requires Convertible(f) && row < f.height / 2 && n <= f.width && start + n <= |out|
  {
    forall x: nat | x < n :: out[start + x] == ChromaAt(f, x, row)
  }

  method FillLuma(f: Bgra, out: array<byte>)
    requires Convertible(f) && f.width * f.height <= out.Length
    modifies out
    ensures LumaDone(f, out[..], f.width * f.height)
  {
    for i := 0 to f.width * f.height
      invariant LumaDone(f, out[..], i)
    {
      var b, g, r := f.bytes[i * 4], f.bytes[i * 4 + 1], f.bytes[i * 4 + 2];
      out[i] := Luma(r, g, b);
    }
  }

  lemma BlockOf(f: Bgra, x: nat, y: nat)
    requires Convertible(f) && x % 2 == 0 && y % 2 == 0 && x < f.width && y < f.height
    ensures x + 1 < f.width && y + 1 < f.height && y / 2 < f.height / 2
    ensures ChromaAt(f, x, y / 2) == ChromaU(Average(f, x, y, 2), Average(f, x, y, 1), Average(f, x, y, 0))
    ensures ChromaAt(f, x + 1, y / 2) == ChromaV(Average(f, x, y, 2), Average(f, x, y, 1), Average(f, x, y, 0))
  {
    assert x / 2 * 2 == x && (x + 1) / 2 * 2 == x && y / 2 * 2 == y;
  }

  predicate ChromaIs(f: Bgra, x: nat, row: nat, value: byte)
    requires Convertible(f) && x < f.width && row < f.height / 2
  {
    value == ChromaAt(f, x, row)
  }

  /** What one row of chroma is to become. */
  ghost predicate IsRow(f: Bgra, row: nat, want: seq<byte>)
    requires Convertible(f) && row < f.height / 2
  {
    |want| == f.width && forall x: nat {:trigger ChromaIs(f, x, row, want[x])} | x < f.width :: ChromaIs(f, x, row, want[x])
  }

  lemma RowToCome(f: Bgra, row: nat) returns (want: seq<byte>)
    requires Convertible(f) && row < f.height / 2
    ensures IsRow(f, row, want)
  {
    want := seq(f.width, x requires 0 <= x < f.width => ChromaAt(f, x, row));
  }

  lemma RowHasCome(f: Bgra, row: nat, want: seq<byte>, out: seq<byte>, start: nat)
    requires Convertible(f) && row < f.height / 2 && IsRow(f, row, want) && start + f.width <= |out|
    requires out[start..start + f.width] == want
    ensures ChromaDone(f, out, start, row, f.width)
  {
    forall x: nat | x < f.width ensures out[start + x] == ChromaAt(f, x, row) {
      assert out[start..start + f.width][x] == want[x] && ChromaIs(f, x, row, want[x]);
    }
  }

  /** The two chroma bytes of a block, which go side by side. */
  method BlockChroma(f: Bgra, x: nat, y: nat, row: nat, ghost want: seq<byte>) returns (u: byte, v: byte)
    requires Convertible(f) && x % 2 == 0 && y % 2 == 0 && x < f.width && y < f.height && row == y / 2 < f.height / 2
    requires IsRow(f, row, want)
    ensures x + 1 < f.width && u == want[x] && v == want[x + 1]
  {
    BlockOf(f, x, y);
    assert ChromaIs(f, x, row, want[x]) && ChromaIs(f, x + 1, row, want[x + 1]);
    var r, g, b := Block(f, x, y);
    return ChromaU(r, g, b), ChromaV(r, g, b);
  }

  /** One row of blocks makes one row of chroma. */
  method FillChromaRow(f: Bgra, out: array<byte>, y: nat, row: nat, start: nat)
    requires Convertible(f) && y % 2 == 0 && y < f.height && row == y / 2 < f.height / 2 && start + f.width <= out.Length
    modifies out
    ensures ChromaDone(f, out[..], start, row, f.width)
    ensures forall k | 0 <= k < out.Length && !(start <= k < start + f.width) :: out[k] == old(out[k])
  {
    ghost var want := RowToCome(f, row);
    var x := 0;
    while x < f.width
      invariant x % 2 == 0 && 0 <= x <= f.width
      invariant forall k | 0 <= k < x :: out[start + k] == want[k]
      invariant forall k | 0 <= k < out.Length && !(start <= k < start + x) :: out[k] == old(out[k])
    {
      var u, v := BlockChroma(f, x, y, row, want);
      out[start + x] := u;
      out[start + x + 1] := v;
      x := x + 2;
    }
    RowHasCome(f, row, want, out[..], start);
  }

  /** Rows of chroma are done one behind the other. */
  ghost predicate RowsDone(f: Bgra, out: seq<byte>, base: nat, n: nat)
    requires Convertible(f) && n <= f.height / 2
  {
    forall row: nat | row < n :: RowAt(f, out, base, row)
  }

  ghost predicate RowAt(f: Bgra, out: seq<byte>, base: nat, row: nat)
    requires Convertible(f) && row < f.height / 2
  {
    var start := base + row * f.width;
    0 <= start && start + f.width <= |out| && ChromaDone(f, out, start, row, f.width)
  }

  lemma EarlierRowsStay(f: Bgra, before: seq<byte>, after: seq<byte>, base: nat, row: nat, start: nat)
    requires Convertible(f) && row < f.height / 2 && start == base + row * f.width && |before| == |after|
    requires RowsDone(f, before, base, row)
    requires forall k | 0 <= k < |after| && !(start <= k < start + f.width) :: after[k] == before[k]
    ensures RowsDone(f, after, base, row)
  {
    forall r: nat | r < row ensures RowAt(f, after, base, r) {
      assert RowAt(f, before, base, r);
      ProductGrows(r + 1, row, f.width);
      assert base + r * f.width + f.width <= start;
    }
  }

  method FillChroma(f: Bgra, out: array<byte>, base: nat)
    requires Convertible(f) && out.Length == base + f.width * (f.height / 2)
    modifies out
    ensures RowsDone(f, out[..], base, f.height / 2)
    ensures forall k | 0 <= k < base :: out[k] == old(out[k])
  {
    var y := 0;
    while y < f.height
      invariant y % 2 == 0 && 0 <= y <= f.height
      invariant RowsDone(f, out[..], base, y / 2)
      invariant forall k | 0 <= k < base :: out[k] == old(out[k])
    {
      var row := y / 2;
      IndexFits(f.width, f.height / 2, row, 0);
      ghost var before := out[..];
      FillChromaRow(f, out, y, row, base + row * f.width);
      EarlierRowsStay(f, before, out[..], base, row, base + row * f.width);
      assert RowAt(f, out[..], base, row);
      y := y + 2;
      assert y / 2 == row + 1;
    }
    assert y / 2 == f.height / 2;
  }

  /** Converts a whole frame of even size, and refuses anything else. */
  method BgraToNv12(f: Bgra) returns (r: Result<seq<byte>, MediaError>)
    ensures r.Ok? <==> Convertible(f)
    ensures r.Ok? ==> IsNv12(f, r.value)
    ensures r.Err? ==> r.error == if PixelCount(f.width, f.height).Err? then Dimensions else BadFrame
  {
    var count := PixelCount(f.width, f.height);
    if count.Err? { return Err(count.error); }
    if f.width % 2 != 0 || f.height % 2 != 0 || |f.bytes| != count.value * 4 { return Err(BadFrame); }
    HalfPlane(f.width, f.height);
    var out := new byte[count.value * 3 / 2](_ => 0);
    FillLuma(f, out);
    FillChroma(f, out, count.value);
    Finished(f, out[..], count.value);
    return Ok(out[..]);
  }

  lemma Finished(f: Bgra, out: seq<byte>, count: nat)
    requires Convertible(f) && count == f.width * f.height && |out| == count + f.width * (f.height / 2)
    requires LumaDone(f, out, count) && RowsDone(f, out, count, f.height / 2)
    ensures IsNv12(f, out)
  {
    forall x: nat, y: nat | x < f.width && y < f.height ensures LumaIn(f, out, x, y) {
      IndexFits(f.width, f.height, y, x);
      assert out[y * f.width + x] == LumaByte(f, y * f.width + x);
    }
    forall x: nat, row: nat | x < f.width && row < f.height / 2 ensures ChromaIn(f, out, x, row) {
      assert RowAt(f, out, count, row);
    }
  }

  // -----------------------------------------------------------------------------------------------------------------
  // NV12 to RGBA
  // -----------------------------------------------------------------------------------------------------------------

  /** A decoder's picture: its bytes, the visible size, the pitch of a row and the height of the stored luma plane. */
  datatype Picture = Picture(bytes: seq<byte>, width: nat, height: nat, stride: nat, storage: nat)

  predicate Legible(p: Picture) {
    PixelCount(p.width, p.height).Ok? && Readable(|p.bytes|, p.width, p.height, p.stride, p.storage)
  }

  function LumaRow(p: Picture, y: nat): (row: seq<byte>)
    requires Legible(p) && y < p.height
    ensures |row| == p.width
  {
    PlanesFit(|p.bytes|, p.width, p.height, p.stride, p.storage, 0, y);
    p.bytes[y * p.stride..y * p.stride + p.width]
  }

  function ChromaRow(p: Picture, y: nat): (row: seq<byte>)
    requires Legible(p) && y < p.height
    ensures |row| == p.width
  {
    PlanesFit(|p.bytes|, p.width, p.height, p.stride, p.storage, 0, y);
    var start := p.stride * p.storage + y / 2 * p.stride;
    p.bytes[start..start + p.width]
  }

  lemma PixelIsColours(y: byte, u: byte, v: byte)
    ensures var c, d, e := LumaTerm(y), u as int - 128, v as int - 128;
            Pixel(y, u, v) == [Red(c, e), Green(c, d, e), Blue(c, d), 255]
  {
  }

  /** One pixel by the scalar expressions. */
  method ScalarPixel(y: seq<byte>, uv: seq<byte>, x: nat, rgba: array<byte>, base: nat)
    requires |uv| == |y| && |y| % 2 == 0 && x < |y| && base + 4 * |y| <= rgba.Length
    modifies rgba
    ensures PixelAt(rgba[..], base, x) == RowPixel(y, uv, x)
    ensures forall k | 0 <= k < rgba.Length && !(base + 4 * x <= k < base + 4 * x + 4) :: rgba[k] == old(rgba[k])
  {
    var c, d, e := LumaTerm(y[x]), U(uv, x) as int - 128, V(uv, x) as int - 128;
    var p := base + 4 * x;
    rgba[p], rgba[p + 1], rgba[p + 2], rgba[p + 3] := Red(c, e), Green(c, d, e), Blue(c, d), 255;
    PixelIsColours(y[x], U(uv, x), V(uv, x));
  }

  /** One row, the first whole groups of eight by the vector row if there is one, the rest pixel by pixel. */
  method DecodeRow(y: seq<byte>, uv: seq<byte>, rgba: array<byte>, base: nat, avx2: bool)
    requires |uv| == |y| && |y| % 2 == 0 && base + 4 * |y| <= rgba.Length
    modifies rgba
    ensures PixelsDone(y, uv, rgba[..], base, |y|)
    ensures forall k | 0 <= k < rgba.Length && !(base <= k < base + 4 * |y|) :: rgba[k] == old(rgba[k])
  {
    var start := 0;
    if avx2 { start := Row(y, uv, rgba, base); }
    for x := start to |y|
      invariant PixelsDone(y, uv, rgba[..], base, x)
      invariant forall k | 0 <= k < rgba.Length && !(base <= k < base + 4 * x) :: rgba[k] == old(rgba[k])
    {
      ghost var before := rgba[..];
      ScalarPixel(y, uv, x, rgba, base);
      OnePixelMore(y, uv, before, rgba[..], base, x);
    }
  }

  lemma OnePixelMore(y: seq<byte>, uv: seq<byte>, before: seq<byte>, after: seq<byte>, base: nat, x: nat)
    requires |uv| == |y| && |y| % 2 == 0 && x < |y| && |before| == |after| && base + 4 * |y| <= |after|
    requires PixelsDone(y, uv, before, base, x) && PixelAt(after, base, x) == RowPixel(y, uv, x)
    requires forall k | 0 <= k < |after| && !(base + 4 * x <= k < base + 4 * x + 4) :: after[k] == before[k]
    ensures PixelsDone(y, uv, after, base, x + 1)
  {
    forall j: nat | j < x + 1 ensures PixelDone(y, uv, after, base, j) {
      if j < x {
        assert PixelDone(y, uv, before, base, j);
        assert PixelAt(after, base, j) == PixelAt(before, base, j);
      }
    }
  }

  /** Where a row of the output begins. */
  function Base(width: nat, y: nat): nat { y * width * 4 }

  lemma RowsApart(width: nat, r: nat, y: nat)
    requires r < y
    ensures Base(width, r) + 4 * width <= Base(width, y)
  {
    ProductGrows(r + 1, y, width);
    assert (r + 1) * width == r * width + width;
  }

  ghost predicate RowDecoded(p: Picture, rgba: seq<byte>, y: nat, base: nat)
    requires Legible(p) && y < p.height
  {
    base + 4 * p.width <= |rgba| && PixelsDone(LumaRow(p, y), ChromaRow(p, y), rgba, base, p.width)
  }

  ghost predicate RowsDecoded(p: Picture, rgba: seq<byte>, n: nat)
    requires Legible(p) && n <= p.height
  {
    forall y: nat | y < n :: RowDecoded(p, rgba, y, Base(p.width, y))
  }

  lemma DecodedRowsStay(p: Picture, before: seq<byte>, after: seq<byte>, y: nat, base: nat)
    requires Legible(p) && y < p.height && base == Base(p.width, y) && |before| == |after|
    requires RowsDecoded(p, before, y) && RowDecoded(p, after, y, base)
    requires forall k | 0 <= k < |after| && !(base <= k < base + 4 * p.width) :: after[k] == before[k]
    ensures RowsDecoded(p, after, y + 1)
  {
    forall r: nat | r < y + 1 ensures RowDecoded(p, after, r, Base(p.width, r)) {
      if r < y { EarlierRowStays(p, before, after, r, Base(p.width, r), y, base); }
    }
  }

  lemma EarlierRowStays(p: Picture, before: seq<byte>, after: seq<byte>, r: nat, earlier: nat, y: nat, base: nat)
    requires Legible(p) && r < y < p.height && earlier == Base(p.width, r) && base == Base(p.width, y) && |before| == |after|
    requires RowDecoded(p, before, r, earlier)
    requires forall k | 0 <= k < |after| && !(base <= k < base + 4 * p.width) :: after[k] == before[k]
    ensures RowDecoded(p, after, r, earlier)
  {
    RowsApart(p.width, r, y);
    PixelsStay(LumaRow(p, r), ChromaRow(p, r), before, after, earlier, base);
  }

  method DecodeNextRow(p: Picture, y: nat, rgba: array<byte>, avx2: bool)
    requires Legible(p) && y < p.height && rgba.Length == p.width * p.height * 4 && RowsDecoded(p, rgba[..], y)
    modifies rgba
    ensures RowsDecoded(p, rgba[..], y + 1)
  {
    IndexFits(p.width, p.height, y, 0);
    var base := Base(p.width, y);
    assert base + 4 * p.width <= rgba.Length;
    ghost var before := rgba[..];
    DecodeRow(LumaRow(p, y), ChromaRow(p, y), rgba, base, avx2);
    DecodedRowsStay(p, before, rgba[..], y, base);
  }

  lemma PixelsStay(y: seq<byte>, uv: seq<byte>, before: seq<byte>, after: seq<byte>, base: nat, limit: nat)
    requires |uv| == |y| && |y| % 2 == 0 && |before| == |after| && base + 4 * |y| <= limit && base + 4 * |y| <= |after|
    requires PixelsDone(y, uv, before, base, |y|) && (forall k | 0 <= k < limit && k < |after| :: after[k] == before[k])
    ensures PixelsDone(y, uv, after, base, |y|)
  {
    forall x: nat | x < |y| ensures PixelDone(y, uv, after, base, x) {
      assert PixelDone(y, uv, before, base, x);
      assert PixelAt(after, base, x) == PixelAt(before, base, x);
    }
  }

  /** The same picture comes out whether or not the vector row is used. */
  method Nv12ToRgbaPadded(p: Picture, avx2: bool) returns (r: Result<Decoded, MediaError>)
    ensures r.Ok? <==> Legible(p)
    ensures r.Ok? ==> r.value.width == p.width && r.value.height == p.height
                      && IsRgba(p.bytes, p.width, p.height, p.stride, p.storage, r.value.rgba)
    ensures r.Err? ==> r.error == if PixelCount(p.width, p.height).Err? then Dimensions else BadFrame
  {
    var count := PixelCount(p.width, p.height);
    if count.Err? { return Err(count.error); }
    if !Readable(|p.bytes|, p.width, p.height, p.stride, p.storage) { return Err(BadFrame); }
    var rgba := new byte[count.value * 4](_ => 0);
    for y := 0 to p.height
      invariant RowsDecoded(p, rgba[..], y)
    {
      DecodeNextRow(p, y, rgba, avx2);
    }
    AllDecoded(p, rgba[..]);
    return Ok(Decoded(p.width, p.height, rgba[..]));
  }

  method Nv12ToRgba(bytes: seq<byte>, width: nat, height: nat, stride: nat, avx2: bool) returns (r: Result<Decoded, MediaError>)
    ensures r.Ok? <==> Legible(Picture(bytes, width, height, stride, height))
    ensures r.Ok? ==> r.value.width == width && r.value.height == height
                      && IsRgba(bytes, width, height, stride, height, r.value.rgba)
  {
    r := Nv12ToRgbaPadded(Picture(bytes, width, height, stride, height), avx2);
  }

  lemma DecodedPixel(p: Picture, rgba: seq<byte>, x: nat, y: nat, channel: nat, base: nat)
    requires Legible(p) && x < p.width && y < p.height && channel < 4 && RowDecoded(p, rgba, y, base)
    ensures base + x * 4 + 4 <= |rgba|
    ensures rgba[base + x * 4 + channel] == RgbaAt(p.bytes, p.width, p.height, p.stride, p.storage, x, y, channel)
  {
    assert PixelDone(LumaRow(p, y), ChromaRow(p, y), rgba, base, x);
    assert rgba[base + x * 4 + channel] == PixelAt(rgba, base, x)[channel] == RowPixel(LumaRow(p, y), ChromaRow(p, y), x)[channel];
    RowsAreSlices(p, x, y);
  }

  lemma LumaIsSlice(p: Picture, y: nat) returns (start: nat)
    requires Legible(p) && y < p.height
    ensures start == y * p.stride && start + p.width <= |p.bytes|
    ensures LumaRow(p, y) == p.bytes[start..start + p.width]
  {
    PlanesFit(|p.bytes|, p.width, p.height, p.stride, p.storage, 0, y);
    start := y * p.stride;
  }

  lemma ChromaIsSlice(p: Picture, y: nat) returns (start: nat)
    requires Legible(p) && y < p.height
    ensures start == p.stride * p.storage + y / 2 * p.stride && start + p.width <= |p.bytes|
    ensures ChromaRow(p, y) == p.bytes[start..start + p.width]
  {
    PlanesFit(|p.bytes|, p.width, p.height, p.stride, p.storage, 0, y);
    start := p.stride * p.storage + y / 2 * p.stride;
  }

  lemma PairInSlice(s: seq<byte>, start: nat, width: nat, x: nat)
    requires start + width <= |s| && width % 2 == 0 && x < width
    ensures start + x / 2 * 2 + 1 < |s|
    ensures U(s[start..start + width], x) == s[start + x / 2 * 2] && V(s[start..start + width], x) == s[start + x / 2 * 2 + 1]
  {
  }

  lemma RowsAreSlices(p: Picture, x: nat, y: nat)
    requires Legible(p) && x < p.width && y < p.height
    ensures RowPixel(LumaRow(p, y), ChromaRow(p, y), x) == PicturePixel(p, x, y)
  {
    var luma := LumaIsSlice(p, y);
    var start := ChromaIsSlice(p, y);
    PairInSlice(p.bytes, start, p.width, x);
  }

  function PicturePixel(p: Picture, x: nat, y: nat): seq<byte>
    requires Legible(p) && x < p.width && y < p.height
  {
    PlanesFit(|p.bytes|, p.width, p.height, p.stride, p.storage, x, y);
    var chroma := p.stride * p.storage + y / 2 * p.stride + x / 2 * 2;
    Pixel(p.bytes[y * p.stride + x], p.bytes[chroma], p.bytes[chroma + 1])
  }

  lemma AllDecoded(p: Picture, rgba: seq<byte>)
    requires Legible(p) && |rgba| == p.width * p.height * 4 && RowsDecoded(p, rgba, p.height)
    ensures IsRgba(p.bytes, p.width, p.height, p.stride, p.storage, rgba)
  {
    forall x: nat, y: nat | x < p.width && y < p.height
      ensures InPlane(p.width, p.height, x, y)
      ensures forall channel: nat | channel < 4 ::
                rgba[(y * p.width + x) * 4 + channel] == RgbaAt(p.bytes, p.width, p.height, p.stride, p.storage, x, y, channel)
    {
      IndexFits(p.width, p.height, y, x);
      var base := Base(p.width, y);
      assert RowDecoded(p, rgba, y, base);
      forall channel: nat | channel < 4
        ensures rgba[(y * p.width + x) * 4 + channel] == RgbaAt(p.bytes, p.width, p.height, p.stride, p.storage, x, y, channel)
      {
        DecodedPixel(p, rgba, x, y, channel, base);
        assert (y * p.width + x) * 4 + channel == base + x * 4 + channel;
      }
    }
  }
}
