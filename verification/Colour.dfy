/** What the colour conversions mean: their ranges, and how close a frame comes back. */
module Colour {
  import opened Wrappers
  import opened Pixels
  import Conversion

  /** The ranges of section 2.5 of Recommendation ITU-R BT.601-7, for any colour. */
  lemma Bt601Ranges(r: byte, g: byte, b: byte)
    ensures 16 <= Luma(r, g, b) <= 235 && 16 <= ChromaU(r, g, b) <= 240 && 16 <= ChromaV(r, g, b) <= 240
  {
  }

  lemma LumaInRange(f: Bgra, nv12: seq<byte>, k: nat)
    requires Convertible(f) && IsNv12(f, nv12) && k < f.width * f.height
    ensures k < |nv12| && 16 <= nv12[k] <= 235
  {
    var y, x := IndexJoins(f.width, f.height, k);
    assert LumaIn(f, nv12, x, y);
    Bt601Ranges(Channel(f, x, y, 2), Channel(f, x, y, 1), Channel(f, x, y, 0));
  }

  lemma ChromaInRange(f: Bgra, nv12: seq<byte>, k: nat)
    requires Convertible(f) && IsNv12(f, nv12) && k < f.width * (f.height / 2)
    ensures f.width * f.height + k < |nv12| && 16 <= nv12[f.width * f.height + k] <= 240
  {
    var row, column := IndexJoins(f.width, f.height / 2, k);
    assert ChromaIn(f, nv12, column, row);
    ChromaAtInRange(f, column, row);
  }

  lemma ChromaAtInRange(f: Bgra, column: nat, row: nat)
    requires Convertible(f) && column < f.width && row < f.height / 2
    ensures 16 <= ChromaAt(f, column, row) <= 240
  {
    var r, g, b := ChromaHasColour(f, column, row);
    Bt601Ranges(r, g, b);
  }

  lemma ChromaHasColour(f: Bgra, column: nat, row: nat) returns (r: byte, g: byte, b: byte)
    requires Convertible(f) && column < f.width && row < f.height / 2
    ensures ChromaAt(f, column, row) == ChromaU(r, g, b) || ChromaAt(f, column, row) == ChromaV(r, g, b)
  {
    var x, y := column / 2 * 2, row * 2;
    r, g, b := Average(f, x, y, 2), Average(f, x, y, 1), Average(f, x, y, 0);
  }

  /** Every byte of every converted frame is in its range. */
  lemma FramesKeepRanges(f: Bgra, nv12: seq<byte>)
    requires Convertible(f) && IsNv12(f, nv12)
    ensures forall k: nat | k < f.width * f.height :: 16 <= nv12[k] <= 235
    ensures forall k: nat | f.width * f.height <= k < |nv12| :: 16 <= nv12[k] <= 240
  {
    forall k: nat | k < f.width * f.height ensures 16 <= nv12[k] <= 235 { LumaInRange(f, nv12, k); }
    forall k: nat | f.width * f.height <= k < |nv12| ensures 16 <= nv12[k] <= 240 { ChromaInRange(f, nv12, k - f.width * f.height); }
  }

  predicate Within(a: int, b: int, tolerance: int) { -tolerance <= a - b <= tolerance }

  lemma ClampingKeepsCloseness(v: int, colour: byte, tolerance: int)
    requires Within(v, colour, tolerance)
    ensures Within(ClampByte(v), colour, tolerance)
  {
  }

  /** The exact intermediate values: nothing is clamped on the way out. */
  lemma Unclamped(r: byte, g: byte, b: byte) returns (c: int, d: int, e: int)
    ensures c == LumaTerm(Luma(r, g, b)) && d == ChromaU(r, g, b) - 128 && e == ChromaV(r, g, b) - 128
    ensures 256 * c <= 66 * r + 129 * g + 25 * b + 128 < 256 * c + 256
    ensures 256 * d <= -38 * r - 74 * g + 112 * b + 128 < 256 * d + 256
    ensures 256 * e <= 112 * r - 94 * g - 18 * b + 128 < 256 * e + 256
  {
    Bt601Ranges(r, g, b);
    c, d, e := Shift8(66 * r + 129 * g + 25 * b + 128), Shift8(-38 * r - 74 * g + 112 * b + 128), Shift8(112 * r - 94 * g - 18 * b + 128);
  }

  lemma RedComesBack(r: byte, g: byte, b: byte, c: int, e: int)
    requires 256 * c <= 66 * r + 129 * g + 25 * b + 128 < 256 * c + 256
    requires 256 * e <= 112 * r - 94 * g - 18 * b + 128 < 256 * e + 256
    ensures Within(Shift8(298 * c + 409 * e + 128), r, 2)
  {
  }

  lemma GreenComesBack(r: byte, g: byte, b: byte, c: int, d: int, e: int)
    requires 256 * c <= 66 * r + 129 * g + 25 * b + 128 < 256 * c + 256
    requires 256 * d <= -38 * r - 74 * g + 112 * b + 128 < 256 * d + 256
    requires 256 * e <= 112 * r - 94 * g - 18 * b + 128 < 256 * e + 256
    ensures Within(Shift8(298 * c - 100 * d - 208 * e + 128), g, 2)
  {
  }

  lemma BlueComesBack(r: byte, g: byte, b: byte, c: int, d: int)
    requires 256 * c <= 66 * r + 129 * g + 25 * b + 128 < 256 * c + 256
    requires 256 * d <= -38 * r - 74 * g + 112 * b + 128 < 256 * d + 256
    ensures Within(Shift8(298 * c + 516 * d + 128), b, 3)
  {
  }

  lemma RedSurvives(r: byte, g: byte, b: byte)
    ensures Within(Rgba(Luma(r, g, b), ChromaU(r, g, b), ChromaV(r, g, b), 0), r, 2)
  {
    var c, d, e := Unclamped(r, g, b);
    RedComesBack(r, g, b, c, e);
    ClampingKeepsCloseness(Shift8(298 * c + 409 * e + 128), r, 2);
  }

  lemma GreenSurvives(r: byte, g: byte, b: byte)
    ensures Within(Rgba(Luma(r, g, b), ChromaU(r, g, b), ChromaV(r, g, b), 1), g, 2)
  {
    var c, d, e := Unclamped(r, g, b);
    GreenComesBack(r, g, b, c, d, e);
    ClampingKeepsCloseness(Shift8(298 * c - 100 * d - 208 * e + 128), g, 2);
  }

  lemma BlueSurvives(r: byte, g: byte, b: byte)
    ensures Within(Rgba(Luma(r, g, b), ChromaU(r, g, b), ChromaV(r, g, b), 2), b, 3)
  {
    var c, d, e := Unclamped(r, g, b);
    BlueComesBack(r, g, b, c, d);
    ClampingKeepsCloseness(Shift8(298 * c + 516 * d + 128), b, 3);
  }

  /** Four bytes are a colour with red and green within 2 and blue within 3, fully opaque. */
  predicate Near(pixel: seq<byte>, r: byte, g: byte, b: byte)
    requires |pixel| == 4
  {
    Within(pixel[0], r, 2) && Within(pixel[1], g, 2) && Within(pixel[2], b, 3) && pixel[3] == 255
  }

  /** Any colour survives the two conversions. */
  lemma ColourComesBack(r: byte, g: byte, b: byte, pixel: seq<byte>)
    requires |pixel| == 4
    requires forall channel: nat | channel < 4 :: pixel[channel] == Rgba(Luma(r, g, b), ChromaU(r, g, b), ChromaV(r, g, b), channel)
    ensures Near(pixel, r, g, b)
  {
    RedSurvives(r, g, b);
    GreenSurvives(r, g, b);
    BlueSurvives(r, g, b);
  }

  /** One channel is the same all over a two by two block. */
  predicate OneValue(f: Bgra, left: nat, top: nat, channel: nat)
    requires Convertible(f) && left + 1 < f.width && top + 1 < f.height && channel < 4
  {
    && Channel(f, left + 1, top, channel) == Channel(f, left, top, channel)
    && Channel(f, left, top + 1, channel) == Channel(f, left, top, channel)
    && Channel(f, left + 1, top + 1, channel) == Channel(f, left, top, channel)
  }

  /** Every aligned two by two block has one colour. */
  ghost predicate Blocky(f: Bgra)
    requires Convertible(f)
  {
    forall left: nat, top: nat, channel: nat | left + 1 < f.width && top + 1 < f.height && left % 2 == 0 && top % 2 == 0 && channel < 4 ::
      OneValue(f, left, top, channel)
  }

  lemma Aligned(x: nat, width: nat) returns (left: nat)
    requires x < width && width % 2 == 0
    ensures left == x / 2 * 2 && left % 2 == 0 && left + 1 < width && (x == left || x == left + 1) && left / 2 == x / 2
  {
    left := x / 2 * 2;
  }

  lemma AverageOfOne(f: Bgra, left: nat, top: nat, x: nat, y: nat, channel: nat)
    requires Convertible(f) && left + 1 < f.width && top + 1 < f.height && channel < 4 && OneValue(f, left, top, channel)
    requires (x == left || x == left + 1) && (y == top || y == top + 1)
    ensures Average(f, left, top, channel) == Channel(f, x, y, channel)
  {
    var value := Channel(f, left, top, channel);
    assert Average(f, left, top, channel) == (value as int * 4) / 4;
  }

  lemma OwnLayout(f: Bgra, nv12: seq<byte>)
    requires Convertible(f) && |nv12| == f.width * f.height + f.width * (f.height / 2)
    ensures Readable(|nv12|, f.width, f.height, f.width, f.height)
  {
    HalfPlane(f.width, f.height);
  }

  /** One frame decoded: its own size, with no padding in a row and no rows to spare. */
  ghost predicate Decoded(f: Bgra, nv12: seq<byte>, rgba: seq<byte>)
    requires Convertible(f) && IsNv12(f, nv12)
  {
    OwnLayout(f, nv12);
    IsRgba(nv12, f.width, f.height, f.width, f.height, rgba)
  }

  /** The bytes the decoder makes of a pixel of a converted frame are those of the pixel's luma and its block's chroma. */
  lemma PixelReadsBack(f: Bgra, nv12: seq<byte>, rgba: seq<byte>, x: nat, y: nat, left: nat) returns (pixel: seq<byte>)
    requires Convertible(f) && IsNv12(f, nv12) && Decoded(f, nv12, rgba)
    requires x < f.width && y < f.height && left == x / 2 * 2 && left + 1 < f.width && y / 2 < f.height / 2
    ensures var p := (y * f.width + x) * 4; 0 <= p && p + 4 <= |rgba| && pixel == rgba[p..p + 4]
    ensures forall channel: nat | channel < 4 ::
              pixel[channel] == Rgba(LumaAt(f, x, y), ChromaAt(f, left, y / 2), ChromaAt(f, left + 1, y / 2), channel)
  {
    OwnLayout(f, nv12);
    IndexFits(f.width, f.height, y, x);
    var p := (y * f.width + x) * 4;
    pixel := rgba[p..p + 4];
    assert InPlane(f.width, f.height, x, y);
    forall channel: nat | channel < 4
      ensures pixel[channel] == Rgba(LumaAt(f, x, y), ChromaAt(f, left, y / 2), ChromaAt(f, left + 1, y / 2), channel)
    {
      assert pixel[channel] == rgba[p + channel] == RgbaAt(nv12, f.width, f.height, f.width, f.height, x, y, channel);
      RgbaReadsBack(f, nv12, x, y, left, channel);
    }
  }

  lemma LumaReads(f: Bgra, nv12: seq<byte>, x: nat, y: nat) returns (at: nat)
    requires Convertible(f) && IsNv12(f, nv12) && x < f.width && y < f.height
    ensures at == y * f.width + x && at < |nv12| && nv12[at] == LumaAt(f, x, y)
  {
    assert LumaIn(f, nv12, x, y);
    at := y * f.width + x;
  }

  lemma ChromaReads(f: Bgra, nv12: seq<byte>, x: nat, row: nat) returns (at: nat)
    requires Convertible(f) && IsNv12(f, nv12) && x < f.width && row < f.height / 2
    ensures at == f.width * f.height + row * f.width + x && at < |nv12| && nv12[at] == ChromaAt(f, x, row)
  {
    assert ChromaIn(f, nv12, x, row);
    at := f.width * f.height + row * f.width + x;
  }

  lemma RgbaReadsBack(f: Bgra, nv12: seq<byte>, x: nat, y: nat, left: nat, channel: nat)
    requires Convertible(f) && IsNv12(f, nv12) && Readable(|nv12|, f.width, f.height, f.width, f.height)
    requires x < f.width && y < f.height && left == x / 2 * 2 && left + 1 < f.width && y / 2 < f.height / 2
    ensures RgbaAt(nv12, f.width, f.height, f.width, f.height, x, y, channel)
            == Rgba(LumaAt(f, x, y), ChromaAt(f, left, y / 2), ChromaAt(f, left + 1, y / 2), channel)
  {
    var luma := LumaReads(f, nv12, x, y);
    var u := ChromaReads(f, nv12, left, y / 2);
    var v := ChromaReads(f, nv12, left + 1, y / 2);
    RgbaFrom(nv12, f.width, f.height, f.width, f.height, x, y, channel, luma, u);
    assert v == u + 1;
  }

  lemma RgbaFrom(bytes: seq<byte>, width: nat, height: nat, stride: nat, storage: nat, x: nat, y: nat, channel: nat, luma: nat, chroma: nat)
    requires Readable(|bytes|, width, height, stride, storage) && x < width && y < height
    requires luma == y * stride + x && chroma == stride * storage + y / 2 * stride + x / 2 * 2
    ensures luma < |bytes| && chroma + 1 < |bytes|
    ensures RgbaAt(bytes, width, height, stride, storage, x, y, channel) == Rgba(bytes[luma], bytes[chroma], bytes[chroma + 1], channel)
  {
    PlanesFit(|bytes|, width, height, stride, storage, x, y);
  }

  lemma BlockIsColour(f: Bgra, x: nat, y: nat, left: nat)
    requires Convertible(f) && Blocky(f) && x < f.width && y < f.height
    requires left == x / 2 * 2 && left + 1 < f.width && y / 2 < f.height / 2
    ensures var r, g, b := Channel(f, x, y, 2), Channel(f, x, y, 1), Channel(f, x, y, 0);
            ChromaAt(f, left, y / 2) == ChromaU(r, g, b) && ChromaAt(f, left + 1, y / 2) == ChromaV(r, g, b)
  {
    var _ := Aligned(x, f.width);
    var top := Aligned(y, f.height);
    assert OneValue(f, left, top, 2) && OneValue(f, left, top, 1) && OneValue(f, left, top, 0);
    AverageOfOne(f, left, top, x, y, 2);
    AverageOfOne(f, left, top, x, y, 1);
    AverageOfOne(f, left, top, x, y, 0);
    Conversion.BlockOf(f, left, top);
  }

  /**
   Encoding and decoding any frame of even size whose blocks have one colour each: every pixel comes back with red and
   green within 2, blue within 3 and full opacity.
   */
  lemma FrameComesBack(f: Bgra, nv12: seq<byte>, rgba: seq<byte>, x: nat, y: nat) returns (pixel: seq<byte>)
    requires Convertible(f) && Blocky(f) && IsNv12(f, nv12) && Decoded(f, nv12, rgba) && x < f.width && y < f.height
    ensures var p := (y * f.width + x) * 4; 0 <= p && p + 4 <= |rgba| && pixel == rgba[p..p + 4]
    ensures Near(pixel, Channel(f, x, y, 2), Channel(f, x, y, 1), Channel(f, x, y, 0))
  {
    var left := Aligned(x, f.width);
    pixel := PixelReadsBack(f, nv12, rgba, x, y, left);
    BlockIsColour(f, x, y, left);
    ColourComesBack(Channel(f, x, y, 2), Channel(f, x, y, 1), Channel(f, x, y, 0), pixel);
  }

  /** A picture has one decoded form, so the vector row and the scalar loop give the same bytes. */
  lemma DecodedFormIsUnique(bytes: seq<byte>, width: nat, height: nat, stride: nat, storage: nat, a: seq<byte>, b: seq<byte>)
    requires Readable(|bytes|, width, height, stride, storage)
    requires IsRgba(bytes, width, height, stride, storage, a) && IsRgba(bytes, width, height, stride, storage, b)
    ensures a == b
  {
    forall k: nat | k < |a| ensures a[k] == b[k] {
      var y, x := IndexJoins(width, height, k / 4);
      var channel := k % 4;
      assert InPlane(width, height, x, y);
      assert a[(y * width + x) * 4 + channel] == RgbaAt(bytes, width, height, stride, storage, x, y, channel);
      assert b[(y * width + x) * 4 + channel] == RgbaAt(bytes, width, height, stride, storage, x, y, channel);
    }
  }
}
