/** Pixel formats: the values of every converted byte, and the scalar loops that fill them in. */
module Pixels {
  import opened Wrappers

  const MAX_WIDTH := 4096
  const MAX_HEIGHT := 4096
  const MAX_PIXELS := 4096 * 2160

  datatype MediaError = Dimensions | BadFrame

  datatype Bgra = Bgra(width: nat, height: nat, bytes: seq<byte>)

  datatype Decoded = Decoded(width: nat, height: nat, rgba: seq<byte>)

  function PixelCount(width: nat, height: nat): Result<nat, MediaError> {
    if width == 0 || height == 0 || width > MAX_WIDTH || height > MAX_HEIGHT || width * height > MAX_PIXELS then Err(Dimensions)
    else Ok(width * height)
  }

  /** Arithmetic shift right by eight: division by 256 that rounds down. */
  function Shift8(v: int): int { v / 256 }

  function ClampByte(v: int): byte { if v < 0 then 0 else if v > 255 then 255 else v }

  function Luma(r: int, g: int, b: int): byte { ClampByte(Shift8(66 * r + 129 * g + 25 * b + 128) + 16) }
  function ChromaU(r: int, g: int, b: int): byte { ClampByte(Shift8(-38 * r - 74 * g + 112 * b + 128) + 128) }
  function ChromaV(r: int, g: int, b: int): byte { ClampByte(Shift8(112 * r - 94 * g - 18 * b + 128) + 128) }

  function LumaTerm(y: byte): int { if y < 16 then 0 else y - 16 }

  function Red(c: int, e: int): byte { ClampByte(Shift8(298 * c + 409 * e + 128)) }
  function Green(c: int, d: int, e: int): byte { ClampByte(Shift8(298 * c - 100 * d - 208 * e + 128)) }
  function Blue(c: int, d: int): byte { ClampByte(Shift8(298 * c + 516 * d + 128)) }

  /** The four bytes of one converted pixel. */
  function Rgba(y: byte, u: byte, v: byte, channel: nat): byte {
    var c, d, e := LumaTerm(y), u - 128, v - 128;
    if channel == 0 then Red(c, e) else if channel == 1 then Green(c, d, e) else if channel == 2 then Blue(c, d) else 255
  }

  predicate WholeFrame(f: Bgra) { PixelCount(f.width, f.height).Ok? && |f.bytes| == f.width * f.height * 4 }

  predicate Convertible(f: Bgra) { WholeFrame(f) && f.width % 2 == 0 && f.height % 2 == 0 }

  lemma ProductGrows(a: int, b: int, c: nat)
    requires a <= b
    ensures a * c <= b * c
  {
  }

  lemma SmallProduct(d: int, width: nat)
    requires 0 < width && d * width < width
    ensures d <= 0
  {
    if d >= 1 { ProductGrows(1, d, width); }
  }

  /** A row and column of a plane of some width, as one index, fit the plane. */
  lemma IndexFits(width: nat, height: nat, row: nat, column: nat)
    requires row < height && column < width
    ensures 0 <= row * width + column < row * width + width <= width * height
  {
    ProductGrows(row + 1, height, width);
    assert (row + 1) * width == row * width + width;
  }

  /** Different pixels have different indices: an index has one row and one column. */
  lemma IndexIsUnique(width: nat, row: nat, column: nat, row': nat, column': nat)
    requires column < width && column' < width && row * width + column == row' * width + column'
    ensures row == row' && column == column'
  {
    assert (row - row') * width == column' - column && (row' - row) * width == column - column';
    SmallProduct(row - row', width);
    SmallProduct(row' - row, width);
  }

  /** And every index is that of a pixel. */
  lemma IndexJoins(width: nat, height: nat, k: nat) returns (row: nat, column: nat)
    requires 0 < width && k < width * height
    ensures row < height && column < width && k == row * width + column
  {
    row, column := k / width, k % width;
    assert k == row * width + column;
    if row >= height { ProductGrows(height, row, width); }
  }

  /** One channel of one pixel. */
  function Channel(f: Bgra, x: nat, y: nat, channel: nat): byte
    requires WholeFrame(f) && x < f.width && y < f.height && channel < 4
  {
    IndexFits(f.width, f.height, y, x);
    f.bytes[(y * f.width + x) * 4 + channel]
  }

  /** The average of a two by two block, rounded down. */
  function Average(f: Bgra, x: nat, y: nat, channel: nat): byte
    requires WholeFrame(f) && x + 1 < f.width && y + 1 < f.height && channel < 4
  {
    (Channel(f, x, y, channel) + Channel(f, x + 1, y, channel) + Channel(f, x, y + 1, channel) + Channel(f, x + 1, y + 1, channel)) / 4
  }

  function LumaAt(f: Bgra, x: nat, y: nat): byte
    requires WholeFrame(f) && x < f.width && y < f.height
  {
    Luma(Channel(f, x, y, 2), Channel(f, x, y, 1), Channel(f, x, y, 0))
  }

  /** The chroma byte at a row and column of the chroma plane: U at even columns, V at odd ones. */
  function ChromaAt(f: Bgra, column: nat, row: nat): byte
    requires Convertible(f) && column < f.width && row < f.height / 2
  {
    var x, y := column / 2 * 2, row * 2;
    var r, g, b := Average(f, x, y, 2), Average(f, x, y, 1), Average(f, x, y, 0);
    if column % 2 == 0 then ChromaU(r, g, b) else ChromaV(r, g, b)
  }

  predicate LumaIn(f: Bgra, nv12: seq<byte>, x: nat, y: nat)
    requires Convertible(f) && x < f.width && y < f.height
  {
    InPlane(f.width, f.height, x, y) && f.width * f.height <= |nv12| && nv12[y * f.width + x] == LumaAt(f, x, y)
  }

  predicate ChromaIn(f: Bgra, nv12: seq<byte>, x: nat, row: nat)
    requires Convertible(f) && x < f.width && row < f.height / 2
  {
    var k := f.width * f.height + row * f.width + x;
    0 <= k < |nv12| && nv12[k] == ChromaAt(f, x, row)
  }

  /** A converted frame: every luma byte, then the interleaved chroma plane of half the height. */
  ghost predicate IsNv12(f: Bgra, nv12: seq<byte>)
    requires Convertible(f)
  {
    && |nv12| == f.width * f.height + f.width * (f.height / 2)
    && (forall x: nat, y: nat | x < f.width && y < f.height :: LumaIn(f, nv12, x, y))
    && (forall x: nat, row: nat | x < f.width && row < f.height / 2 :: ChromaIn(f, nv12, x, row))
  }

  predicate InPlane(width: nat, height: nat, x: nat, y: nat) { 0 <= y * width + x < width * height }

  /** The checks made before a conversion to RGBA. */
  predicate Readable(size: nat, width: nat, height: nat, stride: nat, storage: nat) {
    && width % 2 == 0 && height % 2 == 0 && width <= stride <= MAX_WIDTH * 4
    && height <= storage <= MAX_HEIGHT && storage % 2 == 0 && size >= stride * storage * 3 / 2
  }

  lemma HalfPlane(stride: nat, storage: nat)
    requires storage % 2 == 0
    ensures stride * storage * 3 / 2 == stride * storage + stride * (storage / 2)
  {
    var half := storage / 2;
    assert storage == half * 2 && stride * storage == stride * half * 2;
  }

  /** Where the bytes of a pixel lie: luma in the storage plane, chroma behind all of it. */
  lemma PlanesFit(size: nat, width: nat, height: nat, stride: nat, storage: nat, x: nat, y: nat)
    requires Readable(size, width, height, stride, storage) && x < width && y < height
    ensures 0 <= y * stride + x < y * stride + width <= size
    ensures var chroma := stride * storage + y / 2 * stride; 0 <= chroma && chroma + x / 2 * 2 + 1 < chroma + width <= size
  {
    IndexFits(stride, storage, y, x);
    IndexFits(stride, storage / 2, y / 2, x);
    HalfPlane(stride, storage);
    ProductGrows(0, y / 2, stride);
  }

  function RgbaAt(bytes: seq<byte>, width: nat, height: nat, stride: nat, storage: nat, x: nat, y: nat, channel: nat): byte
    requires Readable(|bytes|, width, height, stride, storage) && x < width && y < height
  {
    PlanesFit(|bytes|, width, height, stride, storage, x, y);
    var chroma := stride * storage + y / 2 * stride + x / 2 * 2;
    Rgba(bytes[y * stride + x], bytes[chroma], bytes[chroma + 1], channel)
  }

  /** A decoded frame: four bytes for every pixel, row after row. */
  ghost predicate IsRgba(bytes: seq<byte>, width: nat, height: nat, stride: nat, storage: nat, rgba: seq<byte>)
    requires Readable(|bytes|, width, height, stride, storage)
  {
    && |rgba| == width * height * 4
    && (forall x: nat, y: nat | x < width && y < height ::
          && InPlane(width, height, x, y)
          && (forall channel: nat | channel < 4 ::
                rgba[(y * width + x) * 4 + channel] == RgbaAt(bytes, width, height, stride, storage, x, y, channel)))
  }

  // -----------------------------------------------------------------------------------------------------------------
  // BGRA to NV12
  // -----------------------------------------------------------------------------------------------------------------

  /** The first few of a block's four values. */
  function BlockSum(f: Bgra, x: nat, y: nat, channel: nat, n: nat): nat
    requires WholeFrame(f) && x + 1 < f.width && y + 1 < f.height && channel < 4 && n <= 4
  {
    (if n > 0 then Channel(f, x, y, channel) as nat else 0) + (if n > 1 then Channel(f, x + 1, y, channel) as nat else 0)
    + (if n > 2 then Channel(f, x, y + 1, channel) as nat else 0) + (if n > 3 then Channel(f, x + 1, y + 1, channel) as nat else 0)
  }

  method Block(f: Bgra, x: nat, y: nat) returns (r: byte, g: byte, b: byte)
    requires WholeFrame(f) && x + 1 < f.width && y + 1 < f.height
    ensures r == Average(f, x, y, 2) && g == Average(f, x, y, 1) && b == Average(f, x, y, 0)
  {
    var offsets := [(0, 0), (1, 0), (0, 1), (1, 1)];
    var sr: nat, sg: nat, sb: nat := 0, 0, 0;
    for i := 0 to 4
      invariant sb == BlockSum(f, x, y, 0, i) && sg == BlockSum(f, x, y, 1, i) && sr == BlockSum(f, x, y, 2, i)
    {
      var (dx, dy) := offsets[i];
      IndexFits(f.width, f.height, y + dy, x + dx);
      var p := ((y + dy) * f.width + x + dx) * 4;
      sb, sg, sr := sb + f.bytes[p], sg + f.bytes[p + 1], sr + f.bytes[p + 2];
    }
    return sr / 4, sg / 4, sb / 4;
  }
}
