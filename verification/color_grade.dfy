/**
 * The per-pixel colour grades applied to each composited frame, over the
 * canvas's RGBA bytes, and the VHS/glitch red-channel shift.  Values a
 * processor returns are stored into a clamped byte array, which clamps to
 * [0, 255] and rounds half to even.
 */
module Grading {
  import opened Numeric

  type Byte = x: int | 0 <= x < 256

  /** The value a Uint8ClampedArray stores for the number `x`. */
  function ToUint8Clamp(x: real): (b: Byte)
    ensures x <= 0.0 ==> b == 0
    ensures x >= 255.0 ==> b == 255
    ensures 0.0 < x < 255.0 ==> x - 0.5 <= b as real <= x + 0.5
  {
    if x <= 0.0 then 0
    else if x >= 255.0 then 255
    else
      var f := Floor(x);
      var d := x - f as real;
      if d < 0.5 then f
      else if d > 0.5 then f + 1
      else if f % 2 == 0 then f else f + 1
  }

  /** Storing a byte value leaves it as it is. */
  lemma StoreByte(v: Byte)
    ensures ToUint8Clamp(v as real) == v
  {
  }

  /** Storing is monotone. */
  lemma StoreMonotone(x: real, y: real)
    requires x <= y
    ensures ToUint8Clamp(x) <= ToUint8Clamp(y)
  {
  }

  lemma StoreHalves()
    ensures ToUint8Clamp(0.5) == 0 && ToUint8Clamp(1.5) == 2 && ToUint8Clamp(2.5) == 2
    ensures ToUint8Clamp(-3.0) == 0 && ToUint8Clamp(300.0) == 255
  {
  }

  datatype Rgba<T> = Rgba(r: T, g: T, b: T, a: T)

  /** The grades that rewrite pixels one at a time. */
  datatype Processor = Noir | Sepia | Bw | HighContrast | Cyberpunk | Eighties

  /** The high-contrast factor (259 * (128 + 255)) / (255 * (259 - 128)). */
  const ContrastFactor: real := (259.0 * (128.0 + 255.0)) / (255.0 * (259.0 - 128.0))

  /**
   * What a processor returns for one pixel.  `grain` is the random offset the
   * noir grade adds to the luminance, `(Math.random() - 0.5) * 30`; the other
   * grades ignore it.
   */
  function Process(p: Processor, px: Rgba<Byte>, grain: real): (q: Rgba<real>)
    ensures q.a == px.a as real
  {
    var r, g, b := px.r as real, px.g as real, px.b as real;
    match p
    case Noir =>
      var lum := r * 0.299 + g * 0.587 + b * 0.114;
      var lum1 := Min(255.0, Max(0.0, lum + grain));
      var lum2 := (lum1 - 128.0) * 1.5 + 128.0;
      Rgba(lum2, lum2, lum2, px.a as real)
    case Sepia =>
      Rgba(Min(255.0, r * 0.393 + g * 0.769 + b * 0.189),
           Min(255.0, r * 0.349 + g * 0.686 + b * 0.168),
           Min(255.0, r * 0.272 + g * 0.534 + b * 0.131), px.a as real)
    case Bw =>
      var avg := (r + g + b) / 3.0;
      Rgba(avg, avg, avg, px.a as real)
    case HighContrast =>
      Rgba(ContrastFactor * (r - 128.0) + 128.0, ContrastFactor * (g - 128.0) + 128.0,
           ContrastFactor * (b - 128.0) + 128.0, px.a as real)
    case Cyberpunk =>
      Rgba(Min(255.0, r * 1.2), g * 0.8, Min(255.0, b * 1.4), px.a as real)
    case Eighties =>
      Rgba(r * 1.1, g, b * 0.8 + 20.0, px.a as real)
  }

  /** The four stores `data[i] = r; ... data[i + 3] = a`. */
  function Store(q: Rgba<real>): Rgba<Byte> {
    Rgba(ToUint8Clamp(q.r), ToUint8Clamp(q.g), ToUint8Clamp(q.b), ToUint8Clamp(q.a))
  }

  /** The pixel one processor call produces. */
  function Graded(p: Processor, px: Rgba<Byte>, grain: real): (o: Rgba<Byte>)
    ensures o.a == px.a
  {
    StoreByte(px.a);
    Store(Process(p, px, grain))
  }

  /** Black and white and noir give grey pixels. */
  lemma GreyGrades(p: Processor, px: Rgba<Byte>, grain: real)
    requires p == Bw || p == Noir
    ensures var o := Graded(p, px, grain); o.r == o.g == o.b
  {
  }

  /** Black and white stores the rounded mean of the three channels. */
  lemma BwIsMean(px: Rgba<Byte>)
    ensures var o := Graded(Bw, px, 0.0);
      (px.r + px.g + px.b) as real / 3.0 - 0.5 <= o.r as real <= (px.r + px.g + px.b) as real / 3.0 + 0.5
  {
  }

  /** High contrast keeps mid grey and saturates everything far enough from it. */
  lemma HighContrastSaturates(v: Byte)
    ensures var o := Graded(HighContrast, Rgba(v, v, v, 255), 0.0);
      && (v == 128 ==> o.r == 128)
      && (v <= 84 ==> o.r == 0)
      && (v >= 171 ==> o.r == 255)
  {
  }

  /** Cyberpunk caps green at 204; the 1980s grade keeps blue within [20, 224]. */
  lemma ChannelCaps(px: Rgba<Byte>, grain: real)
    ensures Graded(Cyberpunk, px, grain).g <= 204
    ensures 20 <= Graded(Eighties, px, grain).b <= 224
    ensures Graded(Eighties, px, grain).g == px.g
  {
    StoreMonotone(px.g as real * 0.8, 204.0);
    StoreMonotone(px.b as real * 0.8 + 20.0, 224.0);
    StoreMonotone(20.0, px.b as real * 0.8 + 20.0);
    StoreByte(px.g);
  }

  // ---------------------------------------------------------------------
  // Whole-frame passes over RGBA bytes
  // ---------------------------------------------------------------------

  /** Canvas pixel data: four bytes per pixel. */
  predicate IsImageData(data: seq<Byte>) {
    |data| % 4 == 0
  }

  function PixelAt(data: seq<Byte>, k: nat): Rgba<Byte>
    requires 4 * k + 3 < |data|
  {
    Rgba(data[4 * k], data[4 * k + 1], data[4 * k + 2], data[4 * k + 3])
  }

  function Channel(px: Rgba<Byte>, c: nat): Byte
    requires c < 4
  {
    if c == 0 then px.r else if c == 1 then px.g else if c == 2 then px.b else px.a
  }

  /** Every pixel of the frame after its processor call. */
  function GradedPixels(p: Processor, data: seq<Byte>, grains: seq<real>): (px: seq<Rgba<Byte>>)
    requires IsImageData(data) && |grains| == |data| / 4
    ensures |px| == |data| / 4
  {
    seq(|data| / 4, k requires 0 <= k < |data| / 4 => Graded(p, PixelAt(data, k), grains[k]))
  }

  /** Pixels laid out as RGBA bytes, four per pixel. */
  function PixelBytes(px: seq<Rgba<Byte>>): (out: seq<Byte>)
    ensures |out| == 4 * |px|
  {
    seq(4 * |px|, i requires 0 <= i < 4 * |px| => Channel(px[i / 4], i % 4))
  }

  lemma PixelBytesAt(px: seq<Rgba<Byte>>, k: nat, c: nat)
    requires k < |px| && c < 4
    ensures PixelBytes(px)[4 * k + c] == Channel(px[k], c)
  {
    PixelIndex(k, c);
  }

  /** The frame after `filterPixels`: every pixel replaced by its graded value. */
  function Filtered(p: Processor, data: seq<Byte>, grains: seq<real>): (out: seq<Byte>)
    requires IsImageData(data) && |grains| == |data| / 4
    ensures |out| == |data|
  {
    PixelBytes(GradedPixels(p, data, grains))
  }

  /** Byte `4k + c` of the filtered frame is channel `c` of graded pixel `k`. */
  lemma FilteredByte(p: Processor, data: seq<Byte>, grains: seq<real>, k: nat, c: nat)
    requires IsImageData(data) && |grains| == |data| / 4
    requires 4 * k + 3 < |data| && c < 4
    ensures Filtered(p, data, grains)[4 * k + c] == Channel(Graded(p, PixelAt(data, k), grains[k]), c)
  {
    PixelBytesAt(GradedPixels(p, data, grains), k, c);
  }

  /** Byte `4k + c` of a frame is channel `c` of pixel `k`. */
  lemma PixelIndex(k: nat, c: nat)
    requires c < 4
    ensures (4 * k + c) / 4 == k && (4 * k + c) % 4 == c
  {
  }

  /** `data[i] = r; data[i + 1] = g; data[i + 2] = b; data[i + 3] = a`. */
  function WritePixel(s: seq<Byte>, i: nat, o: Rgba<Byte>): (t: seq<Byte>)
    requires i + 3 < |s|
    ensures |t| == |s|
  {
    s[i := o.r][i + 1 := o.g][i + 2 := o.b][i + 3 := o.a]
  }

  /** Writing graded pixel `k` extends the finished prefix by its four bytes. */
  lemma WritePixelStep(out: seq<Byte>, want: seq<Byte>, data: seq<Byte>, pixels: seq<Rgba<Byte>>, k: nat)
    requires want == PixelBytes(pixels) && k < |pixels|
    requires |out| == |want| == |data|
    requires forall j :: 0 <= j < 4 * k ==> out[j] == want[j]
    requires forall j :: 4 * k <= j < |data| ==> out[j] == data[j]
    ensures var next := WritePixel(out, 4 * k, pixels[k]);
      && (forall j :: 0 <= j < 4 * k + 4 ==> next[j] == want[j])
      && (forall j :: 4 * k + 4 <= j < |data| ==> next[j] == data[j])
  {
    PixelBytesAt(pixels, k, 0);
    PixelBytesAt(pixels, k, 1);
    PixelBytesAt(pixels, k, 2);
    PixelBytesAt(pixels, k, 3);
  }

  /** `filterPixels` as written: four bytes at a time, rewritten in place. */
  method FilterPixels(p: Processor, data: seq<Byte>, grains: seq<real>) returns (out: seq<Byte>)
    requires IsImageData(data) && |grains| == |data| / 4
    ensures out == Filtered(p, data, grains)
  {
    var n := |data| / 4;
    assert |data| == 4 * n;
    var pixels := GradedPixels(p, data, grains);
    var want := PixelBytes(pixels);
    out := data;
    var i, k := 0, 0;
    while i < |out|
      invariant |out| == |data| && i == 4 * k && 0 <= k <= n
      invariant forall j :: 0 <= j < i ==> out[j] == want[j]
      invariant forall j :: i <= j < |data| ==> out[j] == data[j]
    {
      var px := Rgba(out[i], out[i + 1], out[i + 2], out[i + 3]);
      assert px == PixelAt(data, k);
      var o := Graded(p, px, grains[k]);
      assert o == pixels[k];
      WritePixelStep(out, want, data, pixels, k);
      out := WritePixel(out, i, o);
      i, k := i + 4, k + 1;
    }
  }

  /** Every grade leaves the alpha byte of every pixel as it was. */
  lemma FilterKeepsAlpha(p: Processor, data: seq<Byte>, grains: seq<real>, k: nat)
    requires IsImageData(data) && |grains| == |data| / 4
    requires 4 * k + 3 < |data|
    ensures Filtered(p, data, grains)[4 * k + 3] == data[4 * k + 3]
  {
    FilteredByte(p, data, grains, k, 3);
  }

  /** The red-shift distance: 12 bytes, or 200 for a glitch frame whose random draw exceeds 0.9. */
  function ShiftOffset(glitch: bool, random: real): (off: nat)
    ensures off % 4 == 0
    ensures off == 12 || off == 200
  {
    if glitch && random > 0.9 then 200 else 12
  }

  /** The frame after the shift: each red byte takes the red byte `off` bytes later, when there is one. */
  function Shifted(data: seq<Byte>, off: nat): (out: seq<Byte>)
    ensures |out| == |data|
  {
    seq(|data|, i requires 0 <= i < |data| => if i % 4 == 0 && i + off < |data| then data[i + off] else data[i])
  }

  /** The shift loop, reading from a copy taken before it starts. */
  method ShiftRed(data: seq<Byte>, off: nat) returns (out: seq<Byte>)
    ensures out == Shifted(data, off)
  {
    var copy := data;
    out := data;
    var i := 0;
    while i < |out|
      invariant |out| == |data| && i % 4 == 0 && 0 <= i
      invariant forall j :: 0 <= j < |data| && j < i ==> out[j] == Shifted(data, off)[j]
      invariant forall j :: i <= j < |data| ==> out[j] == data[j]
    {
      if i + off < |out| {
        out := out[i := copy[i + off]];
      }
      i := i + 4;
    }
  }

  /**
   * Only red bytes change; a changed red byte is the red byte of the pixel
   * `off / 4` places on, and red bytes with no such pixel keep their value.
   */
  lemma ShiftTouchesOnlyRed(data: seq<Byte>, off: nat, i: nat)
    requires IsImageData(data) && off % 4 == 0 && i < |data|
    ensures i % 4 != 0 ==> Shifted(data, off)[i] == data[i]
    ensures i % 4 == 0 && i + off >= |data| ==> Shifted(data, off)[i] == data[i]
    ensures i % 4 == 0 && i + off < |data| ==>
      Shifted(data, off)[i] == PixelAt(data, i / 4 + off / 4).r
  {
    if i % 4 == 0 && i + off < |data| {
      assert i + off == 4 * (i / 4 + off / 4);
    }
  }
}
