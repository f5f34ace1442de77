/**
 * The WAV encoder: a canonical 44-byte RIFF/WAVE header followed by
 * interleaved little-endian 16-bit PCM samples, plus a reader for the same
 * layout. The encoder is modelled twice: as written, where the sample loop
 * starts at frame 44 and the reader gets back shifted samples, and as
 * evidently intended, where the reader recovers what was converted.
 */
module Wav {
  import opened Wrappers
  import opened Numeric
  import opened Audio

  type byte = x: int | 0 <= x < 256

  const Two16: int := 65536
  const Two32: int := 4294967296

  /** `DataView.setUint16(_, v, true)`: `v` reduced modulo 2^16, low byte first. */
  function U16Le(v: int): (r: seq<byte>)
    ensures |r| == 2
  {
    var u := v % Two16;
    [u % 256, u / 256]
  }

  /** `DataView.setUint32(_, v, true)`: `v` reduced modulo 2^32, low byte first. */
  function U32Le(v: int): (r: seq<byte>)
    ensures |r| == 4
  {
    var u := v % Two32;
    U16Le(u % Two16) + U16Le(u / Two16)
  }

  /** `DataView.setInt16(_, v, true)`: two's complement, low byte first. */
  function I16Le(v: int): (r: seq<byte>)
    ensures |r| == 2
  {
    U16Le(v)
  }

  /** Little-endian unsigned 16-bit read; reads past the end yield 0. */
  function ReadU16(bs: seq<byte>, off: nat): nat {
    if off + 1 < |bs| then bs[off] as int + 256 * (bs[off + 1] as int) else 0
  }

  /** Little-endian unsigned 32-bit read. */
  function ReadU32(bs: seq<byte>, off: nat): nat {
    ReadU16(bs, off) + Two16 * ReadU16(bs, off + 2)
  }

  /** Little-endian two's complement 16-bit read. */
  function ReadI16(bs: seq<byte>, off: nat): int {
    var u := ReadU16(bs, off);
    if u >= 32768 then u - Two16 else u
  }

  /** The bytes of an ASCII tag. */
  function Ascii(s: string): seq<int> {
    seq(|s|, i requires 0 <= i < |s| => s[i] as int)
  }

  /**
   * The float-to-int16 conversion as written: clamp to [-1, 1], scale by 32768
   * when `0.5 + s < 0` (that is, only when s < -0.5) and by 32767 otherwise,
   * then truncate toward zero.
   */
  function PcmSample(x: real): (q: int)
    ensures -32768 <= q <= 32767
  {
    var s := Clamp(x, -1.0, 1.0);
    Trunc(if 0.5 + s < 0.0 then s * 32768.0 else s * 32767.0)
  }

  /** The int16 codes the encoder stores for a buffer, per channel. */
  function PcmCodes(b: AudioBuffer): (s: seq<seq<int>>)
    requires Valid(b)
    ensures |s| == |b.channels|
    ensures forall c :: 0 <= c < |s| ==> |s[c]| == Length(b)
    ensures forall c, p :: 0 <= c < |s| && 0 <= p < Length(b) ==> s[c][p] == PcmSample(b.channels[c][p])
  {
    seq(|b.channels|, c requires 0 <= c < |b.channels| =>
      seq(Length(b), p requires 0 <= p < Length(b) => PcmSample(b.channels[c][p])))
  }

  /** Every channel of `codes` has at least `n` frames. */
  predicate HasFrames(codes: seq<seq<int>>, n: nat) {
    forall c :: 0 <= c < |codes| ==> n <= |codes[c]|
  }

  /** The samples of channels 0..k-1 at frame p, in channel order. */
  function FrameBytes(codes: seq<seq<int>>, p: nat, k: nat): (r: seq<byte>)
    requires k <= |codes| && HasFrames(codes, p + 1)
    ensures |r| == 2 * k
  {
    if k == 0 then [] else FrameBytes(codes, p, k - 1) + I16Le(codes[k - 1][p])
  }

  /** The interleaved data chunk body for frames 0..n-1. */
  function DataBytes(codes: seq<seq<int>>, n: nat): (r: seq<byte>)
    requires HasFrames(codes, n)
    ensures |r| == 2 * (n * |codes|)
  {
    if n == 0 then [] else DataBytes(codes, n - 1) + FrameBytes(codes, n - 1, |codes|)
  }

  /** The 44-byte header for `numChan` channels of `frames` frames at `rate` Hz. */
  function WavHeader(numChan: nat, rate: int, frames: nat): (h: seq<byte>)
    ensures |h| == 44
  {
    var length := frames * numChan * 2 + 44;
    U32Le(0x46464952) + U32Le(length - 8) + U32Le(0x45564157)
    + U32Le(0x20746d66) + U32Le(16) + U16Le(1) + U16Le(numChan)
    + U32Le(rate) + U32Le(rate * 2 * numChan) + U16Le(numChan * 2) + U16Le(16)
    + U32Le(0x61746164) + U32Le(length - 40 - 4)
  }

  /** The header for `b` followed by a data chunk body. */
  function WithHeader(b: AudioBuffer, d: seq<byte>): seq<byte>
    requires Valid(b)
  {
    WavHeader(|b.channels|, b.sampleRate, Length(b)) + d
  }

  /**
   * The encoder as evidently intended: header, then frames 0..n-1, each
   * frame's samples in channel order. (The code as written differs; see
   * `BufferToWavAsWritten`.)
   */
  function BufferToWav(b: AudioBuffer): (w: seq<byte>)
    requires Valid(b)
    ensures |w| == 44 + Length(b) * |b.channels| * 2
  {
    WithHeader(b, DataBytes(PcmCodes(b), Length(b)))
  }

  /**
   * The header writes advance the shared position `pos` by 44 bytes, and the
   * sample loop then uses that same `pos` as its frame index, so it starts at
   * frame 44.
   */
  const LoopStart: nat := 44

  /** The sample loop: frames pos..n-1, each frame's samples in channel order, back to back. */
  function LoopBytes(codes: seq<seq<int>>, pos: nat, n: nat): seq<byte>
    requires HasFrames(codes, n)
    decreases n - pos
  {
    if pos >= n then [] else FrameBytes(codes, pos, |codes|) + LoopBytes(codes, pos + 1, n)
  }

  /** How many frames a loop from `pos` to n-1 visits. */
  function LoopFrames(pos: nat, n: nat): nat {
    if pos < n then n - pos else 0
  }

  /** Frames written by the loop as it starts at `LoopStart`. */
  function KeptFrames(n: nat): nat {
    LoopFrames(LoopStart, n)
  }

  /** `n` zero bytes: what an `ArrayBuffer` holds where nothing was written. */
  function Zeros(n: nat): (r: seq<byte>)
    ensures |r| == n
  {
    seq(n, i => 0)
  }

  /**
   * The data chunk body as written: the loop's bytes from the start of the
   * chunk, then the zero bytes the loop never reaches.
   */
  function DataBytesAsWritten(codes: seq<seq<int>>, n: nat): (r: seq<byte>)
    requires HasFrames(codes, n)
    ensures |r| == 2 * (n * |codes|)
  {
    var written := LoopBytes(codes, LoopStart, n);
    LoopBytesLength(codes, LoopStart, n);
    written + Zeros(2 * (n * |codes|) - |written|)
  }

  /** `bufferToWav` as written: the header, then the data the shifted loop leaves behind. */
  function BufferToWavAsWritten(b: AudioBuffer): (w: seq<byte>)
    requires Valid(b)
    ensures |w| == 44 + Length(b) * |b.channels| * 2
  {
    WithHeader(b, DataBytesAsWritten(PcmCodes(b), Length(b)))
  }

  /** The codes of frames `skip`..n-1 moved to the front of each channel, zero after them. */
  function ShiftFrames(codes: seq<seq<int>>, skip: nat, n: nat): (s: seq<seq<int>>)
    requires HasFrames(codes, n)
    ensures |s| == |codes|
    ensures forall c :: 0 <= c < |s| ==> |s[c]| == n
  {
    seq(|codes|, c requires 0 <= c < |codes| =>
      seq(n, q requires 0 <= q < n => if q + skip < n then codes[c][q + skip] else 0))
  }

  /** What a reader recovers from a WAV file: layout and int16 samples per channel. */
  datatype WavInfo = WavInfo(channelCount: nat, sampleRate: nat, samples: seq<seq<int>>)

  /** The tags, chunk sizes and fixed fmt fields of a canonical 16-bit PCM header. */
  predicate FixedFieldsOk(bs: seq<byte>)
    requires |bs| >= 44
  {
    && bs[0..4] == Ascii("RIFF") && bs[8..12] == Ascii("WAVE")
    && bs[12..16] == Ascii("fmt ") && bs[36..40] == Ascii("data")
    && ReadU32(bs, 4) == |bs| - 8 && ReadU32(bs, 16) == 16 && ReadU16(bs, 20) == 1
    && ReadU16(bs, 34) == 16 && ReadU32(bs, 40) == |bs| - 44
  }

  /** The fmt fields that depend on the channel count agree with it. */
  predicate LayoutFieldsOk(bs: seq<byte>, numChan: nat, rate: nat) {
    && numChan > 0
    && ReadU16(bs, 32) == numChan * 2
    && ReadU32(bs, 28) == rate * 2 * numChan
  }

  /** The de-interleaved int16 samples: channel c, frame p at 44 + 2*(p*numChan + c). */
  function Deinterleave(bs: seq<byte>, numChan: nat, frames: nat): (s: seq<seq<int>>)
    ensures |s| == numChan
    ensures forall c :: 0 <= c < numChan ==> |s[c]| == frames
  {
    seq(numChan, c requires 0 <= c < numChan =>
      seq(frames, p requires 0 <= p < frames => ReadI16(bs, 44 + 2 * (p * numChan + c))))
  }

  /**
   * A reader for canonical 16-bit PCM WAV files: checks the four tags, the
   * chunk sizes and the fmt fields, then de-interleaves the samples.
   */
  function ParseWav(bs: seq<byte>): Option<WavInfo> {
    if |bs| < 44 || !FixedFieldsOk(bs) then None
    else
      var numChan := ReadU16(bs, 22);
      var rate := ReadU32(bs, 24);
      var dataLen := |bs| - 44;
      if !LayoutFieldsOk(bs, numChan, rate) || dataLen % (2 * numChan) != 0 then None
      else Some(WavInfo(numChan, rate, Deinterleave(bs, numChan, dataLen / (2 * numChan))))
  }

  // ---------------------------------------------------------------------
  // Little-endian round trips
  // ---------------------------------------------------------------------

  lemma U16RoundTrip(bs: seq<byte>, off: nat, v: int)
    requires off + 2 <= |bs|
    requires bs[off..off + 2] == U16Le(v)
    ensures ReadU16(bs, off) == v % Two16
  {
    assert bs[off] == U16Le(v)[0] && bs[off + 1] == U16Le(v)[1];
  }

  lemma U32RoundTrip(bs: seq<byte>, off: nat, v: int)
    requires off + 4 <= |bs|
    requires bs[off..off + 4] == U32Le(v)
    ensures ReadU32(bs, off) == v % Two32
  {
    var u := v % Two32;
    assert bs[off..off + 2] == bs[off..off + 4][0..2];
    assert bs[off + 2..off + 4] == bs[off..off + 4][2..4];
    assert bs[off..off + 2] == U16Le(u % Two16);
    assert bs[off + 2..off + 4] == U16Le(u / Two16);
    U16RoundTrip(bs, off, u % Two16);
    U16RoundTrip(bs, off + 2, u / Two16);
  }

  lemma I16RoundTrip(bs: seq<byte>, off: nat, v: int)
    requires -32768 <= v <= 32767
    requires off + 2 <= |bs|
    requires bs[off..off + 2] == I16Le(v)
    ensures ReadI16(bs, off) == v
  {
    U16RoundTrip(bs, off, v);
  }

  /** The four magic numbers the encoder writes spell the ASCII chunk tags. */
  lemma MagicNumbersSpellTags()
    ensures U32Le(0x46464952) == Ascii("RIFF")
    ensures U32Le(0x45564157) == Ascii("WAVE")
    ensures U32Le(0x20746d66) == Ascii("fmt ")
    ensures U32Le(0x61746164) == Ascii("data")
  {
    TagBytes(0x46464952, 0x52, 0x49, 0x46, 0x46);
    assert Ascii("RIFF") == [0x52, 0x49, 0x46, 0x46];
    TagBytes(0x45564157, 0x57, 0x41, 0x56, 0x45);
    assert Ascii("WAVE") == [0x57, 0x41, 0x56, 0x45];
    TagBytes(0x20746d66, 0x66, 0x6d, 0x74, 0x20);
    assert Ascii("fmt ") == [0x66, 0x6d, 0x74, 0x20];
    TagBytes(0x61746164, 0x64, 0x61, 0x74, 0x61);
    assert Ascii("data") == [0x64, 0x61, 0x74, 0x61];
  }

  /** A 32-bit value written little-endian gives its four base-256 digits, lowest first. */
  lemma TagBytes(v: int, b0: byte, b1: byte, b2: byte, b3: byte)
    requires v == b0 + 256 * b1 + Two16 * (b2 + 256 * b3)
    ensures U32Le(v) == [b0, b1, b2, b3]
  {
    var lo := b0 + 256 * b1;
    var hi := b2 + 256 * b3;
    assert v % Two32 == v;
    assert v % Two16 == lo && v / Two16 == hi;
    assert lo % Two16 == lo && lo % 256 == b0 && lo / 256 == b1;
    assert hi % Two16 == hi && hi % 256 == b2 && hi / 256 == b3;
  }

  // ---------------------------------------------------------------------
  // Sample conversion
  // ---------------------------------------------------------------------

  /**
   * The sample scale: 32768 exactly when the clamped sample is below -0.5,
   * 32767 otherwise; the result is the truncation of the scaled sample.
   */
  lemma PcmSampleScale(x: real)
    ensures var s := Clamp(x, -1.0, 1.0);
      && (s < -0.5 ==> PcmSample(x) == Trunc(s * 32768.0))
      && (s >= -0.5 ==> PcmSample(x) == Trunc(s * 32767.0))
    ensures x >= 1.0 ==> PcmSample(x) == 32767
    ensures x <= -1.0 ==> PcmSample(x) == -32768
    ensures PcmSample(0.0) == 0
  {
  }

  /** As written, a sample of -0.25 is scaled by 32767, not by 32768. */
  lemma PcmSampleQuirk()
    ensures PcmSample(-0.25) == -8191
    ensures Trunc(-0.25 * 32768.0) == -8192
  {
  }

  /** Louder input never gives a smaller code. */
  lemma {:induction false} PcmSampleMonotone(x: real, y: real)
    requires x <= y
    ensures PcmSample(x) <= PcmSample(y)
  {
    var s := Clamp(x, -1.0, 1.0);
    var t := Clamp(y, -1.0, 1.0);
    var sx := if 0.5 + s < 0.0 then s * 32768.0 else s * 32767.0;
    var ty := if 0.5 + t < 0.0 then t * 32768.0 else t * 32767.0;
    assert s <= t;
    if 0.5 + s < 0.0 && 0.5 + t >= 0.0 {
      assert sx < -16384.0;
      assert ty >= -16383.5;
    }
    assert sx <= ty;
    TruncMonotone(sx, ty);
  }

  // ---------------------------------------------------------------------
  // Layout of the data chunk
  // ---------------------------------------------------------------------

  lemma {:induction false} FrameSampleAt(codes: seq<seq<int>>, p: nat, k: nat, c: nat)
    requires c < k <= |codes| && HasFrames(codes, p + 1)
    ensures FrameBytes(codes, p, k)[2 * c..2 * c + 2] == I16Le(codes[c][p])
  {
    var prev := FrameBytes(codes, p, k - 1);
    assert FrameBytes(codes, p, k) == prev + I16Le(codes[k - 1][p]);
    if c < k - 1 {
      FrameSampleAt(codes, p, k - 1, c);
    }
  }

  lemma InterleaveBound(p: nat, c: nat, n: nat, numChan: nat)
    requires p < n && c < numChan
    ensures p * numChan + c + 1 <= n * numChan
  {
    assert (p + 1) * numChan <= n * numChan;
  }

  lemma SliceLeft<T>(a: seq<T>, b: seq<T>, i: nat, j: nat)
    requires i <= j <= |a|
    ensures (a + b)[i..j] == a[i..j]
  {
  }

  lemma SliceRight<T>(a: seq<T>, b: seq<T>, i: nat, j: nat)
    requires |a| <= i <= j <= |a| + |b|
    ensures (a + b)[i..j] == b[i - |a|..j - |a|]
  {
  }

  /**
   * Interleaving: the code of frame p, channel c occupies bytes
   * 2*(p*channels + c) and the next of the data chunk body.
   */
  lemma {:induction false} DataSampleAt(codes: seq<seq<int>>, n: nat, p: nat, c: nat)
    requires p < n && c < |codes| && HasFrames(codes, n)
    ensures 2 * (p * |codes| + c) + 2 <= |DataBytes(codes, n)|
    ensures DataBytes(codes, n)[2 * (p * |codes| + c)..2 * (p * |codes| + c) + 2] == I16Le(codes[c][p])
  {
    var k := |codes|;
    var prev := DataBytes(codes, n - 1);
    var frame := FrameBytes(codes, n - 1, k);
    var i := 2 * (p * k + c);
    assert DataBytes(codes, n) == prev + frame;
    if p < n - 1 {
      DataSampleAt(codes, n - 1, p, c);
      SliceLeft(prev, frame, i, i + 2);
    } else {
      FrameSampleAt(codes, n - 1, k, c);
      assert i == |prev| + 2 * c;
      SliceRight(prev, frame, i, i + 2);
    }
  }

  /**
   * In the encoded file, frame p of channel c is written little-endian at byte
   * offset 44 + 2*(p*channels + c).
   */
  lemma SampleOffset(b: AudioBuffer, p: nat, c: nat)
    requires Valid(b)
    requires p < Length(b) && c < |b.channels|
    ensures var off := 44 + 2 * (p * |b.channels| + c);
      off + 2 <= |BufferToWav(b)| && BufferToWav(b)[off..off + 2] == I16Le(PcmCodes(b)[c][p])
  {
    var codes := PcmCodes(b);
    var h := WavHeader(|b.channels|, b.sampleRate, Length(b));
    var d := DataBytes(codes, Length(b));
    assert BufferToWav(b) == h + d;
    DataSampleAt(codes, Length(b), p, c);
    var i := 2 * (p * |b.channels| + c);
    SliceRight(h, d, 44 + i, 44 + i + 2);
  }

  // ---------------------------------------------------------------------
  // Header fields
  // ---------------------------------------------------------------------

  lemma HeaderSlices(numChan: nat, rate: int, frames: nat)
    ensures var h := WavHeader(numChan, rate, frames);
      var length := frames * numChan * 2 + 44;
      && h[0..4] == U32Le(0x46464952)
      && h[4..8] == U32Le(length - 8)
      && h[8..12] == U32Le(0x45564157)
      && h[12..16] == U32Le(0x20746d66)
      && h[16..20] == U32Le(16)
      && h[20..22] == U16Le(1)
      && h[22..24] == U16Le(numChan)
      && h[24..28] == U32Le(rate)
      && h[28..32] == U32Le(rate * 2 * numChan)
      && h[32..34] == U16Le(numChan * 2)
      && h[34..36] == U16Le(16)
      && h[36..40] == U32Le(0x61746164)
      && h[40..44] == U32Le(length - 44)
  {
  }

  /**
   * Every header field as a reader sees it, whatever data chunk of the right
   * length follows: the tags, the RIFF size (total - 8) and data size
   * (total - 44), fmt length 16, PCM format 1, the channel count, the rate,
   * byteRate = rate*2*channels, blockAlign = channels*2 and 16 bits per
   * sample, each reduced to its field's width.
   */
  lemma HeaderFields(b: AudioBuffer, d: seq<byte>)
    requires Valid(b) && |d| == Length(b) * |b.channels| * 2
    ensures var w := WithHeader(b, d);
      var numChan := |b.channels|;
      && w[0..4] == Ascii("RIFF") && w[8..12] == Ascii("WAVE")
      && w[12..16] == Ascii("fmt ") && w[36..40] == Ascii("data")
      && ReadU32(w, 4) == (|w| - 8) % Two32
      && ReadU32(w, 16) == 16
      && ReadU16(w, 20) == 1
      && ReadU16(w, 22) == numChan % Two16
      && ReadU32(w, 24) == b.sampleRate % Two32
      && ReadU32(w, 28) == (b.sampleRate * 2 * numChan) % Two32
      && ReadU16(w, 32) == (numChan * 2) % Two16
      && ReadU16(w, 34) == 16
      && ReadU32(w, 40) == (|w| - 44) % Two32
  {
    HeaderTags(b, d);
    HeaderSizes(b, d);
    HeaderFormat(b, d);
    HeaderRates(b, d);
  }

  lemma HeaderTags(b: AudioBuffer, d: seq<byte>)
    requires Valid(b)
    ensures var w := WithHeader(b, d);
      && w[0..4] == Ascii("RIFF") && w[8..12] == Ascii("WAVE")
      && w[12..16] == Ascii("fmt ") && w[36..40] == Ascii("data")
  {
    var h := WavHeader(|b.channels|, b.sampleRate, Length(b));
    HeaderSlices(|b.channels|, b.sampleRate, Length(b));
    MagicNumbersSpellTags();
    SliceLeft(h, d, 0, 4);
    SliceLeft(h, d, 8, 12);
    SliceLeft(h, d, 12, 16);
    SliceLeft(h, d, 36, 40);
  }

  lemma HeaderSizes(b: AudioBuffer, d: seq<byte>)
    requires Valid(b) && |d| == Length(b) * |b.channels| * 2
    ensures var w := WithHeader(b, d);
      && ReadU32(w, 4) == (|w| - 8) % Two32
      && ReadU32(w, 40) == (|w| - 44) % Two32
  {
    var h := WavHeader(|b.channels|, b.sampleRate, Length(b));
    var w := WithHeader(b, d);
    HeaderSlices(|b.channels|, b.sampleRate, Length(b));
    SliceLeft(h, d, 4, 8);
    SliceLeft(h, d, 40, 44);
    U32RoundTrip(w, 4, |w| - 8);
    U32RoundTrip(w, 40, |w| - 44);
  }

  lemma HeaderFormat(b: AudioBuffer, d: seq<byte>)
    requires Valid(b)
    ensures var w := WithHeader(b, d);
      && ReadU32(w, 16) == 16
      && ReadU16(w, 20) == 1
      && ReadU16(w, 22) == |b.channels| % Two16
      && ReadU16(w, 34) == 16
  {
    var h := WavHeader(|b.channels|, b.sampleRate, Length(b));
    var w := WithHeader(b, d);
    HeaderSlices(|b.channels|, b.sampleRate, Length(b));
    SliceLeft(h, d, 16, 20);
    SliceLeft(h, d, 20, 22);
    SliceLeft(h, d, 22, 24);
    SliceLeft(h, d, 34, 36);
    U32RoundTrip(w, 16, 16);
    U16RoundTrip(w, 20, 1);
    U16RoundTrip(w, 22, |b.channels|);
    U16RoundTrip(w, 34, 16);
  }

  lemma HeaderRates(b: AudioBuffer, d: seq<byte>)
    requires Valid(b)
    ensures var w := WithHeader(b, d);
      var numChan := |b.channels|;
      && ReadU32(w, 24) == b.sampleRate % Two32
      && ReadU32(w, 28) == (b.sampleRate * 2 * numChan) % Two32
      && ReadU16(w, 32) == (numChan * 2) % Two16
  {
    var numChan := |b.channels|;
    var h := WavHeader(numChan, b.sampleRate, Length(b));
    var w := WithHeader(b, d);
    HeaderSlices(numChan, b.sampleRate, Length(b));
    SliceLeft(h, d, 24, 28);
    SliceLeft(h, d, 28, 32);
    SliceLeft(h, d, 32, 34);
    U32RoundTrip(w, 24, b.sampleRate);
    U32RoundTrip(w, 28, b.sampleRate * 2 * numChan);
    U16RoundTrip(w, 32, numChan * 2);
  }

  /**
   * Round trip: whenever the sizes fit their fields, reading the encoded file
   * gives back the channel count, the sample rate and, for every frame and
   * channel, the converted int16 sample.
   */
  lemma WavRoundTrip(b: AudioBuffer)
    requires Valid(b)
    requires |b.channels| * 2 < Two16
    requires b.sampleRate * 2 * |b.channels| < Two32
    requires 44 + Length(b) * |b.channels| * 2 < Two32
    ensures ParseWav(BufferToWav(b)) == Some(WavInfo(|b.channels|, b.sampleRate, PcmCodes(b)))
  {
    var w := BufferToWav(b);
    var numChan := |b.channels|;
    var rate := b.sampleRate;
    var d := DataBytes(PcmCodes(b), Length(b));
    assert w == WithHeader(b, d);
    HeaderFields(b, d);
    RateFits(rate, numChan);
    ModSmall(|w| - 8, Two32);
    ModSmall(|w| - 44, Two32);
    ModSmall(numChan, Two16);
    ModSmall(rate, Two32);
    ModSmall(rate * 2 * numChan, Two32);
    ModSmall(numChan * 2, Two16);
    ParseCanonical(w, numChan, rate, Length(b));
    DeinterleaveEncoded(b);
  }

  lemma RateFits(rate: int, numChan: nat)
    requires rate > 0 && numChan >= 1 && rate * 2 * numChan < Two32
    ensures rate < Two32
  {
    assert rate <= rate * 2 * numChan;
  }

  lemma ModSmall(x: int, m: int)
    requires 0 <= x < m
    ensures x % m == x
  {
  }

  /** A file whose header fields agree with its layout parses to its de-interleaved samples. */
  lemma ParseCanonical(bs: seq<byte>, numChan: nat, rate: nat, n: nat)
    requires |bs| == 44 + n * numChan * 2
    requires FixedFieldsOk(bs)
    requires ReadU16(bs, 22) == numChan && ReadU32(bs, 24) == rate
    requires LayoutFieldsOk(bs, numChan, rate)
    ensures ParseWav(bs) == Some(WavInfo(numChan, rate, Deinterleave(bs, numChan, n)))
  {
    DataChunkFrames(n, numChan, |bs| - 44);
  }

  lemma DataChunkFrames(n: nat, numChan: nat, dataLen: int)
    requires numChan > 0 && dataLen == n * numChan * 2
    ensures dataLen % (2 * numChan) == 0 && dataLen / (2 * numChan) == n
  {
    assert dataLen == n * (2 * numChan);
    MulDivExact(n, 2 * numChan);
  }

  /** De-interleaving the encoded data chunk gives back every channel's codes. */
  lemma DeinterleaveEncoded(b: AudioBuffer)
    requires Valid(b)
    ensures Deinterleave(BufferToWav(b), |b.channels|, Length(b)) == PcmCodes(b)
  {
    var w := BufferToWav(b);
    var numChan := |b.channels|;
    var n := Length(b);
    var codes := PcmCodes(b);
    var parsed := Deinterleave(w, numChan, n);
    forall c, p | 0 <= c < numChan && 0 <= p < n
      ensures parsed[c][p] == codes[c][p]
    {
      SampleOffset(b, p, c);
      I16RoundTrip(w, 44 + 2 * (p * numChan + c), codes[c][p]);
    }
    forall c | 0 <= c < numChan ensures parsed[c] == codes[c] {
    }
  }

  // ---------------------------------------------------------------------
  // The encoder as written: the sample loop starts at frame 44
  // ---------------------------------------------------------------------

  /** In the loop's bytes, frame pos + d of channel c sits at 2*(d*channels + c). */
  lemma {:induction false} LoopSampleAt(codes: seq<seq<int>>, pos: nat, n: nat, d: nat, c: nat)
    requires pos + d < n && c < |codes| && HasFrames(codes, n)
    ensures 2 * (d * |codes| + c) + 2 <= |LoopBytes(codes, pos, n)|
    ensures LoopBytes(codes, pos, n)[2 * (d * |codes| + c)..2 * (d * |codes| + c) + 2]
      == I16Le(codes[c][pos + d])
    decreases d
  {
    var k := |codes|;
    var frame := FrameBytes(codes, pos, k);
    var rest := LoopBytes(codes, pos + 1, n);
    LoopBytesStep(codes, pos, n);
    if d == 0 {
      FrameSampleAt(codes, pos, k, c);
      FirstFrameAt(frame, rest, k, c);
    } else {
      LoopSampleAt(codes, pos + 1, n, d - 1, c);
      LaterFrameAt(frame, rest, k, d, c);
    }
  }

  lemma LoopBytesStep(codes: seq<seq<int>>, pos: nat, n: nat)
    requires pos < n && HasFrames(codes, n)
    ensures LoopBytes(codes, pos, n) == FrameBytes(codes, pos, |codes|) + LoopBytes(codes, pos + 1, n)
  {
  }

  /** The loop writes two bytes per channel for each frame it visits. */
  lemma {:induction false} LoopBytesLength(codes: seq<seq<int>>, pos: nat, n: nat)
    requires HasFrames(codes, n)
    ensures |LoopBytes(codes, pos, n)| == 2 * (LoopFrames(pos, n) * |codes|)
    ensures |LoopBytes(codes, pos, n)| <= 2 * (n * |codes|)
    decreases n - pos
  {
    var k := |codes|;
    if pos < n {
      LoopBytesLength(codes, pos + 1, n);
      LoopBytesStep(codes, pos, n);
      MulStep(n - pos, k);
      assert LoopFrames(pos + 1, n) == n - pos - 1;
      assert (n - pos) * k <= n * k;
    }
  }

  /** A sample found in the first frame of the loop's bytes. */
  lemma FirstFrameAt(frame: seq<byte>, rest: seq<byte>, k: nat, c: nat)
    requires |frame| == 2 * k && c < k
    ensures 2 * (0 * k + c) + 2 <= |frame + rest|
    ensures (frame + rest)[2 * (0 * k + c)..2 * (0 * k + c) + 2] == frame[2 * c..2 * c + 2]
  {
    assert 0 * k == 0;
    SliceLeft(frame, rest, 2 * c, 2 * c + 2);
  }

  /** A sample found in the rest of the loop's bytes, shifted past the first frame. */
  lemma LaterFrameAt(frame: seq<byte>, rest: seq<byte>, k: nat, d: nat, c: nat)
    requires d >= 1 && |frame| == 2 * k
    requires 2 * ((d - 1) * k + c) + 2 <= |rest|
    ensures 2 * (d * k + c) + 2 <= |frame + rest|
    ensures (frame + rest)[2 * (d * k + c)..2 * (d * k + c) + 2]
      == rest[2 * ((d - 1) * k + c)..2 * ((d - 1) * k + c) + 2]
  {
    MulStep(d, k);
    var j := 2 * ((d - 1) * k + c);
    var i := 2 * (d * k + c);
    assert i == |frame| + j;
    SliceRight(frame, rest, i, i + 2);
  }

  lemma MulStep(d: nat, k: nat)
    requires d >= 1
    ensures d * k == k + (d - 1) * k
  {
  }

  /**
   * As written, frame 44 + q of channel c is stored at byte
   * 44 + 2*(q*channels + c): 44 frames earlier than its place.
   */
  lemma SampleOffsetAsWritten(b: AudioBuffer, q: nat, c: nat)
    requires Valid(b)
    requires LoopStart + q < Length(b) && c < |b.channels|
    ensures var off := 44 + 2 * (q * |b.channels| + c);
      && off + 2 <= |BufferToWavAsWritten(b)|
      && BufferToWavAsWritten(b)[off..off + 2] == I16Le(PcmCodes(b)[c][LoopStart + q])
  {
    var codes := PcmCodes(b);
    var n := Length(b);
    var h := WavHeader(|b.channels|, b.sampleRate, n);
    var d := DataBytesAsWritten(codes, n);
    assert BufferToWavAsWritten(b) == h + d;
    var i := 2 * (q * |b.channels| + c);
    DataSampleAsWritten(codes, n, q, c);
    SliceRight(h, d, 44 + i, 44 + i + 2);
    assert 44 + i + 2 <= |BufferToWavAsWritten(b)|;
    assert BufferToWavAsWritten(b)[44 + i..44 + i + 2] == I16Le(codes[c][LoopStart + q]);
  }

  /** As written, frame 44 + q of channel c sits at 2*(q*channels + c) of the data chunk. */
  lemma DataSampleAsWritten(codes: seq<seq<int>>, n: nat, q: nat, c: nat)
    requires LoopStart + q < n && c < |codes| && HasFrames(codes, n)
    ensures var i := 2 * (q * |codes| + c);
      && i + 2 <= |DataBytesAsWritten(codes, n)|
      && DataBytesAsWritten(codes, n)[i..i + 2] == I16Le(codes[c][LoopStart + q])
  {
    var written := LoopBytes(codes, LoopStart, n);
    var d := DataBytesAsWritten(codes, n);
    var zeros := Zeros(|d| - |written|);
    assert d == written + zeros;
    var i := 2 * (q * |codes| + c);
    LoopSampleAt(codes, LoopStart, n, q, c);
    SliceLeft(written, zeros, i, i + 2);
  }

  /**
   * As written, every byte after the frames the loop reaches is zero; in
   * particular a buffer of at most 44 frames gets an all-zero data chunk.
   */
  lemma ZeroTailAsWritten(b: AudioBuffer)
    requires Valid(b)
    ensures forall i :: (44 + 2 * (KeptFrames(Length(b)) * |b.channels|) <= i < |BufferToWavAsWritten(b)|
      ==> BufferToWavAsWritten(b)[i] == 0)
    ensures Length(b) <= LoopStart ==>
      (forall i :: 44 <= i < |BufferToWavAsWritten(b)| ==> BufferToWavAsWritten(b)[i] == 0)
  {
    var codes := PcmCodes(b);
    var n := Length(b);
    var h := WavHeader(|b.channels|, b.sampleRate, n);
    var written := LoopBytes(codes, LoopStart, n);
    var d := DataBytesAsWritten(codes, n);
    var zeros := Zeros(|d| - |written|);
    assert d == written + zeros;
    LoopBytesLength(codes, LoopStart, n);
    assert |written| == 2 * (KeptFrames(n) * |b.channels|);
    forall i | 44 + |written| <= i < |BufferToWavAsWritten(b)|
      ensures BufferToWavAsWritten(b)[i] == 0
    {
      assert BufferToWavAsWritten(b)[i] == zeros[i - 44 - |written|];
    }
  }

  /** Reading two zero bytes gives sample 0. */
  lemma ReadZero(bs: seq<byte>, off: nat)
    requires off + 1 < |bs| && bs[off] == 0 && bs[off + 1] == 0
    ensures ReadI16(bs, off) == 0
  {
  }

  /**
   * As written, de-interleaving the data chunk gives every channel's codes
   * from frame 44 on, moved to the front and followed by zeros.
   */
  lemma DeinterleaveAsWritten(b: AudioBuffer)
    requires Valid(b)
    ensures Deinterleave(BufferToWavAsWritten(b), |b.channels|, Length(b))
      == ShiftFrames(PcmCodes(b), LoopStart, Length(b))
  {
    var w := BufferToWavAsWritten(b);
    var numChan := |b.channels|;
    var n := Length(b);
    var codes := PcmCodes(b);
    var parsed := Deinterleave(w, numChan, n);
    var shifted := ShiftFrames(codes, LoopStart, n);
    ZeroTailAsWritten(b);
    forall c, q | 0 <= c < numChan && 0 <= q < n
      ensures parsed[c][q] == shifted[c][q]
    {
      var off := 44 + 2 * (q * numChan + c);
      if LoopStart + q < n {
        SampleOffsetAsWritten(b, q, c);
        I16RoundTrip(w, off, codes[c][LoopStart + q]);
      } else {
        TailPosition(q, c, n, numChan);
        ReadZero(w, off);
      }
    }
    forall c | 0 <= c < numChan ensures parsed[c] == shifted[c] {
    }
  }

  lemma TailPosition(q: nat, c: nat, n: nat, numChan: nat)
    requires q < n && c < numChan && n <= q + LoopStart
    ensures KeptFrames(n) * numChan <= q * numChan + c
    ensures q * numChan + c + 1 <= n * numChan
  {
    assert KeptFrames(n) <= q;
    InterleaveBound(q, c, n, numChan);
  }

  /**
   * As written, whenever the sizes fit their fields, reading the file gives
   * the channel count and rate but, in place of the samples, frames 44..n-1
   * followed by 44 frames of silence (all silence when n <= 44).
   */
  lemma ParseAsWritten(b: AudioBuffer)
    requires Valid(b)
    requires |b.channels| * 2 < Two16
    requires b.sampleRate * 2 * |b.channels| < Two32
    requires 44 + Length(b) * |b.channels| * 2 < Two32
    ensures ParseWav(BufferToWavAsWritten(b))
      == Some(WavInfo(|b.channels|, b.sampleRate, ShiftFrames(PcmCodes(b), LoopStart, Length(b))))
  {
    var w := BufferToWavAsWritten(b);
    var numChan := |b.channels|;
    var rate := b.sampleRate;
    var d := DataBytesAsWritten(PcmCodes(b), Length(b));
    assert w == WithHeader(b, d);
    HeaderFields(b, d);
    RateFits(rate, numChan);
    ModSmall(|w| - 8, Two32);
    ModSmall(|w| - 44, Two32);
    ModSmall(numChan, Two16);
    ModSmall(rate, Two32);
    ModSmall(rate * 2 * numChan, Two32);
    ModSmall(numChan * 2, Two16);
    ParseCanonical(w, numChan, rate, Length(b));
    DeinterleaveAsWritten(b);
  }

  /**
   * The round trip fails as written: one full-scale frame is converted to
   * 32767, yet the file reads back as silence.
   */
  lemma RoundTripFailsAsWritten()
    ensures var b := AudioBuffer(44100, [[1.0]]);
      && PcmCodes(b) == [[32767]]
      && ParseWav(BufferToWavAsWritten(b)) == Some(WavInfo(1, 44100, [[0]]))
      && ParseWav(BufferToWav(b)) == Some(WavInfo(1, 44100, [[32767]]))
  {
    var b := AudioBuffer(44100, [[1.0]]);
    PcmSampleScale(1.0);
    var codes := PcmCodes(b);
    assert Length(b) == 1 && |codes| == 1 && |codes[0]| == 1;
    assert codes[0][0] == 32767;
    assert codes[0] == [32767];
    assert codes == [[32767]];
    ParseAsWritten(b);
    var shifted := ShiftFrames(codes, LoopStart, 1);
    assert |shifted| == 1 && |shifted[0]| == 1 && shifted[0][0] == 0;
    assert shifted[0] == [0];
    assert shifted == [[0]];
    WavRoundTrip(b);
  }
}
