/**
 * The numbers the video compositor reads from the analyser: the bass level
 * (mean of the lowest bins), the pulse and zoom factors derived from it, and
 * the frequency-bin index each visualiser reads.
 */
module Visualizer {
  import opened Numeric
  import opened Types

  /** One analyser byte. */
  type Bin = x: int | 0 <= x < 256

  /** An analyser with `fftSize` 512 reports this many frequency bins. */
  const BinCount: nat := 256

  predicate IsSpectrum(s: seq<Bin>) {
    |s| == BinCount
  }

  /** `dataArray[i] || 0`: a read past the end yields 0. */
  function ReadOrZero(s: seq<Bin>, i: nat): (v: Bin)
    ensures i < |s| ==> v == s[i]
    ensures i >= |s| ==> v == 0
  {
    if i < |s| then s[i] else 0
  }

  /** The sum of the first `n` bins. */
  function SumBins(s: seq<Bin>, n: nat): (r: int)
    requires n <= |s|
    ensures 0 <= r <= 255 * n
  {
    if n == 0 then 0 else SumBins(s, n - 1) + s[n - 1]
  }

  /** The accumulation loop `for (i = 0; i < n; i++) bassSum += dataArray[i]`. */
  method SumLowBins(s: seq<Bin>, n: nat) returns (sum: int)
    requires n <= |s|
    ensures sum == SumBins(s, n)
  {
    sum := 0;
    var i := 0;
    while i < n
      invariant 0 <= i <= n
      invariant sum == SumBins(s, i)
    {
      sum := sum + s[i];
      i := i + 1;
    }
  }

  /** The mean of the first `n` bins: six for the video frame, four for the live preview. */
  function Bass(s: seq<Bin>, n: nat): (b: real)
    requires 0 < n <= |s|
    ensures 0.0 <= b <= 255.0
  {
    MeanBound(SumBins(s, n), n);
    SumBins(s, n) as real / n as real
  }

  lemma MeanBound(sum: int, n: nat)
    requires n > 0 && 0 <= sum <= 255 * n
    ensures 0.0 <= sum as real / n as real <= 255.0
  {
    var q := sum as real / n as real;
    assert q * n as real == sum as real;
    assert (255.0 - q) * n as real == (255 * n - sum) as real;
  }

  const VideoBassBins: nat := 6
  const PreviewBassBins: nat := 4

  /** `1 + (bass / 255) * depth`: a factor that grows with the bass from 1 up to 1 + depth. */
  function Swell(bass: real, depth: real): (f: real)
    requires 0.0 <= bass <= 255.0 && depth >= 0.0
    ensures 1.0 <= f <= 1.0 + depth
    ensures bass == 0.0 ==> f == 1.0
    ensures bass == 255.0 ==> f == 1.0 + depth
  {
    PartBounds(bass / 255.0, depth);
    1.0 + Part(bass / 255.0, depth)
  }

  /** The artwork and ring pulse, in [1, 1.15]. */
  function Pulse(s: seq<Bin>): (p: real)
    requires IsSpectrum(s)
    ensures 1.0 <= p <= 1.15
  {
    Swell(Bass(s, VideoBassBins), 0.15)
  }

  /** The background zoom, in [1, 1.05]. */
  function BackgroundZoom(s: seq<Bin>): (z: real)
    requires IsSpectrum(s)
    ensures 1.0 <= z <= 1.05
  {
    Swell(Bass(s, VideoBassBins), 0.05)
  }

  /** The live preview's logo scale, from the four lowest bins, in [1, 1.15]. */
  function LogoScale(s: seq<Bin>): (k: real)
    requires IsSpectrum(s)
    ensures 1.0 <= k <= 1.15
  {
    Swell(Bass(s, PreviewBassBins), 0.15)
  }

  /** While paused the preview fills every bin with 10. */
  function IdleSpectrum(): (s: seq<Bin>)
    ensures IsSpectrum(s)
    ensures forall i :: 0 <= i < |s| ==> s[i] == 10
  {
    seq(BinCount, _ => 10)
  }

  lemma {:induction false} ConstantSum(s: seq<Bin>, n: nat, v: Bin)
    requires n <= |s|
    requires forall i :: 0 <= i < |s| ==> s[i] == v
    ensures SumBins(s, n) == v * n
  {
    if n > 0 {
      ConstantSum(s, n - 1, v);
    }
  }

  /**
   * The spectrum the preview hands to the video frame: the analyser's bins
   * while it is live (an analyser exists and the track plays), the fill of
   * 10s otherwise.
   */
  function PreviewSpectrum(live: bool, analysed: seq<Bin>): (s: seq<Bin>)
    requires IsSpectrum(analysed)
    ensures IsSpectrum(s)
    ensures live ==> s == analysed
    ensures !live ==> forall i :: 0 <= i < |s| ==> s[i] == 10
  {
    if live then analysed else IdleSpectrum()
  }

  /**
   * The live preview's logo scale: pulsing with the four lowest bins while
   * live, reset to exactly 1 otherwise.
   */
  function PreviewLogoScale(live: bool, analysed: seq<Bin>): (k: real)
    requires IsSpectrum(analysed)
    ensures 1.0 <= k <= 1.15
    ensures !live ==> k == 1.0
    ensures live ==> k == Swell(Bass(analysed, PreviewBassBins), 0.15)
  {
    if live then LogoScale(analysed) else 1.0
  }

  /**
   * While paused, the video frame's six-bin bass is the fill value 10, so the
   * artwork pulses at 1 + (10/255)*0.15 = 1 + 1/170 and the background zooms
   * by 1 + 1/510: slightly above rest, not at rest.
   */
  lemma IdleBass(analysed: seq<Bin>)
    requires IsSpectrum(analysed)
    ensures Bass(PreviewSpectrum(false, analysed), VideoBassBins) == 10.0
    ensures Pulse(PreviewSpectrum(false, analysed)) == 1.0 + 1.0 / 170.0
    ensures BackgroundZoom(PreviewSpectrum(false, analysed)) == 1.0 + 1.0 / 510.0
  {
    ConstantSum(IdleSpectrum(), VideoBassBins, 10);
  }

  // ---------------------------------------------------------------------
  // Bin indices read by each visualiser
  // ---------------------------------------------------------------------

  const TrapNationBars: nat := 120

  /** The trap-nation ring mirrors its bins: bar `i` and bar `120 - i` share a bin. */
  function TrapNationIndex(i: nat): (d: nat)
    requires i < TrapNationBars
    ensures d <= TrapNationBars / 2
  {
    if i < TrapNationBars / 2 then i else TrapNationBars - i
  }

  lemma TrapNationMirror(i: nat)
    requires 0 < i < TrapNationBars
    ensures TrapNationIndex(i) == TrapNationIndex(TrapNationBars - i)
  {
  }

  /** Every bin index the chosen visualiser reads in one frame; `cols` is the matrix column count. */
  function ReadIndices(v: VisualizerKind, cols: nat): (r: seq<nat>)
  {
    match v
    case TrapNation => seq(TrapNationBars, i requires 0 <= i < TrapNationBars => TrapNationIndex(i) * 2)
    case Eclipse => seq(32, i => i * 4)
    case Bars => seq(64, i => i * 2)
    case DualBars => seq(64, i => i * 2)
    case Matrix => seq(cols, i => i % 128)
    case _ => []
  }

  /** No visualiser reads past bin 126, so with 256 bins the `|| 0` fallback never applies. */
  lemma ReadsInRange(v: VisualizerKind, cols: nat)
    ensures forall i :: 0 <= i < |ReadIndices(v, cols)| ==> ReadIndices(v, cols)[i] <= 127
    ensures v != Matrix ==> forall i :: 0 <= i < |ReadIndices(v, cols)| ==> ReadIndices(v, cols)[i] <= 126
  {
  }

  /** The length of a bar for bin value `val` when the full value 255 maps to `full`. */
  function BarLength(val: Bin, full: real): (len: real)
    requires full >= 0.0
    ensures 0.0 <= len <= full
    ensures val == 0 ==> len == 0.0
    ensures val == 255 ==> len == full
  {
    PartBounds(val as real / 255.0, full);
    Part(val as real / 255.0, full)
  }
}
