/**
 * Static peak normalisation: one scan for the largest absolute sample over all
 * channels, then a single gain that brings that peak to the target level,
 * applied only when it differs from 1 by more than a small tolerance.
 */
module Normalize {
  import opened Numeric
  import opened Audio

  /** Gains within this distance of 1 are not applied. */
  const GainTolerance: real := 0.001

  /** The largest absolute sample of one channel (0 for an empty channel). */
  function ChannelPeak(xs: seq<real>): (m: real)
    ensures m >= 0.0
  {
    if |xs| == 0 then 0.0 else Max(ChannelPeak(xs[..|xs| - 1]), Abs(xs[|xs| - 1]))
  }

  /** The largest absolute sample over every channel (0 when there is none). */
  function Peak(chs: seq<seq<real>>): (m: real)
    ensures m >= 0.0
  {
    if |chs| == 0 then 0.0 else Max(Peak(chs[..|chs| - 1]), ChannelPeak(chs[|chs| - 1]))
  }

  /** No sample of a channel is louder than its peak, and a non-zero peak is some sample's magnitude. */
  lemma {:induction false} ChannelPeakIsMax(xs: seq<real>)
    ensures forall i :: 0 <= i < |xs| ==> Abs(xs[i]) <= ChannelPeak(xs)
    ensures ChannelPeak(xs) == 0.0 || exists i :: 0 <= i < |xs| && Abs(xs[i]) == ChannelPeak(xs)
    decreases |xs|
  {
    if |xs| > 0 {
      var n := |xs|;
      var init := xs[..n - 1];
      ChannelPeakIsMax(init);
      assert forall i :: 0 <= i < n - 1 ==> init[i] == xs[i];
      if ChannelPeak(xs) != 0.0 && ChannelPeak(xs) != Abs(xs[n - 1]) {
        var i :| 0 <= i < |init| && Abs(init[i]) == ChannelPeak(init);
        assert Abs(xs[i]) == ChannelPeak(xs);
      }
    }
  }

  /** No sample is louder than the peak, and a non-zero peak is some sample's magnitude. */
  lemma {:induction false} PeakIsMax(chs: seq<seq<real>>)
    ensures forall c, i :: 0 <= c < |chs| && 0 <= i < |chs[c]| ==> Abs(chs[c][i]) <= Peak(chs)
    ensures Peak(chs) == 0.0 || exists c, i :: 0 <= c < |chs| && 0 <= i < |chs[c]| && Abs(chs[c][i]) == Peak(chs)
    decreases |chs|
  {
    if |chs| > 0 {
      var n := |chs|;
      var init := chs[..n - 1];
      PeakIsMax(init);
      ChannelPeakIsMax(chs[n - 1]);
      assert forall c :: 0 <= c < n - 1 ==> init[c] == chs[c];
      if Peak(chs) != 0.0 {
        if Peak(chs) == ChannelPeak(chs[n - 1]) {
          var i :| 0 <= i < |chs[n - 1]| && Abs(chs[n - 1][i]) == ChannelPeak(chs[n - 1]);
          assert Abs(chs[n - 1][i]) == Peak(chs);
        } else {
          var c, i :| 0 <= c < |init| && 0 <= i < |init[c]| && Abs(init[c][i]) == Peak(init);
          assert Abs(chs[c][i]) == Peak(chs);
        }
      }
    }
  }

  /** The peak is 0 exactly when every sample is silent. */
  lemma PeakZeroIffSilent(chs: seq<seq<real>>)
    ensures Peak(chs) == 0.0 <==> forall c, i :: 0 <= c < |chs| && 0 <= i < |chs[c]| ==> chs[c][i] == 0.0
  {
    PeakIsMax(chs);
    if Peak(chs) != 0.0 {
      var c, i :| 0 <= c < |chs| && 0 <= i < |chs[c]| && Abs(chs[c][i]) == Peak(chs);
      assert chs[c][i] != 0.0;
    }
  }

  /** The peak scan as the source performs it: channel by channel, sample by sample. */
  method FindPeak(chs: seq<seq<real>>) returns (m: real)
    ensures m == Peak(chs)
  {
    m := 0.0;
    var c := 0;
    while c < |chs|
      invariant 0 <= c <= |chs|
      invariant m == Peak(chs[..c])
    {
      var data := chs[c];
      var i := 0;
      while i < |data|
        invariant 0 <= i <= |data|
        invariant m == Max(Peak(chs[..c]), ChannelPeak(data[..i]))
      {
        var a := Abs(data[i]);
        if a > m {
          m := a;
        }
        assert data[..i + 1][..i] == data[..i];
        i := i + 1;
      }
      assert data[..i] == data;
      assert chs[..c + 1][..c] == chs[..c];
      c := c + 1;
    }
    assert chs[..c] == chs;
  }

  /** One sample multiplied by the gain `g`. */
  function Amp(x: real, g: real): real {
    x * g
  }

  /** Every sample of a channel multiplied by `g`. */
  function ScaleChannel(xs: seq<real>, g: real): (r: seq<real>)
    ensures |r| == |xs|
    ensures forall i :: 0 <= i < |xs| ==> r[i] == Amp(xs[i], g)
  {
    seq(|xs|, i requires 0 <= i < |xs| => Amp(xs[i], g))
  }

  /** Every sample of every channel multiplied by `g`. */
  function Scale(chs: seq<seq<real>>, g: real): (r: seq<seq<real>>)
    ensures |r| == |chs|
    ensures forall c :: 0 <= c < |chs| ==> r[c] == ScaleChannel(chs[c], g)
  {
    seq(|chs|, c requires 0 <= c < |chs| => ScaleChannel(chs[c], g))
  }

  lemma AbsAmp(x: real, g: real)
    requires g >= 0.0
    ensures Abs(Amp(x, g)) == Amp(Abs(x), g)
  {
  }

  lemma AmpMonotone(u: real, v: real, g: real)
    requires u <= v && g >= 0.0
    ensures Amp(u, g) <= Amp(v, g)
  {
  }

  /** The peak is the only value that bounds every sample and is zero or attained. */
  lemma PeakUnique(chs: seq<seq<real>>, m: real)
    requires m >= 0.0
    requires forall c, i :: 0 <= c < |chs| && 0 <= i < |chs[c]| ==> Abs(chs[c][i]) <= m
    requires m == 0.0 || exists c, i :: 0 <= c < |chs| && 0 <= i < |chs[c]| && Abs(chs[c][i]) == m
    ensures Peak(chs) == m
  {
    PeakIsMax(chs);
    if Peak(chs) != 0.0 {
      var c, i :| 0 <= c < |chs| && 0 <= i < |chs[c]| && Abs(chs[c][i]) == Peak(chs);
      assert Peak(chs) <= m;
    }
    if m != 0.0 {
      var c, i :| 0 <= c < |chs| && 0 <= i < |chs[c]| && Abs(chs[c][i]) == m;
      assert m <= Peak(chs);
    }
  }

  lemma PeakBound(chs: seq<seq<real>>, c: nat, i: nat)
    requires c < |chs| && i < |chs[c]|
    ensures Abs(chs[c][i]) <= Peak(chs)
  {
    PeakIsMax(chs);
  }

  /** A sample whose magnitude is the (non-zero) peak. */
  lemma PeakAttained(chs: seq<seq<real>>) returns (c: nat, i: nat)
    requires Peak(chs) != 0.0
    ensures c < |chs| && i < |chs[c]| && Abs(chs[c][i]) == Peak(chs)
  {
    PeakIsMax(chs);
    c, i :| 0 <= c < |chs| && 0 <= i < |chs[c]| && Abs(chs[c][i]) == Peak(chs);
  }

  lemma ScaledSample(chs: seq<seq<real>>, g: real, c: nat, i: nat)
    requires g >= 0.0 && c < |chs| && i < |chs[c]|
    ensures Abs(Scale(chs, g)[c][i]) == Amp(Abs(chs[c][i]), g)
  {
    AbsAmp(chs[c][i], g);
  }

  /** Scaling by a non-negative gain scales the peak by the same gain. */
  lemma PeakScale(chs: seq<seq<real>>, g: real)
    requires g >= 0.0
    ensures Peak(Scale(chs, g)) == Amp(Peak(chs), g)
  {
    var ys := Scale(chs, g);
    var m := Amp(Peak(chs), g);
    forall c, i | 0 <= c < |ys| && 0 <= i < |ys[c]|
      ensures Abs(ys[c][i]) <= m
    {
      ScaledSample(chs, g, c, i);
      PeakBound(chs, c, i);
      AmpMonotone(Abs(chs[c][i]), Peak(chs), g);
    }
    if Peak(chs) != 0.0 {
      var c, i := PeakAttained(chs);
      ScaledSample(chs, g, c, i);
    }
    PeakUnique(ys, m);
  }

  lemma GainHitsTarget(peak: real, target: real)
    requires peak > 0.0
    ensures Amp(peak, target / peak) == target
  {
  }

  lemma UnitGain(t: real)
    requires t > 0.0
    ensures t / t == 1.0 && !Significant(t / t)
  {
  }

  /** The gain is applied only when it is more than the tolerance away from 1. */
  predicate Significant(g: real) {
    Abs(g - 1.0) > GainTolerance
  }

  /**
   * `normalizeBuffer` with the linear target `10^(targetDb/20)` already
   * computed: silent buffers are returned as they are, otherwise the gain
   * target/peak is applied to every sample when it is significant.
   */
  function NormalizeBuffer(b: AudioBuffer, target: real): (r: AudioBuffer)
    requires target > 0.0
    ensures SameShape(r, b)
    ensures Peak(b.channels) == 0.0 ==> r == b
    ensures Peak(b.channels) > 0.0 && !Significant(target / Peak(b.channels)) ==> r == b
    ensures Peak(b.channels) > 0.0 && Significant(target / Peak(b.channels)) ==> Peak(r.channels) == target
  {
    var peak := Peak(b.channels);
    if peak == 0.0 then b
    else
      var gain := target / peak;
      if Significant(gain) then
        PeakScale(b.channels, gain);
        GainHitsTarget(peak, target);
        b.(channels := Scale(b.channels, gain))
      else b
  }

  /**
   * After normalisation a non-silent buffer's peak is within the tolerance of
   * the target: the gain a second pass would compute is insignificant.
   */
  lemma NormalizeReachesTarget(b: AudioBuffer, target: real)
    requires target > 0.0 && Peak(b.channels) > 0.0
    ensures var r := NormalizeBuffer(b, target);
      Peak(r.channels) > 0.0 && !Significant(target / Peak(r.channels))
  {
    if Significant(target / Peak(b.channels)) {
      UnitGain(target);
    }
  }

  /** Every sample of the result is the input sample times one common gain. */
  lemma NormalizeIsUniformGain(b: AudioBuffer, target: real)
    requires target > 0.0
    ensures exists g :: g > 0.0 && NormalizeBuffer(b, target).channels == Scale(b.channels, g)
  {
    var r := NormalizeBuffer(b, target);
    var peak := Peak(b.channels);
    if peak == 0.0 || !Significant(target / peak) {
      assert Scale(b.channels, 1.0) == b.channels by {
        forall c | 0 <= c < |b.channels| ensures ScaleChannel(b.channels[c], 1.0) == b.channels[c] {
        }
      }
      assert r.channels == Scale(b.channels, 1.0);
    } else {
      assert r.channels == Scale(b.channels, target / peak);
    }
  }

  /** Normalising twice to the same target is the same as normalising once. */
  lemma NormalizeIdempotent(b: AudioBuffer, target: real)
    requires target > 0.0
    ensures NormalizeBuffer(NormalizeBuffer(b, target), target) == NormalizeBuffer(b, target)
  {
    var r := NormalizeBuffer(b, target);
    if r != b {
      NormalizeReachesTarget(b, target);
    }
  }
}
