/**
 * The tap-tempo button: each tap appends the current time (in milliseconds),
 * drops taps two seconds old or older, and sets the tempo from the mean gap
 * between the remaining taps.
 */
module TapTempo {
  import opened Numeric

  /** Taps this many milliseconds old or older are forgotten. */
  const Window: int := 2000

  /** A tap is kept while it is less than the window old. */
  predicate Recent(t: int, now: int) {
    now - t < Window
  }

  /** `taps.filter(t => now - t < 2000)`: the recent taps, in their original order. */
  function KeepRecent(taps: seq<int>, now: int): (r: seq<int>)
    ensures |r| <= |taps|
    ensures forall t :: t in r <==> t in taps && Recent(t, now)
  {
    if |taps| == 0 then []
    else
      var rest := KeepRecent(taps[..|taps| - 1], now);
      var last := taps[|taps| - 1];
      assert taps == taps[..|taps| - 1] + [last];
      if Recent(last, now) then rest + [last] else rest
  }

  /** The taps after one more tap at `now`. */
  function Tap(taps: seq<int>, now: int): seq<int> {
    KeepRecent(taps + [now], now)
  }

  /** The new tap is always kept, and it is the last tap. */
  lemma NewTapKept(taps: seq<int>, now: int)
    ensures var r := Tap(taps, now); |r| >= 1 && r[|r| - 1] == now
  {
    assert (taps + [now])[..|taps|] == taps;
  }

  /** The gaps between consecutive taps. */
  function Intervals(ts: seq<int>): (gs: seq<int>)
    ensures |ts| >= 1 ==> |gs| == |ts| - 1
    ensures |ts| == 0 ==> gs == []
    ensures forall i :: 0 <= i < |gs| ==> gs[i] == ts[i + 1] - ts[i]
  {
    if |ts| <= 1 then [] else seq(|ts| - 1, i requires 0 <= i < |ts| - 1 => ts[i + 1] - ts[i])
  }

  /** `xs.reduce((a, b) => a + b, 0)`, folding from the left. */
  function Sum(xs: seq<int>): int {
    if |xs| == 0 then 0 else Sum(xs[..|xs| - 1]) + xs[|xs| - 1]
  }

  /** The gaps telescope: together they span from the first tap to the last. */
  lemma {:induction false} SumIntervals(ts: seq<int>)
    requires |ts| >= 1
    ensures Sum(Intervals(ts)) == ts[|ts| - 1] - ts[0]
    decreases |ts|
  {
    if |ts| >= 2 {
      var n := |ts|;
      var init := ts[..n - 1];
      SumIntervals(init);
      IntervalsSnoc(ts, n - 1);
      assert ts[..n] == ts;
      var xs := Intervals(init) + [ts[n - 1] - ts[n - 2]];
      assert xs[..|xs| - 1] == Intervals(init);
      assert init[|init| - 1] == ts[n - 2] && init[0] == ts[0];
    }
  }

  /**
   * The displayed tempo.  A mean gap of zero (two taps in the same
   * millisecond) makes `60000 / avg` infinite, which the button shows as it is.
   */
  datatype Tempo = Bpm(value: int) | Infinite

  /** `Math.round(60000 / avg)`, with a zero mean giving an infinite tempo. */
  function TempoOfMean(avg: real): Tempo {
    if avg == 0.0 then Infinite else Bpm(JsRound(60000.0 / avg))
  }

  /** `total / count` as a JavaScript number. */
  function Mean(total: int, count: int): real
    requires count > 0
  {
    total as real / count as real
  }

  /**
   * The tempo of a tap sequence stated through its span alone: 0 for fewer
   * than two taps, otherwise from the mean gap (last - first) / (n - 1).
   */
  function TempoOf(ts: seq<int>): (t: Tempo)
    ensures |ts| <= 1 ==> t == Bpm(0)
  {
    if |ts| <= 1 then Bpm(0)
    else TempoOfMean(Mean(ts[|ts| - 1] - ts[0], |ts| - 1))
  }

  /** The gap-collecting loop of `handleTap`. */
  method CollectIntervals(ts: seq<int>) returns (intervals: seq<int>)
    requires |ts| >= 1
    ensures intervals == Intervals(ts)
  {
    intervals := [];
    var i := 1;
    while i < |ts|
      invariant 1 <= i <= |ts|
      invariant intervals == Intervals(ts[..i])
    {
      IntervalsSnoc(ts, i);
      intervals := intervals + [ts[i] - ts[i - 1]];
      i := i + 1;
    }
    assert ts[..i] == ts;
  }

  /**
   * `handleTap` as written: filter the taps, collect the gaps, average them
   * and round 60000 over the average.  The result agrees with the span-based
   * reference `TempoOf`.
   */
  method HandleTap(taps: seq<int>, now: int) returns (newTaps: seq<int>, tempo: Tempo)
    ensures newTaps == Tap(taps, now)
    ensures tempo == TempoOf(newTaps)
  {
    newTaps := KeepRecent(taps + [now], now);
    if |newTaps| > 1 {
      var intervals := CollectIntervals(newTaps);
      SumIntervals(newTaps);
      var avg := Mean(Sum(intervals), |intervals|);
      tempo := TempoOfMean(avg);
    } else {
      tempo := Bpm(0);
    }
  }

  lemma IntervalsSnoc(ts: seq<int>, i: nat)
    requires 1 <= i < |ts|
    ensures Intervals(ts[..i + 1]) == Intervals(ts[..i]) + [ts[i] - ts[i - 1]]
  {
    var a := Intervals(ts[..i + 1]);
    var b := Intervals(ts[..i]) + [ts[i] - ts[i - 1]];
    assert |a| == |b|;
    forall k | 0 <= k < |a| ensures a[k] == b[k] {
    }
  }

  /** Steady taps every `gap` milliseconds give round(60000 / gap) beats per minute. */
  lemma SteadyTaps(ts: seq<int>, gap: int)
    requires |ts| >= 2 && gap > 0
    requires forall i :: 0 <= i < |ts| - 1 ==> ts[i + 1] - ts[i] == gap
    ensures TempoOf(ts) == Bpm(JsRound(60000.0 / gap as real))
  {
    SteadySpan(ts, gap);
    SpanOverCount(|ts| - 1, gap);
  }

  lemma {:induction false} SteadySpan(ts: seq<int>, gap: int)
    requires |ts| >= 1
    requires forall i :: 0 <= i < |ts| - 1 ==> ts[i + 1] - ts[i] == gap
    ensures ts[|ts| - 1] - ts[0] == (|ts| - 1) * gap
    decreases |ts|
  {
    if |ts| >= 2 {
      SteadySpan(ts[..|ts| - 1], gap);
    }
  }

  lemma SpanOverCount(n: int, gap: int)
    requires n >= 1
    ensures Mean(n * gap, n) == gap as real
  {
  }

  /** Taps half a second apart read as 120 beats per minute. */
  lemma HalfSecondTaps()
    ensures TempoOf([1000, 1500, 2000]) == Bpm(120)
  {
  }

  /** A tap after a pause of two seconds or more resets the tempo to 0. */
  lemma PauseResets(taps: seq<int>, now: int)
    requires forall t :: t in taps ==> !Recent(t, now)
    ensures Tap(taps, now) == [now]
    ensures TempoOf(Tap(taps, now)) == Bpm(0)
  {
    assert (taps + [now])[..|taps|] == taps;
    NothingRecent(taps, now);
  }

  lemma {:induction false} NothingRecent(taps: seq<int>, now: int)
    requires forall t :: t in taps ==> !Recent(t, now)
    ensures KeepRecent(taps, now) == []
    decreases |taps|
  {
    if |taps| > 0 {
      assert taps[|taps| - 1] in taps;
      NothingRecent(taps[..|taps| - 1], now);
    }
  }
}
