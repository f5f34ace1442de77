/**
 * The waveform strip: a bar every second pixel showing the peak of the
 * first channel over that pixel's window of samples, the playhead position,
 * and click-and-drag scrubbing.
 */
module Waveform {
  import opened Numeric

  /** `Math.ceil(length / width)` for a positive integer width: samples per pixel. */
  function Step(length: nat, width: nat): (s: nat)
    requires width > 0
    ensures width * s >= length
    ensures s > 0 ==> width * (s - 1) < length
  {
    var s := (length + width - 1) / width;
    assert width * s + (length + width - 1) % width == length + width - 1;
    s
  }

  /** `(height / 2) * 0.9`: the full-scale bar half-height. */
  function Amp(height: real): (a: real)
    requires height >= 0.0
    ensures 0.0 <= a <= height / 2.0
    ensures height > 0.0 ==> a < height / 2.0
  {
    height / 2.0 * 0.9
  }

  /**
   * The inner loop's running maximum over `data[lo..lo + n]`: reads past the
   * end give NaN, which never compares greater, so they are skipped.
   */
  function WindowPeak(data: seq<real>, lo: nat, n: nat): (m: real)
    ensures m >= 0.0
    ensures forall k :: lo <= k < lo + n && k < |data| ==> Abs(data[k]) <= m
    ensures m == 0.0 || exists k :: lo <= k < lo + n && k < |data| && m == Abs(data[k])
  {
    if n == 0 then 0.0
    else
      var m := WindowPeak(data, lo, n - 1);
      var k := lo + n - 1;
      if k < |data| && Abs(data[k]) > m then Abs(data[k]) else m
  }

  /** The bars drawn for a canvas `width` pixels wide: one at every even `x`. */
  function BarCount(width: nat): (n: nat)
    ensures 2 * n >= width && 2 * n < width + 2
  {
    (width + 1) / 2
  }

  /** The half-height of the bar at pixel `x`; a window starting past the end gives the minimum bar. */
  function BarAt(data: seq<real>, x: nat, step: nat, amp: real): (h: real)
    ensures h >= 1.0
  {
    var index := x * step;
    var peak := if index < |data| then WindowPeak(data, index, step) else 0.0;
    Max(1.0, Part(peak, amp))
  }

  /** Every bar of one frame, as a reference for the drawing loop. */
  function Bars(data: seq<real>, width: nat, height: real): (bars: seq<real>)
    requires width > 0 && height >= 0.0
    ensures |bars| == BarCount(width)
  {
    var step := Step(|data|, width);
    var amp := Amp(height);
    seq(BarCount(width), b requires 0 <= b < BarCount(width) => BarAt(data, 2 * b, step, amp))
  }

  /** The inner loop: the running maximum over one window. */
  method PeakOfWindow(data: seq<real>, index: nat, step: nat) returns (max: real)
    ensures max == WindowPeak(data, index, step)
  {
    max := 0.0;
    var j := 0;
    while j < step
      invariant 0 <= j <= step
      invariant max == WindowPeak(data, index, j)
    {
      if index + j < |data| {
        var v := Abs(data[index + j]);
        if v > max {
          max := v;
        }
      }
      j := j + 1;
    }
  }

  /** The drawing loop `for (i = 0; i < width; i += 2)`, collecting each bar's half-height. */
  method DrawBars(data: seq<real>, width: nat, height: real) returns (bars: seq<real>)
    requires width > 0 && height >= 0.0
    ensures bars == Bars(data, width, height)
  {
    var step := Step(|data|, width);
    var amp := Amp(height);
    bars := [];
    var i := 0;
    while i < width
      invariant i == 2 * |bars| && i < width + 2
      invariant forall b :: 0 <= b < |bars| ==> bars[b] == BarAt(data, 2 * b, step, amp)
    {
      var max := 0.0;
      var index := i * step;
      if index < |data| {
        max := PeakOfWindow(data, index, step);
      }
      bars := bars + [Max(1.0, Part(max, amp))];
      i := i + 2;
    }
  }

  /** Silence draws every bar at the one-pixel minimum. */
  lemma SilentBars(data: seq<real>, width: nat, height: real)
    requires width > 0 && height >= 0.0
    requires forall k :: 0 <= k < |data| ==> data[k] == 0.0
    ensures forall b :: 0 <= b < |Bars(data, width, height)| ==> Bars(data, width, height)[b] == 1.0
  {
    var step := Step(|data|, width);
    var amp := Amp(height);
    forall b | 0 <= b < BarCount(width) ensures BarAt(data, 2 * b, step, amp) == 1.0 {
      var index := 2 * b * step;
      if index < |data| {
        var p := WindowPeak(data, index, step);
        assert p == 0.0;
      }
    }
  }

  /** Samples within full scale never draw a bar taller than the full-scale height (or the minimum). */
  lemma BarsWithinScale(data: seq<real>, width: nat, height: real)
    requires width > 0 && height >= 0.0
    requires forall k :: 0 <= k < |data| ==> -1.0 <= data[k] <= 1.0
    ensures forall b :: 0 <= b < |Bars(data, width, height)| ==>
      1.0 <= Bars(data, width, height)[b] <= Max(1.0, Amp(height))
  {
    var step := Step(|data|, width);
    var amp := Amp(height);
    forall b | 0 <= b < BarCount(width) ensures BarAt(data, 2 * b, step, amp) <= Max(1.0, amp) {
      var index := 2 * b * step;
      var peak := if index < |data| then WindowPeak(data, index, step) else 0.0;
      PartBounds(peak, amp);
    }
  }

  // ---------------------------------------------------------------------
  // Playhead and scrubbing
  // ---------------------------------------------------------------------

  /** `(currentTime / validDuration) * width`, where a non-positive duration counts as one second. */
  function PlayPosition(currentTime: real, duration: real, width: real): (x: real)
    ensures duration <= 0.0 ==> x == Part(currentTime, width)
    ensures duration > 0.0 && width >= 0.0 && 0.0 <= currentTime <= duration ==> 0.0 <= x <= width
    ensures duration > 0.0 && currentTime == duration ==> x == width
  {
    var d := if duration > 0.0 then duration else 1.0;
    UnitFraction(currentTime, d);
    var q := currentTime / d;
    if 0.0 <= q <= 1.0 && width >= 0.0 then
      PartBounds(q, width);
      Part(q, width)
    else
      Part(q, width)
  }

  /** `x / width` is below zero, or at least one, exactly where the pointer is off the strip. */
  lemma PointerFraction(x: real, width: real)
    requires width > 0.0
    ensures x <= 0.0 ==> x / width <= 0.0
    ensures x >= width ==> x / width >= 1.0
  {
    if x <= 0.0 {
      DivMonotone(x, 0.0, width);
    }
    if x >= width {
      DivMonotone(width, x, width);
    }
  }

  /** `Math.min(1, Math.max(0, x / width)) * duration`: the time under the pointer. */
  function ScrubTime(x: real, width: real, duration: real): (t: real)
    requires width > 0.0
    ensures duration >= 0.0 ==> 0.0 <= t <= duration
    ensures x <= 0.0 ==> t == 0.0
    ensures x >= width ==> t == duration
  {
    PointerFraction(x, width);
    var q := Clamp(x / width, 0.0, 1.0);
    if duration >= 0.0 then
      PartBounds(q, duration);
      Part(q, duration)
    else
      Part(q, duration)
  }

  /** Dragging further right never moves the playhead left. */
  lemma ScrubMonotone(x1: real, x2: real, width: real, duration: real)
    requires width > 0.0 && duration >= 0.0 && x1 <= x2
    ensures ScrubTime(x1, width, duration) <= ScrubTime(x2, width, duration)
  {
    DivMonotone(x1, x2, width);
    PartMonotone(Clamp(x1 / width, 0.0, 1.0), Clamp(x2 / width, 0.0, 1.0), duration);
  }

  /** The callbacks the strip makes to its parent. */
  datatype Call = ScrubStart | ScrubTo(time: real) | ScrubEnd

  datatype Event =
    | Down(x: real)
    | Move(x: real)
    | Up

  /**
   * One pointer event, given whether a buffer is loaded, the strip's width and
   * the track duration; `Up` also stands for the pointer leaving the strip.
   */
  function Handle(dragging: bool, e: Event, hasBuffer: bool, width: real, duration: real): (r: (bool, seq<Call>))
    requires width > 0.0
    ensures e.Down? && !hasBuffer ==> r == (dragging, [])
    ensures e.Down? && hasBuffer ==> r == (true, [ScrubStart, ScrubTo(ScrubTime(e.x, width, duration))])
    ensures e.Move? ==> r.0 == dragging && (r.1 == if dragging then [ScrubTo(ScrubTime(e.x, width, duration))] else [])
    ensures e.Up? ==> !r.0 && (r.1 == if dragging then [ScrubEnd] else [])
  {
    match e
    case Down(x) =>
      if !hasBuffer then (dragging, [])
      else (true, [ScrubStart, ScrubTo(ScrubTime(x, width, duration))])
    case Move(x) =>
      if dragging then (dragging, [ScrubTo(ScrubTime(x, width, duration))]) else (dragging, [])
    case Up =>
      if dragging then (false, [ScrubEnd]) else (false, [])
  }

  /** A run of events from a given dragging state: the final state and every callback in order. */
  function Run(dragging: bool, es: seq<Event>, hasBuffer: bool, width: real, duration: real): (r: (bool, seq<Call>))
    requires width > 0.0
    decreases |es|
  {
    if |es| == 0 then (dragging, [])
    else
      var first := Handle(dragging, es[0], hasBuffer, width, duration);
      var rest := Run(first.0, es[1..], hasBuffer, width, duration);
      (rest.0, first.1 + rest.1)
  }

  function CountEnds(cs: seq<Call>): nat {
    if |cs| == 0 then 0 else (if cs[0] == ScrubEnd then 1 else 0) + CountEnds(cs[1..])
  }

  function CountStarts(cs: seq<Call>): nat {
    if |cs| == 0 then 0 else (if cs[0] == ScrubStart then 1 else 0) + CountStarts(cs[1..])
  }

  lemma {:induction false} CountAppend(a: seq<Call>, b: seq<Call>)
    ensures CountEnds(a + b) == CountEnds(a) + CountEnds(b)
    ensures CountStarts(a + b) == CountStarts(a) + CountStarts(b)
    decreases |a|
  {
    if |a| > 0 {
      CountAppend(a[1..], b);
      assert (a + b)[0] == a[0];
      assert (a + b)[1..] == a[1..] + b;
    } else {
      assert a + b == b;
    }
  }

  /**
   * Without a buffer nothing is reported and no drag begins; with one, every
   * scrub end is preceded by its own scrub start, and every scrub time lies
   * inside the track.
   */
  lemma {:induction false} RunBalanced(dragging: bool, es: seq<Event>, hasBuffer: bool, width: real, duration: real)
    requires width > 0.0 && duration >= 0.0
    ensures var r := Run(dragging, es, hasBuffer, width, duration);
      && (!hasBuffer && !dragging ==> r == (false, []))
      && CountEnds(r.1) <= CountStarts(r.1) + (if dragging then 1 else 0)
      && (r.0 ==> CountEnds(r.1) < CountStarts(r.1) + (if dragging then 1 else 0))
      && forall i :: 0 <= i < |r.1| && r.1[i].ScrubTo? ==> 0.0 <= r.1[i].time <= duration
    decreases |es|
  {
    if |es| > 0 {
      var first := Handle(dragging, es[0], hasBuffer, width, duration);
      RunBalanced(first.0, es[1..], hasBuffer, width, duration);
      var rest := Run(first.0, es[1..], hasBuffer, width, duration);
      CountAppend(first.1, rest.1);
      assert CountEnds([ScrubEnd]) == 1 && CountStarts([ScrubEnd]) == 0;
      assert CountStarts([ScrubStart, ScrubTo(0.0)]) == 1;
      var cs := first.1 + rest.1;
      forall i | 0 <= i < |cs| && cs[i].ScrubTo? ensures 0.0 <= cs[i].time <= duration {
        if i >= |first.1| {
          assert cs[i] == rest.1[i - |first.1|];
        }
      }
    }
  }
}
