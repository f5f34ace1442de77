/**
 * The rotary EQ knob: a vertical mouse drag changes the value (200 pixels
 * sweep the whole range), the value is shown as a needle angle between -135
 * and 135 degrees and an arc, and labelled in decibels with one decimal.
 */
module Knob {
  import opened Wrappers
  import opened Numeric
  import opened Text
  import opened Types

  /** Pixels of vertical travel that sweep the whole range. */
  const Sensitivity: real := 200.0

  /**
   * `Math.max(min, Math.min(max, startVal + (dy / 200) * (max - min)))` with
   * `dy = startY - y`: dragging up raises the value.
   */
  function DragValue(startVal: real, startY: real, y: real, min: real, max: real): (v: real)
    ensures v >= min
    ensures min <= max ==> v <= max
  {
    Max(min, Min(max, startVal + Part((startY - y) / Sensitivity, max - min)))
  }

  /** Dragging further up never lowers the value. */
  lemma DragMonotone(startVal: real, startY: real, y1: real, y2: real, min: real, max: real)
    requires min <= max && y2 <= y1
    ensures DragValue(startVal, startY, y1, min, max) <= DragValue(startVal, startY, y2, min, max)
  {
    DivMonotone(startY - y1, startY - y2, Sensitivity);
    PartMonotone((startY - y1) / Sensitivity, (startY - y2) / Sensitivity, max - min);
  }

  /** Releasing where the drag began gives back the starting value. */
  lemma DragInPlace(startVal: real, startY: real, min: real, max: real)
    requires min <= startVal <= max
    ensures DragValue(startVal, startY, startY, min, max) == startVal
  {
    assert Part(0.0 / Sensitivity, max - min) == 0.0;
  }

  /** From the bottom of the range, 200 pixels up reaches the top. */
  lemma DragFullSweep(startY: real, min: real, max: real)
    requires min <= max
    ensures DragValue(min, startY, startY - Sensitivity, min, max) == max
  {
    assert (startY - (startY - Sensitivity)) / Sensitivity == 1.0;
  }

  /** Where `value` sits in `[min, max]`, as a fraction. */
  function Percent(value: real, min: real, max: real): (p: real)
    requires min < max
    ensures min <= value <= max ==> 0.0 <= p <= 1.0
    ensures value == min ==> p == 0.0
    ensures value == max ==> p == 1.0
  {
    UnitFraction(value - min, max - min);
    (value - min) / (max - min)
  }

  /** `-135 + percent * 270`: the needle angle in degrees. */
  function Angle(value: real, min: real, max: real): (a: real)
    requires min < max
    ensures min <= value <= max ==> -135.0 <= a <= 135.0
    ensures value == min ==> a == -135.0
    ensures value == max ==> a == 135.0
  {
    var p := Percent(value, min, max);
    if 0.0 <= p <= 1.0 then
      PartBounds(p, 270.0);
      -135.0 + Part(p, 270.0)
    else
      -135.0 + Part(p, 270.0)
  }

  /** The arc is drawn in the active colour past the half-way point. */
  predicate ActiveColour(value: real, min: real, max: real)
    requires min < max
  {
    Percent(value, min, max) > 0.5
  }

  /** The arc turns active exactly when the value passes the middle of the range. */
  lemma ActiveAboveMiddle(value: real, min: real, max: real)
    requires min < max
    ensures ActiveColour(value, min, max) <==> value > (min + max) / 2.0
  {
    var p := Percent(value, min, max);
    var mid := ((min + max) / 2.0 - min) / (max - min);
    assert mid == 0.5 by {
      var r := max - min;
      var x := (min + max) / 2.0 - min;
      assert x == r / 2.0;
      assert mid == x / r;
      assert (x / r) * r == x;
      assert (mid - 0.5) * r == 0.0;
      PositiveFactor(mid - 0.5, r);
      PositiveFactor(0.5 - mid, r);
    }
    if value > (min + max) / 2.0 {
      DivStrict((min + max) / 2.0 - min, value - min, max - min);
    } else {
      DivMonotone(value - min, (min + max) / 2.0 - min, max - min);
    }
  }

  /** The arc's dash length, out of a 100-unit circumference of which 75 form the track. */
  function DashLength(value: real, min: real, max: real): (d: real)
    requires min < max
    ensures min <= value <= max ==> 0.0 <= d <= 75.0
    ensures value == min ==> d == 0.0
    ensures value == max ==> d == 75.0
  {
    var p := Percent(value, min, max);
    if 0.0 <= p <= 1.0 then
      PartBounds(p, 75.0);
      Part(p, 75.0)
    else
      Part(p, 75.0)
  }

  /** The arc and the needle show the same fraction: 75 dash units for every 270 degrees of turn. */
  lemma ArcFollowsNeedle(value: real, min: real, max: real)
    requires min < max
    ensures DashLength(value, min, max) * 270.0 == (Angle(value, min, max) + 135.0) * 75.0
  {
    var p := Percent(value, min, max);
    assert DashLength(value, min, max) == p * 75.0;
    assert Angle(value, min, max) + 135.0 == p * 270.0;
  }

  /** A larger value never draws a shorter arc. */
  lemma DashMonotone(v1: real, v2: real, min: real, max: real)
    requires min < max && v1 <= v2
    ensures DashLength(v1, min, max) <= DashLength(v2, min, max)
  {
    DivMonotone(v1 - min, v2 - min, max - min);
    PartMonotone(Percent(v1, min, max), Percent(v2, min, max), 75.0);
  }

  /** The EQ knobs span the symmetric range, so the flat setting points straight up. */
  lemma FlatIsUpright()
    ensures Angle(0.0, -MaxEqDb, MaxEqDb) == 0.0
    ensures !ActiveColour(0.0, -MaxEqDb, MaxEqDb)
  {
  }

  // ---------------------------------------------------------------------
  // Label
  // ---------------------------------------------------------------------

  /** Tenths of `|v|`, rounded half up: the digits `toFixed(1)` prints. */
  function Tenths(v: real): (n: nat)
    ensures n as real - 0.5 <= Abs(v) * 10.0 < n as real + 0.5
  {
    JsRound(Abs(v) * 10.0)
  }

  /** `v.toFixed(1)`: a minus sign for any negative value, then the tenths with one decimal. */
  function ToFixed1(v: real): (s: string)
  {
    var n := Tenths(v);
    (if v < 0.0 then "-" else "") + NatToString(n / 10) + "." + [DigitChar(n % 10)]
  }

  /** `{value > 0 ? '+' : ''}{value.toFixed(1)}dB`. */
  function Label(v: real): (s: string)
    ensures |s| >= 5 && s[|s| - 2..] == "dB"
    ensures s[0] == '+' <==> v > 0.0
  {
    (if v > 0.0 then "+" else "") + ToFixed1(v) + "dB"
  }

  /**
   * The label carries a '+' exactly for positive values and a '-' exactly
   * for negative ones, ends in "dB", and its digits read back as the value
   * to within half a tenth.
   */
  lemma LabelReadsBack(v: real)
    ensures var s := Label(v);
      && |s| >= 5
      && (s[0] == '+' <==> v > 0.0)
      && (s[0] == '-' <==> v < 0.0)
      && s[|s| - 2..] == "dB"
      && var body := if v != 0.0 then s[1..|s| - 2] else s[..|s| - 2];
         && |body| >= 3
         && body[|body| - 2] == '.'
         && AllDigits(body[..|body| - 2]) && IsDigit(body[|body| - 1])
         && var n := DigitsValue(body[..|body| - 2]) * 10 + (body[|body| - 1] as int - '0' as int);
            n as real - 0.5 <= Abs(v) * 10.0 < n as real + 0.5
  {
    var n := Tenths(v);
    NatToStringRoundTrip(n / 10);
    var whole := NatToString(n / 10);
    var body := whole + "." + [DigitChar(n % 10)];
    var s := Label(v);
    assert s == (if v > 0.0 then "+" else if v < 0.0 then "-" else "") + body + "dB";
    if v != 0.0 {
      assert s[1..|s| - 2] == body;
    } else {
      assert s[..|s| - 2] == body;
    }
    assert body[..|body| - 2] == whole;
    assert n == n / 10 * 10 + n % 10;
  }

  /** Tiny negative values keep their minus sign. */
  lemma LabelExamples()
    ensures Label(0.0) == "0.0dB"
    ensures Label(3.25) == "+3.3dB"
    ensures Label(-12.0) == "-12.0dB"
    ensures Label(-0.04) == "-0.0dB"
  {
    assert Tenths(3.25) == 33;
    assert Tenths(-12.0) == 120;
    assert NatToString(12) == "12" by {
      assert NatToString(1) == "1";
    }
    assert Tenths(-0.04) == 0;
  }

  // ---------------------------------------------------------------------
  // Interaction
  // ---------------------------------------------------------------------

  /** The drag state: where and at which value the mouse went down. */
  datatype Drag = Idle | Dragging(startY: real, startVal: real)

  /** Mouse down on the knob remembers the pointer height and current value. */
  function MouseDown(value: real, y: real): (d: Drag)
    ensures d.Dragging? && d.startVal == value
  {
    Dragging(y, value)
  }

  /** A mouse move reports a new value only during a drag. */
  function MouseMove(d: Drag, y: real, min: real, max: real): (change: Option<real>)
    ensures d.Idle? <==> change.None?
    ensures d.Dragging? && min <= max ==> min <= change.value <= max
  {
    match d
    case Idle => None
    case Dragging(startY, startVal) => Some(DragValue(startVal, startY, y, min, max))
  }

  function MouseUp(d: Drag): (e: Drag)
    ensures e.Idle?
  {
    Idle
  }
}
