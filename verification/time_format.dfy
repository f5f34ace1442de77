/**
 * `formatTime`: seconds rendered as minutes and seconds, each padded to two
 * digits.  A missing or NaN time shows "00:00".
 */
module TimeFormat {
  import opened Wrappers
  import opened Numeric
  import opened Text

  /** JavaScript's `x % 60` on numbers: the remainder takes the sign of `x`. */
  function JsRem60(x: real): (r: real)
    ensures x >= 0.0 ==> 0.0 <= r < 60.0
    ensures x < 0.0 ==> -60.0 < r <= 0.0
  {
    x - 60.0 * Trunc(x / 60.0) as real
  }

  /** `Math.floor(seconds / 60)`. */
  function Minutes(seconds: real): int {
    Floor(seconds / 60.0)
  }

  /** `Math.floor(seconds % 60)`. */
  function Seconds(seconds: real): int {
    Floor(JsRem60(seconds))
  }

  /** `formatTime`, with `None` standing for NaN and `undefined`. */
  function FormatTime(seconds: Option<real>): (r: string)
    ensures seconds == None ==> r == "00:00"
    ensures |r| >= 5 && ':' in r
  {
    match seconds
    case None => "00:00"
    case Some(s) => PadStart2(IntToString(Minutes(s))) + ":" + PadStart2(IntToString(Seconds(s)))
  }

  /** For a non-negative time the two fields are a whole-minute split of the whole seconds. */
  lemma ClockFields(s: real)
    requires s >= 0.0
    ensures Minutes(s) >= 0
    ensures 0 <= Seconds(s) < 60
    ensures Minutes(s) * 60 + Seconds(s) == Floor(s)
  {
    var m := Minutes(s);
    assert Trunc(s / 60.0) == m;
    assert JsRem60(s) == s - 60.0 * m as real;
    FloorShift(s, 60 * m);
  }

  lemma FloorShift(x: real, k: int)
    ensures Floor(x - k as real) == Floor(x) - k
  {
  }

  /** Leading zeros do not change the value of a digit string. */
  lemma {:induction false} ZeroPadValue(s: string)
    requires AllDigits(s)
    ensures AllDigits(PadStart2(s)) && DigitsValue(PadStart2(s)) == DigitsValue(s)
    decreases |s|
  {
    if |s| < 2 {
      var z := seq(2 - |s|, _ => '0');
      LeadingZeros(z, s);
    }
  }

  lemma {:induction false} LeadingZeros(z: string, s: string)
    requires forall i :: 0 <= i < |z| ==> z[i] == '0'
    requires AllDigits(s)
    ensures AllDigits(z + s) && DigitsValue(z + s) == DigitsValue(s)
    decreases |s|
  {
    if |s| == 0 {
      assert z + s == z;
      AllZeros(z);
    } else {
      var init := s[..|s| - 1];
      LeadingZeros(z, init);
      assert (z + s)[..|z + s| - 1] == z + init;
    }
  }

  lemma {:induction false} AllZeros(z: string)
    requires forall i :: 0 <= i < |z| ==> z[i] == '0'
    ensures AllDigits(z) && DigitsValue(z) == 0
    decreases |z|
  {
    if |z| > 0 {
      AllZeros(z[..|z| - 1]);
    }
  }

  /** Two padded fields joined by a colon read back as the two numbers. */
  lemma ClockReadsBack(m: nat, sec: nat)
    requires m < 100 && sec < 100
    ensures var r := PadStart2(IntToString(m)) + ":" + PadStart2(IntToString(sec));
      && |r| == 5 && r[2] == ':'
      && AllDigits(r[..2]) && AllDigits(r[3..])
      && DigitsValue(r[..2]) == m && DigitsValue(r[3..]) == sec
  {
    TwoDigits(m);
    TwoDigits(sec);
    var a := PadStart2(NatToString(m));
    var b := PadStart2(NatToString(sec));
    var r := a + ":" + b;
    assert r[..2] == a && r[3..] == b;
    NatToStringRoundTrip(m);
    NatToStringRoundTrip(sec);
    ZeroPadValue(NatToString(m));
    ZeroPadValue(NatToString(sec));
  }

  /**
   * For a non-negative time under 100 minutes the display is "MM:SS": five
   * characters, two digits each side of the colon, reading back as the
   * minutes and seconds whose total is the whole number of seconds.
   */
  lemma FormatTimeReadsBack(s: real)
    requires 0.0 <= s < 6000.0
    ensures var r := FormatTime(Some(s));
      && |r| == 5 && r[2] == ':'
      && AllDigits(r[..2]) && AllDigits(r[3..])
      && DigitsValue(r[..2]) * 60 + DigitsValue(r[3..]) == Floor(s)
      && DigitsValue(r[3..]) < 60
  {
    ClockFields(s);
    ClockReadsBack(Minutes(s), Seconds(s));
  }

  lemma TwoDigits(n: nat)
    requires n < 100
    ensures |PadStart2(NatToString(n))| == 2
  {
    if n >= 10 {
      assert NatToString(n) == NatToString(n / 10) + [DigitChar(n % 10)];
    }
  }

  /** Missing and NaN times show zero, as does time zero. */
  lemma FormatTimeZero()
    ensures FormatTime(None) == "00:00"
    ensures FormatTime(Some(0.0)) == "00:00"
  {
    assert Minutes(0.0) == 0 && Seconds(0.0) == 0;
    assert IntToString(0) == "0";
    assert PadStart2("0") == "00";
    JoinZero();
  }

  lemma JoinZero()
    ensures "00" + ":" + "00" == "00:00"
  {
  }

  /** Fractions of a second are dropped. */
  lemma FormatTimeWhole()
    ensures FormatTime(Some(125.7)) == "02:05"
  {
    assert Minutes(125.7) == 2 && Seconds(125.7) == 5;
    assert NatToString(2) == "2" && NatToString(5) == "5";
  }

  /** A negative time shows both fields signed. */
  lemma FormatTimeNegative()
    ensures FormatTime(Some(-30.0)) == "-1:-30"
  {
    NegativeFields();
    SignedStrings();
    assert PadStart2("-1") == "-1" && PadStart2("-30") == "-30";
    JoinSigned();
  }

  lemma JoinSigned()
    ensures "-1" + ":" + "-30" == "-1:-30"
  {
  }

  lemma NegativeFields()
    ensures Minutes(-30.0) == -1 && Seconds(-30.0) == -30
  {
    assert -30.0 / 60.0 == -0.5;
    assert Trunc(-0.5) == 0;
    assert JsRem60(-30.0) == -30.0;
  }

  lemma SignedStrings()
    ensures IntToString(-30) == "-30" && IntToString(-1) == "-1"
  {
    assert NatToString(3) == "3" && NatToString(0) == "0";
    assert NatToString(30) == NatToString(3) + [DigitChar(0)];
    assert NatToString(1) == "1";
  }
}
