/**
 * The landing screen's serial field and activation request.  Every keystroke
 * reformats the field as `XXX-XXX-XXX`: upper-case, only letters and digits,
 * at most nine of them, dashes inserted after the third and sixth.  Only a
 * complete serial (eleven characters) is sent to the server.
 */
module SerialEntry {
  import opened Wrappers
  import opened Text
  import opened LicenseApi

  predicate IsSerialChar(c: char) {
    IsUpper(c) || IsDigit(c)
  }

  /** `s.toUpperCase().replace(/[^A-Z0-9]/g, '')`. */
  function CleanSerial(s: string): (r: string)
    ensures |r| <= |s|
    ensures forall i :: 0 <= i < |r| ==> IsSerialChar(r[i])
  {
    if |s| == 0 then ""
    else
      var c := UpperChar(s[|s| - 1]);
      CleanSerial(s[..|s| - 1]) + (if IsSerialChar(c) then [c] else [])
  }

  /** The cleaned characters, cut to nine. */
  function SerialCore(s: string): (r: string)
    ensures |r| <= 9
    ensures forall i :: 0 <= i < |r| ==> IsSerialChar(r[i])
  {
    var v := CleanSerial(s);
    if |v| > 9 then v[..9] else v
  }

  /** Dashes go after the third and sixth characters, but only when more follow. */
  function Dashed(v: string): (r: string)
    requires |v| <= 9
  {
    if |v| > 6 then v[..3] + "-" + v[3..6] + "-" + v[6..]
    else if |v| > 3 then v[..3] + "-" + v[3..]
    else v
  }

  /** `handleInput`'s formatting of the raw field value. */
  function FormatSerial(s: string): (r: string)
    ensures |r| <= 11
  {
    Dashed(SerialCore(s))
  }

  /** `s.replace(/-/g, '')`. */
  function RemoveDashes(s: string): (r: string)
    ensures |r| <= |s|
  {
    if |s| == 0 then ""
    else RemoveDashes(s[..|s| - 1]) + (if s[|s| - 1] == '-' then [] else [s[|s| - 1]])
  }

  lemma {:induction false} RemoveDashesAppend(a: string, b: string)
    ensures RemoveDashes(a + b) == RemoveDashes(a) + RemoveDashes(b)
    decreases |b|
  {
    if |b| == 0 {
      assert a + b == a;
    } else {
      RemoveDashesAppend(a, b[..|b| - 1]);
      assert (a + b)[..|a + b| - 1] == a + b[..|b| - 1];
    }
  }

  lemma {:induction false} RemoveDashesNone(s: string)
    requires forall i :: 0 <= i < |s| ==> s[i] != '-'
    ensures RemoveDashes(s) == s
    decreases |s|
  {
    if |s| > 0 {
      RemoveDashesNone(s[..|s| - 1]);
    }
  }

  /** Only the dashes the formatter inserted are not serial characters. */
  lemma DashedShape(v: string)
    requires |v| <= 9
    requires forall i :: 0 <= i < |v| ==> IsSerialChar(v[i])
    ensures var r := Dashed(v);
      && |r| == |v| + (if |v| > 6 then 2 else if |v| > 3 then 1 else 0)
      && (forall i :: 0 <= i < |r| ==> (r[i] == '-' <==> (i == 3 && |v| > 3) || (i == 7 && |v| > 6)))
      && (forall i :: 0 <= i < |r| ==> IsSerialChar(r[i]) || r[i] == '-')
  {
  }

  /** A dash between two parts disappears and nothing else does. */
  lemma DashJoin(a: string, b: string)
    ensures RemoveDashes(a + "-" + b) == RemoveDashes(a) + RemoveDashes(b)
  {
    var d := "-";
    assert RemoveDashes(d) == "" by {
      assert d[..|d| - 1] == "";
    }
    RemoveDashesAppend(a, d);
    RemoveDashesAppend(a + d, b);
  }

  /** Removing the dashes gives back exactly the cleaned characters. */
  lemma DashedRoundTrip(v: string)
    requires |v| <= 9
    requires forall i :: 0 <= i < |v| ==> IsSerialChar(v[i])
    ensures RemoveDashes(Dashed(v)) == v
  {
    if |v| > 6 {
      var a, b, c := v[..3], v[3..6], v[6..];
      RemoveDashesNone(a);
      RemoveDashesNone(b);
      RemoveDashesNone(c);
      DashJoin(a, b);
      DashJoin(a + "-" + b, c);
      assert a + b + c == v;
    } else if |v| > 3 {
      var a, b := v[..3], v[3..];
      RemoveDashesNone(a);
      RemoveDashesNone(b);
      DashJoin(a, b);
      assert a + b == v;
    } else {
      RemoveDashesNone(v);
    }
  }

  /**
   * The formatted field holds only upper-case letters, digits and the two
   * inserted dashes, and removing the dashes leaves the first nine letters
   * and digits of the input, upper-cased.
   */
  lemma FormatSerialSpec(s: string)
    ensures var r := FormatSerial(s);
      && (forall i :: 0 <= i < |r| ==> IsSerialChar(r[i]) || r[i] == '-')
      && RemoveDashes(r) == SerialCore(s)
      && (|r| == 11 <==> |CleanSerial(s)| >= 9)
  {
    DashedShape(SerialCore(s));
    DashedRoundTrip(SerialCore(s));
  }

  /** Cleaning a string of serial characters and dashes just drops the dashes. */
  lemma {:induction false} CleanFormatted(r: string)
    requires forall i :: 0 <= i < |r| ==> IsSerialChar(r[i]) || r[i] == '-'
    ensures CleanSerial(r) == RemoveDashes(r)
    decreases |r|
  {
    if |r| > 0 {
      CleanFormatted(r[..|r| - 1]);
    }
  }

  /** Typing the formatted value back in changes nothing. */
  lemma FormatIdempotent(s: string)
    ensures FormatSerial(FormatSerial(s)) == FormatSerial(s)
  {
    var r := FormatSerial(s);
    FormatSerialSpec(s);
    CleanFormatted(r);
    assert CleanSerial(r) == SerialCore(s);
  }

  lemma FormatExamples()
    ensures FormatSerial("ab-c") == "ABC"
    ensures FormatSerial("x1y2") == "X1Y-2"
  {
    assert CleanSerial("a") == "A";
    assert CleanSerial("ab") == "AB";
    assert "ab-"[..2] == "ab";
    assert CleanSerial("ab-") == "AB";
    assert "ab-c"[..3] == "ab-";
    assert CleanSerial("ab-c") == "ABC";
    assert CleanSerial("x") == "X";
    assert "x1"[..1] == "x";
    assert CleanSerial("x1") == "X1";
    assert "x1y"[..2] == "x1";
    assert CleanSerial("x1y") == "X1Y";
    assert "x1y2"[..3] == "x1y";
    assert CleanSerial("x1y2") == "X1Y2";
  }

  // ---------------------------------------------------------------------
  // Screen state and activation
  // ---------------------------------------------------------------------

  datatype Landing = Landing(serial: string, error: Option<string>)

  /** `initialError || null`: an empty message shows no error. */
  function Initial(initialError: Option<string>): (l: Landing)
    ensures l.serial == ""
    ensures l.error.Some? <==> initialError.Some? && initialError.value != ""
    ensures l.error.Some? ==> l.error == initialError
  {
    Landing("", if initialError.Some? && initialError.value != "" then initialError else None)
  }

  /** Each keystroke reformats the field and clears the error. */
  function Input(l: Landing, raw: string): (n: Landing)
    ensures n.error.None?
    ensures RemoveDashes(n.serial) == SerialCore(raw)
  {
    FormatSerialSpec(raw);
    Landing(FormatSerial(raw), None)
  }

  const FormatError: string := "Invalid serial format (XXX-XXX-XXX)"
  const NotFound: string := "Serial number not found."
  const ActivationFailed: string := "Activation failed. Please contact support."
  const ConnectionError: string := "Connection error. Please check internet."

  function DeviceLimitMessage(limit: Json): string {
    "Device limit reached (" + Show(limit) + " devices max)."
  }

  /** The request is only made for a complete serial. */
  predicate Complete(l: Landing) {
    |l.serial| == 11
  }

  /**
   * What pressing "activate" leads to.  `Activated` stores the serial and
   * enters the application; `Refused` shows a message and stays.
   */
  datatype ActivateOutcome =
    | Activated(stored: string)
    | Refused(message: string, requested: bool)

  /** `reply` is the parsed reply, `None` when the request or the parse threw. */
  function Activate(l: Landing, reply: Option<Reply>): (o: ActivateOutcome)
    ensures !Complete(l) ==> o == Refused(FormatError, false)
    ensures o.Activated? <==> Complete(l) && reply.Some? && Accepted(reply.value)
    ensures o.Activated? ==> o.stored == l.serial
    ensures Complete(l) && reply.None? ==> o == Refused(ConnectionError, true)
  {
    if |l.serial| != 11 then Refused(FormatError, false)
    else match reply
      case None => Refused(ConnectionError, true)
      case Some(r) =>
        if Accepted(r) then Activated(l.serial)
        else if r.error == Str(DeviceLimitReached) then Refused(DeviceLimitMessage(r.limit), true)
        else if r.error == Str("not_found") then Refused(NotFound, true)
        else Refused(ActivationFailed, true)
  }

  /** A refused reply explains itself by its `error` field, never by `reason`. */
  lemma RefusalMessage(l: Landing, r: Reply)
    requires Complete(l) && !Accepted(r)
    ensures var o := Activate(l, Some(r));
      && o.Refused? && o.requested
      && (r.error == Str(DeviceLimitReached) ==> o.message == DeviceLimitMessage(r.limit))
      && (r.error == Str("not_found") ==> o.message == NotFound)
      && (r.error != Str(DeviceLimitReached) && r.error != Str("not_found") ==> o.message == ActivationFailed)
  {
  }

  /** A serial is sent only once nine letters or digits have been typed. */
  lemma CompleteAfterNine(l: Landing, raw: string)
    ensures Complete(Input(l, raw)) <==> |CleanSerial(raw)| >= 9
  {
    FormatSerialSpec(raw);
  }

  /** A stored serial always has the `XXX-XXX-XXX` shape. */
  lemma StoredShape(l: Landing, raw: string, reply: Option<Reply>)
    ensures var o := Activate(Input(l, raw), reply);
      o.Activated? ==>
        && |o.stored| == 11 && o.stored[3] == '-' && o.stored[7] == '-'
        && forall i :: 0 <= i < 11 && i != 3 && i != 7 ==> IsSerialChar(o.stored[i])
  {
    FormatSerialSpec(raw);
    DashedShape(SerialCore(raw));
  }
}
