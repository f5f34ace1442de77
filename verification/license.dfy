/**
 * The license server's replies and the periodic background check the main
 * screen runs every five seconds: a reply that says the license is invalid,
 * locked, not ok or deactivated ends the session with a reason; a missing
 * saved serial ends it at once; a network failure changes nothing.
 */
module LicenseApi {
  import opened Wrappers
  import opened Text

  /** A field of the server's JSON reply, as JavaScript sees it. */
  datatype Json =
    | Undefined
    | Null
    | Bool(b: bool)
    | Str(s: string)
    | Num(n: int)

  /** JavaScript truthiness of a field. */
  predicate Truthy(v: Json) {
    match v
    case Undefined => false
    case Null => false
    case Bool(b) => b
    case Str(s) => s != ""
    case Num(n) => n != 0
  }

  /** How a field reads when interpolated into a template string. */
  function Show(v: Json): string {
    match v
    case Undefined => "undefined"
    case Null => "null"
    case Bool(b) => if b then "true" else "false"
    case Str(s) => s
    case Num(n) => IntToString(n)
  }

  /** The fields of a reply the application looks at. */
  datatype Reply = Reply(
    ok: Json,
    valid: Json,
    activated: Json,
    forceLock: Json,
    reason: Json,
    error: Json,
    limit: Json)

  const DeviceLimitReached: string := "device_limit_reached"

  // ---------------------------------------------------------------------
  // Background validation
  // ---------------------------------------------------------------------

  predicate IsInvalid(r: Reply) {
    r.valid == Bool(false) || r.valid == Str("false")
  }

  predicate IsLocked(r: Reply) {
    r.forceLock == Bool(true) || r.forceLock == Str("true")
  }

  predicate IsNotOk(r: Reply) {
    r.ok == Bool(false)
  }

  predicate IsDeactivated(r: Reply) {
    r.activated == Bool(false) || r.activated == Str("false") || r.activated == Str("FALSE")
  }

  /** The reply ends the session. */
  predicate Revoked(r: Reply) {
    IsLocked(r) || IsInvalid(r) || IsNotOk(r) || IsDeactivated(r)
  }

  const SessionExpired: string := "Session expired."
  const Deactivated: string := "Session terminated. License deactivated."
  const LimitReached: string := "Session terminated. Activation limit reached."
  const LockedByAdmin: string := "Session terminated. License locked by administrator."

  /** The message shown when a reply ends the session; the device limit wins over the lock. */
  function RevokeReason(r: Reply): (m: string)
    ensures m in {Deactivated, LimitReached, LockedByAdmin}
    ensures m == LimitReached <==> r.reason == Str(DeviceLimitReached) || r.error == Str(DeviceLimitReached)
    ensures m == LockedByAdmin <==> IsLocked(r) && r.reason != Str(DeviceLimitReached) && r.error != Str(DeviceLimitReached)
  {
    if r.reason == Str(DeviceLimitReached) || r.error == Str(DeviceLimitReached) then LimitReached
    else if IsLocked(r) then LockedByAdmin
    else Deactivated
  }

  /**
   * What one background check does.  `Lock` stops playback when the reply
   * revoked the license, clears the saved serial in that case, and hands the
   * reason to the landing screen.
   */
  datatype CheckOutcome =
    | Keep
    | Lock(reason: string, stopAudio: bool, clearSerial: bool)

  /**
   * One run of the check: `savedSerial` is the stored serial (`None` when
   * absent) and `reply` is the parsed reply, `None` when the request or the
   * parse threw.
   */
  function Validate(savedSerial: Option<string>, reply: Option<Reply>): (o: CheckOutcome)
    ensures (savedSerial.None? || savedSerial == Some("")) ==> o == Lock(SessionExpired, false, false)
    ensures savedSerial.Some? && savedSerial.value != "" ==>
      (o.Lock? <==> reply.Some? && Revoked(reply.value))
    ensures o.Lock? && o.reason != SessionExpired ==> o.stopAudio && o.clearSerial
  {
    if savedSerial.None? || savedSerial.value == "" then Lock(SessionExpired, false, false)
    else match reply
      case None => Keep
      case Some(r) => if Revoked(r) then Lock(RevokeReason(r), true, true) else Keep
  }

  /** A reply that confirms the license in the expected shape keeps the session. */
  lemma HealthyReplyKeeps(serial: string, limit: Json)
    requires serial != ""
    ensures Validate(Some(serial), Some(Reply(Bool(true), Bool(true), Bool(true), Bool(false), Undefined, Undefined, limit))) == Keep
  {
  }

  /** A network failure never ends a session that has a saved serial. */
  lemma NetworkFailureKeeps(serial: string)
    requires serial != ""
    ensures Validate(Some(serial), None) == Keep
  {
  }

  /** An administrator lock is reported as such unless the device limit was also reached. */
  lemma LockReason(serial: string, r: Reply)
    requires serial != "" && IsLocked(r)
    requires r.reason != Str(DeviceLimitReached) && r.error != Str(DeviceLimitReached)
    ensures Validate(Some(serial), Some(r)) == Lock(LockedByAdmin, true, true)
  {
  }

  // ---------------------------------------------------------------------
  // Activation reply
  // ---------------------------------------------------------------------

  /** `data.ok && data.activated`: both fields truthy. */
  predicate Accepted(r: Reply) {
    Truthy(r.ok) && Truthy(r.activated)
  }

  /**
   * Activation tests truthiness, the background check tests for the literal
   * values `false`, `"false"` and `"FALSE"`; a reply whose `activated` is the
   * string "false" is accepted by the first and revoked by the second.
   */
  lemma StringFalseActivatesThenRevokes(r: Reply)
    requires Truthy(r.ok) && r.activated == Str("false")
    ensures Accepted(r) && Revoked(r)
  {
  }

  /** Any reply the activation accepts and whose flags are booleans passes the background check unless locked or invalid. */
  lemma AcceptedBooleanReplyKeeps(r: Reply)
    requires Accepted(r)
    requires r.activated.Bool? && r.ok.Bool?
    ensures Revoked(r) <==> IsLocked(r) || IsInvalid(r)
  {
  }
}
