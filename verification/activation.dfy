/**
 * The application shell's activation gate: whether the main screen or the
 * landing screen is shown, and the last error handed to the landing screen.
 */
module AppGate {
  import opened Wrappers
  import LicenseApi
  import SerialEntry

  datatype Gate = Gate(activated: bool, error: Option<string>)

  datatype Screen = Landing(initialError: Option<string>) | Main

  /** On start the app trusts any non-empty saved serial; there is no error yet. */
  function Init(savedSerial: Option<string>): (g: Gate)
    ensures g.activated <==> savedSerial.Some? && savedSerial.value != ""
    ensures g.error.None?
  {
    Gate(savedSerial.Some? && savedSerial.value != "", None)
  }

  /** `handleLock`: leave the app; a non-empty message replaces the error, otherwise the old one stays. */
  function Lock(g: Gate, message: Option<string>): (n: Gate)
    ensures !n.activated
    ensures message.Some? && message.value != "" ==> n.error == message
    ensures message.None? || message.value == "" ==> n.error == g.error
  {
    if message.Some? && message.value != "" then Gate(false, message) else Gate(false, g.error)
  }

  /** `handleSuccess`: enter the app and forget the error. */
  function Success(g: Gate): (n: Gate)
    ensures n.activated && n.error.None?
  {
    Gate(true, None)
  }

  /** The landing screen, with the current error, is shown exactly when the app is not activated. */
  function Render(g: Gate): (s: Screen)
    ensures s.Landing? <==> !g.activated
    ensures s.Landing? ==> s.initialError == g.error
  {
    if !g.activated then Landing(g.error) else Main
  }

  /** Locking then succeeding returns to the main screen with no error, whatever came before. */
  lemma LockThenSuccess(g: Gate, message: Option<string>)
    ensures Render(Success(Lock(g, message))) == Main
    ensures Success(Lock(g, message)) == Success(g)
  {
  }

  /**
   * A background check that ends the session brings up the landing screen,
   * and the landing screen opens showing the check's reason.
   */
  lemma RevocationShowsReason(g: Gate, saved: Option<string>, reply: Option<LicenseApi.Reply>)
    requires LicenseApi.Validate(saved, reply).Lock?
    ensures var reason := LicenseApi.Validate(saved, reply).reason;
      var s := Render(Lock(g, Some(reason)));
      && s == Landing(Some(reason))
      && SerialEntry.Initial(s.initialError).error == Some(reason)
  {
    var o := LicenseApi.Validate(saved, reply);
    assert o.reason != "" by {
      if o.reason != LicenseApi.SessionExpired {
        assert o.reason in {LicenseApi.Deactivated, LicenseApi.LimitReached, LicenseApi.LockedByAdmin};
      }
    }
  }

  /** A successful activation on the landing screen leads to the main screen. */
  lemma ActivationEntersApp(g: Gate, l: SerialEntry.Landing, reply: Option<LicenseApi.Reply>)
    requires SerialEntry.Activate(l, reply).Activated?
    ensures Render(Success(g)) == Main
    ensures |SerialEntry.Activate(l, reply).stored| == 11
  {
  }
}
