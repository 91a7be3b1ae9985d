/** The active-call panel: its mute and hold switches and what it shows. */
module ActiveCall {
  import Durations

  /** What the panel shows: the number, the `MM:SS` call timer, the "On Hold"
      badge, and the titles of the two switches. */
  datatype Panel = Panel(
    phoneNumber: string,
    timer: string,
    onHoldBadge: bool,
    muteTitle: string,
    holdTitle: string)

  class CallControls {
    var isMuted: bool
    var isOnHold: bool

    /** A panel opens neither muted nor on hold. */
    constructor ()
      ensures !isMuted && !isOnHold
    {
      isMuted, isOnHold := false, false;
    }

    /** Flips mute; hold is untouched. */
    method ToggleMute()
      modifies this
      ensures isMuted == !old(isMuted)
      ensures isOnHold == old(isOnHold)
    {
      isMuted := !isMuted;
    }

    /** Flips hold; mute is untouched. */
    method ToggleHold()
      modifies this
      ensures isOnHold == !old(isOnHold)
      ensures isMuted == old(isMuted)
    {
      isOnHold := !isOnHold;
    }

    /** The panel for a call to `phoneNumber` that has lasted `duration`
        seconds: the badge shows exactly while on hold, and each switch's
        title names the action a click performs. */
    function Render(phoneNumber: string, duration: int): (p: Panel)
      reads this
      ensures p.onHoldBadge <==> isOnHold
      ensures p.muteTitle == (if isMuted then "Unmute" else "Mute")
      ensures p.holdTitle == (if isOnHold then "Resume" else "Hold")
      ensures p.timer == Durations.FormatMinutesSeconds(duration) && p.phoneNumber == phoneNumber
    {
      Panel(phoneNumber, Durations.FormatMinutesSeconds(duration), isOnHold,
            if isMuted then "Unmute" else "Mute",
            if isOnHold then "Resume" else "Hold")
    }
  }

  /** Two clicks on the mute switch leave both switches as they were. */
  method ToggleMuteTwice(c: CallControls)
    modifies c
    ensures c.isMuted == old(c.isMuted) && c.isOnHold == old(c.isOnHold)
  {
    c.ToggleMute();
    c.ToggleMute();
  }

  /** Two clicks on the hold switch leave both switches as they were. */
  method ToggleHoldTwice(c: CallControls)
    modifies c
    ensures c.isMuted == old(c.isMuted) && c.isOnHold == old(c.isOnHold)
  {
    c.ToggleHold();
    c.ToggleHold();
  }
}
