/**
 * `KillableTimer` reduced to its sequential meaning: one `terminate` flag that
 * `kill` raises and nothing lowers, and a wait that reports whether it ran its
 * full time (the flag is down) or was cut short (the flag is up). How long a
 * wait lasts is not modelled.
 */
module Timer {

  class KillableTimer {
    var terminate: bool

    constructor ()
      ensures !terminate
    {
      terminate := false;
    }

    /** `kill`: raises the flag; calling it again changes nothing. */
    method Kill()
      modifies this
      ensures terminate
    {
      terminate := true;
    }

    /** `wait_for`: false exactly when the timer has been killed. */
    method WaitFor() returns (fullTime: bool)
      ensures fullTime <==> !terminate
    {
      fullTime := !terminate;
    }
  }
}
