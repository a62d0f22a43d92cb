/**
 * The legacy countdown timer: every one-second interval subtracts exactly one
 * second, and `start()` only refuses when already running.
 *
 * `setInterval` is replaced by the method `Tick()`, one run of the interval
 * callback; the interval exists exactly while the timer runs.
 */
module LegacyTimer {
  import Anchored = Timer

  class LegacyTimer {
    var remaining: int
    var total: int
    var running: bool

    ghost predicate Valid()
      reads this
    {
      remaining <= total
    }

    constructor ()
      ensures Valid()
      ensures remaining == 0 && total == 0 && !running
    {
      remaining, total, running := 0, 0, false;
    }

    method SetDuration(seconds: int)
      modifies this
      ensures Valid()
      ensures total == seconds && remaining == seconds && !running
    {
      total := seconds;
      remaining := seconds;
      Pause();
    }

    /** Starts the interval unless one is running; there is no check on `remaining`. */
    method Start()
      modifies this
      ensures running
      ensures remaining == old(remaining) && total == old(total)
    {
      if running {
        return;
      }
      running := true;
    }

    /**
     * One run of the interval callback: one second less, always reported
     * through `onTick`, then stop and complete once nothing is left.
     */
    method Tick() returns (tick: Anchored.Tick, completed: bool)
      requires running
      modifies this
      ensures remaining == old(remaining) - 1 && total == old(total)
      ensures tick == Anchored.Tick(remaining, total)
      ensures completed <==> remaining <= 0
      ensures running <==> !completed
      ensures old(Valid()) ==> Valid()
    {
      remaining := remaining - 1;
      tick := Anchored.Tick(remaining, total);
      completed := false;
      if remaining <= 0 {
        Pause();
        completed := true;
      }
    }

    method Pause()
      modifies this
      ensures !running
      ensures remaining == old(remaining) && total == old(total)
    {
      running := false;
    }

    /** Restores the full duration, stops, and reports it through one `onTick`. */
    method Reset() returns (tick: Anchored.Tick)
      modifies this
      ensures Valid()
      ensures total == old(total) && remaining == total && !running
      ensures tick == Anchored.Tick(total, total)
    {
      remaining := total;
      Pause();
      tick := Anchored.Tick(remaining, total);
    }
  }

  /**
   * Unlike the anchored timer, starting a zero-length countdown is accepted:
   * the first tick reports -1 seconds and then completes.
   */
  method ZeroDurationScenario() returns (tick: Anchored.Tick, completed: bool, stillRunning: bool)
    ensures tick == Anchored.Tick(-1, 0)
    ensures completed && !stillRunning
  {
    var t := new LegacyTimer();
    t.SetDuration(0);
    t.Start();
    tick, completed := t.Tick();
    stillRunning := t.running;
  }
}
