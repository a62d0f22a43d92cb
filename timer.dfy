/**
 * The countdown timer. It anchors a running countdown to an absolute end time
 * and, on every poll, re-derives the whole seconds left from the clock, so a
 * late or skipped poll cannot make it drift.
 *
 * `setInterval` and `Date.now()` are replaced by the method `Step(nowMs)`,
 * one run of the polling callback at clock reading `nowMs`; the clock never
 * runs backwards (`nowMs >= clockMs`) and reads at least 0.
 */
module Timer {
  import opened Wrappers
  import Utils

  /** One call `onTick(remaining, total)`. */
  datatype Tick = Tick(remaining: int, total: int)

  /** `Math.ceil(ms / 1000)`: the whole seconds that cover `ms` milliseconds. */
  function CeilSeconds(ms: int): (s: int)
    ensures (s - 1) * 1000 < ms <= s * 1000
  {
    if ms % 1000 == 0 then ms / 1000 else ms / 1000 + 1
  }

  /** The poll's `Math.max(0, Math.ceil((targetEndMs - now) / 1000))`. */
  function NextRemaining(targetEndMs: int, nowMs: int): (r: int)
    ensures r >= 0
    ensures r == 0 <==> targetEndMs <= nowMs
    ensures r > 0 ==> (r - 1) * 1000 < targetEndMs - nowMs <= r * 1000
  {
    Utils.Max(0, CeilSeconds(targetEndMs - nowMs))
  }

  /** A later poll never reports more seconds than an earlier one. */
  lemma NextRemainingMonotone(targetEndMs: int, earlier: int, later: int)
    requires earlier <= later
    ensures NextRemaining(targetEndMs, later) <= NextRemaining(targetEndMs, earlier)
  {
  }

  /** A poll at the very instant of `start()` reports the seconds that were left. */
  lemma PollAtStartKeepsRemaining(nowMs: int, remaining: int)
    requires remaining >= 0
    ensures NextRemaining(nowMs + remaining * 1000, nowMs) == remaining
  {
  }

  class Timer {
    var remaining: int
    var total: int
    var running: bool
    /** `targetEndMs`; `None` is `null`. A live interval exists exactly while `running`. */
    var targetEndMs: Option<int>
    /** The latest clock reading the timer has seen. */
    ghost var clockMs: int

    ghost predicate Valid()
      reads this
    {
      && remaining <= total
      && clockMs >= 0
      && (running <==> targetEndMs.Some?)
      && (running ==> 0 < remaining && 0 < targetEndMs.value && targetEndMs.value - clockMs <= remaining * 1000)
    }

    constructor ()
      ensures Valid()
      ensures remaining == 0 && total == 0 && !running && targetEndMs == None && clockMs == 0
    {
      remaining, total, running, targetEndMs := 0, 0, false, None;
      clockMs := 0;
    }

    /** Loads a new duration and stops; no callback fires. */
    method SetDuration(seconds: int)
      requires Valid()
      modifies this
      ensures Valid()
      ensures total == seconds && remaining == seconds
      ensures !running && targetEndMs == None && clockMs == old(clockMs)
    {
      total := seconds;
      remaining := seconds;
      targetEndMs := None;
      Pause();
    }

    /** Starts counting down unless already running or nothing is left. */
    method Start(nowMs: int)
      requires Valid() && nowMs >= clockMs
      modifies this
      ensures Valid() && clockMs == nowMs
      ensures remaining == old(remaining) && total == old(total)
      ensures old(running) || old(remaining) <= 0 ==>
        running == old(running) && targetEndMs == old(targetEndMs)
      ensures !old(running) && old(remaining) > 0 ==>
        running && targetEndMs == Some(nowMs + remaining * 1000)
    {
      clockMs := nowMs;
      if running || remaining <= 0 {
        return;
      }
      running := true;
      targetEndMs := Some(nowMs + remaining * 1000);
    }

    /**
     * One run of the polling callback at clock reading `nowMs`. Returns the
     * `onTick` call it makes, if any, and whether it called `onComplete`.
     */
    method Step(nowMs: int) returns (tick: Option<Tick>, completed: bool)
      requires Valid() && nowMs >= clockMs
      modifies this
      ensures Valid() && clockMs == nowMs && total == old(total)
      ensures !old(running) ==> remaining == old(remaining) && !running && tick == None && !completed
      ensures old(running) ==> remaining == NextRemaining(old(targetEndMs).value, nowMs)
      ensures old(running) ==> 0 <= remaining <= old(remaining)
      ensures tick.Some? <==> remaining != old(remaining)
      ensures tick.Some? ==> tick.value == Tick(remaining, total)
      ensures completed <==> old(running) && remaining == 0
      ensures completed ==> !running && targetEndMs == None
      ensures !completed ==> running == old(running) && targetEndMs == old(targetEndMs)
    {
      clockMs := nowMs;
      tick, completed := None, false;
      if targetEndMs.None? || targetEndMs.value == 0 {
        return;
      }
      var next := NextRemaining(targetEndMs.value, nowMs);
      if next != remaining {
        remaining := next;
        tick := Some(Tick(remaining, total));
      }
      if remaining <= 0 {
        Pause();
        completed := true;
      }
    }

    /** Stops the countdown and keeps the remaining time; pausing twice is pausing once. */
    method Pause()
      modifies this
      ensures !running && targetEndMs == None
      ensures remaining == old(remaining) && total == old(total) && clockMs == old(clockMs)
      ensures remaining <= total && clockMs >= 0 ==> Valid()
    {
      running := false;
      targetEndMs := None;
    }

    /** Restores the full duration, stops, and reports it through one `onTick`. */
    method Reset() returns (tick: Tick)
      requires Valid()
      modifies this
      ensures Valid()
      ensures total == old(total) && remaining == total
      ensures !running && targetEndMs == None && clockMs == old(clockMs)
      ensures tick == Tick(total, total)
    {
      remaining := total;
      Pause();
      tick := Tick(remaining, total);
    }

    /** Releases the interval: the same as `Pause()`, safe to repeat. */
    method Dispose()
      requires Valid()
      modifies this
      ensures Valid()
      ensures !running && targetEndMs == None
      ensures remaining == old(remaining) && total == old(total) && clockMs == old(clockMs)
    {
      Pause();
    }
  }

  /**
   * A two-second countdown polled four times a second past its end: the
   * reported values strictly decrease, completion happens once, and a later
   * `start()` is refused because nothing is left.
   */
  method CountdownScenario() returns (ticks: seq<Tick>, completions: nat, restarted: bool)
    ensures ticks == [Tick(1, 2), Tick(0, 2)]
    ensures completions == 1
    ensures !restarted
  {
    var t := new Timer();
    t.SetDuration(2);
    t.Start(10_000);
    ticks, completions := [], 0;
    var tick, done := t.Step(10_500);
    assert tick == None && !done;
    tick, done := t.Step(11_000);
    assert tick == Some(Tick(1, 2)) && !done;
    ticks := ticks + [tick.value];
    tick, done := t.Step(11_750);
    assert tick == None && !done;
    tick, done := t.Step(12_000);
    assert tick == Some(Tick(0, 2)) && done;
    ticks, completions := ticks + [tick.value], completions + 1;
    tick, done := t.Step(12_250);
    assert tick == None && !done;
    t.Start(13_000);
    restarted := t.running;
  }
}
