/**
 * The server's copy of the drift-corrected timer (src/server/utilities.ts).
 * Its numeric helpers are the ones in module Utilities. The timer differs
 * from the client's in two guards, both kept as written:
 *  - `m_deltaTime` is assigned only when the previous time is falsy, that is
 *    on the first run (undefined, giving NaN) or after a run at time 0;
 *  - `stop` acts only when no timer is pending, so it never cancels one.
 */
module ServerUtilities {
  import opened Options
  import opened Utilities

  class HighResolutionTimer {
    var totalTicks: int
    var timer: Option<TimerHandle>
    var startTime: Option<real>
    var currentTime: Option<real>
    /** `None` stands for NaN, the result of `now - undefined`. */
    var deltaTime: Option<real>
    const duration: real

    constructor(duration: real)
      ensures this.duration == duration
      ensures totalTicks == 0 && timer == None && startTime == None && currentTime == None
      ensures deltaTime == Some(0.0)
    {
      this.duration := duration;
      totalTicks := 0;
      timer := None;
      startTime := None;
      currentTime := None;
      deltaTime := Some(0.0);
    }

    function IdealBoundary(ticks: int): real
      requires startTime.Some?
      reads this
    {
      startTime.value + Times(ticks, duration)
    }

    /** `!x` on an optional number: undefined or zero. */
    static predicate Falsy(x: Option<real>) {
      x.None? || x == Some(0.0)
    }

    method Run(now: real, handle: TimerHandle) returns (nextTick: real)
      modifies this
      ensures currentTime == Some(now)
      ensures startTime == (if Falsy(old(startTime)) then Some(now) else old(startTime))
      ensures old(currentTime).None? ==> deltaTime == None
      ensures old(currentTime) == Some(0.0) ==> deltaTime == Some(now)
      ensures !Falsy(old(currentTime)) ==> deltaTime == old(deltaTime)
      ensures totalTicks == old(totalTicks) + 1
      ensures timer == Some(handle)
      ensures now + nextTick == IdealBoundary(totalTicks)
    {
      var lastTime := currentTime;
      currentTime := Some(now);
      if Falsy(startTime) {
        startTime := currentTime;
      }
      if Falsy(lastTime) {
        deltaTime := if lastTime.None? then None else Some(now - lastTime.value);
      }
      nextTick := duration - (now - (startTime.value + Times(totalTicks, duration)));
      TimesAdd(totalTicks, 1, duration);
      totalTicks := totalTicks + 1;
      timer := Some(handle);
    }

    /**
     * `if (!m_timer) { clearTimeout(m_timer); m_timer = undefined; }`: the
     * branch runs only when there is nothing to clear. Returns the handle
     * that was cancelled, which is therefore always `None`.
     */
    method Stop() returns (cleared: Option<TimerHandle>)
      modifies this
      ensures cleared == None
      ensures timer == old(timer)
      ensures totalTicks == old(totalTicks) && startTime == old(startTime)
      ensures currentTime == old(currentTime) && deltaTime == old(deltaTime)
    {
      cleared := None;
      if timer.None? {
        cleared := timer;
        timer := None;
      }
    }
  }

  /**
   * After the first run the delta is NaN, and no later run at a non-zero
   * time ever replaces it.
   */
  method RunTwice(t: HighResolutionTimer, first: real, second: real, h1: TimerHandle, h2: TimerHandle)
    returns (d1: Option<real>, d2: Option<real>)
    requires t.currentTime.None?
    requires first != 0.0
    modifies t
    ensures d1 == None && d2 == None
  {
    var _ := t.Run(first, h1);
    d1 := t.deltaTime;
    var _ := t.Run(second, h2);
    d2 := t.deltaTime;
  }

  /** A timer armed by a run is still armed after `stop`: nothing is cancelled. */
  method StopAfterRun(t: HighResolutionTimer, now: real, handle: TimerHandle) returns (cleared: Option<TimerHandle>)
    modifies t
    ensures cleared == None && t.timer == Some(handle)
  {
    var _ := t.Run(now, handle);
    cleared := t.Stop();
  }
}
