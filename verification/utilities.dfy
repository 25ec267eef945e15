/**
 * The numeric helpers of src/public/utilities.ts, which src/server/utilities.ts
 * repeats line for line (`toInt`/`isInt` there are `toInteger`/`isInteger`
 * here), and the client's drift-corrected timer.
 *
 * JavaScript numbers are modelled as `real`: no rounding, no NaN and no
 * infinities. Where the source would produce NaN (a remainder by zero) the
 * model returns `None`. JavaScript's `%` truncates toward zero, so it is
 * written out as `Rem` below rather than taken from Dafny's Euclidean `%`.
 */
module Utilities {
  import opened Options

  type PositiveReal = x: real | x > 0.0 witness 1.0

  /** `Math.PI`, kept abstract: all that is used of it is that it is positive. */
  const Pi: PositiveReal

  const TwoTo31: int := 0x8000_0000
  const TwoTo32: int := 0x1_0000_0000

  // ---------------------------------------------------------------------
  // Real arithmetic facts, each small enough for the solver on its own
  // ---------------------------------------------------------------------

  lemma DivMul(x: real, p: real)
    requires p != 0.0
    ensures (x / p) * p == x
  {
  }

  lemma DivNegated(a: real, b: real)
    requires b != 0.0
    ensures a / (-b) == -(a / b)
    ensures (-a) / b == -(a / b)
  {
  }

  lemma DivNonNegative(a: real, b: real)
    requires a >= 0.0 && b > 0.0
    ensures a / b >= 0.0
  {
  }

  lemma MulLe(x: real, y: real, b: real)
    requires b > 0.0 && x <= y
    ensures x * b <= y * b
  {
  }

  lemma MulLt(x: real, y: real, b: real)
    requires b > 0.0 && x < y
    ensures x * b < y * b
  {
  }

  /** Scaling k <= q < k + 1 by a positive b. */
  lemma {:induction false} ScaledBetween(k: int, q: real, b: real)
    requires b > 0.0 && k as real <= q < k as real + 1.0
    ensures Times(k, b) <= q * b
    ensures q * b < Times(k, b) + b
  {
    ScaledBelowSuccessor(k, q, b);
    MulLe(k as real, q, b);
  }

  lemma {:induction false} ScaledBelowSuccessor(k: int, q: real, b: real)
    requires b > 0.0 && q < k as real + 1.0
    ensures q * b < Times(k, b) + b
  {
    MulLt(q, (k + 1) as real, b);
    TimesSuccessor(k, b);
  }

  lemma Distrib(b: real, x: real, y: real)
    ensures b * (x + y) == b * x + b * y
  {
  }

  // ---------------------------------------------------------------------
  // Truncation, the remainder operator and congruence
  // ---------------------------------------------------------------------

  /** Rounding toward zero, as JavaScript's `%` and `| 0` do. */
  function Trunc(x: real): (r: int)
    ensures x >= 0.0 ==> r as real <= x < r as real + 1.0
    ensures x <= 0.0 ==> r as real - 1.0 < x <= r as real
  {
    if x >= 0.0 then x.Floor else -((-x).Floor)
  }

  lemma TruncNegated(x: real)
    ensures Trunc(-x) == -Trunc(x)
  {
  }

  /** The multiple k·m, as a term the congruence quantifier can hang on. */
  function Times(k: int, m: real): real {
    (k as real) * m
  }

  lemma TimesNegated(k: int, m: real)
    ensures Times(-k, m) == -Times(k, m)
    ensures Times(-k, m) == Times(k, -m)
  {
  }

  lemma TimesSuccessor(k: int, m: real)
    ensures Times(k + 1, m) == Times(k, m) + m
  {
  }

  lemma TimesAdd(j: int, k: int, m: real)
    ensures Times(j + k, m) == Times(j, m) + Times(k, m)
  {
    Distrib(m, j as real, k as real);
  }

  /** x and y differ by a whole multiple of m. */
  ghost predicate Congruent(x: real, y: real, m: real) {
    exists k: int :: x - y == Times(k, m)
  }

  lemma CongruentRefl(x: real, m: real)
    ensures Congruent(x, x, m)
  {
    assert x - x == Times(0, m);
  }

  lemma CongruentShift(x: real, m: real)
    ensures Congruent(x + m, x, m)
    ensures Congruent(x - m, x, m)
  {
    assert (x + m) - x == Times(1, m);
    assert (x - m) - x == Times(-1, m);
  }

  lemma {:induction false} CongruentTrans(x: real, y: real, z: real, m: real)
    requires Congruent(x, y, m) && Congruent(y, z, m)
    ensures Congruent(x, z, m)
  {
    var j: int :| x - y == Times(j, m);
    var k: int :| y - z == Times(k, m);
    TimesAdd(j, k, m);
    assert x - z == Times(j + k, m);
  }

  lemma {:induction false} RemQuotientBounds(a: real, b: real, q: real, k: int)
    requires b > 0.0 && q * b == a && k as real <= q < k as real + 1.0
    ensures 0.0 <= a - Times(k, b) < b
  {
    ScaledBetween(k, q, b);
  }

  lemma {:induction false} RemNonNegative(a: real, b: real)
    requires a >= 0.0 && b > 0.0
    ensures 0.0 <= a - Times(Trunc(a / b), b) < b
  {
    DivMul(a, b);
    DivNonNegative(a, b);
    var k := Trunc(a / b);
    RemQuotientBounds(a, b, a / b, k);
  }

  /** The sign of the divisor does not matter. */
  lemma {:induction false} RemDivisorSign(a: real, b: real)
    requires b != 0.0
    ensures a - Times(Trunc(a / b), b) == a - Times(Trunc(a / (-b)), -b)
  {
    DivNegated(a, b);
    TruncNegated(a / b);
    TimesNegated(Trunc(a / b), b);
  }

  /** Negating the dividend negates the remainder. */
  lemma {:induction false} RemDividendSign(a: real, b: real)
    requires b != 0.0
    ensures (-a) - Times(Trunc((-a) / b), b) == -(a - Times(Trunc(a / b), b))
  {
    DivNegated(a, b);
    TruncNegated(a / b);
    TimesNegated(Trunc(a / b), b);
  }

  lemma {:induction false} RemBounds(a: real, b: real)
    requires b != 0.0
    ensures var r := a - Times(Trunc(a / b), b);
      (a >= 0.0 ==> 0.0 <= r < Abs(b)) && (a <= 0.0 ==> -Abs(b) < r <= 0.0)
  {
    if b > 0.0 {
      if a >= 0.0 {
        RemNonNegative(a, b);
      } else {
        RemNonNegative(-a, b);
        RemDividendSign(-a, b);
      }
    } else {
      RemDivisorSign(a, b);
      if a >= 0.0 {
        RemNonNegative(a, -b);
      } else {
        RemNonNegative(-a, -b);
        RemDividendSign(-a, -b);
      }
    }
  }

  function Abs(x: real): real {
    if x < 0.0 then -x else x
  }

  /**
   * JavaScript's `a % b` for b != 0: the remainder of a truncated division,
   * which carries the sign of the dividend.
   */
  function Rem(a: real, b: real): (r: real)
    requires b != 0.0
    ensures a >= 0.0 ==> 0.0 <= r < Abs(b)
    ensures a <= 0.0 ==> -Abs(b) < r <= 0.0
    ensures Congruent(r, a, b)
  {
    RemBounds(a, b);
    assert (a - Times(Trunc(a / b), b)) - a == Times(-Trunc(a / b), b) by {
      TimesNegated(Trunc(a / b), b);
    }
    a - Times(Trunc(a / b), b)
  }

  // ---------------------------------------------------------------------
  // modulo, wrap, wrapAngle
  // ---------------------------------------------------------------------

  /** `((x % m) + m) % m`: the remainder moved to the sign of the modulus. */
  function PositiveRem(x: real, m: real): (r: real)
    requires m != 0.0
    ensures m > 0.0 ==> 0.0 <= r < m
    ensures m < 0.0 ==> m < r <= 0.0
    ensures Congruent(r, x, m)
  {
    var first := Rem(x, m);
    var second := Rem(first + m, m);
    CongruentShift(first, m);
    CongruentTrans(second, first + m, first, m);
    CongruentTrans(second, first, x, m);
    second
  }

  /** Taking one period off a value above a bound keeps its class. */
  lemma {:induction false} DropPeriod(s: real, v: real, m: real, bound: real)
    requires Congruent(s, v, m)
    ensures Congruent(if s > bound then s - m else s, v, m)
  {
    if s > bound {
      CongruentShift(s, m);
      CongruentTrans(s - m, s, v, m);
    }
  }

  /** `modulo(n, m)`; a zero modulus gives NaN, here `None`. */
  function Modulo(n: real, m: real): (r: Option<real>)
    ensures r.Some? <==> m != 0.0
    ensures m > 0.0 ==> 0.0 <= r.value < m
    ensures m < 0.0 ==> m < r.value <= 0.0
    ensures m != 0.0 ==> Congruent(r.value, n, m)
  {
    if m == 0.0 then None else Some(PositiveRem(n, m))
  }

  /**
   * `wrap(value, min, max)`: reduces value modulo max - min and moves a result
   * above max down by one period. When the range straddles zero the result
   * lies in [min, max]. An empty range (max == min) gives NaN, here `None`.
   */
  function Wrap(value: real, min: real, max: real): (r: Option<real>)
    ensures r.Some? <==> max != min
    ensures min <= 0.0 <= max && min < max ==> min <= r.value <= max
    ensures max != min ==> Congruent(r.value, value, max - min)
  {
    var sum := max - min;
    if sum == 0.0 then None
    else
      var reduced := PositiveRem(value, sum);
      DropPeriod(reduced, value, sum, max);
      Some(if reduced > max then reduced - sum else reduced)
  }

  /** `wrapAngle`: an angle in (-π, π] that differs from the input by whole turns. */
  function WrapAngle(angle: real): (r: real)
    ensures -(Pi as real) < r <= Pi
    ensures Congruent(r, angle, 2.0 * Pi)
  {
    var pi2: real := Pi * 2.0;
    var reduced := PositiveRem(angle, pi2);
    DropPeriod(reduced, angle, pi2, Pi);
    if reduced > Pi then reduced - pi2 else reduced
  }

  /** `wrapAngle` is `wrap` over the range from -π to π. */
  lemma WrapAngleIsWrap(angle: real)
    ensures Wrap(angle, -(Pi as real), Pi) == Some(WrapAngle(angle))
  {
  }

  /** An angle already in (-π, π] is left alone. */
  lemma {:induction false} WrapAngleIdentity(angle: real)
    requires -(Pi as real) < angle <= Pi
    ensures WrapAngle(angle) == angle
  {
    var pi2: real := Pi * 2.0;
    if angle >= 0.0 {
      RemSmall(angle, pi2);
      RemLarge(angle + pi2, pi2);
    } else {
      RemSmallNegative(angle, pi2);
      RemSmall(angle + pi2, pi2);
    }
  }

  /** As written, `wrap(5, 2, 4)` is 1: a range that lies wholly above zero is not respected. */
  lemma {:induction false} WrapLeavesRange()
    ensures Wrap(5.0, 2.0, 4.0) == Some(1.0)
  {
    RemLarge(1.0 + 2.0, 2.0);
    assert Rem(5.0, 2.0) == 1.0 by {
      assert Trunc(5.0 / 2.0) == 2;
    }
  }

  /** `wrap` as evidently intended: the representative in (min, max] of the value modulo max - min. */
  function WrapInto(value: real, min: real, max: real): (r: Option<real>)
    ensures r.Some? <==> max != min
    ensures min < max ==> min < r.value <= max
    ensures max != min ==> Congruent(r.value, value, max - min)
  {
    var sum := max - min;
    if sum == 0.0 then None
    else
      var reduced := PositiveRem(max - value, sum);
      ReflectCongruent(reduced, max, value, sum);
      Some(max - reduced)
  }

  /** If reduced ≡ max - value then max - reduced ≡ value. */
  lemma {:induction false} ReflectCongruent(reduced: real, max: real, value: real, m: real)
    requires Congruent(reduced, max - value, m)
    ensures Congruent(max - reduced, value, m)
  {
    var k: int :| reduced - (max - value) == Times(k, m);
    TimesNegated(k, m);
    assert (max - reduced) - value == Times(-k, m);
  }

  /** Two values congruent modulo m that lie less than m apart are equal. */
  lemma {:induction false} CongruentClose(x: real, y: real, m: real)
    requires m > 0.0 && Congruent(x, y, m) && -m < x - y < m
    ensures x == y
  {
    var k: int :| x - y == Times(k, m);
    if k >= 1 {
      TimesAtLeast(k, m);
    } else if k <= -1 {
      TimesAtLeast(-k, m);
      TimesNegated(k, m);
    }
    assert k == 0;
  }

  lemma TimesAtLeast(k: int, m: real)
    requires m > 0.0 && k >= 1
    ensures Times(k, m) >= m
  {
    MulLe(1.0, k as real, m);
  }

  /** Wherever the range has min < 0 <= max, as `wrapAngle`'s does, the source's `wrap` already gives the intended value. */
  lemma {:induction false} WrapIntoAgrees(value: real, min: real, max: real)
    requires min < 0.0 <= max
    ensures Wrap(value, min, max) == WrapInto(value, min, max)
  {
    var sum := max - min;
    var reduced := PositiveRem(value, sum);
    var w := Wrap(value, min, max).value;
    var c := WrapInto(value, min, max).value;
    assert min < w <= max by {
      if reduced > max {
        assert w == reduced - sum;
      }
    }
    CongruentSymmetric(c, value, sum);
    CongruentTrans(w, value, c, sum);
    CongruentClose(w, c, sum);
  }

  lemma {:induction false} CongruentSymmetric(x: real, y: real, m: real)
    requires Congruent(x, y, m)
    ensures Congruent(y, x, m)
  {
    var k: int :| x - y == Times(k, m);
    TimesNegated(k, m);
    assert y - x == Times(-k, m);
  }

  lemma QuotientBounds(a: real, b: real, lo: real, hi: real)
    requires b > 0.0 && lo * b <= a < hi * b
    ensures lo <= a / b < hi
  {
  }

  lemma {:induction false} RemSmall(a: real, b: real)
    requires 0.0 <= a < b
    ensures Rem(a, b) == a
  {
    QuotientBounds(a, b, 0.0, 1.0);
    assert Trunc(a / b) == 0;
  }

  lemma {:induction false} RemSmallNegative(a: real, b: real)
    requires -b < a < 0.0
    ensures Rem(a, b) == a
  {
    RemSmall(-a, b);
    RemDividendSign(-a, b);
  }

  lemma {:induction false} RemLarge(a: real, b: real)
    requires b <= a < 2.0 * b
    ensures Rem(a, b) == a - b
  {
    QuotientBounds(a, b, 1.0, 2.0);
    assert Trunc(a / b) == 1;
  }

  // ---------------------------------------------------------------------
  // degrees and radians
  // ---------------------------------------------------------------------

  function Degrees(radians: real): real {
    (radians / Pi) * 180.0
  }

  function Radians(degrees: real): real {
    (degrees / 180.0) * Pi
  }

  lemma DegreesRadiansRoundTrip(x: real)
    ensures Radians(Degrees(x)) == x
    ensures Degrees(Radians(x)) == x
  {
    DivMul(x, Pi);
    DivMul(x / Pi * 180.0, 180.0);
    DivMul(x, 180.0);
    DivMul(x / 180.0 * Pi, Pi);
  }

  // ---------------------------------------------------------------------
  // toInteger and isInteger (`value | 0`)
  // ---------------------------------------------------------------------

  /** ECMAScript ToInt32 on an integer: reduce modulo 2^32 into the signed range. */
  function ToInt32(n: int): (r: int)
    ensures -TwoTo31 <= r < TwoTo31
    ensures (r - n) % TwoTo32 == 0
    ensures -TwoTo31 <= n < TwoTo31 ==> r == n
  {
    var low := n % TwoTo32;
    if low >= TwoTo31 then low - TwoTo32 else low
  }

  /** `value | 0`: truncate toward zero, then wrap to a signed 32-bit integer. */
  function ToInteger(value: real): (r: int)
    ensures -TwoTo31 <= r < TwoTo31
  {
    ToInt32(Trunc(value))
  }

  /** `value == toInteger(value)`. */
  predicate IsInteger(value: real) {
    value == ToInteger(value) as real
  }

  /** toInteger is the identity on the signed 32-bit integers. */
  lemma ToIntegerIdentity(n: int)
    requires -TwoTo31 <= n < TwoTo31
    ensures ToInteger(n as real) == n
    ensures IsInteger(n as real)
  {
    assert Trunc(n as real) == n;
  }

  /** isInteger holds exactly for whole numbers in the signed 32-bit range. */
  lemma {:induction false} IsIntegerIff(value: real)
    ensures IsInteger(value) <==> value == value.Floor as real && -TwoTo31 <= value.Floor < TwoTo31
  {
    if value == value.Floor as real && -TwoTo31 <= value.Floor < TwoTo31 {
      ToIntegerIdentity(value.Floor);
    }
  }

  // ---------------------------------------------------------------------
  // HighResolutionTimer
  // ---------------------------------------------------------------------

  /** What `setTimeout` returns; the model receives it as a parameter. */
  type TimerHandle = nat

  /**
   * The client's timer. `run` re-arms itself so that tick k fires at
   * startTime + k·duration however late the previous tick ran. `Date.now()`
   * and the handle `setTimeout` returns are parameters; the callback is not
   * modelled.
   */
  class HighResolutionTimer {
    var totalTicks: int
    var timer: Option<TimerHandle>
    var startTime: Option<real>
    var currentTime: Option<real>
    var deltaTime: real
    const duration: real

    constructor(duration: real)
      ensures this.duration == duration
      ensures totalTicks == 0 && timer == None && startTime == None && currentTime == None
      ensures deltaTime == 0.0
    {
      this.duration := duration;
      totalTicks := 0;
      timer := None;
      startTime := None;
      currentTime := None;
      deltaTime := 0.0;
    }

    /** The time at which tick `ticks` is due: the drift-free schedule. */
    function IdealBoundary(ticks: int): real
      requires startTime.Some?
      reads this
    {
      startTime.value + Times(ticks, duration)
    }

    /**
     * One run at time `now`; `handle` is what the following `setTimeout`
     * returns. Returns the delay passed to `setTimeout`.
     */
    method Run(now: real, handle: TimerHandle) returns (nextTick: real)
      modifies this
      ensures currentTime == Some(now)
      ensures startTime == (if old(startTime).None? || old(startTime) == Some(0.0) then Some(now) else old(startTime))
      ensures deltaTime == (if old(currentTime).Some? then now - old(currentTime).value else old(deltaTime))
      ensures totalTicks == old(totalTicks) + 1
      ensures timer == Some(handle)
      ensures now + nextTick == IdealBoundary(totalTicks)
    {
      var lastTime := currentTime;
      currentTime := Some(now);
      if startTime.None? || startTime == Some(0.0) {
        startTime := currentTime;
      }
      if lastTime.Some? {
        deltaTime := now - lastTime.value;
      }
      nextTick := duration - (now - (startTime.value + Times(totalTicks, duration)));
      TimesAdd(totalTicks, 1, duration);
      totalTicks := totalTicks + 1;
      timer := Some(handle);
    }

    /** Cancels the pending timer, if any; returns the handle it cleared. */
    method Stop() returns (cleared: Option<TimerHandle>)
      modifies this
      ensures cleared == old(timer)
      ensures timer == None
      ensures totalTicks == old(totalTicks) && startTime == old(startTime)
      ensures currentTime == old(currentTime) && deltaTime == old(deltaTime)
    {
      cleared := None;
      if timer.Some? {
        cleared := timer;
        timer := None;
      }
    }
  }

  /** After a stop, a second stop clears nothing. */
  method StopTwice(t: HighResolutionTimer) returns (first: Option<TimerHandle>, second: Option<TimerHandle>)
    modifies t
    ensures first == old(t.timer)
    ensures second == None && t.timer == None
  {
    first := t.Stop();
    second := t.Stop();
  }

  /** `stop` after a run cancels exactly the timer that run armed. */
  method StopAfterRun(t: HighResolutionTimer, now: real, handle: TimerHandle) returns (cleared: Option<TimerHandle>)
    modifies t
    ensures cleared == Some(handle) && t.timer == None
  {
    var _ := t.Run(now, handle);
    cleared := t.Stop();
  }

  /** Two runs: the second measures the time elapsed since the first. */
  method RunTwice(t: HighResolutionTimer, first: real, second: real, h1: TimerHandle, h2: TimerHandle)
    returns (delta: real)
    modifies t
    ensures delta == second - first
  {
    var _ := t.Run(first, h1);
    var _ := t.Run(second, h2);
    delta := t.deltaTime;
  }
}
