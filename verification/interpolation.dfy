/**
 * The client's smoothing between snapshots in src/public/start.ts:
 * `PlayerOffset`, `BulletInterpolate` and `Interpolate`.
 *
 * An interpolator holds a "before" and an "after" sample; `update` shifts
 * after into before and takes the new sample as after, and the `current*`
 * queries blend the two linearly by a fraction `time`. Each class's state is
 * also given as a value (`BulletSample`, `TankSample`) so that the engine's
 * merge can be specified on values.
 */
module Interpolation {
  import opened Vector
  import opened Utilities

  /** `(1 - t) * a + t * b`: the blend `current*` computes. */
  function Lerp(a: real, b: real, t: real): (r: real)
    ensures t == 0.0 ==> r == a
    ensures t == 1.0 ==> r == b
    ensures a == b ==> r == a
  {
    (1.0 - t) * a + t * b
  }

  /** `add(scale(1 - t, a), scale(t, b))`. */
  function LerpVec(a: Vec2, b: Vec2, t: real): (r: Vec2)
    ensures r == Vec2(Lerp(a.x, b.x, t), Lerp(a.y, b.y, t))
    ensures t == 0.0 ==> r == a
    ensures t == 1.0 ==> r == b
    ensures a == b ==> r == a
  {
    Add(Scale(1.0 - t, a), Scale(t, b))
  }

  /** For `t` in [0, 1], `t * d` lies between 0 and `d`. */
  lemma ScaleBetween(t: real, d: real)
    requires 0.0 <= t <= 1.0 && d >= 0.0
    ensures 0.0 <= t * d <= d
  {
    assert (1.0 - t) * d >= 0.0;
  }

  /** For `t` in [0, 1] the blend stays between its two ends. */
  lemma {:induction false} LerpBetween(a: real, b: real, t: real)
    requires 0.0 <= t <= 1.0
    ensures a <= b ==> a <= Lerp(a, b, t) <= b
    ensures b <= a ==> b <= Lerp(a, b, t) <= a
  {
    assert Lerp(a, b, t) == a + t * (b - a);
    if a <= b {
      ScaleBetween(t, b - a);
    } else {
      ScaleBetween(t, a - b);
      assert t * (b - a) == -(t * (a - b));
    }
  }

  /** `PlayerOffset`: a camera point easing towards a destination. */
  class PlayerOffset {
    var current: Vec2
    var destination: Vec2

    constructor(position: Vec2)
      ensures current == position && destination == position
    {
      current := Copy(position);
      destination := Copy(position);
    }

    /** `current += factor * (destination - current)`. */
    method Update(factor: real)
      modifies this
      ensures destination == old(destination)
      ensures current == Add(old(current), Scale(factor, Subtract(destination, old(current))))
    {
      var difference := Subtract(destination, current);
      current := Add(current, Scale(factor, difference));
    }

    method SetDestination(position: Vec2)
      modifies this
      ensures destination == position && current == old(current)
    {
      destination := Copy(position);
    }
  }

  /** One offset step leaves `1 - factor` of the remaining distance. */
  lemma OffsetApproach(current: Vec2, destination: Vec2, factor: real)
    ensures Subtract(destination, Add(current, Scale(factor, Subtract(destination, current)))) ==
      Scale(1.0 - factor, Subtract(destination, current))
  {
  }

  // Bullets.

  datatype BulletSample = BulletSample(beforePosition: Vec2, afterPosition: Vec2, id: int)

  /** A fresh bullet interpolator: before and after both at the position. */
  function InitialBullet(position: Vec2, id: int): (s: BulletSample)
    ensures s.beforePosition == s.afterPosition == position && s.id == id
  {
    BulletSample(Copy(position), Copy(position), id)
  }

  function UpdatedBullet(s: BulletSample, position: Vec2): (r: BulletSample)
    ensures r.beforePosition == s.afterPosition && r.afterPosition == position && r.id == s.id
  {
    BulletSample(s.afterPosition, Copy(position), s.id)
  }

  function BulletPosition(s: BulletSample, time: real): Vec2 {
    LerpVec(s.beforePosition, s.afterPosition, time)
  }

  /** A fresh bullet interpolator stays at its position whatever the fraction. */
  lemma InitialBulletStill(position: Vec2, id: int, time: real)
    ensures BulletPosition(InitialBullet(position, id), time) == position
  {
  }

  /** After an update the blend runs from the previous after-sample (`t = 0`) to the new position (`t = 1`). */
  lemma UpdatedBulletEnds(s: BulletSample, position: Vec2)
    ensures BulletPosition(UpdatedBullet(s, position), 0.0) == BulletPosition(s, 1.0)
    ensures BulletPosition(UpdatedBullet(s, position), 1.0) == position
  {
  }

  class BulletInterpolate {
    var beforePosition: Vec2
    var afterPosition: Vec2
    const id: int

    function Sample(): BulletSample
      reads this
    {
      BulletSample(beforePosition, afterPosition, id)
    }

    constructor(position: Vec2, id: int)
      ensures Sample() == InitialBullet(position, id)
    {
      beforePosition := Copy(position);
      afterPosition := Copy(position);
      this.id := id;
    }

    method Update(position: Vec2)
      modifies this
      ensures Sample() == UpdatedBullet(old(Sample()), position)
    {
      beforePosition := afterPosition;
      afterPosition := Copy(position);
    }

    function CurrentPosition(time: real): (r: Vec2)
      reads this
      ensures r == BulletPosition(Sample(), time)
      ensures time == 0.0 ==> r == beforePosition
      ensures time == 1.0 ==> r == afterPosition
    {
      LerpVec(beforePosition, afterPosition, time)
    }
  }

  // Tanks.

  datatype AnglePair = AnglePair(before: real, after: real)

  /**
   * The shortest-path adjustment of `update`: when the two wrapped angles
   * are more than pi apart, the smaller one is raised by 2 pi.
   */
  function AdjustAngles(before: real, after: real): AnglePair {
    var pi2: real := 2.0 * Pi;
    if Abs(after - before) > Pi then
      if after > before then AnglePair(before + pi2, after) else AnglePair(before, after + pi2)
    else AnglePair(before, after)
  }

  /**
   * On two angles in (-pi, pi] the adjustment leaves them at most pi apart,
   * each still congruent to its input modulo 2 pi.
   */
  lemma {:induction false} AdjustAnglesClose(before: real, after: real)
    requires -(Pi as real) < before <= Pi && -(Pi as real) < after <= Pi
    ensures Abs(AdjustAngles(before, after).after - AdjustAngles(before, after).before) <= Pi
    ensures Congruent(AdjustAngles(before, after).before, before, 2.0 * Pi)
    ensures Congruent(AdjustAngles(before, after).after, after, 2.0 * Pi)
  {
    var pi2: real := 2.0 * Pi;
    CongruentRefl(before, pi2);
    CongruentRefl(after, pi2);
    CongruentShift(before, pi2);
    CongruentShift(after, pi2);
  }

  datatype TankSample = TankSample(
    beforePosition: Vec2, afterPosition: Vec2,
    beforeAngle: real, afterAngle: real,
    beforeHealth: real, afterHealth: real,
    id: int, name: string)

  /** A fresh tank interpolator: before and after both at the given sample. */
  function InitialTank(position: Vec2, angle: real, id: int, name: string, health: real): (s: TankSample)
    ensures s.beforePosition == s.afterPosition == position
    ensures s.beforeAngle == s.afterAngle == angle
    ensures s.beforeHealth == s.afterHealth == health
    ensures s.id == id && s.name == name
  {
    TankSample(Copy(position), Copy(position), angle, angle, health, health, id, name)
  }

  function UpdatedTank(s: TankSample, position: Vec2, angle: real, health: real): TankSample {
    var angles := AdjustAngles(WrapAngle(s.afterAngle), WrapAngle(angle));
    TankSample(s.afterPosition, Copy(position), angles.before, angles.after, s.afterHealth, health, s.id, s.name)
  }

  function TankPosition(s: TankSample, time: real): Vec2 {
    LerpVec(s.beforePosition, s.afterPosition, time)
  }

  function TankAngle(s: TankSample, time: real): real {
    Lerp(s.beforeAngle, s.afterAngle, time)
  }

  function TankHealth(s: TankSample, time: real): real {
    Lerp(s.beforeHealth, s.afterHealth, time)
  }

  /**
   * `update`: the previous after-sample becomes before, the argument becomes
   * after; the two angles end at most pi apart, each the old after-angle or
   * the new angle up to a multiple of 2 pi.
   */
  lemma {:induction false} UpdatedTankShifts(s: TankSample, position: Vec2, angle: real, health: real)
    ensures UpdatedTank(s, position, angle, health).beforePosition == s.afterPosition
    ensures UpdatedTank(s, position, angle, health).afterPosition == position
    ensures UpdatedTank(s, position, angle, health).beforeHealth == s.afterHealth
    ensures UpdatedTank(s, position, angle, health).afterHealth == health
    ensures UpdatedTank(s, position, angle, health).id == s.id && UpdatedTank(s, position, angle, health).name == s.name
    ensures Abs(UpdatedTank(s, position, angle, health).afterAngle - UpdatedTank(s, position, angle, health).beforeAngle) <= Pi
    ensures Congruent(UpdatedTank(s, position, angle, health).beforeAngle, s.afterAngle, 2.0 * Pi)
    ensures Congruent(UpdatedTank(s, position, angle, health).afterAngle, angle, 2.0 * Pi)
  {
    var b, a := WrapAngle(s.afterAngle), WrapAngle(angle);
    AdjustAnglesClose(b, a);
    var r := AdjustAngles(b, a);
    CongruentTrans(r.before, b, s.afterAngle, 2.0 * Pi);
    CongruentTrans(r.after, a, angle, 2.0 * Pi);
  }

  /** A fresh tank interpolator stays at its sample whatever the fraction. */
  lemma InitialTankStill(position: Vec2, angle: real, id: int, name: string, health: real, time: real)
    ensures TankPosition(InitialTank(position, angle, id, name, health), time) == position
    ensures TankAngle(InitialTank(position, angle, id, name, health), time) == angle
    ensures TankHealth(InitialTank(position, angle, id, name, health), time) == health
  {
  }

  class Interpolate {
    var beforePosition: Vec2
    var afterPosition: Vec2
    var beforeAngle: real
    var afterAngle: real
    var beforeHealth: real
    var afterHealth: real
    const id: int
    const name: string

    function Sample(): TankSample
      reads this
    {
      TankSample(beforePosition, afterPosition, beforeAngle, afterAngle, beforeHealth, afterHealth, id, name)
    }

    constructor(position: Vec2, angle: real, id: int, name: string, health: real)
      ensures Sample() == InitialTank(position, angle, id, name, health)
    {
      beforePosition := Copy(position);
      afterPosition := Copy(position);
      beforeAngle := angle;
      afterAngle := angle;
      beforeHealth := health;
      afterHealth := health;
      this.name := name;
      this.id := id;
    }

    method Update(position: Vec2, angle: real, health: real)
      modifies this
      ensures Sample() == UpdatedTank(old(Sample()), position, angle, health)
    {
      beforePosition := afterPosition;
      afterPosition := Copy(position);
      beforeHealth := afterHealth;
      afterHealth := health;
      beforeAngle := WrapAngle(afterAngle);
      afterAngle := WrapAngle(angle);
      var pi2: real := 2.0 * Pi;
      if Abs(afterAngle - beforeAngle) > Pi {
        if afterAngle > beforeAngle {
          beforeAngle := beforeAngle + pi2;
        } else {
          afterAngle := afterAngle + pi2;
        }
      }
    }

    function CurrentPosition(time: real): (r: Vec2)
      reads this
      ensures r == TankPosition(Sample(), time)
      ensures time == 0.0 ==> r == beforePosition
      ensures time == 1.0 ==> r == afterPosition
    {
      LerpVec(beforePosition, afterPosition, time)
    }

    function CurrentAngle(time: real): (r: real)
      reads this
      ensures r == TankAngle(Sample(), time)
      ensures time == 0.0 ==> r == beforeAngle
      ensures time == 1.0 ==> r == afterAngle
    {
      Lerp(beforeAngle, afterAngle, time)
    }

    function CurrentHealth(time: real): (r: real)
      reads this
      ensures r == TankHealth(Sample(), time)
      ensures time == 0.0 ==> r == beforeHealth
      ensures time == 1.0 ==> r == afterHealth
    {
      Lerp(beforeHealth, afterHealth, time)
    }
  }
}
