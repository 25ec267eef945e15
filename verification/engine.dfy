/**
 * The client engine's state logic in src/public/start.ts (`ConcreteEngine`):
 * the `on.game(0x01)` snapshot handler that rebuilds the interpolator lists
 * by id, and the per-frame `update` that advances the interpolation
 * fraction and buffers keyboard samples.
 *
 * The decoded snapshot is an `Option` input (`None` when the packet is
 * invalid) and the reply is returned instead of sent. `vec2.angle` is a
 * function parameter, since trigonometry is not modelled.
 */
module Engine {
  import opened Options
  import opened Vector
  import opened Interpolation
  import opened Keyboard

  datatype Tank = Tank(position: Vec2, velocity: Vec2, name: string, id: int, angle: real, health: real)

  datatype Bullet = Bullet(id: int, position: Vec2, velocity: Vec2)

  datatype StateUpdate = StateUpdate(user: Tank, players: seq<Tank>, bullets: seq<Bullet>)

  /** The reply to a snapshot; `angle` is `None` while `m_angle` is still undefined. */
  datatype ClientInput = ClientInput(input: seq<int>, angle: Option<real>, shoot: bool)

  /** The most keyboard samples buffered between two snapshots. */
  const MaxInput: nat := 4

  /** The rate at which the interpolation fraction advances, per second. */
  const InterpolationRate: real := 15.0

  /** The camera's easing factor per frame. */
  const OffsetFactor: real := 0.06

  // The merge, on values.

  /** The first interpolator with the given id. */
  function FirstTank(id: int, previous: seq<TankSample>): (r: Option<nat>)
    ensures r.Some? ==> r.value < |previous| && previous[r.value].id == id
    ensures r.Some? ==> forall j :: 0 <= j < r.value ==> previous[j].id != id
    ensures r.None? ==> forall j :: 0 <= j < |previous| ==> previous[j].id != id
  {
    if |previous| == 0 then None
    else if previous[0].id == id then Some(0)
    else
      match FirstTank(id, previous[1..])
      case None => None
      case Some(k) => Some(k + 1)
  }

  function FirstBullet(id: int, previous: seq<BulletSample>): (r: Option<nat>)
    ensures r.Some? ==> r.value < |previous| && previous[r.value].id == id
    ensures r.Some? ==> forall j :: 0 <= j < r.value ==> previous[j].id != id
    ensures r.None? ==> forall j :: 0 <= j < |previous| ==> previous[j].id != id
  {
    if |previous| == 0 then None
    else if previous[0].id == id then Some(0)
    else
      match FirstBullet(id, previous[1..])
      case None => None
      case Some(k) => Some(k + 1)
  }

  /**
   * One tank entry: a known id restarts from where its old interpolator is
   * drawn and moves to the entry; a new id starts at rest on the entry.
   */
  function MergedTank(player: Tank, previous: seq<TankSample>, time: real): TankSample {
    match FirstTank(player.id, previous)
    case Some(k) =>
      var p := previous[k];
      var start := InitialTank(TankPosition(p, time), TankAngle(p, time), player.id, player.name, TankHealth(p, time));
      UpdatedTank(start, player.position, player.angle, player.health)
    case None =>
      InitialTank(player.position, player.angle, player.id, player.name, player.health)
  }

  function MergeTanks(players: seq<Tank>, previous: seq<TankSample>, time: real): seq<TankSample> {
    seq(|players|, i requires 0 <= i < |players| => MergedTank(players[i], previous, time))
  }

  function MergedBullet(bullet: Bullet, previous: seq<BulletSample>, time: real): BulletSample {
    match FirstBullet(bullet.id, previous)
    case Some(k) => UpdatedBullet(InitialBullet(BulletPosition(previous[k], time), bullet.id), bullet.position)
    case None => InitialBullet(bullet.position, bullet.id)
  }

  function MergeBullets(bullets: seq<Bullet>, previous: seq<BulletSample>, time: real): seq<BulletSample> {
    seq(|bullets|, i requires 0 <= i < |bullets| => MergedBullet(bullets[i], previous, time))
  }

  /**
   * The merged tank list has one interpolator per entry, in entry order, with
   * the entry's id and name and the entry as its after-sample. A matched id
   * starts where the first old interpolator with that id is drawn; an
   * unmatched one is at rest on the entry.
   */
  lemma MergeTanksShape(players: seq<Tank>, previous: seq<TankSample>, time: real)
    ensures |MergeTanks(players, previous, time)| == |players|
    ensures forall i :: 0 <= i < |players| ==>
      var r := MergeTanks(players, previous, time)[i];
      r.id == players[i].id && r.name == players[i].name &&
      r.afterPosition == players[i].position && r.afterHealth == players[i].health
    ensures forall i :: 0 <= i < |players| && FirstTank(players[i].id, previous).None? ==>
      MergeTanks(players, previous, time)[i] ==
        InitialTank(players[i].position, players[i].angle, players[i].id, players[i].name, players[i].health)
    ensures forall i :: 0 <= i < |players| && FirstTank(players[i].id, previous).Some? ==>
      var p := previous[FirstTank(players[i].id, previous).value];
      MergeTanks(players, previous, time)[i].beforePosition == TankPosition(p, time) &&
      MergeTanks(players, previous, time)[i].beforeHealth == TankHealth(p, time)
  {
  }

  /** The same for bullets: one per entry, same order and ids, continuity for matched ids. */
  lemma MergeBulletsShape(bullets: seq<Bullet>, previous: seq<BulletSample>, time: real)
    ensures |MergeBullets(bullets, previous, time)| == |bullets|
    ensures forall i :: 0 <= i < |bullets| ==>
      MergeBullets(bullets, previous, time)[i].id == bullets[i].id &&
      MergeBullets(bullets, previous, time)[i].afterPosition == bullets[i].position
    ensures forall i :: 0 <= i < |bullets| && FirstBullet(bullets[i].id, previous).None? ==>
      MergeBullets(bullets, previous, time)[i] == InitialBullet(bullets[i].position, bullets[i].id)
    ensures forall i :: 0 <= i < |bullets| && FirstBullet(bullets[i].id, previous).Some? ==>
      MergeBullets(bullets, previous, time)[i].beforePosition ==
        BulletPosition(previous[FirstBullet(bullets[i].id, previous).value], time)
  {
  }

  // The merge, on interpolator objects.

  ghost function TankSamples(list: seq<Interpolate>): (r: seq<TankSample>)
    reads list
    ensures |r| == |list| && forall k :: 0 <= k < |list| ==> r[k] == list[k].Sample()
  {
    seq(|list|, k requires 0 <= k < |list| reads list => list[k].Sample())
  }

  ghost function BulletSamples(list: seq<BulletInterpolate>): (r: seq<BulletSample>)
    reads list
    ensures |r| == |list| && forall k :: 0 <= k < |list| ==> r[k] == list[k].Sample()
  {
    seq(|list|, k requires 0 <= k < |list| reads list => list[k].Sample())
  }

  /** The `resTank` loop: for each entry, the first interpolator with its id, or none. */
  method MergeTankList(players: seq<Tank>, previous: seq<Interpolate>, time: real) returns (res: seq<Interpolate>)
    ensures |res| == |players|
    ensures forall k :: 0 <= k < |res| ==> fresh(res[k])
    ensures TankSamples(res) == MergeTanks(players, TankSamples(previous), time)
  {
    ghost var samples := TankSamples(previous);
    res := [];
    for i := 0 to |players|
      invariant |res| == i
      invariant forall k :: 0 <= k < i ==> fresh(res[k])
      invariant forall k :: 0 <= k < i ==> res[k].Sample() == MergedTank(players[k], samples, time)
    {
      var player := players[i];
      var j := 0;
      while j < |previous| && previous[j].id != player.id
        invariant 0 <= j <= |previous|
        invariant forall l :: 0 <= l < j ==> samples[l].id != player.id
      {
        j := j + 1;
      }
      var next: Interpolate;
      if j < |previous| {
        var found := previous[j];
        assert FirstTank(player.id, samples) == Some(j);
        next := new Interpolate(found.CurrentPosition(time), found.CurrentAngle(time), player.id, player.name, found.CurrentHealth(time));
        next.Update(player.position, player.angle, player.health);
      } else {
        assert FirstTank(player.id, samples).None?;
        next := new Interpolate(player.position, player.angle, player.id, player.name, player.health);
      }
      res := res + [next];
    }
  }

  /** The `resBullet` loop. */
  method MergeBulletList(bullets: seq<Bullet>, previous: seq<BulletInterpolate>, time: real) returns (res: seq<BulletInterpolate>)
    ensures |res| == |bullets|
    ensures forall k :: 0 <= k < |res| ==> fresh(res[k])
    ensures BulletSamples(res) == MergeBullets(bullets, BulletSamples(previous), time)
  {
    ghost var samples := BulletSamples(previous);
    res := [];
    for i := 0 to |bullets|
      invariant |res| == i
      invariant forall k :: 0 <= k < i ==> fresh(res[k])
      invariant forall k :: 0 <= k < i ==> res[k].Sample() == MergedBullet(bullets[k], samples, time)
    {
      var bullet := bullets[i];
      var j := 0;
      while j < |previous| && previous[j].id != bullet.id
        invariant 0 <= j <= |previous|
        invariant forall l :: 0 <= l < j ==> samples[l].id != bullet.id
      {
        j := j + 1;
      }
      var next: BulletInterpolate;
      if j < |previous| {
        assert FirstBullet(bullet.id, samples) == Some(j);
        next := new BulletInterpolate(previous[j].CurrentPosition(time), bullet.id);
        next.Update(bullet.position);
      } else {
        assert FirstBullet(bullet.id, samples).None?;
        next := new BulletInterpolate(bullet.position, bullet.id);
      }
      res := res + [next];
    }
  }

  /** The user's interpolator restarts from where it is drawn and moves to the snapshot's position. */
  method RestartUser(start: Vec2, position: Vec2) returns (u: Interpolate)
    ensures fresh(u)
    ensures u.Sample() == UpdatedTank(InitialTank(start, 0.0, 0, "You", 1.0), position, 0.0, 1.0)
  {
    u := new Interpolate(start, 0.0, 0, "You", 1.0);
    u.Update(position, 0.0, 1.0);
  }

  /** The three interpolator rebuilds of the snapshot handler, from the previous lists. */
  method Rebuild(state: StateUpdate, userInt: Interpolate, players: seq<Tank>, playersInt: seq<Interpolate>,
                 bullets: seq<Bullet>, bulletsInt: seq<BulletInterpolate>, time: real)
    returns (nextUser: Interpolate, resTank: seq<Interpolate>, resBullet: seq<BulletInterpolate>)
    ensures fresh(nextUser)
    ensures nextUser.Sample() == UpdatedTank(InitialTank(userInt.CurrentPosition(time), 0.0, 0, "You", 1.0), state.user.position, 0.0, 1.0)
    ensures TankSamples(resTank) == MergeTanks(players, TankSamples(playersInt), time)
    ensures BulletSamples(resBullet) == MergeBullets(bullets, BulletSamples(bulletsInt), time)
  {
    nextUser := RestartUser(userInt.CurrentPosition(time), state.user.position);
    resTank := MergeTankList(players, playersInt, time);
    resBullet := MergeBulletList(bullets, bulletsInt, time);
  }

  /** The next interpolation fraction: advanced by `deltatime * 15` and clamped to 1. */
  function NextFraction(time: real, deltatime: real): (r: real)
    ensures r <= 1.0
    ensures time + deltatime * InterpolationRate < 1.0 ==> r == time + deltatime * InterpolationRate
    ensures time + deltatime * InterpolationRate >= 1.0 ==> r == 1.0
  {
    var next := time + deltatime * InterpolationRate;
    if next >= 1.0 then 1.0 else next
  }

  class ConcreteEngine {
    var user: Tank
    var players: seq<Tank>
    var bullets: seq<Bullet>
    var timeInterpolation: real
    var userInt: Interpolate
    var playersInt: seq<Interpolate>
    var bulletsInt: seq<BulletInterpolate>
    var input: seq<int>
    var angle: Option<real>
    var shoot: bool
    var cursor: Vec2
    var keys: set<int>
    const offset: PlayerOffset

    /** The buffer holds at most four key masks, and the fraction never exceeds 1. */
    ghost predicate Valid()
      reads this
    {
      |input| <= MaxInput && (forall k :: 0 <= k < |input| ==> 0 <= input[k] < 16) && timeInterpolation <= 1.0
    }

    /** `init`, without the socket and the DOM handlers. */
    constructor()
      ensures Valid()
      ensures user == Tank(Zero, Zero, "", 0, 0.0, 1.0) && players == [] && bullets == []
      ensures input == [] && timeInterpolation == 0.0 && angle == None && !shoot && keys == {} && cursor == Zero
      ensures playersInt == [] && bulletsInt == []
      ensures userInt.Sample() == InitialTank(Zero, 0.0, 0, "You", 1.0)
      ensures offset.current == Zero && offset.destination == Zero
    {
      user := Tank(Zero, Zero, "", 0, 0.0, 1.0);
      players := [];
      shoot := false;
      input := [];
      offset := new PlayerOffset(Zero);
      userInt := new Interpolate(Zero, 0.0, 0, "You", 1.0);
      timeInterpolation := 0.0;
      playersInt := [];
      bulletsInt := [];
      bullets := [];
      cursor := Zero;
      keys := {};
      angle := None;
    }

    /**
     * The `on.game(0x01)` handler. An invalid packet changes nothing.
     * Otherwise the interpolators are rebuilt from the previous entry lists,
     * the new entries are stored, the fraction restarts at 0, and the
     * buffered input is sent and emptied.
     */
    method OnSnapshot(update: Option<StateUpdate>) returns (reply: Option<ClientInput>)
      modifies this`userInt, this`playersInt, this`bulletsInt, this`user, this`players, this`bullets
      modifies this`timeInterpolation, this`input
      ensures update.None? ==> reply == None && unchanged(this)
      ensures update.Some? ==> reply == Some(ClientInput(old(input), old(angle), old(shoot)))
      ensures update.Some? ==> input == [] && timeInterpolation == 0.0
      ensures update.Some? ==> user == update.value.user && players == update.value.players && bullets == update.value.bullets
      ensures update.Some? ==> fresh(userInt)
      ensures update.Some? ==>
        userInt.Sample() == UpdatedTank(InitialTank(old(userInt.CurrentPosition(timeInterpolation)), 0.0, 0, "You", 1.0),
                                        update.value.user.position, 0.0, 1.0)
      ensures update.Some? ==>
        TankSamples(playersInt) == MergeTanks(old(players), old(TankSamples(playersInt)), old(timeInterpolation))
      ensures update.Some? ==>
        BulletSamples(bulletsInt) == MergeBullets(old(bullets), old(BulletSamples(bulletsInt)), old(timeInterpolation))
      ensures angle == old(angle) && shoot == old(shoot) && cursor == old(cursor) && keys == old(keys)
      ensures old(Valid()) ==> Valid()
    {
      if update.None? {
        return None;
      }
      var state := update.value;
      var nextUser, resTank, resBullet := Rebuild(state, userInt, players, playersInt, bullets, bulletsInt, timeInterpolation);
      reply := Some(ClientInput(input, angle, shoot));
      Install(state, nextUser, resTank, resBullet);
    }

    /** The snapshot handler's stores: the new entries and interpolators, the fraction back to 0, the buffer emptied. */
    method Install(state: StateUpdate, nextUser: Interpolate, resTank: seq<Interpolate>, resBullet: seq<BulletInterpolate>)
      modifies this`userInt, this`playersInt, this`bulletsInt, this`user, this`players, this`bullets
      modifies this`timeInterpolation, this`input
      ensures userInt == nextUser && playersInt == resTank && bulletsInt == resBullet
      ensures user == state.user && players == state.players && bullets == state.bullets
      ensures timeInterpolation == 0.0 && input == []
      ensures angle == old(angle) && shoot == old(shoot) && cursor == old(cursor) && keys == old(keys)
    {
      userInt := nextUser;
      playersInt := resTank;
      bulletsInt := resBullet;
      user := state.user;
      players := state.players;
      bullets := state.bullets;
      timeInterpolation := 0.0;
      input := [];
    }

    /**
     * `update`: aims while alive, moves the camera target, advances the
     * fraction, and buffers one key mask unless four are already waiting.
     */
    method Update(deltatime: real, angleOf: Vec2 -> real)
      modifies this`angle, this`timeInterpolation, this`input, offset
      ensures var pivot := Subtract(old(userInt.CurrentPosition(timeInterpolation)), old(offset.current));
        angle == if old(user.health) > 0.0 then Some(angleOf(Subtract(cursor, pivot))) else old(angle)
      ensures timeInterpolation == NextFraction(old(timeInterpolation), deltatime)
      ensures offset.destination == old(userInt.CurrentPosition(timeInterpolation))
      ensures |old(input)| >= MaxInput ==> input == old(input) && offset.current == old(offset.current)
      ensures |old(input)| < MaxInput ==>
        input == old(input) + [PressedValue(keys)] &&
        offset.current == Add(old(offset.current), Scale(OffsetFactor, Subtract(offset.destination, old(offset.current))))
      ensures user == old(user) && players == old(players) && bullets == old(bullets) && keys == old(keys)
      ensures userInt == old(userInt) && playersInt == old(playersInt) && bulletsInt == old(bulletsInt)
      ensures shoot == old(shoot) && cursor == old(cursor)
      ensures old(Valid()) ==> Valid()
    {
      var target := userInt.CurrentPosition(timeInterpolation);
      if user.health > 0.0 {
        var pivot := Subtract(target, offset.current);
        angle := Some(angleOf(Subtract(cursor, pivot)));
      }
      offset.SetDestination(target);
      timeInterpolation := NextFraction(timeInterpolation, deltatime);
      if |input| > 3 {
        return;
      }
      var mask := KeyboardBinary(keys);
      input := input + [mask];
      offset.Update(OffsetFactor);
    }

    /** `onkeydown`. */
    method KeyDown(code: int)
      modifies this`keys
      ensures keys == old(keys) + {code}
    {
      keys := keys + {code};
    }

    /** `onkeyup`. */
    method KeyUp(code: int)
      modifies this`keys
      ensures keys == old(keys) - {code}
    {
      keys := keys - {code};
    }

    /** `onmousedown`. */
    method MouseDown()
      modifies this`shoot
      ensures shoot
    {
      shoot := true;
    }

    /** `onmouseup`. */
    method MouseUp()
      modifies this`shoot
      ensures !shoot
    {
      shoot := false;
    }
  }
}
