/**
 * The player of entities/player.py: a 20x28 hitbox moved axis by axis
 * against collision rectangles and clamped to the map, with race stats,
 * energy regeneration, a dash and a shot, each behind its cooldown.
 */
module PlayerEntity {
  import opened Arith
  import opened Geometry
  import opened Wrappers
  import opened JsonValue
  import Sprites

  const FrameWidth: int := 32
  const FrameHeight: int := 64
  const FramesPerDir: int := 6
  const HitboxWidth: nat := 20
  const HitboxHeight: nat := 28
  const FrameDuration: real := 0.12
  const DashCooldown: real := 1.0
  const DashCost: real := 10.0
  /** `dash_distance = speed * dt * 100` */
  const DashFactor: real := 100.0
  const ShotCooldown: real := 0.25
  /** Lower bound on a shot direction's length before dividing by it. */
  const ShotNormFloor: real := 0.00001

  /** The keys the game reads: WASD, the arrows, Q (dash) and SPACE (shoot). */
  datatype Keys = Keys(w: bool, s: bool, a: bool, d: bool,
                       up: bool, down: bool, left: bool, right: bool,
                       q: bool, space: bool)

  const NoKeys: Keys := Keys(false, false, false, false, false, false, false, false, false, false)

  /** max_health / max_energy / energy_recovery_rate / speed */
  datatype Stats = Stats(maxHealth: int, maxEnergy: int, recovery: int, speed: int)

  /** Player.set_race_stats's table. */
  function RaceStats(race: string): (st: Stats)
    ensures race !in {"Saiyan", "Namekian", "Android", "Shiba"} ==> st == Stats(100, 100, 10, 100)
    ensures 0 < st.maxHealth && 0 < st.maxEnergy && 0 < st.recovery && 0 < st.speed
  {
    if race == "Saiyan" then Stats(120, 90, 8, 110)
    else if race == "Namekian" then Stats(140, 110, 12, 90)
    else if race == "Android" then Stats(100, 200, 20, 85)
    else if race == "Shiba" then Stats(110, 100, 10, 100)
    else Stats(100, 100, 10, 100)
  }

  /** The four named races get their own rows of the table. */
  lemma RaceTable()
    ensures RaceStats("Saiyan") == Stats(120, 90, 8, 110)
    ensures RaceStats("Namekian") == Stats(140, 110, 12, 90)
    ensures RaceStats("Android") == Stats(100, 200, 20, 85)
    ensures RaceStats("Shiba") == Stats(110, 100, 10, 100)
  {
  }

  /** The facing after the key checks of Player.update: W/UP, S/DOWN,
      A/LEFT and D/RIGHT are tested in that order and each match
      overrides the previous one. */
  function NewFacing(k: Keys, f: Facing): (r: Facing)
    ensures (k.d || k.right) ==> r == Right
    ensures !(k.d || k.right) && (k.a || k.left) ==> r == Left
    ensures !(k.d || k.right || k.a || k.left) && (k.s || k.down) ==> r == Down
    ensures !(k.d || k.right || k.a || k.left || k.s || k.down) && (k.w || k.up) ==> r == Up
    ensures !Moving(k) ==> r == f
  {
    var f1 := if k.w || k.up then Up else f;
    var f2 := if k.s || k.down then Down else f1;
    var f3 := if k.a || k.left then Left else f2;
    if k.d || k.right then Right else f3
  }

  predicate Moving(k: Keys)
  {
    k.w || k.up || k.s || k.down || k.a || k.left || k.d || k.right
  }

  /** The walking animation's frame and timer after dt: kept under an
      override, reset when idle, and while moving the frame advances (and
      the timer restarts) once the timer reaches 0.12 s. */
  function WalkFrames(index: int, timer: real, dt: real, moving: bool, overrideAnimation: bool): (f: (int, real))
    ensures 0 <= index < FramesPerDir ==> 0 <= f.0 < FramesPerDir
    ensures overrideAnimation ==> f == (index, timer)
    ensures !overrideAnimation && !moving ==> f == (0, 0.0)
    ensures !overrideAnimation && moving ==> f.0 == index || f.0 == (index + 1) % FramesPerDir
  {
    if overrideAnimation then (index, timer)
    else if !moving then (0, 0.0)
    else if timer + dt >= FrameDuration then ((index + 1) % FramesPerDir, 0.0)
    else (index, timer + dt)
  }

  /** speed * dt */
  function Stride(speed: int, dt: real): real
  {
    speed as real * dt
  }

  /** The (dx, dy) of Player.update's key checks: on each axis the later
      key of the pair wins. */
  function MoveIntent(k: Keys, speed: int, dt: real): (v: (real, real))
    ensures v.0 == if k.d || k.right then Stride(speed, dt) else if k.a || k.left then -Stride(speed, dt) else 0.0
    ensures v.1 == if k.s || k.down then Stride(speed, dt) else if k.w || k.up then -Stride(speed, dt) else 0.0
  {
    var dy1 := if k.w || k.up then -Stride(speed, dt) else 0.0;
    var dy2 := if k.s || k.down then Stride(speed, dt) else dy1;
    var dx1 := if k.a || k.left then -Stride(speed, dt) else 0.0;
    var dx2 := if k.d || k.right then Stride(speed, dt) else dx1;
    (dx2, dy2)
  }

  /** One axis of Player.update's walk: test the rectangle moved by the
      truncated step, and if it is free set the coordinate to the truncated
      sum `rect.x += dx`. */
  function WalkX(r: Rect, dx: real, tiles: seq<Rect>): (q: Rect)
    ensures q.y == r.y && q.w == r.w && q.h == r.h
    ensures !Sprites.Free(r.Move(Trunc(dx), 0), tiles) ==> q == r
  {
    if Sprites.Free(r.Move(Trunc(dx), 0), tiles) then r.(x := Trunc(r.x as real + dx)) else r
  }

  function WalkY(r: Rect, dy: real, tiles: seq<Rect>): (q: Rect)
    ensures q.x == r.x && q.w == r.w && q.h == r.h
    ensures !Sprites.Free(r.Move(0, Trunc(dy)), tiles) ==> q == r
  {
    if Sprites.Free(r.Move(0, Trunc(dy)), tiles) then r.(y := Trunc(r.y as real + dy)) else r
  }

  /** The committed walk step equals the tested one whenever the step is
      a whole number of pixels and the coordinates stay non-negative. */
  lemma {:induction false} WalkCommitsTested(r: Rect, dx: real, tiles: seq<Rect>)
    requires dx == Trunc(dx) as real && 0 <= r.x + Trunc(dx)
    ensures Sprites.Free(r.Move(Trunc(dx), 0), tiles) ==> WalkX(r, dx, tiles) == r.Move(Trunc(dx), 0)
  {
    assert r.x as real + dx == (r.x + Trunc(dx)) as real;
  }

  /** With a fractional step to the left, the committed rectangle lies one
      pixel beyond the tested one and can overlap the wall the test let
      through. */
  lemma WalkCanEnterWall()
    ensures var r := Rect(10, 0, 20, 28);
            var wall := Rect(0, 0, 9, 28);
            && Sprites.Free(r.Move(Trunc(-1.5), 0), [wall])
            && Collide(WalkX(r, -1.5, [wall]), wall)
  {
    var r := Rect(10, 0, 20, 28);
    var wall := Rect(0, 0, 9, 28);
    assert Trunc(-1.5) == -1 by {
      assert (1.5).Floor == 1;
    }
    assert Trunc(10.0 + -1.5) == 8 by {
      assert (8.5).Floor == 8;
    }
    var tested := r.Move(-1, 0);
    assert tested == Rect(9, 0, 20, 28);
    assert !Collide(tested, wall);
    assert Sprites.Free(tested, [wall]);
    assert WalkX(r, -1.5, [wall]) == Rect(8, 0, 20, 28);
  }

  /** X then Y, then the top-left fix (`left < 0`, `top < 0`), then
      clamp_ip(map_rect). */
  function WalkRect(r: Rect, dx: real, dy: real, tiles: seq<Rect>, mapRect: Rect): (q: Rect)
    ensures q.w == r.w && q.h == r.h
    ensures r.w <= mapRect.w && r.h <= mapRect.h ==> Inside(q, mapRect)
  {
    var a := WalkY(WalkX(r, dx, tiles), dy, tiles);
    var b := a.(x := if a.x < 0 then 0 else a.x, y := if a.y < 0 then 0 else a.y);
    Clamp(b, mapRect)
  }

  /** The dash gate of try_dash. */
  predicate DashReady(timeSinceDash: real, energy: real)
  {
    timeSinceDash >= DashCooldown && energy >= DashCost
  }

  /** `dir_map[direction]` times speed * dt * 100. */
  function DashVector(f: Facing, speed: int, dt: real): (v: (real, real))
    ensures v.0 == f.Vector().0 as real * (Stride(speed, dt) * DashFactor)
    ensures v.1 == f.Vector().1 as real * (Stride(speed, dt) * DashFactor)
  {
    var dist := Stride(speed, dt) * DashFactor;
    match f
    case Up => (0.0, -dist)
    case Down => (0.0, dist)
    case Left => (-dist, 0.0)
    case Right => (dist, 0.0)
  }

  /** The rectangle after a dash: each axis moved by int(step) when that
      move is free, tested from the rectangle as it stands, then clamped. */
  function DashRect(r: Rect, f: Facing, speed: int, dt: real, tiles: seq<Rect>, mapRect: Rect): (q: Rect)
    ensures q.w == r.w && q.h == r.h
    ensures r.w <= mapRect.w && r.h <= mapRect.h ==> Inside(q, mapRect)
    ensures var v := DashVector(f, speed, dt);
            Sprites.Free(r, tiles) && Sprites.Free(r.Move(Trunc(v.0), Trunc(v.1)), tiles) ==>
              q == Clamp(r.Move(Trunc(v.0), Trunc(v.1)), mapRect)
    ensures var v := DashVector(f, speed, dt);
            !Sprites.Free(r.Move(Trunc(v.0), Trunc(v.1)), tiles) ==> q == Clamp(r, mapRect)
  {
    var v := DashVector(f, speed, dt);
    var a := if Sprites.Free(r.Move(Trunc(v.0), 0), tiles) then r.(x := r.x + Trunc(v.0)) else r;
    var b := if Sprites.Free(a.Move(0, Trunc(v.1)), tiles) then a.(y := a.y + Trunc(v.1)) else a;
    Clamp(b, mapRect)
  }

  /** energy += energy_recovery_rate * dt, capped at max_energy. */
  function Regen(energy: real, rate: int, dt: real, cap: int): (e: real)
    ensures e <= cap as real
    ensures e == MinReal(energy + rate as real * dt, cap as real)
  {
    var raised := energy + rate as real * dt;
    if raised > cap as real then cap as real else raised
  }

  /** The unit shot direction of try_shoot: W/S/A/D summed (arrows are not
      read), falling back to the facing when they cancel out. */
  function ShotKeysVector(k: Keys, f: Facing): (v: (int, int))
    ensures v != (0, 0)
    ensures -1 <= v.0 <= 1 && -1 <= v.1 <= 1
  {
    var dy := (if k.w then -1 else 0) + (if k.s then 1 else 0);
    var dx := (if k.a then -1 else 0) + (if k.d then 1 else 0);
    if dx == 0 && dy == 0 then f.Vector() else (dx, dy)
  }

  function ShotDirection(sqrt: real -> real, k: Keys, f: Facing): (real, real)
  {
    var v := ShotKeysVector(k, f);
    var len := MaxReal(Hypot(sqrt, v.0 as real, v.1 as real), ShotNormFloor);
    (v.0 as real / len, v.1 as real / len)
  }

  /** The shot direction always has length exactly 1. */
  lemma {:induction false} ShotDirectionIsUnit(sqrt: real -> real, k: Keys, f: Facing)
    requires SqrtOracle(sqrt)
    ensures var d := ShotDirection(sqrt, k, f);
            d.0 * d.0 + d.1 * d.1 == 1.0
  {
    var v := ShotKeysVector(k, f);
    var a, b := v.0 as real, v.1 as real;
    assert 1.0 <= a * a + b * b by {
      if v.0 != 0 {
        assert a * a == 1.0;
      } else {
        assert b * b == 1.0;
      }
    }
    NormaliseIsUnit(sqrt, a, b, ShotNormFloor);
  }

  /** The spawn point of a shot from hitbox r with an image of the given
      height (the body of get_projectile_spawn_pos, on values). */
  function ShotOrigin(r: Rect, spriteHeight: nat): (int, int)
  {
    var top := r.Bottom() - spriteHeight;
    (r.CenterX(), top + Trunc(spriteHeight as real * 0.6))
  }

  class Player {
    var rect: Rect
    var speed: int
    var maxHealth: int
    var health: int
    var maxEnergy: int
    var energy: real
    var recovery: int
    var facing: Facing
    var frameIndex: int
    var frameTimer: real
    var timeSinceDash: real
    var timeSinceLastShot: real
    var race: string
    var name: string
    var xp: int
    /** Whatever the race metadata gives as the damage bonus, stored as is
        by the character-creation screen; JNum(0) until then. */
    var damageBonus: Json

    ghost predicate Valid()
      reads this`rect, this`frameIndex, this`maxEnergy, this`energy
    {
      && rect.w == HitboxWidth && rect.h == HitboxHeight
      && 0 <= frameIndex < FramesPerDir
      && 0 <= maxEnergy && energy <= maxEnergy as real
    }

    /** Player(x, y, race="Shiba"): the hitbox sits centred at the bottom
        of the 32x64 frame whose top-left is (x, y). */
    constructor (x: int, y: int, race: string := "Shiba")
      ensures Valid()
      ensures rect == Rect(x + (FrameWidth - HitboxWidth) / 2, y + FrameHeight - HitboxHeight, HitboxWidth, HitboxHeight)
      ensures Stats(maxHealth, maxEnergy, recovery, speed) == RaceStats(race)
      ensures health == maxHealth && energy == maxEnergy as real
      ensures facing == Down && frameIndex == 0 && frameTimer == 0.0
      ensures timeSinceDash == 0.0 && timeSinceLastShot == 0.0
      ensures this.race == race && name == "" && xp == 0 && damageBonus == JNum(0)
    {
      rect := Rect(x + (FrameWidth - HitboxWidth) / 2, y + FrameHeight - HitboxHeight, HitboxWidth, HitboxHeight);
      var st := RaceStats(race);
      maxHealth, maxEnergy, recovery, speed := st.maxHealth, st.maxEnergy, st.recovery, st.speed;
      health, energy := st.maxHealth, st.maxEnergy as real;
      facing := Down;
      frameIndex, frameTimer := 0, 0.0;
      timeSinceDash, timeSinceLastShot := 0.0, 0.0;
      this.race := race;
      name := "";
      xp := 0;
      damageBonus := JNum(0);
    }

    /** Player.set_race_stats: the race's row of the table, then full
        health and energy. */
    method SetRaceStats(race: string)
      requires Valid()
      modifies this`maxHealth, this`health, this`maxEnergy, this`energy, this`recovery, this`speed
      ensures Valid()
      ensures Stats(maxHealth, maxEnergy, recovery, speed) == RaceStats(race)
      ensures health == maxHealth && energy == maxEnergy as real
    {
      var st := RaceStats(race);
      maxHealth, maxEnergy, recovery, speed := st.maxHealth, st.maxEnergy, st.recovery, st.speed;
      health := maxHealth;
      energy := maxEnergy as real;
    }

    /** Player.get_projectile_spawn_pos for an image of the given height:
        the hitbox's centre x, and 60% of the way down an image standing
        on the hitbox's bottom edge. */
    function ProjectileSpawnPos(spriteHeight: nat): (p: (int, int))
      reads this
      ensures p.0 == rect.CenterX()
      ensures rect.Bottom() - spriteHeight <= p.1 <= rect.Bottom()
    {
      ShotOrigin(rect, spriteHeight)
    }

    /** Player.try_dash: nothing before the 1 s cooldown or below 10
        energy; otherwise move up to speed * dt * 100 along the facing
        (axis by axis, each when free), clamp to the map, restart the
        cooldown and pay 10 energy. */
    method TryDash(dt: real, tiles: seq<Rect>, mapRect: Rect)
      requires Valid()
      modifies this`rect, this`timeSinceDash, this`energy
      ensures Valid()
      ensures !DashReady(old(timeSinceDash), old(energy)) ==>
                rect == old(rect) && timeSinceDash == old(timeSinceDash) && energy == old(energy)
      ensures DashReady(old(timeSinceDash), old(energy)) ==>
                rect == DashRect(old(rect), facing, speed, dt, tiles, mapRect) &&
                timeSinceDash == 0.0 && energy == MaxReal(0.0, old(energy) - DashCost)
    {
      if timeSinceDash < DashCooldown || energy < DashCost {
        return;
      }
      var v := DashVector(facing, speed, dt);
      if Sprites.Free(rect.Move(Trunc(v.0), 0), tiles) {
        rect := rect.(x := rect.x + Trunc(v.0));
      }
      if Sprites.Free(rect.Move(0, Trunc(v.1)), tiles) {
        rect := rect.(y := rect.y + Trunc(v.1));
      }
      rect := Clamp(rect, mapRect);
      timeSinceDash := 0.0;
      energy := MaxReal(0.0, energy - DashCost);
    }

    /** Player.try_shoot: None before the 0.25 s cooldown; otherwise
        restart it and fire a default projectile (speed 50, range 800)
        from the spawn position along the unit shot direction. */
    method TryShoot(sqrt: real -> real, k: Keys, spriteHeight: nat) returns (p: Sprites.Projectile?)
      modifies this`timeSinceLastShot
      ensures old(timeSinceLastShot) < ShotCooldown ==> p == null && timeSinceLastShot == old(timeSinceLastShot)
      ensures old(timeSinceLastShot) >= ShotCooldown ==>
                p != null && fresh(p) && timeSinceLastShot == 0.0 &&
                (p.dx, p.dy) == ShotDirection(sqrt, k, facing) &&
                p.x == ProjectileSpawnPos(spriteHeight).0 as real && p.y == ProjectileSpawnPos(spriteHeight).1 as real &&
                p.speed == Sprites.DefaultProjectileSpeed && p.maxRange == Sprites.DefaultMaxRange &&
                !p.fromEnemy && p.travelled == 0.0 && p.alive
    {
      if timeSinceLastShot < ShotCooldown {
        return null;
      }
      var dir := ShotDirection(sqrt, k, facing);
      timeSinceLastShot := 0.0;
      var pos := ProjectileSpawnPos(spriteHeight);
      p := new Sprites.Projectile(pos.0 as real, pos.1 as real, dir.0, dir.1,
                                  Sprites.DefaultProjectileSpeed, Sprites.DefaultMaxRange, false);
    }

    /** The walk of Player.update: the horizontal move, then the vertical
        one, each committed when the tested rectangle is free; then the
        top-left fix and the clamp to the map. */
    method Walk(dx: real, dy: real, tiles: seq<Rect>, mapRect: Rect)
      modifies this`rect
      ensures rect == WalkRect(old(rect), dx, dy, tiles, mapRect)
    {
      if Sprites.Free(rect.Move(Trunc(dx), 0), tiles) {
        rect := rect.(x := Trunc(rect.x as real + dx));
      }
      assert rect == WalkX(old(rect), dx, tiles);
      if Sprites.Free(rect.Move(0, Trunc(dy)), tiles) {
        rect := rect.(y := Trunc(rect.y as real + dy));
      }
      ghost var a := rect;
      assert a == WalkY(WalkX(old(rect), dx, tiles), dy, tiles);
      if rect.x < 0 {
        rect := rect.(x := 0);
      }
      if rect.y < 0 {
        rect := rect.(y := 0);
      }
      assert rect == a.(x := if a.x < 0 then 0 else a.x, y := if a.y < 0 then 0 else a.y);
      rect := Clamp(rect, mapRect);
    }

    /** The animation of Player.update: skipped under an override; while
        moving, the frame advances once the timer reaches 0.12 s; idle
        resets frame and timer. */
    method Animate(dt: real, moving: bool, overrideAnimation: bool)
      requires 0 <= frameIndex < FramesPerDir
      modifies this`frameIndex, this`frameTimer
      ensures 0 <= frameIndex < FramesPerDir
      ensures (frameIndex, frameTimer) == WalkFrames(old(frameIndex), old(frameTimer), dt, moving, overrideAnimation)
    {
      if overrideAnimation {
      } else if moving {
        frameTimer := frameTimer + dt;
        if frameTimer >= FrameDuration {
          frameIndex := (frameIndex + 1) % FramesPerDir;
          frameTimer := 0.0;
        }
      } else {
        frameIndex := 0;
        frameTimer := 0.0;
      }
    }

    /** Player.update(keys, dt, map_rect, collision_rects, override_animation):
        keys set the facing and the step; Q tries a dash (with the new
        facing) and otherwise the dash timer runs; then the walk, the
        top-left fix and the clamp; the walking animation; the shot timer;
        and regeneration capped at max_energy. */
    method Update(k: Keys, dt: real, mapRect: Rect, tiles: seq<Rect>, overrideAnimation: bool)
      requires Valid()
      modifies this`rect, this`facing, this`timeSinceDash, this`energy, this`frameIndex, this`frameTimer, this`timeSinceLastShot
      ensures Valid()
      ensures facing == NewFacing(k, old(facing))
      ensures var dashed := k.q && DashReady(old(timeSinceDash), old(energy));
              var r1 := if dashed then DashRect(old(rect), facing, speed, dt, tiles, mapRect) else old(rect);
              var v := MoveIntent(k, speed, dt);
              rect == WalkRect(r1, v.0, v.1, tiles, mapRect)
      ensures timeSinceDash ==
                if !k.q then old(timeSinceDash) + dt
                else if DashReady(old(timeSinceDash), old(energy)) then 0.0
                else old(timeSinceDash)
      ensures var e1 := if k.q && DashReady(old(timeSinceDash), old(energy)) then MaxReal(0.0, old(energy) - DashCost) else old(energy);
              energy == Regen(e1, recovery, dt, maxEnergy)
      ensures timeSinceLastShot == old(timeSinceLastShot) + dt
      ensures (frameIndex, frameTimer) == WalkFrames(old(frameIndex), old(frameTimer), dt, Moving(k), overrideAnimation)
    {
      Step(k, dt, mapRect, tiles);
      Animate(dt, Moving(k), overrideAnimation);
      timeSinceLastShot := timeSinceLastShot + dt;
      energy := Regen(energy, recovery, dt, maxEnergy);
    }

    /** The movement half of update: the facing, the dash or its timer,
        and the walk. */
    method Step(k: Keys, dt: real, mapRect: Rect, tiles: seq<Rect>)
      requires Valid()
      modifies this`rect, this`facing, this`timeSinceDash, this`energy
      ensures Valid()
      ensures facing == NewFacing(k, old(facing))
      ensures var dashed := k.q && DashReady(old(timeSinceDash), old(energy));
              var r1 := if dashed then DashRect(old(rect), facing, speed, dt, tiles, mapRect) else old(rect);
              var v := MoveIntent(k, speed, dt);
              rect == WalkRect(r1, v.0, v.1, tiles, mapRect)
      ensures timeSinceDash ==
                if !k.q then old(timeSinceDash) + dt
                else if DashReady(old(timeSinceDash), old(energy)) then 0.0
                else old(timeSinceDash)
      ensures energy == if k.q && DashReady(old(timeSinceDash), old(energy)) then MaxReal(0.0, old(energy) - DashCost) else old(energy)
    {
      facing := NewFacing(k, facing);
      var v := MoveIntent(k, speed, dt);
      if k.q {
        TryDash(dt, tiles, mapRect);
      } else {
        timeSinceDash := timeSinceDash + dt;
      }
      assert rect == if k.q && DashReady(old(timeSinceDash), old(energy)) then DashRect(old(rect), facing, speed, dt, tiles, mapRect) else old(rect);
      Walk(v.0, v.1, tiles, mapRect);
    }
  }
}
