/**
 * The two sprites that act on each other: the enemy of entities/enemies.py
 * (a distance-driven patrol / chase / attack machine that moves with
 * wall sliding and fires at the player) and the projectile of
 * core/projectile.py (travels, then is stopped by its range, a wall or
 * the first enemy it overlaps). They share one module because an enemy
 * creates projectiles and a projectile damages enemies.
 *
 * pygame's `kill()` is modelled as clearing `alive`: a sprite group's
 * members are the listed sprites whose `alive` is still set.
 */
module Sprites {
  import opened Arith
  import opened Geometry
  import opened Wrappers

  // Tunables of entities/enemies.py.
  const ChaseRadius: int := 220
  const AttackRadius: int := 160
  const LoseRadius: int := 280
  const ShotCooldown: real := 1.2
  const EnemyProjectileSpeed: real := 300.0
  const PatrolSpeed: real := 40.0

  const EnemyWidth: nat := 32
  const EnemyHeight: nat := 64
  const FramesPerDir: int := 6
  const FrameDelay: real := 0.15
  /** Lower bound on a length before dividing by it. */
  const EnemyNormFloor: real := 0.000001

  // Defaults of core/projectile.py.
  const DefaultProjectileSpeed: real := 50.0
  const DefaultMaxRange: real := 800.0
  /** The fallback projectile image is a circle of radius 8. */
  const ProjectileSize: nat := 16
  const HitDamage: int := 10

  /** `if map_rect:` is false for None and for a rectangle of zero width
      or height. */
  predicate MapGiven(mapRect: Option<Rect>)
  {
    mapRect.Some? && mapRect.value.w != 0 && mapRect.value.h != 0
  }

  /** Enemy._free: no tile overlaps the rectangle (vacuous for no tiles). */
  predicate Free(r: Rect, tiles: seq<Rect>)
  {
    !CollidesAny(r, tiles)
  }

  // ───────────────────────── state machine ─────────────────────────

  datatype EnemyState = Patrol | Chase | Attack

  function SquaredDistance(x1: int, y1: int, x2: int, y2: int): int
  {
    (x1 - x2) * (x1 - x2) + (y1 - y2) * (y1 - y2)
  }

  /** The FSM step of Enemy.update on the squared distance d2 to the player:
      attack within 160, chase within 220, patrol beyond 280, and the
      previous state in the band between. */
  function NextState(prev: EnemyState, d2: int): EnemyState
  {
    if d2 <= AttackRadius * AttackRadius then Attack
    else if d2 <= ChaseRadius * ChaseRadius then Chase
    else if d2 > LoseRadius * LoseRadius then Patrol
    else prev
  }

  /** The squared comparison decides exactly what the comparison of the
      Euclidean distance decides: the four distance bands and their
      states, with hysteresis in (220, 280]. */
  lemma {:induction false} StateBands(sqrt: real -> real, prev: EnemyState, dx: int, dy: int)
    requires SqrtOracle(sqrt)
    ensures var d := Hypot(sqrt, dx as real, dy as real);
            var s := NextState(prev, dx * dx + dy * dy);
            && (d <= AttackRadius as real ==> s == Attack)
            && (AttackRadius as real < d <= ChaseRadius as real ==> s == Chase)
            && (ChaseRadius as real < d <= LoseRadius as real ==> s == prev)
            && (LoseRadius as real < d ==> s == Patrol)
  {
    var a, b := dx as real, dy as real;
    assert (dx * dx + dy * dy) as real == a * a + b * b;
    HypotAtMost(sqrt, a, b, AttackRadius as real);
    HypotAtMost(sqrt, a, b, ChaseRadius as real);
    HypotAtMost(sqrt, a, b, LoseRadius as real);
  }

  function Dot(v: (int, int), dx: int, dy: int): int
  {
    v.0 * dx + v.1 * dy
  }

  /** The facing `_chase` picks for an offset (dx, dy): horizontal when
      |dx| > |dy|, vertical otherwise. It is the facing closest to the
      offset's direction. */
  function DominantFacing(dx: int, dy: int): (f: Facing)
    ensures forall g: Facing :: Dot(g.Vector(), dx, dy) <= Dot(f.Vector(), dx, dy)
    ensures (f == Left || f == Right) <==> (dx < 0 && -dx > (if dy < 0 then -dy else dy)) || (dx > 0 && dx > (if dy < 0 then -dy else dy))
  {
    var ax := if dx < 0 then -dx else dx;
    var ay := if dy < 0 then -dy else dy;
    if ax > ay && dx > 0 then Right
    else if ax > ay then Left
    else if dy > 0 then Down
    else Up
  }

  // ───────────────────────── movement ─────────────────────────

  /** Where `_move` leaves an enemy, and whether it counts as moved. */
  datatype Motion = Motion(x: real, y: real, rect: Rect, moved: bool)

  /** The float position `_move` reaches before committing it: the whole
      step when that rectangle is free; otherwise each axis whose own move
      from the original rectangle is free still moves (the slide), and a
      blocked axis keeps its coordinate. */
  function SlideTarget(r: Rect, x: real, y: real, dx: real, dy: real, tiles: seq<Rect>): (t: (real, real))
    ensures Free(r.Move(Trunc(dx), Trunc(dy)), tiles) ==> t == (x + dx, y + dy)
    ensures !Free(r.Move(Trunc(dx), Trunc(dy)), tiles) ==>
              && t.0 == (if Free(r.Move(Trunc(dx), 0), tiles) then x + dx else x)
              && t.1 == (if Free(r.Move(0, Trunc(dy)), tiles) then y + dy else y)
  {
    var full := Free(r.Move(Trunc(dx), Trunc(dy)), tiles);
    (if full || Free(r.Move(Trunc(dx), 0), tiles) then x + dx else x,
     if full || Free(r.Move(0, Trunc(dy)), tiles) then y + dy else y)
  }

  /** Enemy._move: go to the SlideTarget, commit its integer centre and,
      with a map, clamp the rectangle into it and re-sync the float
      position. Moved means the committed centre, before the clamp,
      differs from the old one. */
  function MoveOutcome(r: Rect, x: real, y: real, dx: real, dy: real, tiles: seq<Rect>, mapRect: Option<Rect>): (m: Motion)
    ensures var t := SlideTarget(r, x, y, dx, dy, tiles);
            && (m.moved <==> (Trunc(t.0), Trunc(t.1)) != (r.CenterX(), r.CenterY()))
            && (!MapGiven(mapRect) ==> m.x == t.0 && m.y == t.1 && m.rect == r.WithCenter(Trunc(t.0), Trunc(t.1)))
            && (MapGiven(mapRect) ==>
                  m.rect == Clamp(r.WithCenter(Trunc(t.0), Trunc(t.1)), mapRect.value) &&
                  m.x == m.rect.CenterX() as real && m.y == m.rect.CenterY() as real)
    ensures m.rect.w == r.w && m.rect.h == r.h
    ensures MapGiven(mapRect) && r.w <= mapRect.value.w && r.h <= mapRect.value.h ==>
              Inside(m.rect, mapRect.value)
  {
    var (nx, ny) := SlideTarget(r, x, y, dx, dy, tiles);
    var c := r.WithCenter(Trunc(nx), Trunc(ny));
    var moved := (Trunc(nx), Trunc(ny)) != (r.CenterX(), r.CenterY());
    if MapGiven(mapRect) then
      var k := Clamp(c, mapRect.value);
      Motion(k.CenterX() as real, k.CenterY() as real, k, moved)
    else
      Motion(nx, ny, c, moved)
  }

  /** An enemy whose rectangle sits on its truncated position and whose
      every move is blocked stays where it is and does not count as moved,
      so it shows its idle frame; with only one axis blocked, the other
      axis still takes its step. */
  lemma {:induction false} BlockedStandsStill(r: Rect, x: real, y: real, dx: real, dy: real, tiles: seq<Rect>)
    requires r.CenterX() == Trunc(x) && r.CenterY() == Trunc(y)
    requires !Free(r.Move(Trunc(dx), Trunc(dy)), tiles)
    ensures !Free(r.Move(Trunc(dx), 0), tiles) && !Free(r.Move(0, Trunc(dy)), tiles) ==>
              var m := MoveOutcome(r, x, y, dx, dy, tiles, None);
              !m.moved && m.rect == r && m.x == x && m.y == y
    ensures Free(r.Move(Trunc(dx), 0), tiles) && !Free(r.Move(0, Trunc(dy)), tiles) ==>
              var m := MoveOutcome(r, x, y, dx, dy, tiles, None);
              m.x == x + dx && m.y == y
    ensures !Free(r.Move(Trunc(dx), 0), tiles) && Free(r.Move(0, Trunc(dy)), tiles) ==>
              var m := MoveOutcome(r, x, y, dx, dy, tiles, None);
              m.x == x && m.y == y + dy
  {
    var t := SlideTarget(r, x, y, dx, dy, tiles);
    if !Free(r.Move(Trunc(dx), 0), tiles) && !Free(r.Move(0, Trunc(dy)), tiles) {
      assert t == (x, y);
      assert r.WithCenter(Trunc(x), Trunc(y)) == r;
    }
  }

  /** `math.hypot(dx, dy) <= max_step`, compared on squares. */
  predicate WithinStep(dx: int, dy: int, maxStep: real)
  {
    0.0 <= maxStep && (dx as real) * (dx as real) + (dy as real) * (dy as real) <= maxStep * maxStep
  }

  lemma {:induction false} WithinStepIsDistance(sqrt: real -> real, dx: int, dy: int, maxStep: real)
    requires SqrtOracle(sqrt)
    ensures WithinStep(dx, dy, maxStep) <==> Hypot(sqrt, dx as real, dy as real) <= maxStep
  {
    HypotAtMost(sqrt, dx as real, dy as real, maxStep);
  }

  /** Enemy._chase towards (tx, ty) at `speed`: snap onto the target when
      it is within one step, otherwise face the dominant axis and move a
      step of length speed * dt along the normalised offset. */
  function ChaseOutcome(sqrt: real -> real, r: Rect, x: real, y: real, facing: Facing,
                        tx: int, ty: int, dt: real, tiles: seq<Rect>, mapRect: Option<Rect>, speed: real): (Motion, Facing)
  {
    var dx := tx - r.CenterX();
    var dy := ty - r.CenterY();
    if WithinStep(dx, dy, StepBudget(speed, dt)) then
      (Motion(tx as real, ty as real, r.WithCenter(tx, ty), true), facing)
    else
      var v := ChaseVelocity(sqrt, dx, dy, speed, dt);
      (MoveOutcome(r, x, y, v.0, v.1, tiles, mapRect), DominantFacing(dx, dy))
  }

  /** The step `_chase` takes: the offset divided by its length (at least
      1e-6), times speed * dt. */
  function ChaseVelocity(sqrt: real -> real, dx: int, dy: int, speed: real, dt: real): (real, real)
  {
    var len := MaxReal(Hypot(sqrt, dx as real, dy as real), EnemyNormFloor);
    (dx as real / len * StepBudget(speed, dt), dy as real / len * StepBudget(speed, dt))
  }

  /** How far one chase step may go: speed * dt. */
  function StepBudget(speed: real, dt: real): real
  {
    speed * dt
  }

  /** A chase step away from the target has length exactly speed * dt. */
  lemma {:induction false} ChaseStepLength(sqrt: real -> real, dx: int, dy: int, speed: real, dt: real)
    requires SqrtOracle(sqrt)
    requires dx != 0 || dy != 0
    ensures var v := ChaseVelocity(sqrt, dx, dy, speed, dt);
            v.0 * v.0 + v.1 * v.1 == (speed * dt) * (speed * dt)
  {
    EnemyShotAimed(sqrt, dx, dy);
    var len := MaxReal(Hypot(sqrt, dx as real, dy as real), EnemyNormFloor);
    var u, w, k := dx as real / len, dy as real / len, speed * dt;
    assert u * u + w * w == 1.0;
    assert (u * k) * (u * k) + (w * k) * (w * k) == (u * u + w * w) * (k * k);
    assert dx as real / len * StepBudget(speed, dt) == u * k && dy as real / len * StepBudget(speed, dt) == w * k;
  }

  /** Within one step (by Euclidean distance) the enemy lands exactly on
      the target and reports a move, with no collision test; farther away
      it turns to the dominant axis and takes a collision-checked step. */
  lemma {:induction false} ChaseSnaps(sqrt: real -> real, r: Rect, x: real, y: real, facing: Facing,
                                      tx: int, ty: int, dt: real, tiles: seq<Rect>, mapRect: Option<Rect>, speed: real)
    requires SqrtOracle(sqrt)
    ensures var o := ChaseOutcome(sqrt, r, x, y, facing, tx, ty, dt, tiles, mapRect, speed);
            var d := Hypot(sqrt, (tx - r.CenterX()) as real, (ty - r.CenterY()) as real);
            && (d <= speed * dt ==>
                  o.0.x == tx as real && o.0.y == ty as real && o.0.moved &&
                  o.0.rect.CenterX() == tx && o.0.rect.CenterY() == ty && o.1 == facing)
            && (d > speed * dt ==>
                  var v := ChaseVelocity(sqrt, tx - r.CenterX(), ty - r.CenterY(), speed, dt);
                  o.1 == DominantFacing(tx - r.CenterX(), ty - r.CenterY()) &&
                  o.0 == MoveOutcome(r, x, y, v.0, v.1, tiles, mapRect))
  {
    WithinStepIsDistance(sqrt, tx - r.CenterX(), ty - r.CenterY(), speed * dt);
  }

  /** `dir_vec[direction]` scaled by the patrol speed of 40 px/s. */
  function PatrolVelocity(f: Facing, dt: real): (v: (real, real))
    ensures v.0 == f.Vector().0 as real * PatrolSpeed * dt && v.1 == f.Vector().1 as real * PatrolSpeed * dt
  {
    match f
    case Up => (0.0, -PatrolSpeed * dt)
    case Down => (0.0, PatrolSpeed * dt)
    case Left => (-PatrolSpeed * dt, 0.0)
    case Right => (PatrolSpeed * dt, 0.0)
  }

  /** The random draws of `_patrol` when its timer runs out:
      random.uniform(1.5, 3.0) and random.choice of a direction. */
  datatype PatrolDraw = PatrolDraw(timer: real, facing: Facing)

  predicate DrawInRange(d: PatrolDraw)
  {
    1.5 <= d.timer <= 3.0
  }

  /** One draw per enemy, each in its range. */
  predicate DrawsInRange(ds: seq<PatrolDraw>)
  {
    forall i :: 0 <= i < |ds| ==> DrawInRange(ds[i])
  }

  // ───────────────────────── one enemy update, on values ─────────────────────────

  /** What the behaviour Enemy.update selects leaves in the position,
      rectangle and moved flag, the facing and the patrol timer. */
  datatype Behaviour = Behaviour(motion: Motion, facing: Facing, changeDirTimer: real)

  /** `_patrol` (the timer counts down and, once it runs out, the draw
      replaces timer and direction before the 40 px/s step), `_chase` at
      full speed, or `_chase` at half speed, by state; chasing leaves the
      patrol timer alone. */
  function BehaviourOf(sqrt: real -> real, state: EnemyState, r: Rect, x: real, y: real, facing: Facing,
                       changeDirTimer: real, speed: real, dt: real, tx: int, ty: int,
                       tiles: seq<Rect>, mapRect: Option<Rect>, draw: PatrolDraw): Behaviour
  {
    match state
    case Patrol =>
      var t := changeDirTimer - dt;
      var f := if t <= 0.0 then draw.facing else facing;
      var v := PatrolVelocity(f, dt);
      Behaviour(MoveOutcome(r, x, y, v.0, v.1, tiles, mapRect), f, if t <= 0.0 then draw.timer else t)
    case Chase =>
      var o := ChaseOutcome(sqrt, r, x, y, facing, tx, ty, dt, tiles, mapRect, speed);
      Behaviour(o.0, o.1, changeDirTimer)
    case Attack =>
      var o := ChaseOutcome(sqrt, r, x, y, facing, tx, ty, dt, tiles, mapRect, speed * 0.5);
      Behaviour(o.0, o.1, changeDirTimer)
  }

  /** Enemy._animate on (frame_timer, frame_index): while moving the timer
      runs and, once it reaches 0.15 s, restarts as the frame advances
      modulo 6; idle shows frame 0 and keeps the timer. */
  function EnemyFrames(timer: real, index: int, dt: real, moved: bool): (f: (real, int))
    ensures 0 <= index < FramesPerDir ==> 0 <= f.1 < FramesPerDir
    ensures !moved ==> f == (timer, 0)
  {
    if !moved then (timer, 0)
    else if timer + dt >= FrameDelay then (0.0, (index + 1) % FramesPerDir)
    else (timer + dt, index)
  }

  /** `_shoot` fires: the enemy attacks, its 1.2 s cooldown has run out
      and it has a group to shoot into. */
  predicate ShotFires(state: EnemyState, shootTimer: real, armed: bool)
  {
    state == Attack && shootTimer >= ShotCooldown && armed
  }

  /** The fields of an enemy that Enemy.update changes. */
  datatype Pose = Pose(x: real, y: real, rect: Rect, facing: Facing, state: EnemyState,
                       changeDirTimer: real, shootTimer: real, frameTimer: real, frameIndex: int)

  /** Enemy.update(dt, player, tiles, map_rect) on those fields: the shot
      timer runs, the state machine reads the distance between the
      centres, the selected behaviour moves the enemy, a fired shot resets
      the timer, and the animation follows whether it moved. `armed` says
      whether the enemy has a projectile group. */
  function UpdatePose(sqrt: real -> real, p: Pose, speed: real, armed: bool, dt: real, player: Rect,
                      tiles: seq<Rect>, mapRect: Option<Rect>, draw: PatrolDraw): Pose
  {
    var tx, ty := player.CenterX(), player.CenterY();
    var state := NextState(p.state, SquaredDistance(tx, ty, p.rect.CenterX(), p.rect.CenterY()));
    var b := BehaviourOf(sqrt, state, p.rect, p.x, p.y, p.facing, p.changeDirTimer, speed, dt, tx, ty, tiles, mapRect, draw);
    var frames := EnemyFrames(p.frameTimer, p.frameIndex, dt, b.motion.moved);
    Pose(b.motion.x, b.motion.y, b.motion.rect, b.facing, state, b.changeDirTimer,
         if ShotFires(state, p.shootTimer + dt, armed) then 0.0 else p.shootTimer + dt,
         frames.0, frames.1)
  }

  /** What holds of every enemy between updates: a 32x64 rectangle centred
      on its truncated float position, a frame of its row, a patrol timer
      in (0, 3] and a non-negative shot timer. */
  predicate PoseOk(p: Pose)
  {
    && p.rect.w == EnemyWidth && p.rect.h == EnemyHeight
    && p.rect.CenterX() == Trunc(p.x) && p.rect.CenterY() == Trunc(p.y)
    && 0 <= p.frameIndex < FramesPerDir
    && 0.0 < p.changeDirTimer <= 3.0 && 0.0 <= p.shootTimer
  }

  /** Enemy.update keeps PoseOk for any forward time step and any draw in
      the range random.uniform(1.5, 3.0) gives. */
  lemma {:induction false} UpdatePoseKeepsOk(sqrt: real -> real, p: Pose, speed: real, armed: bool, dt: real, player: Rect,
                                             tiles: seq<Rect>, mapRect: Option<Rect>, draw: PatrolDraw)
    requires PoseOk(p) && 0.0 <= dt && DrawInRange(draw)
    ensures PoseOk(UpdatePose(sqrt, p, speed, armed, dt, player, tiles, mapRect, draw))
  {
    var tx, ty := player.CenterX(), player.CenterY();
    var state := NextState(p.state, SquaredDistance(tx, ty, p.rect.CenterX(), p.rect.CenterY()));
    var b := BehaviourOf(sqrt, state, p.rect, p.x, p.y, p.facing, p.changeDirTimer, speed, dt, tx, ty, tiles, mapRect, draw);
    MotionSynced(b.motion, p.rect, state, sqrt, p.x, p.y, p.facing, p.changeDirTimer, speed, dt, tx, ty, tiles, mapRect, draw);
  }

  /** Every behaviour leaves the rectangle 32x64 and centred on the
      truncated float position. */
  lemma {:induction false} MotionSynced(m: Motion, r: Rect, state: EnemyState, sqrt: real -> real, x: real, y: real, facing: Facing,
                                        changeDirTimer: real, speed: real, dt: real, tx: int, ty: int,
                                        tiles: seq<Rect>, mapRect: Option<Rect>, draw: PatrolDraw)
    requires m == BehaviourOf(sqrt, state, r, x, y, facing, changeDirTimer, speed, dt, tx, ty, tiles, mapRect, draw).motion
    ensures m.rect.w == r.w && m.rect.h == r.h
    ensures m.rect.CenterX() == Trunc(m.x) && m.rect.CenterY() == Trunc(m.y)
  {
    if state != Patrol {
      var s := if state == Chase then speed else speed * 0.5;
      var dx, dy := tx - r.CenterX(), ty - r.CenterY();
      if WithinStep(dx, dy, StepBudget(s, dt)) {
        assert m.x == tx as real && m.y == ty as real;
      }
    }
  }

  // ───────────────────────── targets of a projectile ─────────────────────────

  /** What a projectile sees of an enemy: its rectangle and whether it is
      still in the enemies group. */
  datatype Target = Target(rect: Rect, live: bool)

  /** Index of the first live target overlapping r, or |ts| if none. */
  function FirstHitIn(r: Rect, ts: seq<Target>): (k: nat)
    ensures k <= |ts|
    ensures k < |ts| ==> ts[k].live && Collide(r, ts[k].rect)
    ensures forall j :: 0 <= j < k ==> !(ts[j].live && Collide(r, ts[j].rect))
  {
    if ts == [] then 0
    else if ts[0].live && Collide(r, ts[0].rect) then 0
    else 1 + FirstHitIn(r, ts[1..])
  }

  /** The outcome of a projectile update once it has moved. */
  datatype Impact = OutOfRange | HitWall | HitEnemy(index: nat) | Flying

  /** Checks in the order of Projectile.update: range, then walls, then the
      first live enemy in group order. */
  function ImpactOf(r: Rect, travelled: real, maxRange: real, walls: seq<Rect>, ts: seq<Target>): (i: Impact)
    ensures i == OutOfRange <==> travelled >= maxRange
    ensures i == HitWall <==> travelled < maxRange && CollidesAny(r, walls)
    ensures i.HitEnemy? <==>
              travelled < maxRange && !CollidesAny(r, walls) &&
              exists j :: 0 <= j < |ts| && ts[j].live && Collide(r, ts[j].rect)
    ensures i.HitEnemy? ==>
              i.index < |ts| && ts[i.index].live && Collide(r, ts[i.index].rect) &&
              forall j :: 0 <= j < i.index ==> !(ts[j].live && Collide(r, ts[j].rect))
  {
    if travelled >= maxRange then OutOfRange
    else if CollidesAny(r, walls) then HitWall
    else
      var k := FirstHitIn(r, ts);
      if k < |ts| then HitEnemy(k) else Flying
  }

  predicate DistinctEnemies(es: seq<Enemy>)
  {
    forall i, j :: 0 <= i < j < |es| ==> es[i] != es[j]
  }

  function Targets(es: seq<Enemy>): (ts: seq<Target>)
    reads es`rect, es`alive
    ensures |ts| == |es|
    ensures forall i :: 0 <= i < |es| ==> ts[i] == Target(es[i].rect, es[i].alive)
  {
    if es == [] then [] else Targets(es[..|es| - 1]) + [Target(es[|es| - 1].rect, es[|es| - 1].alive)]
  }

  // ───────────────────────── projectile ─────────────────────────

  /** One axis of a projectile's move in one update: `d * speed * dt`. */
  function Displacement(d: real, speed: real, dt: real): real
  {
    d * speed * dt
  }

  /** What of a projectile its update changes: position, distance
      travelled, rectangle and group membership. */
  datatype Flight = Flight(x: real, y: real, travelled: real, rect: Rect, alive: bool)

  /** What of a projectile stays fixed: direction, speed and range. */
  datatype Aim = Aim(dx: real, dy: real, speed: real, maxRange: real)

  /** What of an enemy a projectile sees and changes: its rectangle, its
      membership of the enemies group and its health. */
  datatype Foe = Foe(rect: Rect, alive: bool, health: int)

  function FoeTargets(foes: seq<Foe>): (ts: seq<Target>)
    ensures |ts| == |foes| && forall i :: 0 <= i < |foes| ==> ts[i] == Target(foes[i].rect, foes[i].alive)
  {
    seq(|foes|, i requires 0 <= i < |foes| => Target(foes[i].rect, foes[i].alive))
  }

  /** Enemy.take_damage(10). */
  function Hit(f: Foe): Foe
  {
    f.(health := f.health - HitDamage, alive := f.alive && f.health - HitDamage > 0)
  }

  /** The move of Projectile.update on values: one step along the aim,
      the step's length added, the rectangle re-centred. */
  function Moved(sqrt: real -> real, dt: real, a: Aim, f: Flight): (m: Flight)
    ensures m.travelled == f.travelled + Hypot(sqrt, Displacement(a.dx, a.speed, dt), Displacement(a.dy, a.speed, dt))
    ensures m.alive == f.alive
  {
    var x, y := f.x + Displacement(a.dx, a.speed, dt), f.y + Displacement(a.dy, a.speed, dt);
    f.(x := x, y := y, travelled := f.travelled + Hypot(sqrt, Displacement(a.dx, a.speed, dt), Displacement(a.dy, a.speed, dt)),
       rect := f.rect.WithCenter(Trunc(x), Trunc(y)))
  }

  /** The enemies after an impact: the enemy hit takes 10 damage. */
  function Struck(foes: seq<Foe>, i: Impact): (r: seq<Foe>)
    ensures |r| == |foes|
  {
    if i.HitEnemy? && i.index < |foes| then foes[i.index := Hit(foes[i.index])] else foes
  }

  /** Projectile.update on values: the move, then the first of range, wall
      and enemy that stops it; an enemy hit takes 10 damage. */
  function Fly(sqrt: real -> real, dt: real, walls: seq<Rect>, a: Aim, f: Flight, foes: seq<Foe>): (Flight, seq<Foe>)
  {
    var m := Moved(sqrt, dt, a, f);
    var i := ImpactOf(m.rect, m.travelled, a.maxRange, walls, FoeTargets(foes));
    (m.(alive := f.alive && i == Flying), Struck(foes, i))
  }

  /** The group update on values: the members in order, each live one
      flying once against the enemies as the members before it left them;
      removed members are skipped. */
  function GroupRun(sqrt: real -> real, dt: real, walls: seq<Rect>, aims: seq<Aim>, fs: seq<Flight>, foes: seq<Foe>)
    : (r: (seq<Flight>, seq<Foe>))
    requires |aims| == |fs|
    ensures |r.0| == |fs| && |r.1| == |foes|
  {
    if fs == [] then ([], foes)
    else
      var n := |fs| - 1;
      var before := GroupRun(sqrt, dt, walls, aims[..n], fs[..n], foes);
      if fs[n].alive then
        var after := Fly(sqrt, dt, walls, aims[n], fs[n], before.1);
        (before.0 + [after.0], after.1)
      else (before.0 + [fs[n]], before.1)
  }

  /** The enemies' total health. */
  function TotalHealth(foes: seq<Foe>): int
  {
    if foes == [] then 0 else TotalHealth(foes[..|foes| - 1]) + foes[|foes| - 1].health
  }

  /** The number of live flights. */
  function LiveCount(fs: seq<Flight>): (n: nat)
    ensures n <= |fs|
  {
    if fs == [] then 0 else LiveCount(fs[..|fs| - 1]) + (if fs[|fs| - 1].alive then 1 else 0)
  }

  lemma {:induction false} TotalHealthUpdate(foes: seq<Foe>, i: nat, g: Foe)
    requires i < |foes|
    ensures TotalHealth(foes[i := g]) == TotalHealth(foes) - foes[i].health + g.health
    decreases |foes|
  {
    var n := |foes| - 1;
    assert foes[i := g][..n] == if i < n then foes[..n][i := g] else foes[..n];
    if i < n {
      TotalHealthUpdate(foes[..n], i, g);
    }
  }

  /** One flight as the projectile sees it: the distance grows by the
      step, and a flight still live afterwards was live, is within range
      and clear of every wall. */
  lemma {:induction false} FlyFlight(sqrt: real -> real, dt: real, walls: seq<Rect>, a: Aim, f: Flight, foes: seq<Foe>)
    ensures var g := Fly(sqrt, dt, walls, a, f, foes).0;
            && g.travelled == f.travelled + Hypot(sqrt, Displacement(a.dx, a.speed, dt), Displacement(a.dy, a.speed, dt))
            && (g.alive ==> f.alive && g.travelled < a.maxRange && !CollidesAny(g.rect, walls))
  {
    var m := Moved(sqrt, dt, a, f);
    var i := ImpactOf(m.rect, m.travelled, a.maxRange, walls, FoeTargets(foes));
    assert Fly(sqrt, dt, walls, a, f, foes).0 == m.(alive := f.alive && i == Flying);
  }

  /** One flight as the enemies see it: at most one enemy changes, a live
      one, and it takes exactly 10 damage; no rectangle moves. */
  lemma {:induction false} FlyFoes(sqrt: real -> real, dt: real, walls: seq<Rect>, a: Aim, f: Flight, foes: seq<Foe>)
    ensures var r := Fly(sqrt, dt, walls, a, f, foes).1;
            && |r| == |foes|
            && (forall j :: 0 <= j < |foes| ==> r[j] == foes[j] || (foes[j].alive && r[j] == Hit(foes[j])))
            && (TotalHealth(r) == TotalHealth(foes) || TotalHealth(r) == TotalHealth(foes) - HitDamage)
  {
    var m := Moved(sqrt, dt, a, f);
    var i := ImpactOf(m.rect, m.travelled, a.maxRange, walls, FoeTargets(foes));
    assert Fly(sqrt, dt, walls, a, f, foes).1 == Struck(foes, i);
    if i.HitEnemy? {
      assert FoeTargets(foes)[i.index].live;
      TotalHealthUpdate(foes, i.index, Hit(foes[i.index]));
    }
  }

  /** The whole group update, member by member: removed members are
      untouched, each live member moves one step, and a member still live
      afterwards was live and is within range. */
  lemma {:induction false} GroupRunFlights(sqrt: real -> real, dt: real, walls: seq<Rect>, aims: seq<Aim>, fs: seq<Flight>,
                                           foes: seq<Foe>)
    requires |aims| == |fs|
    ensures var r := GroupRun(sqrt, dt, walls, aims, fs, foes).0;
            && (forall j :: 0 <= j < |fs| && !fs[j].alive ==> r[j] == fs[j])
            && (forall j :: 0 <= j < |fs| && fs[j].alive ==>
                  r[j].travelled ==
                    fs[j].travelled + Hypot(sqrt, Displacement(aims[j].dx, aims[j].speed, dt), Displacement(aims[j].dy, aims[j].speed, dt)))
            && (forall j :: 0 <= j < |fs| && r[j].alive ==> fs[j].alive && r[j].travelled < aims[j].maxRange)
    decreases |fs|
  {
    if fs != [] {
      var n := |fs| - 1;
      GroupRunFlights(sqrt, dt, walls, aims[..n], fs[..n], foes);
      var before := GroupRun(sqrt, dt, walls, aims[..n], fs[..n], foes);
      if fs[n].alive {
        FlyFlight(sqrt, dt, walls, aims[n], fs[n], before.1);
      }
    }
  }

  /** The whole group update as the enemies see it: no enemy moves or
      comes back, and no enemy's health rises. */
  lemma {:induction false} GroupRunFoes(sqrt: real -> real, dt: real, walls: seq<Rect>, aims: seq<Aim>, fs: seq<Flight>,
                                        foes: seq<Foe>)
    requires |aims| == |fs|
    ensures var r := GroupRun(sqrt, dt, walls, aims, fs, foes).1;
            forall j :: 0 <= j < |foes| ==>
              r[j].rect == foes[j].rect && r[j].health <= foes[j].health && (r[j].alive ==> foes[j].alive)
    decreases |fs|
  {
    if fs != [] {
      var n := |fs| - 1;
      GroupRunFoes(sqrt, dt, walls, aims[..n], fs[..n], foes);
      var before := GroupRun(sqrt, dt, walls, aims[..n], fs[..n], foes).1;
      if fs[n].alive {
        FlyFoes(sqrt, dt, walls, aims[n], fs[n], before);
      }
    }
  }

  /** The enemies lose 10 health per hit, with at most one hit per live
      member of the group. */
  lemma {:induction false} GroupRunDamage(sqrt: real -> real, dt: real, walls: seq<Rect>, aims: seq<Aim>, fs: seq<Flight>,
                                          foes: seq<Foe>)
    requires |aims| == |fs|
    ensures exists hits: nat :: hits <= LiveCount(fs) &&
              TotalHealth(GroupRun(sqrt, dt, walls, aims, fs, foes).1) == TotalHealth(foes) - HitDamage * hits
    decreases |fs|
  {
    if fs == [] {
      assert TotalHealth(foes) == TotalHealth(foes) - HitDamage * 0;
    } else {
      var n := |fs| - 1;
      GroupRunDamage(sqrt, dt, walls, aims[..n], fs[..n], foes);
      var before := GroupRun(sqrt, dt, walls, aims[..n], fs[..n], foes).1;
      var hits: nat :| hits <= LiveCount(fs[..n]) && TotalHealth(before) == TotalHealth(foes) - HitDamage * hits;
      var h := DamageStep(sqrt, dt, walls, aims, fs, foes, before, hits);
      assert TotalHealth(GroupRun(sqrt, dt, walls, aims, fs, foes).1) == TotalHealth(foes) - HitDamage * h;
    }
  }

  /** The last member's share of GroupRunDamage: one more hit at most,
      and only if that member is live. */
  lemma {:induction false} DamageStep(sqrt: real -> real, dt: real, walls: seq<Rect>, aims: seq<Aim>, fs: seq<Flight>,
                                      foes: seq<Foe>, before: seq<Foe>, hits: nat)
    returns (h: nat)
    requires |aims| == |fs| && fs != []
    requires before == GroupRun(sqrt, dt, walls, aims[..|fs| - 1], fs[..|fs| - 1], foes).1
    requires hits <= LiveCount(fs[..|fs| - 1]) && TotalHealth(before) == TotalHealth(foes) - HitDamage * hits
    ensures h <= LiveCount(fs) && TotalHealth(GroupRun(sqrt, dt, walls, aims, fs, foes).1) == TotalHealth(foes) - HitDamage * h
  {
    var n := |fs| - 1;
    if fs[n].alive {
      FlyFoes(sqrt, dt, walls, aims[n], fs[n], before);
      var after := Fly(sqrt, dt, walls, aims[n], fs[n], before).1;
      h := if TotalHealth(after) == TotalHealth(before) then hits else hits + 1;
    } else {
      h := hits;
    }
  }

  class Projectile {
    var x: real
    var y: real
    const dx: real
    const dy: real
    const speed: real
    const maxRange: real
    var travelled: real
    var rect: Rect
    var alive: bool
    /** Shot by an enemy (see the README: the source drops this flag). */
    const fromEnemy: bool

    /** The fields Projectile.update changes. */
    function FlightOf(): Flight
      reads this`x, this`y, this`travelled, this`rect, this`alive
    {
      Flight(x, y, travelled, rect, alive)
    }

    /** The fields fixed at creation that Projectile.update reads. */
    function AimOf(): Aim
    {
      Aim(dx, dy, speed, maxRange)
    }

    constructor (startX: real, startY: real, dx: real, dy: real, speed: real, maxRange: real, fromEnemy: bool)
      ensures x == startX && y == startY && this.dx == dx && this.dy == dy
      ensures this.speed == speed && this.maxRange == maxRange && this.fromEnemy == fromEnemy
      ensures travelled == 0.0 && alive
      ensures rect == Rect(0, 0, ProjectileSize, ProjectileSize).WithCenter(Trunc(startX), Trunc(startY))
    {
      x, y := startX, startY;
      this.dx, this.dy := dx, dy;
      this.speed, this.maxRange := speed, maxRange;
      this.fromEnemy := fromEnemy;
      travelled := 0.0;
      rect := Rect(0, 0, ProjectileSize, ProjectileSize).WithCenter(Trunc(startX), Trunc(startY));
      alive := true;
    }

    /** The move of Projectile.update: step along the direction, add the
        step's length to the distance travelled, re-centre the rectangle. */
    method Travel(sqrt: real -> real, dt: real)
      requires SqrtOracle(sqrt)
      modifies this`x, this`y, this`travelled, this`rect
      ensures x == old(x) + Displacement(dx, speed, dt) && y == old(y) + Displacement(dy, speed, dt)
      ensures travelled == old(travelled) + Hypot(sqrt, Displacement(dx, speed, dt), Displacement(dy, speed, dt))
      ensures old(travelled) <= travelled
      ensures rect == old(rect).WithCenter(Trunc(x), Trunc(y))
    {
      var stepX := Displacement(dx, speed, dt);
      var stepY := Displacement(dy, speed, dt);
      x := x + stepX;
      y := y + stepY;
      var a, b := stepX * stepX, stepY * stepY;
      assert 0.0 <= a && 0.0 <= b;
      travelled := travelled + Hypot(sqrt, stepX, stepY);
      rect := rect.WithCenter(Trunc(x), Trunc(y));
    }

    /** The checks of Projectile.update once it has moved: range, walls,
        then the first live enemy overlapping it, which loses 10 health. */
    method Strike(walls: seq<Rect>, enemies: seq<Enemy>)
      requires DistinctEnemies(enemies)
      modifies this`alive, enemies`health, enemies`alive
      ensures var i := ImpactOf(rect, travelled, maxRange, walls, old(Targets(enemies)));
              && (alive <==> old(alive) && i == Flying)
              && (i.HitEnemy? ==>
                    enemies[i.index].health == old(enemies[i.index].health) - HitDamage &&
                    (enemies[i.index].alive <==> enemies[i.index].health > 0))
              && (forall j :: 0 <= j < |enemies| && i != HitEnemy(j) ==>
                    enemies[j].health == old(enemies[j].health) && enemies[j].alive == old(enemies[j].alive))
    {
      if travelled >= maxRange {
        alive := false;
        return;
      }
      if CollidesAny(rect, walls) {
        alive := false;
        return;
      }
      var k := FirstHitIn(rect, Targets(enemies));
      if k < |enemies| {
        enemies[k].TakeDamage(HitDamage);
        alive := false;
      }
    }

    /** Projectile.update(dt, walls, enemies): move, add the step's length
        to the distance travelled, re-centre the rectangle, then apply the
        first of range, wall and enemy that stops it. Only the first live
        overlapping enemy loses exactly 10 health. */
    method Update(sqrt: real -> real, dt: real, walls: seq<Rect>, enemies: seq<Enemy>)
      requires SqrtOracle(sqrt)
      requires DistinctEnemies(enemies)
      modifies this`x, this`y, this`travelled, this`rect, this`alive, enemies`health, enemies`alive
      ensures x == old(x) + Displacement(dx, speed, dt) && y == old(y) + Displacement(dy, speed, dt)
      ensures travelled == old(travelled) + Hypot(sqrt, Displacement(dx, speed, dt), Displacement(dy, speed, dt))
      ensures old(travelled) <= travelled
      ensures rect == old(rect).WithCenter(Trunc(x), Trunc(y))
      ensures var i := ImpactOf(rect, travelled, maxRange, walls, old(Targets(enemies)));
              && (alive <==> old(alive) && i == Flying)
              && (i.HitEnemy? ==>
                    enemies[i.index].health == old(enemies[i.index].health) - HitDamage &&
                    (enemies[i.index].alive <==> enemies[i.index].health > 0))
              && (forall j :: 0 <= j < |enemies| && i != HitEnemy(j) ==>
                    enemies[j].health == old(enemies[j].health) && enemies[j].alive == old(enemies[j].alive))
      ensures forall j :: 0 <= j < |enemies| ==> enemies[j].rect == old(enemies[j].rect)
    {
      Travel(sqrt, dt);
      Strike(walls, enemies);
    }
  }

  /** Projectile.__init__ with its keyword checks: start_pos and direction
      are required (ValueError otherwise); speed defaults to 50 and
      max_range to 800. */
  method NewProjectile(start: Option<(real, real)>, direction: Option<(real, real)>,
                       speed: real := DefaultProjectileSpeed, maxRange: real := DefaultMaxRange,
                       fromEnemy: bool := false)
    returns (r: Result<Projectile, string>)
    ensures r.Err? <==> start.None? || direction.None?
    ensures r.Ok? ==> fresh(r.value)
    ensures r.Ok? ==>
              r.value.x == start.value.0 && r.value.y == start.value.1 &&
              r.value.dx == direction.value.0 && r.value.dy == direction.value.1 &&
              r.value.speed == speed && r.value.maxRange == maxRange &&
              r.value.fromEnemy == fromEnemy && r.value.travelled == 0.0 && r.value.alive
  {
    if start.None? || direction.None? {
      return Err("start_pos and direction must be provided");
    }
    var p := new Projectile(start.value.0, start.value.1, direction.value.0, direction.value.1, speed, maxRange, fromEnemy);
    return Ok(p);
  }

  /** A projectile with a unit direction covers exactly speed * dt per
      update, so with constant dt it is stopped by its range on update
      Ceil(maxRange / (speed * dt)) at the latest, and (absent walls and
      enemies) survives every update before that. */
  lemma {:induction false} ProjectileRange(sqrt: real -> real, dx: real, dy: real, speed: real, dt: real, maxRange: real, k: nat)
    requires SqrtOracle(sqrt)
    requires dx * dx + dy * dy == 1.0 && 0.0 < speed && 0.0 < dt && 0.0 < maxRange
    ensures Hypot(sqrt, Displacement(dx, speed, dt), Displacement(dy, speed, dt)) == speed * dt
    ensures Survives(k, speed * dt, maxRange) <==> k < Ceil(maxRange / (speed * dt))
  {
    var s := speed * dt;
    PosMul(speed, dt);
    var a, b := dx * speed * dt, dy * speed * dt;
    assert a == dx * s && b == dy * s;
    assert a * a + b * b == (dx * dx + dy * dy) * (s * s);
    assert a * a + b * b == s * s;
    var r := Hypot(sqrt, a, b);
    assert 0.0 <= s * s;
    assert 0.0 <= r && r * r == s * s;
    RootOfSquare(r, s);
    SurvivesExactly(k, s, maxRange);
  }

  /** The values of the projectiles' changing fields. */
  ghost function Flights(ps: seq<Projectile>): (fs: seq<Flight>)
    reads ps`x, ps`y, ps`travelled, ps`rect, ps`alive
    ensures |fs| == |ps| && forall i :: 0 <= i < |ps| ==> fs[i] == ps[i].FlightOf()
  {
    if ps == [] then [] else Flights(ps[..|ps| - 1]) + [ps[|ps| - 1].FlightOf()]
  }

  /** The projectiles' fixed fields. */
  function Aims(ps: seq<Projectile>): (as_: seq<Aim>)
    ensures |as_| == |ps| && forall i :: 0 <= i < |ps| ==> as_[i] == ps[i].AimOf()
  {
    if ps == [] then [] else Aims(ps[..|ps| - 1]) + [ps[|ps| - 1].AimOf()]
  }

  /** The values of the enemies' fields a projectile reads and changes. */
  ghost function Foes(es: seq<Enemy>): (fs: seq<Foe>)
    reads es`rect, es`alive, es`health
    ensures |fs| == |es| && forall i :: 0 <= i < |es| ==> fs[i] == es[i].FoeOf()
  {
    if es == [] then [] else Foes(es[..|es| - 1]) + [es[|es| - 1].FoeOf()]
  }

  /** One projectile's update, as the group loop sees it: exactly Fly on
      the values of its fields and of the enemies' fields. */
  method AdvanceOne(p: Projectile, sqrt: real -> real, dt: real, walls: seq<Rect>, enemies: seq<Enemy>,
                    ghost foes: seq<Foe>)
    requires SqrtOracle(sqrt) && DistinctEnemies(enemies)
    requires |foes| == |enemies| && forall j :: 0 <= j < |enemies| ==> enemies[j].FoeOf() == foes[j]
    modifies p`x, p`y, p`travelled, p`rect, p`alive, enemies`health, enemies`alive
    ensures p.FlightOf() == Fly(sqrt, dt, walls, p.AimOf(), old(p.FlightOf()), foes).0
    ensures forall j :: 0 <= j < |enemies| ==> enemies[j].FoeOf() == Fly(sqrt, dt, walls, p.AimOf(), old(p.FlightOf()), foes).1[j]
  {
    ghost var m := Moved(sqrt, dt, p.AimOf(), p.FlightOf());
    ghost var i := ImpactOf(m.rect, m.travelled, p.maxRange, walls, FoeTargets(foes));
    assert Targets(enemies) == FoeTargets(foes);
    p.Update(sqrt, dt, walls, enemies);
    assert p.rect == m.rect && p.travelled == m.travelled;
    assert Fly(sqrt, dt, walls, p.AimOf(), old(p.FlightOf()), foes).1 == Struck(foes, i);
    forall j | 0 <= j < |enemies|
      ensures enemies[j].FoeOf() == Struck(foes, i)[j]
    {
      if i == HitEnemy(j) {
        assert Struck(foes, i)[j] == Hit(foes[j]);
      }
    }
  }

  /** projectile_system.projectiles: a pygame group of projectiles. */
  class ProjectileGroup {
    var members: seq<Projectile>

    ghost predicate Valid()
      reads this`members
    {
      forall i, j :: 0 <= i < j < |members| ==> members[i] != members[j]
    }

    constructor ()
      ensures Valid() && members == []
    {
      members := [];
    }

    /** Group.add: a sprite already in the group is not added twice. */
    method Add(p: Projectile)
      requires Valid()
      modifies this`members
      ensures Valid()
      ensures members == if p in old(members) then old(members) else old(members) + [p]
    {
      if p !in members {
        members := members + [p];
      }
    }

    /** ProjectileSystem.update: every live projectile is updated once,
        in group order, against the walls and the enemies group; the new
        projectile and enemy fields are GroupRun of the old ones. */
    method Update(sqrt: real -> real, dt: real, walls: seq<Rect>, enemies: seq<Enemy>)
      requires SqrtOracle(sqrt) && Valid() && DistinctEnemies(enemies)
      modifies members`x, members`y, members`travelled, members`rect, members`alive, enemies`health, enemies`alive
      ensures var run := GroupRun(sqrt, dt, walls, Aims(members), old(Flights(members)), old(Foes(enemies)));
              && (forall j :: 0 <= j < |members| ==> members[j].FlightOf() == run.0[j])
              && (forall k :: 0 <= k < |enemies| ==> enemies[k].FoeOf() == run.1[k])
    {
      ghost var fs0, foes0 := Flights(members), Foes(enemies);
      var i := 0;
      while i < |members|
        invariant RanTo(i, sqrt, dt, walls, enemies, fs0, foes0)
        decreases |members| - i
      {
        AdvanceAt(i, members[i], sqrt, dt, walls, enemies, fs0, foes0);
        i := i + 1;
      }
      assert Aims(members)[..i] == Aims(members) && fs0[..i] == fs0;
    }

    /** The loop of Update has run on the first i members: they and the
        enemies are GroupRun of the old values fs0 and foes0 on that
        prefix, and the other members still hold their old values. */
    ghost predicate RanTo(i: nat, sqrt: real -> real, dt: real, walls: seq<Rect>, enemies: seq<Enemy>,
                          fs0: seq<Flight>, foes0: seq<Foe>)
      reads this`members, members`x, members`y, members`travelled, members`rect, members`alive,
            enemies`rect, enemies`alive, enemies`health
    {
      && i <= |members| == |fs0| && |foes0| == |enemies|
      && var run := GroupRun(sqrt, dt, walls, Aims(members)[..i], fs0[..i], foes0);
         && (forall j :: 0 <= j < i ==> members[j].FlightOf() == run.0[j])
         && (forall k :: 0 <= k < |enemies| ==> enemies[k].FoeOf() == run.1[k])
         && (forall j :: i <= j < |members| ==> members[j].FlightOf() == fs0[j])
    }

    /** One step of the group update, on the i-th member. */
    method AdvanceAt(i: nat, p: Projectile, sqrt: real -> real, dt: real, walls: seq<Rect>, enemies: seq<Enemy>,
                     ghost fs0: seq<Flight>, ghost foes0: seq<Foe>)
      requires SqrtOracle(sqrt) && Valid() && DistinctEnemies(enemies)
      requires i < |members| && p == members[i]
      requires RanTo(i, sqrt, dt, walls, enemies, fs0, foes0)
      modifies p`x, p`y, p`travelled, p`rect, p`alive, enemies`health, enemies`alive
      ensures RanTo(i + 1, sqrt, dt, walls, enemies, fs0, foes0)
    {
      ghost var aims := Aims(members);
      ghost var before := GroupRun(sqrt, dt, walls, aims[..i], fs0[..i], foes0);
      assert aims[..i + 1][..i] == aims[..i] && fs0[..i + 1][..i] == fs0[..i];
      if p.alive {
        AdvanceOne(p, sqrt, dt, walls, enemies, before.1);
      }
    }
  }

  // ───────────────────────── enemy ─────────────────────────

  class Enemy {
    var x: real
    var y: real
    const speed: real
    var facing: Facing
    var state: EnemyState
    var changeDirTimer: real
    var shootTimer: real
    var frameTimer: real
    var frameIndex: int
    var health: int
    const maxHealth: int
    var rect: Rect
    var alive: bool
    var projectileGroup: ProjectileGroup?
    /** `_hit_cooldown` of systems/enemy_controller.py; absent counts as 0. */
    var hitCooldown: real

    ghost predicate Valid()
      reads this`rect, this`frameIndex
    {
      rect.w == EnemyWidth && rect.h == EnemyHeight && 0 <= frameIndex < FramesPerDir
    }

    /** The group its shots go to, if it has one. */
    ghost function ShotGroup(): set<ProjectileGroup>
      reads this`projectileGroup
    {
      if projectileGroup == null then {} else {projectileGroup}
    }

    /** The projectiles of its group; none without a group. */
    ghost function Shots(): seq<Projectile>
      reads this`projectileGroup, ShotGroup()`members
    {
      if projectileGroup == null then [] else projectileGroup.members
    }

    /** Whether `_shoot` fires with the shot timer at t: the 1.2 s cooldown
        has run out and there is a group to add the projectile to. */
    ghost predicate Fired(t: real)
      reads this`projectileGroup
    {
      t >= ShotCooldown && projectileGroup != null
    }

    /** The fields Enemy.update changes. */
    function PoseOf(): Pose
      reads this`x, this`y, this`rect, this`facing, this`state, this`changeDirTimer, this`shootTimer,
            this`frameTimer, this`frameIndex
    {
      Pose(x, y, rect, facing, state, changeDirTimer, shootTimer, frameTimer, frameIndex)
    }

    /** The fields a projectile reads and changes. */
    function FoeOf(): Foe
      reads this`rect, this`alive, this`health
    {
      Foe(rect, alive, health)
    }

    /** Enemy(x, y, speed=80, max_health=60), with the random initial
        direction and patrol timer supplied by the caller. */
    constructor (x: int, y: int, facing: Facing, changeDirTimer: real, speed: real := 80.0, maxHealth: int := 60)
      requires 1.5 <= changeDirTimer <= 3.0
      ensures Valid()
      ensures this.x == x as real && this.y == y as real && this.speed == speed && this.facing == facing
      ensures state == Patrol && this.changeDirTimer == changeDirTimer
      ensures shootTimer == 0.0 && frameTimer == 0.0 && frameIndex == 0
      ensures health == maxHealth && this.maxHealth == maxHealth && alive
      ensures rect.CenterX() == x && rect.CenterY() == y
      ensures projectileGroup == null && hitCooldown == 0.0
      ensures PoseOk(PoseOf())
    {
      this.x, this.y := x as real, y as real;
      this.speed := speed;
      this.facing := facing;
      state := Patrol;
      this.changeDirTimer := changeDirTimer;
      shootTimer, frameTimer, frameIndex := 0.0, 0.0, 0;
      health, this.maxHealth := maxHealth, maxHealth;
      rect := Rect(0, 0, EnemyWidth, EnemyHeight).WithCenter(x, y);
      alive := true;
      projectileGroup := null;
      hitCooldown := 0.0;
    }

    /** Enemy.take_damage: health drops by exactly dmg, with no clamp, and
        the enemy leaves its groups once health is at most 0. */
    method TakeDamage(dmg: int)
      modifies this`health, this`alive
      ensures health == old(health) - dmg
      ensures alive <==> old(alive) && health > 0
    {
      health := health - dmg;
      if health <= 0 {
        alive := false;
      }
    }

    /** Enemy._move, proved to agree with MoveOutcome. */
    method Move(dx: real, dy: real, tiles: seq<Rect>, mapRect: Option<Rect>) returns (moved: bool)
      requires Valid()
      modifies this`x, this`y, this`rect
      ensures Valid()
      ensures Motion(x, y, rect, moved) == MoveOutcome(old(rect), old(x), old(y), dx, dy, tiles, mapRect)
    {
      var oldCenter := (rect.CenterX(), rect.CenterY());
      ghost var target := SlideTarget(rect, x, y, dx, dy, tiles);
      if Free(rect.Move(Trunc(dx), Trunc(dy)), tiles) {
        x := x + dx;
        y := y + dy;
      } else {
        if Free(rect.Move(Trunc(dx), 0), tiles) {
          x := x + dx;
        }
        if Free(rect.Move(0, Trunc(dy)), tiles) {
          y := y + dy;
        }
      }
      assert (x, y) == target;
      var newCenter := (Trunc(x), Trunc(y));
      rect := rect.WithCenter(newCenter.0, newCenter.1);
      if MapGiven(mapRect) {
        rect := Clamp(rect, mapRect.value);
        x, y := rect.CenterX() as real, rect.CenterY() as real;
      }
      moved := newCenter != oldCenter;
    }

    /** Enemy._patrol: count the direction timer down; when it runs out,
        take a fresh timer and direction from the draw; step at 40 px/s. */
    method PatrolStep(dt: real, tiles: seq<Rect>, mapRect: Option<Rect>, draw: PatrolDraw) returns (moved: bool)
      requires Valid() && DrawInRange(draw)
      modifies this`changeDirTimer, this`facing, this`x, this`y, this`rect
      ensures Valid()
      ensures old(changeDirTimer) - dt <= 0.0 ==> changeDirTimer == draw.timer && facing == draw.facing
      ensures old(changeDirTimer) - dt > 0.0 ==> changeDirTimer == old(changeDirTimer) - dt && facing == old(facing)
      ensures var v := PatrolVelocity(facing, dt);
              Motion(x, y, rect, moved) == MoveOutcome(old(rect), old(x), old(y), v.0, v.1, tiles, mapRect)
    {
      changeDirTimer := changeDirTimer - dt;
      if changeDirTimer <= 0.0 {
        changeDirTimer := draw.timer;
        facing := draw.facing;
      }
      var v := PatrolVelocity(facing, dt);
      moved := Move(v.0, v.1, tiles, mapRect);
    }

    /** Enemy._chase, proved to agree with ChaseOutcome. */
    method ChaseStep(sqrt: real -> real, dt: real, tx: int, ty: int, tiles: seq<Rect>, mapRect: Option<Rect>, speed: real)
      returns (moved: bool)
      requires Valid()
      modifies this`x, this`y, this`rect, this`facing
      ensures Valid()
      ensures (Motion(x, y, rect, moved), facing) ==
                ChaseOutcome(sqrt, old(rect), old(x), old(y), old(facing), tx, ty, dt, tiles, mapRect, speed)
    {
      var dx := tx - rect.CenterX();
      var dy := ty - rect.CenterY();
      if WithinStep(dx, dy, StepBudget(speed, dt)) {
        moved := Snap(tx, ty);
      } else {
        var v := ChaseVelocity(sqrt, dx, dy, speed, dt);
        moved := Pursue(dx, dy, v, tiles, mapRect);
      }
    }

    /** The chase step with the target in reach: the centre lands on it. */
    method Snap(tx: int, ty: int) returns (moved: bool)
      requires Valid()
      modifies this`x, this`y, this`rect
      ensures Valid()
      ensures Motion(x, y, rect, moved) == Motion(tx as real, ty as real, old(rect).WithCenter(tx, ty), true)
    {
      x, y := tx as real, ty as real;
      rect := rect.WithCenter(tx, ty);
      moved := true;
    }

    /** The chase step once the target is out of reach: face the larger
        offset, then move by the velocity v. */
    method Pursue(dx: int, dy: int, v: (real, real), tiles: seq<Rect>, mapRect: Option<Rect>) returns (moved: bool)
      requires Valid()
      modifies this`x, this`y, this`rect, this`facing
      ensures Valid()
      ensures facing == DominantFacing(dx, dy)
      ensures Motion(x, y, rect, moved) == MoveOutcome(old(rect), old(x), old(y), v.0, v.1, tiles, mapRect)
    {
      facing := DominantFacing(dx, dy);
      moved := Move(v.0, v.1, tiles, mapRect);
    }

    /** Enemy._shoot at (px, py): nothing before the 1.2 s cooldown or
        without a projectile group; otherwise reset the timer and add one
        enemy projectile at speed 300 from the enemy's centre, aimed at
        the target. */
    method Shoot(sqrt: real -> real, px: int, py: int)
      requires projectileGroup != null ==> projectileGroup.Valid()
      modifies this`shootTimer, ShotGroup()`members
      ensures projectileGroup != null ==> projectileGroup.Valid()
      ensures Fired(old(shootTimer)) ==> shootTimer == 0.0
      ensures !Fired(old(shootTimer)) ==> shootTimer == old(shootTimer)
      ensures ShotOutcome(sqrt, Fired(old(shootTimer)), old(Shots()), Shots(), rect, px, py)
      ensures Fired(old(shootTimer)) ==> fresh(Shots()[|old(Shots())|])
    {
      if shootTimer < ShotCooldown || projectileGroup == null {
        return;
      }
      shootTimer := 0.0;
      var dx := px - rect.CenterX();
      var dy := py - rect.CenterY();
      var len := MaxReal(Hypot(sqrt, dx as real, dy as real), EnemyNormFloor);
      var bullet := new Projectile(rect.CenterX() as real, rect.CenterY() as real, dx as real / len, dy as real / len,
                                   EnemyProjectileSpeed, DefaultMaxRange, true);
      projectileGroup.Add(bullet);
    }

    /** Enemy._animate: while moving, advance the frame every 0.15 s
        modulo the 6 frames of a direction; when idle, show frame 0 (the
        frame timer is kept). */
    method Animate(dt: real, moved: bool)
      requires 0 <= frameIndex < FramesPerDir
      modifies this`frameTimer, this`frameIndex
      ensures 0 <= frameIndex < FramesPerDir
      ensures (frameTimer, frameIndex) == EnemyFrames(old(frameTimer), old(frameIndex), dt, moved)
    {
      if moved {
        frameTimer := frameTimer + dt;
        if frameTimer >= FrameDelay {
          frameTimer := 0.0;
          frameIndex := (frameIndex + 1) % FramesPerDir;
        }
      } else {
        frameIndex := 0;
      }
    }

    /** The attack branch of Enemy.update: chase at half speed, then try
        to shoot at the target. */
    method AttackStep(sqrt: real -> real, dt: real, tx: int, ty: int, tiles: seq<Rect>, mapRect: Option<Rect>)
      returns (moved: bool)
      requires Valid()
      requires projectileGroup != null ==> projectileGroup.Valid()
      modifies this`x, this`y, this`rect, this`facing, this`shootTimer, ShotGroup()`members
      ensures Valid()
      ensures projectileGroup != null ==> projectileGroup.Valid()
      ensures (Motion(x, y, rect, moved), facing) ==
                ChaseOutcome(sqrt, old(rect), old(x), old(y), old(facing), tx, ty, dt, tiles, mapRect, speed * 0.5)
      ensures Fired(old(shootTimer)) ==> shootTimer == 0.0
      ensures !Fired(old(shootTimer)) ==> shootTimer == old(shootTimer)
      ensures ShotOutcome(sqrt, Fired(old(shootTimer)), old(Shots()), Shots(), rect, tx, ty)
      ensures Fired(old(shootTimer)) ==> fresh(Shots()[|old(Shots())|])
    {
      ghost var o := ChaseOutcome(sqrt, rect, x, y, facing, tx, ty, dt, tiles, mapRect, speed * 0.5);
      moved := ChaseStep(sqrt, dt, tx, ty, tiles, mapRect, speed * 0.5);
      assert (Motion(x, y, rect, moved), facing) == o;
      Shoot(sqrt, tx, ty);
    }

    /** The behaviour Enemy.update selects by the (already updated) state:
        position, moved flag, facing and patrol timer are BehaviourOf, and
        only an attack may fire a shot. */
    method Behave(sqrt: real -> real, dt: real, tx: int, ty: int, tiles: seq<Rect>, mapRect: Option<Rect>, draw: PatrolDraw)
      returns (moved: bool)
      requires Valid() && DrawInRange(draw)
      requires projectileGroup != null ==> projectileGroup.Valid()
      modifies this`x, this`y, this`rect, this`facing, this`changeDirTimer, this`shootTimer, ShotGroup()`members
      ensures Valid()
      ensures projectileGroup != null ==> projectileGroup.Valid()
      ensures Behaviour(Motion(x, y, rect, moved), facing, changeDirTimer) ==
                BehaviourOf(sqrt, state, old(rect), old(x), old(y), old(facing), old(changeDirTimer), speed, dt, tx, ty,
                            tiles, mapRect, draw)
      ensures var fired := state == Attack && Fired(old(shootTimer));
              && shootTimer == (if fired then 0.0 else old(shootTimer))
              && ShotOutcome(sqrt, fired, old(Shots()), Shots(), rect, tx, ty)
              && (fired ==> fresh(Shots()[|old(Shots())|]))
    {
      if state == Patrol {
        moved := PatrolStep(dt, tiles, mapRect, draw);
      } else if state == Chase {
        moved := ChaseStep(sqrt, dt, tx, ty, tiles, mapRect, speed);
      } else {
        moved := AttackStep(sqrt, dt, tx, ty, tiles, mapRect);
      }
    }

    /** Enemy.update(dt, player, collision_rects, map_rect): tick the shot
        timer, run the state machine on the distance between the centres,
        then patrol, chase at full speed, or chase at half speed and shoot;
        finally animate. Every changed field is UpdatePose of the old ones,
        and a fired shot is appended to the enemy's group. */
    method Update(sqrt: real -> real, dt: real, player: Rect, tiles: seq<Rect>, mapRect: Option<Rect>, draw: PatrolDraw)
      requires Valid() && DrawInRange(draw)
      requires projectileGroup != null ==> projectileGroup.Valid()
      modifies this`x, this`y, this`rect, this`facing, this`changeDirTimer, this`shootTimer, this`state,
               this`frameTimer, this`frameIndex, ShotGroup()`members
      ensures Valid()
      ensures projectileGroup != null ==> projectileGroup.Valid()
      ensures PoseOf() == UpdatePose(sqrt, old(PoseOf()), speed, projectileGroup != null, dt, player, tiles, mapRect, draw)
      ensures var fired := ShotFires(state, old(shootTimer) + dt, projectileGroup != null);
              && ShotOutcome(sqrt, fired, old(Shots()), Shots(), rect, player.CenterX(), player.CenterY())
              && (fired ==> fresh(Shots()[|old(Shots())|]))
    {
      shootTimer := shootTimer + dt;
      var px, py := player.CenterX(), player.CenterY();
      state := NextState(state, SquaredDistance(px, py, rect.CenterX(), rect.CenterY()));
      var moved := Behave(sqrt, dt, px, py, tiles, mapRect, draw);
      Animate(dt, moved);
    }
  }

  /** p is the projectile `_shoot` fires from an enemy with rectangle r at
      (px, py): enemy-flagged, speed 300, range 800, starting at the enemy's
      centre, with the offset to the target divided by its (floored) length. */
  ghost predicate ShotFrom(p: Projectile, sqrt: real -> real, r: Rect, px: int, py: int)
    reads p`x, p`y, p`travelled, p`alive
  {
    var dx := px - r.CenterX();
    var dy := py - r.CenterY();
    var len := MaxReal(Hypot(sqrt, dx as real, dy as real), EnemyNormFloor);
    && p.fromEnemy && p.speed == EnemyProjectileSpeed && p.maxRange == DefaultMaxRange
    && p.x == r.CenterX() as real && p.y == r.CenterY() as real
    && p.dx == dx as real / len && p.dy == dy as real / len
    && p.travelled == 0.0 && p.alive
  }

  /** What `_shoot` at (px, py) from rectangle r does to the group's
      projectiles ms0: when it fires, ms1 is ms0 with one ShotFrom
      projectile appended; otherwise nothing changes. */
  ghost predicate ShotOutcome(sqrt: real -> real, fired: bool, ms0: seq<Projectile>, ms1: seq<Projectile>,
                              r: Rect, px: int, py: int)
    reads ms1
  {
    if fired then
      |ms1| == |ms0| + 1 && ms1[..|ms0|] == ms0 && ShotFrom(ms1[|ms0|], sqrt, r, px, py)
    else
      ms1 == ms0
  }

  /** An enemy shot at a target other than its own centre flies at unit
      speed direction straight at the target: its direction times the
      offset's length is the offset. */
  lemma {:induction false} EnemyShotAimed(sqrt: real -> real, dx: int, dy: int)
    requires SqrtOracle(sqrt)
    requires dx != 0 || dy != 0
    ensures var len := MaxReal(Hypot(sqrt, dx as real, dy as real), EnemyNormFloor);
            && (dx as real / len) * (dx as real / len) + (dy as real / len) * (dy as real / len) == 1.0
            && (dx as real / len) * len == dx as real && (dy as real / len) * len == dy as real
  {
    var a, b := dx as real, dy as real;
    assert 1.0 <= a * a + b * b by {
      if dx != 0 {
        assert 1.0 <= a * a;
      } else {
        assert 1.0 <= b * b;
      }
      assert 0.0 <= a * a && 0.0 <= b * b;
    }
    NormaliseIsUnit(sqrt, a, b, EnemyNormFloor);
  }
}
