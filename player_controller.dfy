/**
 * systems/player_controller.py: one tick of player input. Unless the chat
 * box has focus, the player updates (facing, a Q dash, walk, timers,
 * regeneration), then SPACE tries a shot that costs 5 energy when it
 * fires, then Q tries a second dash.
 */
module PlayerControl {
  import opened Geometry
  import opened Arith
  import Sprites
  import opened PlayerEntity

  /** Energy a fired shot costs the player. */
  const ShotEnergyCost: real := 5.0

  /** The timers and energy the tick's gates look at. */
  datatype Gauges = Gauges(timeSinceDash: real, energy: real, timeSinceLastShot: real)

  /** What Player.update leaves in the gauges. */
  function AfterUpdate(k: Keys, g: Gauges, dt: real, recovery: int, maxEnergy: int): (h: Gauges)
    ensures h.energy <= maxEnergy as real
    ensures h.timeSinceLastShot == g.timeSinceLastShot + dt
    ensures k.q && DashReady(g.timeSinceDash, g.energy) ==> h.timeSinceDash == 0.0
    ensures !(k.q && DashReady(g.timeSinceDash, g.energy)) && k.q ==> h.timeSinceDash == g.timeSinceDash
  {
    var dashed := k.q && DashReady(g.timeSinceDash, g.energy);
    var e1 := if dashed then MaxReal(0.0, g.energy - DashCost) else g.energy;
    Gauges(if !k.q then g.timeSinceDash + dt else if dashed then 0.0 else g.timeSinceDash,
           Regen(e1, recovery, dt, maxEnergy),
           g.timeSinceLastShot + dt)
  }

  /** Whether the SPACE shot fires, judged on the gauges after the update. */
  predicate Fires(k: Keys, g: Gauges)
  {
    k.space && g.timeSinceLastShot >= ShotCooldown
  }

  /** The gauges after the shot attempt: a fired shot restarts its timer
      and costs 5 energy, floored at 0. */
  function AfterShot(k: Keys, g: Gauges): (h: Gauges)
    ensures h.timeSinceDash == g.timeSinceDash
    ensures Fires(k, g) ==> h.timeSinceLastShot == 0.0 && h.energy == MaxReal(0.0, g.energy - ShotEnergyCost)
    ensures !Fires(k, g) ==> h == g
    ensures 0.0 <= g.energy ==> 0.0 <= h.energy <= g.energy
  {
    if Fires(k, g) then g.(timeSinceLastShot := 0.0, energy := MaxReal(0.0, g.energy - ShotEnergyCost)) else g
  }

  /** The gauges after the second dash attempt. */
  function AfterDash(k: Keys, g: Gauges): (h: Gauges)
    ensures h.timeSinceLastShot == g.timeSinceLastShot
    ensures k.q && DashReady(g.timeSinceDash, g.energy) ==>
              h.timeSinceDash == 0.0 && h.energy == MaxReal(0.0, g.energy - DashCost)
    ensures !(k.q && DashReady(g.timeSinceDash, g.energy)) ==> h == g
  {
    if k.q && DashReady(g.timeSinceDash, g.energy) then g.(timeSinceDash := 0.0, energy := MaxReal(0.0, g.energy - DashCost)) else g
  }

  /** How many of the tick's two dash attempts succeed. */
  function DashesInTick(k: Keys, g: Gauges, dt: real, recovery: int, maxEnergy: int): nat
  {
    var g1 := AfterUpdate(k, g, dt, recovery, maxEnergy);
    (if k.q && DashReady(g.timeSinceDash, g.energy) then 1 else 0) +
    (if k.q && DashReady(AfterShot(k, g1).timeSinceDash, AfterShot(k, g1).energy) then 1 else 0)
  }

  /** Q calls try_dash twice in a tick, but a dash inside Player.update
      restarts the cooldown, so the second attempt cannot succeed as
      well; and when the first fails on its cooldown the second fails
      too. The second succeeds only where the first failed for want of
      energy and regeneration (less any shot cost) made up the rest. */
  lemma {:induction false} AtMostOneDash(k: Keys, g: Gauges, dt: real, recovery: int, maxEnergy: int)
    ensures DashesInTick(k, g, dt, recovery, maxEnergy) <= 1
    ensures DashesInTick(k, g, dt, recovery, maxEnergy) == 1 ==>
              k.q && g.timeSinceDash >= DashCooldown
    ensures var g1 := AfterShot(k, AfterUpdate(k, g, dt, recovery, maxEnergy));
            k.q && DashReady(g1.timeSinceDash, g1.energy) ==> !DashReady(g.timeSinceDash, g.energy) && g.energy < DashCost
  {
    var g1 := AfterUpdate(k, g, dt, recovery, maxEnergy);
    var g2 := AfterShot(k, g1);
    if k.q && DashReady(g.timeSinceDash, g.energy) {
      assert g1.timeSinceDash == 0.0;
      assert g2.timeSinceDash == 0.0;
      assert !DashReady(g2.timeSinceDash, g2.energy);
    } else if k.q {
      assert g2.timeSinceDash == g.timeSinceDash;
    }
  }

  /** The player's gauges. */
  function GaugesOf(p: Player): Gauges
    reads p`timeSinceDash, p`energy, p`timeSinceLastShot
  {
    Gauges(p.timeSinceDash, p.energy, p.timeSinceLastShot)
  }

  /** The shot try_shoot fires: a live player projectile at `origin` that
      has not travelled yet, flying along `dir` at the default speed for
      the default range. */
  ghost predicate NewPlayerShot(p: Sprites.Projectile, dir: (real, real), origin: (int, int))
    reads p
  {
    && !p.fromEnemy && p.alive && p.travelled == 0.0 && (p.dx, p.dy) == dir
    && p.x == origin.0 as real && p.y == origin.1 as real
    && p.speed == Sprites.DefaultProjectileSpeed && p.maxRange == Sprites.DefaultMaxRange
  }

  /** Where the player's hitbox is after Player.update (its own Q dash,
      then the walk), which is where a shot of that tick starts from. */
  function StepRect(k: Keys, r: Rect, f: Facing, g: Gauges, speed: int, dt: real,
                    tiles: seq<Rect>, mapRect: Rect): Rect
  {
    var facing := NewFacing(k, f);
    var r0 := if k.q && DashReady(g.timeSinceDash, g.energy) then DashRect(r, facing, speed, dt, tiles, mapRect) else r;
    var v := MoveIntent(k, speed, dt);
    WalkRect(r0, v.0, v.1, tiles, mapRect)
  }

  /** Where the player's hitbox ends up after a tick without chat focus:
      Player.update (its own Q dash, then the walk) and then the second
      Q dash, along the new facing. */
  function TickRect(k: Keys, r: Rect, f: Facing, g: Gauges, speed: int, recovery: int, maxEnergy: int,
                    dt: real, tiles: seq<Rect>, mapRect: Rect): (q: Rect)
    ensures q.w == r.w && q.h == r.h
    ensures r.w <= mapRect.w && r.h <= mapRect.h ==> Inside(q, mapRect)
  {
    var facing := NewFacing(k, f);
    var r1 := StepRect(k, r, f, g, speed, dt, tiles, mapRect);
    var g2 := AfterShot(k, AfterUpdate(k, g, dt, recovery, maxEnergy));
    if k.q && DashReady(g2.timeSinceDash, g2.energy) then DashRect(r1, facing, speed, dt, tiles, mapRect) else r1
  }

  /** A PlayerController: the player it drives, the collision rectangles
      and the map rectangle it was built with. */
  class PlayerController {
    const player: Player
    const collisionRects: seq<Rect>
    const mapRect: Rect

    constructor (player: Player, collisionRects: seq<Rect>, mapRect: Rect)
      ensures this.player == player && this.collisionRects == collisionRects && this.mapRect == mapRect
    {
      this.player := player;
      this.collisionRects := collisionRects;
      this.mapRect := mapRect;
    }

    /** The first step: Player.update with the held keys. */
    method Step(k: Keys, dt: real)
      requires player.Valid()
      modifies player`rect, player`facing, player`timeSinceDash, player`energy, player`frameIndex,
               player`frameTimer, player`timeSinceLastShot
      ensures player.Valid()
      ensures GaugesOf(player) == AfterUpdate(k, old(GaugesOf(player)), dt, player.recovery, player.maxEnergy)
      ensures player.facing == NewFacing(k, old(player.facing))
      ensures player.rect == StepRect(k, old(player.rect), old(player.facing), old(GaugesOf(player)),
                                      player.speed, dt, collisionRects, mapRect)
    ensures (player.frameIndex, player.frameTimer) ==
              WalkFrames(old(player.frameIndex), old(player.frameTimer), dt, Moving(k), false)
    {
      player.Update(k, dt, mapRect, collisionRects, false);
    }

    /** The shot step: when SPACE is held, try_shoot, and when that
        returns a projectile, add it to the projectile system and take 5
        energy (never below 0). */
    method Shoot(sqrt: real -> real, k: Keys, projectiles: Sprites.ProjectileGroup, spriteHeight: nat)
      requires player.Valid() && projectiles.Valid()
      modifies player`timeSinceLastShot, player`energy, projectiles`members
      ensures player.Valid() && projectiles.Valid()
      ensures GaugesOf(player) == AfterShot(k, old(GaugesOf(player)))
      ensures !Fires(k, old(GaugesOf(player))) ==> projectiles.members == old(projectiles.members)
      ensures Fires(k, old(GaugesOf(player))) ==>
                |projectiles.members| == |old(projectiles.members)| + 1 &&
                projectiles.members[..|old(projectiles.members)|] == old(projectiles.members) &&
                var p := projectiles.members[|old(projectiles.members)|];
                fresh(p) && NewPlayerShot(p, ShotDirection(sqrt, k, player.facing), player.ProjectileSpawnPos(spriteHeight))
    {
      if k.space {
        var p := player.TryShoot(sqrt, k, spriteHeight);
        if p != null {
          projectiles.Add(p);
          player.energy := MaxReal(0.0, player.energy - ShotEnergyCost);
        }
      }
    }

    /** The dash step: when Q is held, try_dash along the facing. */
    method Dash(k: Keys, dt: real)
      requires player.Valid()
      modifies player`rect, player`timeSinceDash, player`energy
      ensures player.Valid()
      ensures GaugesOf(player) == AfterDash(k, old(GaugesOf(player)))
      ensures player.rect == if k.q && DashReady(old(player.timeSinceDash), old(player.energy))
                             then DashRect(old(player.rect), player.facing, player.speed, dt, collisionRects, mapRect)
                             else old(player.rect)
    {
      if k.q {
        player.TryDash(dt, collisionRects, mapRect);
      }
    }

    /** The tick without chat focus: Step, Shoot, then Dash. */
    method Tick(sqrt: real -> real, dt: real, k: Keys, projectiles: Sprites.ProjectileGroup, spriteHeight: nat)
      requires player.Valid() && projectiles.Valid()
      modifies player`rect, player`facing, player`timeSinceDash, player`energy, player`frameIndex,
               player`frameTimer, player`timeSinceLastShot, projectiles`members
      ensures player.Valid() && projectiles.Valid()
      ensures GaugesOf(player) ==
                AfterDash(k, AfterShot(k, AfterUpdate(k, old(GaugesOf(player)), dt, player.recovery, player.maxEnergy))) &&
              player.facing == NewFacing(k, old(player.facing)) &&
              player.rect == TickRect(k, old(player.rect), old(player.facing), old(GaugesOf(player)), player.speed,
                                      player.recovery, player.maxEnergy, dt, collisionRects, mapRect) &&
              (player.frameIndex, player.frameTimer) ==
                WalkFrames(old(player.frameIndex), old(player.frameTimer), dt, Moving(k), false)
      ensures var fired := Fires(k, AfterUpdate(k, old(GaugesOf(player)), dt, player.recovery, player.maxEnergy));
              |projectiles.members| == |old(projectiles.members)| + (if fired then 1 else 0) &&
              projectiles.members[..|old(projectiles.members)|] == old(projectiles.members) &&
              (fired ==> var p := projectiles.members[|old(projectiles.members)|];
                         var origin := ShotOrigin(StepRect(k, old(player.rect), old(player.facing), old(GaugesOf(player)),
                                                           player.speed, dt, collisionRects, mapRect), spriteHeight);
                         fresh(p) && NewPlayerShot(p, ShotDirection(sqrt, k, player.facing), origin))
    {
      Step(k, dt);
      ghost var r1 := player.rect;
      Shoot(sqrt, k, projectiles, spriteHeight);
      assert player.rect == r1 && player.ProjectileSpawnPos(spriteHeight) == ShotOrigin(r1, spriteHeight);
      ghost var members := projectiles.members;
      Dash(k, dt);
      assert projectiles.members == members;
    }

    /** PlayerController.update(dt, keys, projectile_system, chat_active).
        `spriteHeight` is the height of the player's current image. */
    method Update(sqrt: real -> real, dt: real, k: Keys, projectiles: Sprites.ProjectileGroup,
                  chatActive: bool, spriteHeight: nat)
      requires player.Valid() && projectiles.Valid()
      modifies player`rect, player`facing, player`timeSinceDash, player`energy, player`frameIndex,
               player`frameTimer, player`timeSinceLastShot, projectiles`members
      ensures player.Valid() && projectiles.Valid()
      ensures chatActive ==>
                player.rect == old(player.rect) && player.facing == old(player.facing) &&
                GaugesOf(player) == old(GaugesOf(player)) &&
                player.frameIndex == old(player.frameIndex) && player.frameTimer == old(player.frameTimer) &&
                projectiles.members == old(projectiles.members)
      ensures !chatActive ==>
                GaugesOf(player) ==
                  AfterDash(k, AfterShot(k, AfterUpdate(k, old(GaugesOf(player)), dt, player.recovery, player.maxEnergy))) &&
                player.facing == NewFacing(k, old(player.facing)) &&
                player.rect == TickRect(k, old(player.rect), old(player.facing), old(GaugesOf(player)), player.speed,
                                        player.recovery, player.maxEnergy, dt, collisionRects, mapRect) &&
                (player.frameIndex, player.frameTimer) ==
                  WalkFrames(old(player.frameIndex), old(player.frameTimer), dt, Moving(k), false)
      ensures !chatActive ==>
                var fired := Fires(k, AfterUpdate(k, old(GaugesOf(player)), dt, player.recovery, player.maxEnergy));
                |projectiles.members| == |old(projectiles.members)| + (if fired then 1 else 0) &&
                projectiles.members[..|old(projectiles.members)|] == old(projectiles.members) &&
                (fired ==> var p := projectiles.members[|old(projectiles.members)|];
                           var origin := ShotOrigin(StepRect(k, old(player.rect), old(player.facing), old(GaugesOf(player)),
                                                             player.speed, dt, collisionRects, mapRect), spriteHeight);
                           fresh(p) && NewPlayerShot(p, ShotDirection(sqrt, k, player.facing), origin))
    {
      if !chatActive {
        Tick(sqrt, dt, k, projectiles, spriteHeight);
      }
    }
  }
}
