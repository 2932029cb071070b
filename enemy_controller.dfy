/**
 * systems/enemy_controller.py: each tick every enemy is updated first,
 * then each enemy touching the player deals 10 contact damage unless its
 * own half-second cooldown is still running.
 */
module EnemyControl {
  import opened Geometry
  import opened Wrappers
  import opened Arith
  import Sprites
  import PlayerEntity

  const ContactDamage: int := 10
  const ContactCooldown: real := 0.5

  /** The enemy deals damage this tick: in the group, overlapping the
      player, and with its cooldown `cd` run out (absent counts as 0). */
  predicate Ready(p: Rect, r: Rect, live: bool, cd: real)
  {
    live && Collide(p, r) && cd <= 0.0
  }

  function Cooldowns(es: seq<Sprites.Enemy>): (cds: seq<real>)
    reads es`hitCooldown
    ensures |cds| == |es| && forall i :: 0 <= i < |es| ==> cds[i] == es[i].hitCooldown
  {
    if es == [] then [] else Cooldowns(es[..|es| - 1]) + [es[|es| - 1].hitCooldown]
  }

  function Rects(es: seq<Sprites.Enemy>): (rs: seq<Rect>)
    reads es`rect
    ensures |rs| == |es| && forall i :: 0 <= i < |es| ==> rs[i] == es[i].rect
  {
    if es == [] then [] else Rects(es[..|es| - 1]) + [es[|es| - 1].rect]
  }

  /** Which enemies are still in the enemies group. */
  function Lives(es: seq<Sprites.Enemy>): (ls: seq<bool>)
    reads es`alive
    ensures |ls| == |es| && forall i :: 0 <= i < |es| ==> ls[i] == es[i].alive
  {
    if es == [] then [] else Lives(es[..|es| - 1]) + [es[|es| - 1].alive]
  }

  /** Which enemies deal contact damage, from their rectangles, group
      membership and the cooldowns they start the pass with. */
  function ReadyFlags(p: Rect, rs: seq<Rect>, ls: seq<bool>, cds: seq<real>): (fs: seq<bool>)
    requires |rs| == |ls| == |cds|
    ensures |fs| == |rs| && forall i :: 0 <= i < |rs| ==> fs[i] == Ready(p, rs[i], ls[i], cds[i])
  {
    seq(|rs|, i requires 0 <= i < |rs| => Ready(p, rs[i], ls[i], cds[i]))
  }

  /** The number of set flags. */
  function Count(fs: seq<bool>): (n: nat)
    ensures n <= |fs|
  {
    if fs == [] then 0 else Count(fs[..|fs| - 1]) + (if fs[|fs| - 1] then 1 else 0)
  }

  lemma CountStep(fs: seq<bool>, i: nat)
    requires i < |fs|
    ensures Count(fs[..i + 1]) == Count(fs[..i]) + (if fs[i] then 1 else 0)
  {
    assert fs[..i + 1][..i] == fs[..i];
  }

  /** The cooldown an enemy is left with by the contact pass. */
  function NextCooldown(p: Rect, r: Rect, live: bool, cd: real, dt: real): real
  {
    if !live || !Collide(p, r) then cd
    else if cd <= 0.0 then ContactCooldown
    else cd - dt
  }

  /** Each enemy's projectile group, where it has one. */
  ghost function Groups(es: seq<Sprites.Enemy>): set<Sprites.ProjectileGroup?>
    reads es`projectileGroup
  {
    set e | e in es && e.projectileGroup != null :: e.projectileGroup
  }

  ghost predicate ReadyToUpdate(es: seq<Sprites.Enemy>)
    reads es`rect, es`frameIndex, es`projectileGroup, Groups(es)`members
  {
    && Sprites.DistinctEnemies(es)
    && (forall e :: e in es ==> e.Valid())
    && (forall e :: e in es && e.projectileGroup != null ==> e.projectileGroup.Valid())
  }

  /** Enemy.update as the enemy pass sees it, always with the map
      rectangle: the changed fields are UpdatePose of the old ones, a shot
      fired goes to the enemy's group, and the contact fields are
      untouched. */
  method UpdateOne(e: Sprites.Enemy, sqrt: real -> real, dt: real, player: Rect, tiles: seq<Rect>,
                   mapRect: Rect, draw: Sprites.PatrolDraw)
    requires e.Valid() && (e.projectileGroup != null ==> e.projectileGroup.Valid())
    requires Sprites.DrawInRange(draw)
    modifies e`x, e`y, e`rect, e`facing, e`changeDirTimer, e`shootTimer, e`state, e`frameTimer, e`frameIndex,
             e.ShotGroup()`members
    ensures e.Valid() && (e.projectileGroup != null ==> e.projectileGroup.Valid())
    ensures e.PoseOf() == Sprites.UpdatePose(sqrt, old(e.PoseOf()), e.speed, e.projectileGroup != null, dt, player,
                                             tiles, Some(mapRect), draw)
    ensures Sprites.ShotOutcome(sqrt, Sprites.ShotFires(e.state, old(e.shootTimer) + dt, e.projectileGroup != null),
                                old(e.Shots()), e.Shots(), e.rect, player.CenterX(), player.CenterY())
    ensures old(e.Shots()) <= e.Shots()
  {
    e.Update(sqrt, dt, player, tiles, Some(mapRect), draw);
  }

  /** The first loop of EnemyController.update: every enemy still in the
      group runs Enemy.update against the player's rectangle, in order;
      `draws` holds each enemy's random patrol draw for this tick. Shots
      only ever join the end of a group. */
  method EnemyPass(sqrt: real -> real, dt: real, player: Rect, enemies: seq<Sprites.Enemy>,
                   tiles: seq<Rect>, mapRect: Rect, draws: seq<Sprites.PatrolDraw>)
    requires ReadyToUpdate(enemies)
    requires |draws| == |enemies| && Sprites.DrawsInRange(draws)
    modifies enemies`x, enemies`y, enemies`rect, enemies`facing, enemies`changeDirTimer, enemies`shootTimer,
             enemies`state, enemies`frameTimer, enemies`frameIndex, Groups(enemies)`members
    ensures ReadyToUpdate(enemies)
    ensures forall i :: 0 <= i < |enemies| ==>
              enemies[i].PoseOf() == PassPose(sqrt, dt, player, tiles, mapRect, enemies[i].alive, enemies[i].speed, enemies[i].projectileGroup != null, old(enemies[i].PoseOf()), draws[i])
    ensures forall i :: 0 <= i < |enemies| ==> old(enemies[i].Shots()) <= enemies[i].Shots()
    ensures forall i :: 0 <= i < |enemies| ==> enemies[i].hitCooldown == old(enemies[i].hitCooldown)
  {
    ghost var poses := Poses(enemies);
    var i := 0;
    while i < |enemies|
      invariant 0 <= i <= |enemies|
      invariant ReadyToUpdate(enemies)
      invariant Passed(sqrt, dt, player, enemies, tiles, mapRect, draws, i, poses)
      invariant forall j :: 0 <= j < |enemies| ==> old(enemies[j].Shots()) <= enemies[j].Shots()
    {
      PassAt(sqrt, dt, player, enemies, tiles, mapRect, draws, i, enemies[i], poses);
      i := i + 1;
    }
  }

  /** The pose an enemy of the pass ends with: UpdatePose when it is still
      in the group, the old one when it has been killed. */
  function PassPose(sqrt: real -> real, dt: real, player: Rect, tiles: seq<Rect>, mapRect: Rect,
                    live: bool, speed: real, armed: bool, p: Sprites.Pose, draw: Sprites.PatrolDraw): Sprites.Pose
  {
    if live then Sprites.UpdatePose(sqrt, p, speed, armed, dt, player, tiles, Some(mapRect), draw) else p
  }

  ghost function Poses(es: seq<Sprites.Enemy>): (ps: seq<Sprites.Pose>)
    reads es`x, es`y, es`rect, es`facing, es`state, es`changeDirTimer, es`shootTimer, es`frameTimer, es`frameIndex
    ensures |ps| == |es| && forall i :: 0 <= i < |es| ==> ps[i] == es[i].PoseOf()
  {
    if es == [] then [] else Poses(es[..|es| - 1]) + [es[|es| - 1].PoseOf()]
  }

  /** The enemy pass has run on the first i enemies: their poses are
      PassPose of the old ones, the others still hold theirs. */
  ghost predicate Passed(sqrt: real -> real, dt: real, player: Rect, enemies: seq<Sprites.Enemy>,
                         tiles: seq<Rect>, mapRect: Rect, draws: seq<Sprites.PatrolDraw>, i: nat,
                         poses: seq<Sprites.Pose>)
    reads enemies`x, enemies`y, enemies`rect, enemies`facing, enemies`state, enemies`changeDirTimer,
          enemies`shootTimer, enemies`frameTimer, enemies`frameIndex, enemies`alive, enemies`projectileGroup
  {
    && i <= |enemies| == |draws| == |poses|
    && (forall j :: 0 <= j < i ==>
          enemies[j].PoseOf() == PassPose(sqrt, dt, player, tiles, mapRect, enemies[j].alive, enemies[j].speed,
                                          enemies[j].projectileGroup != null, poses[j], draws[j]))
    && (forall j :: i <= j < |enemies| ==> enemies[j].PoseOf() == poses[j])
  }

  /** One step of the enemy pass, on the i-th enemy. */
  method PassAt(sqrt: real -> real, dt: real, player: Rect, enemies: seq<Sprites.Enemy>,
                tiles: seq<Rect>, mapRect: Rect, draws: seq<Sprites.PatrolDraw>, i: nat, e: Sprites.Enemy,
                ghost poses: seq<Sprites.Pose>)
    requires ReadyToUpdate(enemies) && i < |enemies| == |draws| == |poses| && e == enemies[i]
    requires Sprites.DrawsInRange(draws)
    requires Passed(sqrt, dt, player, enemies, tiles, mapRect, draws, i, poses)
    modifies e`x, e`y, e`rect, e`facing, e`changeDirTimer, e`shootTimer, e`state, e`frameTimer, e`frameIndex,
             e.ShotGroup()`members
    ensures ReadyToUpdate(enemies)
    ensures Passed(sqrt, dt, player, enemies, tiles, mapRect, draws, i + 1, poses)
    ensures forall i :: 0 <= i < |enemies| ==> old(enemies[i].Shots()) <= enemies[i].Shots()
  {
    if e.alive {
      UpdateOne(e, sqrt, dt, player, tiles, mapRect, draws[i]);
    }
    assert forall j :: 0 <= j < |enemies| && j != i ==> enemies[j].PoseOf() == old(enemies[j].PoseOf());
    assert forall j :: 0 <= j < |enemies| && enemies[j].projectileGroup != e.projectileGroup ==>
                         enemies[j].Shots() == old(enemies[j].Shots());
  }

  /** One enemy of the contact pass. */
  method Touch(dt: real, player: PlayerEntity.Player, e: Sprites.Enemy)
    modifies player`health, e`hitCooldown
    ensures player.health == old(player.health) - (if Ready(player.rect, e.rect, e.alive, old(e.hitCooldown)) then ContactDamage else 0)
    ensures e.hitCooldown == NextCooldown(player.rect, e.rect, e.alive, old(e.hitCooldown), dt)
  {
    if e.alive && Collide(player.rect, e.rect) {
      var cd := e.hitCooldown;
      if cd <= 0.0 {
        player.health := player.health - ContactDamage;
        e.hitCooldown := ContactCooldown;
      } else {
        e.hitCooldown := cd - dt;
      }
    }
  }

  /** One step of the contact pass, on the i-th enemy: the enemies
      before it already hold their new cooldowns, those after it still
      hold the ones they started with. */
  method TouchAt(dt: real, player: PlayerEntity.Player, enemies: seq<Sprites.Enemy>, i: nat, e: Sprites.Enemy, ghost cds: seq<real>)
    requires Sprites.DistinctEnemies(enemies) && i < |enemies| == |cds| && e == enemies[i]
    requires forall j :: 0 <= j < i ==>
               enemies[j].hitCooldown == NextCooldown(player.rect, enemies[j].rect, enemies[j].alive, cds[j], dt)
    requires forall j :: i <= j < |enemies| ==> enemies[j].hitCooldown == cds[j]
    modifies player`health, e`hitCooldown
    ensures player.health == old(player.health) -
              (if Ready(player.rect, enemies[i].rect, enemies[i].alive, cds[i]) then ContactDamage else 0)
    ensures forall j :: 0 <= j <= i ==>
              enemies[j].hitCooldown == NextCooldown(player.rect, enemies[j].rect, enemies[j].alive, cds[j], dt)
    ensures forall j :: i < j < |enemies| ==> enemies[j].hitCooldown == cds[j]
  {
    Touch(dt, player, e);
  }

  /** The second loop of EnemyController.update. */
  method ContactPass(dt: real, player: PlayerEntity.Player, enemies: seq<Sprites.Enemy>) returns (ghost hits: seq<bool>)
    requires ReadyToUpdate(enemies)
    modifies player`health, enemies`hitCooldown
    ensures ReadyToUpdate(enemies)
    ensures |hits| == |enemies| && player.health == old(player.health) - ContactDamage * Count(hits)
    ensures forall i :: 0 <= i < |enemies| ==>
              hits[i] == Ready(player.rect, enemies[i].rect, enemies[i].alive, old(enemies[i].hitCooldown))
    ensures forall i :: 0 <= i < |enemies| ==>
              enemies[i].hitCooldown == NextCooldown(player.rect, enemies[i].rect, enemies[i].alive, old(enemies[i].hitCooldown), dt)
    ensures forall i :: 0 <= i < |enemies| ==> enemies[i].PoseOf() == old(enemies[i].PoseOf())
    ensures forall i :: 0 <= i < |enemies| ==> enemies[i].Shots() == old(enemies[i].Shots())
  {
    ghost var cds := Cooldowns(enemies);
    hits := ReadyFlags(player.rect, Rects(enemies), Lives(enemies), cds);
    ContactLoop(dt, player, enemies, cds, hits);
  }

  /** That loop, with the cooldowns `cds` it starts from and the flags
      `fs` of the enemies that will hurt the player. */
  method ContactLoop(dt: real, player: PlayerEntity.Player, enemies: seq<Sprites.Enemy>, ghost cds: seq<real>, ghost fs: seq<bool>)
    requires Sprites.DistinctEnemies(enemies) && |cds| == |fs| == |enemies|
    requires forall j :: 0 <= j < |enemies| ==> enemies[j].hitCooldown == cds[j]
    requires forall j :: 0 <= j < |enemies| ==> fs[j] == Ready(player.rect, enemies[j].rect, enemies[j].alive, cds[j])
    modifies player`health, enemies`hitCooldown
    ensures player.health == old(player.health) - ContactDamage * Count(fs)
    ensures forall j :: 0 <= j < |enemies| ==>
              enemies[j].hitCooldown == NextCooldown(player.rect, enemies[j].rect, enemies[j].alive, cds[j], dt)
  {
    var i := 0;
    while i < |enemies|
      invariant 0 <= i <= |enemies|
      invariant player.health == old(player.health) - ContactDamage * Count(fs[..i])
      invariant forall j :: 0 <= j < i ==>
                  enemies[j].hitCooldown == NextCooldown(player.rect, enemies[j].rect, enemies[j].alive, cds[j], dt)
      invariant forall j :: i <= j < |enemies| ==> enemies[j].hitCooldown == cds[j]
    {
      CountStep(fs, i);
      TouchAt(dt, player, enemies, i, enemies[i], cds);
      i := i + 1;
    }
    assert fs[..|enemies|] == fs;
  }

  /** EnemyController.update(dt, player): all enemies move before any
      contact is checked, so contact damage is counted on the enemies'
      new rectangles with the cooldowns they had before the tick. */
  method Update(sqrt: real -> real, dt: real, player: PlayerEntity.Player, enemies: seq<Sprites.Enemy>,
                tiles: seq<Rect>, mapRect: Rect, draws: seq<Sprites.PatrolDraw>) returns (ghost hits: seq<bool>)
    requires ReadyToUpdate(enemies)
    requires |draws| == |enemies| && Sprites.DrawsInRange(draws)
    modifies player`health, enemies`x, enemies`y, enemies`rect, enemies`facing, enemies`changeDirTimer,
             enemies`shootTimer, enemies`state, enemies`frameTimer, enemies`frameIndex, enemies`hitCooldown,
             Groups(enemies)`members
    ensures ReadyToUpdate(enemies)
    ensures |hits| == |enemies| && player.health == old(player.health) - ContactDamage * Count(hits)
    ensures forall i :: 0 <= i < |enemies| ==>
              hits[i] == Ready(player.rect, enemies[i].rect, enemies[i].alive, old(enemies[i].hitCooldown))
    ensures forall i :: 0 <= i < |enemies| ==>
              enemies[i].hitCooldown == NextCooldown(player.rect, enemies[i].rect, enemies[i].alive, old(enemies[i].hitCooldown), dt)
    ensures forall i :: 0 <= i < |enemies| ==>
              enemies[i].PoseOf() == PassPose(sqrt, dt, player.rect, tiles, mapRect, enemies[i].alive, enemies[i].speed, enemies[i].projectileGroup != null, old(enemies[i].PoseOf()), draws[i])
    ensures forall i :: 0 <= i < |enemies| ==> old(enemies[i].Shots()) <= enemies[i].Shots()
  {
    EnemyPass(sqrt, dt, player.rect, enemies, tiles, mapRect, draws);
    hits := ContactPass(dt, player, enemies);
  }
}
