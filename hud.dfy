/**
 * ui/screens/hud_screen.py, the in-game screen: the random enemy spawns
 * made when the screen is built, the gameplay half of each tick (player,
 * projectiles, enemy shots against the player, explosions, enemies,
 * respawn, camera) and the chat box's handling of key and mouse events.
 * Loading the TMX map, the tab manager, the exit dialog's own events and
 * all drawing are not part of this model.
 */
module Hud {
  import opened Arith
  import opened Geometry
  import opened Wrappers
  import opened Text
  import opened Sprites
  import opened PlayerEntity
  import opened ExplosionFx
  import opened CameraView
  import opened SpawnValidation
  import opened Input
  import EnemyControl
  import PlayerControl

  /** The enemy spawn loop: 30 draws at most, 5 enemies wanted, each at
      least 150 px from the player's spawn point. */
  const SpawnAttempts: int := 30
  const SpawnWant: int := 5
  const SpawnMinDistance: real := 150.0

  /** Health an enemy shot takes from the player. */
  const EnemyShotDamage: int := 10

  /** The chat box shows five messages; the input bar's rectangle. */
  const ChatLines: int := 5
  const InputBox: Rect := Rect(400, 390, 500, 24)

  /** The spawn point used when the map has no PlayerSpawn object. */
  const DefaultSpawn: (int, int) := (100, 100)

  /** The viewport the camera is built with. */
  const ViewWidth: int := 800
  const ViewHeight: int := 600

  // ───────────────────────── enemy spawns ─────────────────────────

  /** A freshly spawned enemy: centred on its accepted sample, alive,
      patrolling with the drawn facing and timer, at the default 60 health
      and 80 px/s, shooting into the level's projectile group. */
  ghost predicate NewEnemy(e: Enemy, c: (int, int), d: PatrolDraw, pg: ProjectileGroup)
    reads e
  {
    && e.Valid() && e.alive && e.rect.CenterX() == c.0 && e.rect.CenterY() == c.1
    && e.projectileGroup == pg && e.state == Patrol
    && e.facing == d.facing && e.changeDirTimer == d.timer
    && e.health == 60 && e.speed == 80.0 && e.hitCooldown == 0.0
  }

  /** Enemy i was spawned at centre i with draw i. */
  ghost predicate NewEnemies(es: seq<Enemy>, centres: seq<(int, int)>, draws: seq<PatrolDraw>, pg: ProjectileGroup)
    reads set e | e in es
  {
    && |es| == |centres| <= |draws|
    && forall i :: 0 <= i < |es| ==> NewEnemy(es[i], centres[i], draws[i], pg)
  }

  lemma NewEnemiesAdd(es: seq<Enemy>, centres: seq<(int, int)>, draws: seq<PatrolDraw>, pg: ProjectileGroup,
                      e: Enemy, c: (int, int))
    requires NewEnemies(es, centres, draws, pg) && |es| < |draws| && NewEnemy(e, c, draws[|es|], pg)
    ensures NewEnemies(es + [e], centres + [c], draws, pg)
  {
  }

  /** One enemy of the spawn loop, created at centre `c`. */
  method NewSpawn(c: (int, int), d: PatrolDraw, projectiles: ProjectileGroup) returns (e: Enemy)
    requires DrawInRange(d)
    ensures fresh(e) && NewEnemy(e, c, d, projectiles)
  {
    e := new Enemy(c.0, c.1, d.facing, d.timer);
    e.projectileGroup := projectiles;
  }

  /** One attempt of the spawn loop: sample n becomes a new enemy when it
      is a valid spawn point. */
  method TrySpawn(enemies: seq<Enemy>, n: nat, samples: seq<(int, int)>, tiles: seq<Rect>, spawn: (int, int),
                  draws: seq<PatrolDraw>, projectiles: ProjectileGroup) returns (es: seq<Enemy>)
    requires n < |samples| && |enemies| < |draws| && DrawInRange(draws[|enemies|])
    requires NewEnemies(enemies, Accepted(samples[..n], tiles, Some(spawn), SpawnMinDistance), draws, projectiles)
    requires DistinctEnemies(enemies)
    ensures NewEnemies(es, Accepted(samples[..n + 1], tiles, Some(spawn), SpawnMinDistance), draws, projectiles)
    ensures DistinctEnemies(es)
    ensures |enemies| <= |es| <= |enemies| + 1 && es[..|enemies|] == enemies
    ensures forall i :: |enemies| <= i < |es| ==> fresh(es[i])
  {
    var p := samples[n];
    ghost var before := Accepted(samples[..n], tiles, Some(spawn), SpawnMinDistance);
    AcceptedStep(samples, n, tiles, Some(spawn), SpawnMinDistance);
    es := enemies;
    if IsValidSpawn(p.0, p.1, tiles, Some(spawn), SpawnMinDistance) {
      var e := NewSpawn(p, draws[|enemies|], projectiles);
      NewEnemiesAdd(enemies, before, draws, projectiles, e, p);
      es := enemies + [e];
    }
  }

  /**
   * The spawn loop of HUDScreen.__init__: while fewer than 5 enemies
   * exist and attempts remain, draw a centre; when its 32x64 footprint is
   * clear of the collision tiles and it is at least 150 px from the
   * player's spawn, create an enemy there that shoots into `projectiles`.
   * `samples` holds the centres randint returns, `draws` the direction and
   * patrol timer each new enemy draws; both are drawn in advance. On a
   * map under 64 px on either axis the first randint raises ValueError.
   */
  method SpawnEnemies(mapWidth: int, mapHeight: int, tiles: seq<Rect>, spawn: (int, int),
                      samples: seq<(int, int)>, draws: seq<PatrolDraw>, projectiles: ProjectileGroup)
    returns (r: Result<seq<Enemy>, string>, ghost attempts: nat)
    requires SpawnAttempts <= |samples| && SpawnWant <= |draws|
    requires !MapTooSmall(mapWidth, mapHeight) ==> forall i :: 0 <= i < |samples| ==> InRange(samples[i], mapWidth, mapHeight)
    requires forall i :: 0 <= i < |draws| ==> DrawInRange(draws[i])
    ensures r.Err? <==> MapTooSmall(mapWidth, mapHeight)
    ensures attempts <= SpawnAttempts
    ensures r.Ok? ==>
              var enemies := r.value;
              && |enemies| <= SpawnWant
              && (|enemies| < SpawnWant ==> attempts == SpawnAttempts)
              && DistinctEnemies(enemies)
              && (forall i :: 0 <= i < |enemies| ==> fresh(enemies[i]))
              && NewEnemies(enemies, Accepted(samples[..attempts], tiles, Some(spawn), SpawnMinDistance), draws, projectiles)
  {
    var enemies := [];
    var left := SpawnAttempts;
    var n := 0;
    attempts := 0;
    while |enemies| < SpawnWant && left != 0
      invariant 0 <= left <= SpawnAttempts && n == SpawnAttempts - left && attempts == n
      invariant 0 < n ==> !MapTooSmall(mapWidth, mapHeight)
      invariant |enemies| <= SpawnWant
      invariant forall i :: 0 <= i < |enemies| ==> fresh(enemies[i])
      invariant NewEnemies(enemies, Accepted(samples[..attempts], tiles, Some(spawn), SpawnMinDistance), draws, projectiles)
      invariant DistinctEnemies(enemies)
    {
      if MapTooSmall(mapWidth, mapHeight) {
        return Err("empty range for randrange()"), attempts;
      }
      enemies := TrySpawn(enemies, n, samples, tiles, spawn, draws, projectiles);
      left := left - 1;
      n := n + 1;
      attempts := n;
    }
    return Ok(enemies), attempts;
  }

  /** The spawn loop on a map of at least 64 px each way, as the screen
      uses it: it returns, with well-formed enemies shooting into
      `projectiles`, one per accepted sample of the first n. */
  method SpawnLevel(mapWidth: int, mapHeight: int, tiles: seq<Rect>, spawn: (int, int),
                    samples: seq<(int, int)>, draws: seq<PatrolDraw>, projectiles: ProjectileGroup)
    returns (enemies: seq<Enemy>, ghost n: nat)
    requires SpawnAttempts <= |samples| && SpawnWant <= |draws| && !MapTooSmall(mapWidth, mapHeight)
    requires forall i :: 0 <= i < |samples| ==> InRange(samples[i], mapWidth, mapHeight)
    requires forall i :: 0 <= i < |draws| ==> DrawInRange(draws[i])
    ensures DistinctEnemies(enemies) && |enemies| <= SpawnWant
    ensures forall e :: e in enemies ==> e.Valid() && e.projectileGroup == projectiles
    ensures n <= SpawnAttempts && n <= |samples|
    ensures NewEnemies(enemies, Accepted(samples[..n], tiles, Some(spawn), SpawnMinDistance), draws, projectiles)
  {
    var r;
    r, n := SpawnEnemies(mapWidth, mapHeight, tiles, spawn, samples, draws, projectiles);
    enemies := r.value;
  }

  /** The screen's 800x600 camera, bounded by the map and following `target`. */
  method FollowingCamera(mapWidth: int, mapHeight: int, target: Rect) returns (cam: Camera)
    ensures fresh(cam) && cam.Valid() && cam.zoom == 1.0
    ensures cam.viewportWidth == ViewWidth && cam.viewportHeight == ViewHeight
    ensures cam.worldWidth == Some(mapWidth) && cam.worldHeight == Some(mapHeight)
    ensures cam.offsetX == FollowAxis(target.CenterX(), ViewWidth, 1.0, Some(mapWidth))
    ensures cam.offsetY == FollowAxis(target.CenterY(), ViewHeight, 1.0, Some(mapHeight))
  {
    cam := new Camera(ViewWidth, ViewHeight, Some(mapWidth), Some(mapHeight));
    cam.Follow(target);
  }

  /** Every spawned enemy stands clear of the collision tiles, at least
      150 px (Euclidean) from the player's spawn, inside the sampled
      range of the map. */
  lemma {:induction false} SpawnedEnemiesClear(sqrt: real -> real, samples: seq<(int, int)>, n: nat,
                                               tiles: seq<Rect>, spawn: (int, int), mapWidth: int, mapHeight: int)
    requires SqrtOracle(sqrt)
    requires n <= |samples|
    requires forall i :: 0 <= i < |samples| ==> InRange(samples[i], mapWidth, mapHeight)
    ensures var centres := Accepted(samples[..n], tiles, Some(spawn), SpawnMinDistance);
            forall i :: 0 <= i < |centres| ==>
              && !CollidesAny(Rect(centres[i].0 - 16, centres[i].1 - 32, 32, 64), tiles)
              && Hypot(sqrt, (centres[i].0 - spawn.0) as real, (centres[i].1 - spawn.1) as real) >= SpawnMinDistance
              && InRange(centres[i], mapWidth, mapHeight)
  {
    var centres := Accepted(samples[..n], tiles, Some(spawn), SpawnMinDistance);
    forall i | 0 <= i < |centres|
      ensures && !CollidesAny(Rect(centres[i].0 - 16, centres[i].1 - 32, 32, 64), tiles)
              && Hypot(sqrt, (centres[i].0 - spawn.0) as real, (centres[i].1 - spawn.1) as real) >= SpawnMinDistance
              && InRange(centres[i], mapWidth, mapHeight)
    {
      var c := centres[i];
      assert c in samples[..n];
      ValidSpawnByDistance(sqrt, c.0, c.1, tiles, Some(spawn), SpawnMinDistance);
    }
  }

  // ───────────────────────── enemy shots against the player ─────────────────────────

  /** What the hit check reads of a projectile: whether it is still in
      the group, its kind, its rectangle and its float position. */
  datatype ShotView = ShotView(live: bool, fromEnemy: bool, rect: Rect, x: real, y: real)

  function View(p: Projectile): ShotView
    reads p`alive, p`rect, p`x, p`y
  {
    ShotView(p.alive, p.fromEnemy, p.rect, p.x, p.y)
  }

  function Views(ps: seq<Projectile>): (vs: seq<ShotView>)
    reads ps`alive, ps`rect, ps`x, ps`y
    ensures |vs| == |ps|
    ensures forall i :: 0 <= i < |ps| ==> vs[i] == View(ps[i])
  {
    if ps == [] then [] else Views(ps[..|ps| - 1]) + [View(ps[|ps| - 1])]
  }

  /** The check of the hit loop: a live enemy shot overlapping the player. */
  predicate HitsPlayer(player: Rect, v: ShotView)
  {
    v.live && v.fromEnemy && Collide(player, v.rect)
  }

  /** Where the shots that hit the player are, in group order: one
      explosion is added at each of these points. */
  function HitPoints(player: Rect, vs: seq<ShotView>): (hs: seq<(real, real)>)
    ensures |hs| <= |vs|
  {
    if vs == [] then []
    else
      var last := vs[|vs| - 1];
      HitPoints(player, vs[..|vs| - 1]) + (if HitsPlayer(player, last) then [(last.x, last.y)] else [])
  }

  /** Where the explosions are centred. */
  function Centres(es: seq<Explosion>): (cs: seq<(int, int)>)
    ensures |cs| == |es|
  {
    if es == [] then [] else Centres(es[..|es| - 1]) + [(es[|es| - 1].centerX, es[|es| - 1].centerY)]
  }

  /** The integer centres an Explosion built at these points gets. */
  function TruncPoints(hs: seq<(real, real)>): (cs: seq<(int, int)>)
    ensures |cs| == |hs|
  {
    if hs == [] then [] else TruncPoints(hs[..|hs| - 1]) + [(Trunc(hs[|hs| - 1].0), Trunc(hs[|hs| - 1].1))]
  }

  /** The hit points are exactly the positions of the hitting shots: none
      at all iff no shot hits, and every hitting shot contributes. */
  lemma {:induction false} HitPointsExactly(player: Rect, vs: seq<ShotView>)
    ensures HitPoints(player, vs) == [] <==> forall i :: 0 <= i < |vs| ==> !HitsPlayer(player, vs[i])
    ensures forall i :: 0 <= i < |vs| && HitsPlayer(player, vs[i]) ==> (vs[i].x, vs[i].y) in HitPoints(player, vs)
    ensures forall h :: h in HitPoints(player, vs) ==>
              exists i :: 0 <= i < |vs| && HitsPlayer(player, vs[i]) && h == (vs[i].x, vs[i].y)
  {
    if vs != [] {
      var init := vs[..|vs| - 1];
      HitPointsExactly(player, init);
      assert forall i :: 0 <= i < |init| ==> init[i] == vs[i];
    }
  }

  /** What the hit check reads as written: core/projectile.py never
      stores `from_enemy`, so `getattr(p, "from_enemy", False)` always
      falls back to False. */
  function AsWrittenViews(vs: seq<ShotView>): (ws: seq<ShotView>)
    ensures |ws| == |vs|
    ensures forall i :: 0 <= i < |vs| ==> ws[i] == vs[i].(fromEnemy := false)
  {
    if vs == [] then [] else AsWrittenViews(vs[..|vs| - 1]) + [vs[|vs| - 1].(fromEnemy := false)]
  }

  /** As written, no projectile ever hits the player through this check. */
  lemma {:induction false} AsWrittenNeverHits(player: Rect, vs: seq<ShotView>)
    ensures HitPoints(player, AsWrittenViews(vs)) == []
  {
    if vs != [] {
      AsWrittenNeverHits(player, vs[..|vs| - 1]);
      assert AsWrittenViews(vs)[..|vs| - 1] == AsWrittenViews(vs[..|vs| - 1]);
    }
  }

  /** A live enemy shot overlapping the player is hit once the kind is
      stored, while the check as written lets the same shot through. */
  lemma EnemyShotOnPlayerHits(player: Rect, vs: seq<ShotView>, i: int)
    requires 0 <= i < |vs| && vs[i].live && vs[i].fromEnemy && Collide(player, vs[i].rect)
    ensures (vs[i].x, vs[i].y) in HitPoints(player, vs)
    ensures HitPoints(player, AsWrittenViews(vs)) == []
  {
    HitPointsExactly(player, vs);
    AsWrittenNeverHits(player, vs);
  }

  // ───────────────────────── chat ─────────────────────────

  /** The chat fields of the screen, plus whether the exit dialog shows. */
  datatype Chat = Chat(messages: seq<string>, input: string, active: bool, panelVisible: bool,
                       scroll: int, exitShown: bool)

  /** The furthest the chat can scroll back. */
  function MaxScroll(messages: seq<string>): (m: int)
    ensures 0 <= m && |messages| - ChatLines <= m
  {
    MaxInt(0, |messages| - ChatLines)
  }

  /** The message a RETURN posts. */
  function Posted(input: string): string
  {
    "[Player]: " + Strip(input)
  }

  /** The typing chain, run for a key press while the chat has focus. */
  function Typing(c: Chat, key: Key, unicode: string): Chat
  {
    if key == Enter && Strip(c.input) != [] then
      c.(messages := c.messages + [Posted(c.input)], input := "", scroll := 0)
    else if key == Backspace then
      c.(input := DropLast(c.input))
    else if key == UpArrow then
      c.(scroll := MinInt(c.scroll + 1, MaxScroll(c.messages)))
    else if key == DownArrow then
      c.(scroll := MaxInt(c.scroll - 1, 0))
    else
      c.(input := c.input + unicode)
  }

  /** One event through the four checks of the handler, in order: ESC
      shows the exit dialog; TAB toggles the panel, and hiding it drops
      focus and clears the input and the scroll; a click gives the chat
      focus exactly when it lands in the input bar; a key press with focus
      (after those updates) goes to the typing chain. */
  function ChatStep(c: Chat, ev: Event): Chat
  {
    var c1 := if ev.KeyDown? && ev.key == Escape then c.(exitShown := true) else c;
    var c2 := if ev.KeyDown? && ev.key == Tab then
                (if c1.panelVisible then c1.(panelVisible := false, active := false, input := "", scroll := 0)
                 else c1.(panelVisible := true))
              else c1;
    var c3 := if ev.MouseDown? then c2.(active := ContainsPoint(InputBox, ev.x, ev.y)) else c2;
    if ev.KeyDown? && c3.active then Typing(c3, ev.key, ev.unicode) else c3
  }

  /** The events of one tick, handled in order. */
  function Replay(c: Chat, events: seq<Event>): Chat
    decreases |events|
  {
    if events == [] then c else Replay(ChatStep(c, events[0]), events[1..])
  }

  /** The scroll stays between 0 and the number of messages beyond the
      five shown. */
  predicate ScrollInBounds(c: Chat)
  {
    0 <= c.scroll <= MaxScroll(c.messages)
  }

  /** One event keeps the scroll in bounds, and messages are only ever
      appended. */
  lemma {:induction false} ChatStepKeepsScroll(c: Chat, ev: Event)
    requires ScrollInBounds(c)
    ensures ScrollInBounds(ChatStep(c, ev))
    ensures |c.messages| <= |ChatStep(c, ev).messages| && ChatStep(c, ev).messages[..|c.messages|] == c.messages
  {
    var c1 := if ev.KeyDown? && ev.key == Escape then c.(exitShown := true) else c;
    var c2 := if ev.KeyDown? && ev.key == Tab then
                (if c1.panelVisible then c1.(panelVisible := false, active := false, input := "", scroll := 0)
                 else c1.(panelVisible := true))
              else c1;
    var c3 := if ev.MouseDown? then c2.(active := ContainsPoint(InputBox, ev.x, ev.y)) else c2;
    assert ScrollInBounds(c3) && c3.messages == c.messages;
    if ev.KeyDown? && c3.active {
      TypingKeepsScroll(c3, ev.key, ev.unicode);
    }
  }

  /** The typing chain keeps the scroll in bounds and only appends. */
  lemma TypingKeepsScroll(c: Chat, key: Key, unicode: string)
    requires ScrollInBounds(c)
    ensures ScrollInBounds(Typing(c, key, unicode))
    ensures |c.messages| <= |Typing(c, key, unicode).messages|
    ensures Typing(c, key, unicode).messages[..|c.messages|] == c.messages
  {
    if key == Enter && Strip(c.input) != [] {
      var d := Typing(c, key, unicode);
      assert d.messages[..|c.messages|] == c.messages;
    }
  }

  lemma {:induction false} ReplayKeepsScroll(c: Chat, events: seq<Event>)
    requires ScrollInBounds(c)
    ensures ScrollInBounds(Replay(c, events))
    ensures |c.messages| <= |Replay(c, events).messages| && Replay(c, events).messages[..|c.messages|] == c.messages
    decreases |events|
  {
    if events != [] {
      ChatStepKeepsScroll(c, events[0]);
      ReplayKeepsScroll(ChatStep(c, events[0]), events[1..]);
    }
  }

  /** TAB while the panel shows hides it, drops focus, clears the input
      and the scroll, and posts nothing; TAB while it is hidden shows it. */
  lemma {:induction false} TabHidesAndClears(c: Chat, u: string)
    ensures c.panelVisible ==>
              var d := ChatStep(c, KeyDown(Tab, u));
              !d.panelVisible && !d.active && d.input == "" && d.scroll == 0 && d.messages == c.messages
    ensures !c.panelVisible ==> ChatStep(c, KeyDown(Tab, u)).panelVisible
  {
  }

  /** RETURN with focus posts "[Player]: " and the stripped input when
      that is not blank, then clears input and scroll; a blank input falls
      through to the last branch and gets the key's text appended. */
  lemma {:induction false} EnterPosts(c: Chat, u: string)
    requires c.active
    ensures Strip(c.input) != [] ==>
              var d := ChatStep(c, KeyDown(Enter, u));
              d.messages == c.messages + ["[Player]: " + Strip(c.input)] && d.input == "" && d.scroll == 0
    ensures Strip(c.input) == [] ==>
              var d := ChatStep(c, KeyDown(Enter, u));
              d.messages == c.messages && d.input == c.input + u
  {
  }

  /** Without focus a key press other than ESC and TAB changes nothing
      of the chat. */
  lemma {:induction false} UnfocusedKeysIgnored(c: Chat, k: Key, u: string)
    requires !c.active && k != Escape && k != Tab
    ensures ChatStep(c, KeyDown(k, u)) == c
  {
  }

  // ───────────────────────── the screen ─────────────────────────

  /** The player controller's tick without chat focus, from the player's
      rectangle, facing, gauges and animation frame and timer `before` to
      `after`: the gauges go through the update, the shot and the second
      dash, the facing follows the held keys, the rectangle is where the
      dashes and the walk leave it, and the walking animation runs. */
  predicate PlayerTick(k: Keys, dt: real, speed: int, recovery: int, maxEnergy: int, tiles: seq<Rect>, mapRect: Rect,
                       before: (Rect, Facing, PlayerControl.Gauges, (int, real)),
                       after: (Rect, Facing, PlayerControl.Gauges, (int, real)))
  {
    && after.2 == PlayerControl.AfterDash(k, PlayerControl.AfterShot(k,
                    PlayerControl.AfterUpdate(k, before.2, dt, recovery, maxEnergy)))
    && after.1 == NewFacing(k, before.1)
    && after.0 == PlayerControl.TickRect(k, before.0, before.1, before.2, speed, recovery, maxEnergy, dt, tiles, mapRect)
    && after.3 == WalkFrames(before.3.0, before.3.1, dt, Moving(k), false)
  }

  /** The HUD screen: the map's collision tiles and rectangle, the
      player's spawn point, the player and its controller, the enemies,
      the projectile and explosion groups, the camera, and the chat. */
  class HudScreen {
    const mapRect: Rect
    const tiles: seq<Rect>
    const spawnX: int
    const spawnY: int
    const player: Player
    const controller: PlayerControl.PlayerController
    const enemies: seq<Enemy>
    const projectiles: ProjectileGroup
    const explosions: ExplosionSystem
    const camera: Camera
    var chatMessages: seq<string>
    var chatInput: string
    var chatActive: bool
    var panelVisible: bool
    var chatScroll: int
    /** `exit_dialog.show` */
    var exitShown: bool

    /** What the tick relies on: the player, groups and camera are well
        formed, the player's maximum health is positive, every enemy
        shoots into the projectile group, and the controller drives this
        player on this map. */
    ghost predicate Valid()
      reads player`rect, player`frameIndex, player`maxEnergy, player`energy, player`maxHealth,
            projectiles`members, explosions`explosions, camera`zoom,
            enemies`rect, enemies`frameIndex, enemies`projectileGroup
    {
      && player.Valid() && 0 < player.maxHealth
      && projectiles.Valid() && explosions.Valid() && camera.Valid()
      && DistinctEnemies(enemies)
      && (forall e :: e in enemies ==> e.Valid() && e.projectileGroup == projectiles)
      && controller.player == player && controller.collisionRects == tiles && controller.mapRect == mapRect
      && camera.worldWidth == Some(mapRect.w) && camera.worldHeight == Some(mapRect.h)
      && camera.viewportWidth == ViewWidth && camera.viewportHeight == ViewHeight
    }

    /** The projectiles and the explosions in their groups, as frames. */
    ghost function ShotSet(): set<Projectile>
      reads projectiles`members
    {
      set p | p in projectiles.members
    }

    ghost function BlastSet(): set<Explosion>
      reads explosions`explosions
    {
      set e | e in explosions.explosions
    }

    function ChatOf(): Chat
      reads this`chatMessages, this`chatInput, this`chatActive, this`panelVisible, this`chatScroll, this`exitShown
    {
      Chat(chatMessages, chatInput, chatActive, panelVisible, chatScroll, exitShown)
    }

    /**
     * HUDScreen.__init__ on a map of the given size with its collision
     * tiles and optional PlayerSpawn point (100, 100 without one): the
     * player, the groups, the enemy spawns, the controller, an 800x600
     * camera bounded by the map and following the player, an empty chat.
     * This is the run of __init__ that returns; on a map under 64 px the
     * spawn loop raises instead, which `Open` models.
     */
    constructor (mapWidth: int, mapHeight: int, tiles: seq<Rect>, playerSpawn: Option<(int, int)>,
                 samples: seq<(int, int)>, draws: seq<PatrolDraw>)
      requires SpawnAttempts <= |samples| && SpawnWant <= |draws|
      requires !MapTooSmall(mapWidth, mapHeight)
      requires forall i :: 0 <= i < |samples| ==> InRange(samples[i], mapWidth, mapHeight)
      requires forall i :: 0 <= i < |draws| ==> DrawInRange(draws[i])
      ensures Valid()
      ensures mapRect == Rect(0, 0, mapWidth, mapHeight) && this.tiles == tiles
      ensures (spawnX, spawnY) == playerSpawn.GetOr(DefaultSpawn)
      ensures player.health == player.maxHealth && player.race == "Shiba"
      ensures player.rect == Rect(spawnX + (FrameWidth - HitboxWidth) / 2, spawnY + FrameHeight - HitboxHeight,
                                  HitboxWidth, HitboxHeight)
      ensures exists n: nat :: n <= SpawnAttempts && n <= |samples| &&
                NewEnemies(enemies, Accepted(samples[..n], tiles, Some((spawnX, spawnY)), SpawnMinDistance), draws, projectiles)
      ensures |enemies| <= SpawnWant
      ensures projectiles.members == [] && explosions.explosions == []
      ensures camera.zoom == 1.0
      ensures camera.offsetX == FollowAxis(player.rect.CenterX(), ViewWidth, 1.0, Some(mapWidth))
      ensures camera.offsetY == FollowAxis(player.rect.CenterY(), ViewHeight, 1.0, Some(mapHeight))
      ensures ChatOf() == Chat([], "", false, true, 0, false)
    {
      mapRect := Rect(0, 0, mapWidth, mapHeight);
      this.tiles := tiles;
      var spawn := playerSpawn.GetOr(DefaultSpawn);
      spawnX, spawnY := spawn.0, spawn.1;
      var p := new Player(spawn.0, spawn.1);
      player := p;
      var ex := new ExplosionSystem();
      explosions := ex;
      var pg := new ProjectileGroup();
      projectiles := pg;
      var es, n := SpawnLevel(mapWidth, mapHeight, tiles, spawn, samples, draws, pg);
      enemies := es;
      var pc := new PlayerControl.PlayerController(p, tiles, Rect(0, 0, mapWidth, mapHeight));
      controller := pc;
      var cam := FollowingCamera(mapWidth, mapHeight, p.rect);
      camera := cam;
      chatMessages, chatInput, chatActive, panelVisible, chatScroll, exitShown := [], "", false, true, 0, false;
      assert NewEnemies(es, Accepted(samples[..n], tiles, Some(spawn), SpawnMinDistance), draws, pg);
    }

    /** The hit check for one projectile of the list. */
    method HitOne(p: Projectile, ghost v: ShotView)
      requires v == View(p) && explosions.Valid()
      modifies player`health, p`alive, explosions`explosions
      ensures explosions.Valid()
      ensures player.health == old(player.health) - (if HitsPlayer(player.rect, v) then EnemyShotDamage else 0)
      ensures p.alive == (v.live && !HitsPlayer(player.rect, v))
      ensures !HitsPlayer(player.rect, v) ==> explosions.explosions == old(explosions.explosions)
      ensures HitsPlayer(player.rect, v) ==>
                && |explosions.explosions| == |old(explosions.explosions)| + 1
                && explosions.explosions[..|old(explosions.explosions)|] == old(explosions.explosions)
                && var e := explosions.explosions[|old(explosions.explosions)|];
                   fresh(e) && e.alive && e.timer == 0.0 && e.duration == DefaultDuration
                   && (e.centerX, e.centerY) == (Trunc(v.x), Trunc(v.y))
    {
      if p.alive && p.fromEnemy && Collide(player.rect, p.rect) {
        player.health := player.health - EnemyShotDamage;
        var e := new Explosion(p.x, p.y);
        explosions.Add(e);
        p.alive := false;
      }
    }

    /**
     * The enemy-shot loop of HUDScreen.update: every live enemy-flagged
     * projectile overlapping the player takes 10 health, adds an explosion
     * at the projectile's position and is removed; the others are left as
     * they are.
     */
    method EnemyShotHits()
      requires projectiles.Valid() && explosions.Valid()
      modifies player`health, projectiles.members`alive, explosions`explosions
      ensures explosions.Valid()
      ensures var hs := HitPoints(player.rect, old(Views(projectiles.members)));
              && player.health == old(player.health) - EnemyShotDamage * |hs|
              && |old(explosions.explosions)| <= |explosions.explosions|
              && explosions.explosions[..|old(explosions.explosions)|] == old(explosions.explosions)
              && Centres(explosions.explosions[|old(explosions.explosions)|..]) == TruncPoints(hs)
      ensures forall e :: e in explosions.explosions[|old(explosions.explosions)|..] ==> fresh(e) && e.alive && e.timer == 0.0
      ensures forall e :: e in explosions.explosions ==> e in old(explosions.explosions) || fresh(e)
      ensures forall j :: 0 <= j < |projectiles.members| ==>
                projectiles.members[j].alive ==
                  (old(projectiles.members[j].alive) && !HitsPlayer(player.rect, old(View(projectiles.members[j]))))
    {
      var ms := projectiles.members;
      ghost var vs := Views(ms);
      ghost var ex0 := explosions.explosions;
      ghost var hs, born := HitLoop(ms, vs, player.health, ex0);
      assert explosions.explosions[|ex0|..] == born;
      assert forall e :: e in explosions.explosions ==> e in ex0 || e in born;
    }

    /** The loop itself, over the list of projectiles taken before it. */
    method HitLoop(ms: seq<Projectile>, ghost vs: seq<ShotView>, ghost h0: int, ghost ex0: seq<Explosion>)
      returns (ghost hs: seq<(real, real)>, ghost born: seq<Explosion>)
      requires Checked(ms, vs, 0, [], h0, ex0, [])
      requires forall j :: 0 <= j < |ms| ==> vs[j] == View(ms[j])
      modifies player`health, ms`alive, explosions`explosions
      ensures explosions.Valid() && explosions.explosions == ex0 + born
      ensures hs == HitPoints(player.rect, vs) && player.health == h0 - EnemyShotDamage * |hs|
      ensures Centres(born) == TruncPoints(hs)
      ensures forall e :: e in born ==> fresh(e) && e.alive && e.timer == 0.0
      ensures forall j :: 0 <= j < |ms| ==> ms[j].alive == (vs[j].live && !HitsPlayer(player.rect, vs[j]))
    {
      born, hs := [], [];
      var i := 0;
      while i < |ms|
        invariant Checked(ms, vs, i, hs, h0, ex0, born)
        invariant forall e :: e in born ==> fresh(e)
      {
        hs, born := HitAt(ms, i, ms[i], vs, hs, h0, ex0, born);
        i := i + 1;
      }
      assert vs[..i] == vs;
    }

    /** The hit loop after its first i projectiles: hs are the hit points
        so far, born the explosions added for them. */
    ghost predicate Checked(ms: seq<Projectile>, vs: seq<ShotView>, i: int, hs: seq<(real, real)>, h0: int,
                            ex0: seq<Explosion>, born: seq<Explosion>)
      reads this, player`rect, player`health, explosions`explosions, ms`alive, born`alive, born`timer
    {
      && 0 <= i <= |ms| == |vs| && explosions.Valid()
      && (forall a, b :: 0 <= a < b < |ms| ==> ms[a] != ms[b])
      && hs == HitPoints(player.rect, vs[..i])
      && player.health == h0 - EnemyShotDamage * |hs|
      && explosions.explosions == ex0 + born && Centres(born) == TruncPoints(hs)
      && (forall e :: e in born ==> e.alive && e.timer == 0.0)
      && (forall j :: 0 <= j < i ==> ms[j].alive == (vs[j].live && !HitsPlayer(player.rect, vs[j])))
      && (forall j :: i <= j < |ms| ==> ms[j].alive == vs[j].live)
    }

    /** One turn of the hit loop. */
    method HitAt(ms: seq<Projectile>, i: nat, p: Projectile, ghost vs: seq<ShotView>, ghost hs: seq<(real, real)>,
                 ghost h0: int, ghost ex0: seq<Explosion>, ghost born: seq<Explosion>)
      returns (ghost hs': seq<(real, real)>, ghost born': seq<Explosion>)
      requires Checked(ms, vs, i, hs, h0, ex0, born) && i < |ms| && p == ms[i]
      requires vs[i].fromEnemy == p.fromEnemy && vs[i].rect == p.rect && vs[i].x == p.x && vs[i].y == p.y
      modifies player`health, p`alive, explosions`explosions
      ensures Checked(ms, vs, i + 1, hs', h0, ex0, born')
      ensures forall e :: e in born' ==> e in born || fresh(e)
    {
      ghost var before := explosions.explosions;
      HitOne(p, vs[i]);
      assert vs[..i + 1][..i] == vs[..i];
      if HitsPlayer(player.rect, vs[i]) {
        born' := born + [explosions.explosions[|before|]];
        hs' := hs + [(vs[i].x, vs[i].y)];
        assert born'[..|born'| - 1] == born && hs'[..|hs'| - 1] == hs;
        assert explosions.explosions == ex0 + born';
      } else {
        born', hs' := born, hs;
      }
      assert hs' == HitPoints(player.rect, vs[..i + 1]);
      assert forall j :: 0 <= j < |ms| && j != i ==> ms[j].alive == old(ms[j].alive);
    }

    /** The respawn check: a player at 0 health or below gets full health
        back and is put at the spawn point; otherwise nothing changes. */
    method Respawn()
      requires player.Valid()
      modifies player`health, player`rect
      ensures player.Valid()
      ensures old(player.health) <= 0 ==>
                player.health == player.maxHealth && player.rect == old(player.rect).WithCenter(spawnX, spawnY)
      ensures old(player.health) > 0 ==> player.health == old(player.health) && player.rect == old(player.rect)
    {
      if player.health <= 0 {
        player.health := player.maxHealth;
        player.rect := player.rect.WithCenter(spawnX, spawnY);
      }
    }

    /**
     * The gameplay half of HUDScreen.update, in its order: the player
     * controller (skipped while the chat has focus), the projectiles, the
     * enemy shots against the player, the explosions, the enemies, the
     * respawn check and the camera. `hurt` is the player's health after
     * all the tick's damage and `moved` its rectangle before the respawn
     * check; `draws` are the patrol draws of the enemies.
     */
    method Gameplay(sqrt: real -> real, dt: real, k: Keys, draws: seq<PatrolDraw>, spriteHeight: nat)
      returns (ghost hurt: int, ghost moved: Rect)
      requires SqrtOracle(sqrt) && Valid() && |draws| == |enemies| && DrawsInRange(draws)
      modifies player`rect, player`facing, player`timeSinceDash, player`energy, player`frameIndex,
               player`frameTimer, player`timeSinceLastShot, player`health,
               projectiles`members, ShotSet(), enemies, explosions`explosions, BlastSet(), camera`offsetX, camera`offsetY
      ensures Valid()
      ensures hurt <= old(player.health)
      ensures hurt <= 0 ==> player.health == player.maxHealth && player.rect == moved.WithCenter(spawnX, spawnY)
      ensures hurt > 0 ==> player.health == hurt && player.rect == moved
      ensures 0 < player.health
      ensures old(chatActive) ==>
                && moved == old(player.rect) && player.facing == old(player.facing)
                && PlayerControl.GaugesOf(player) == old(PlayerControl.GaugesOf(player))
                && player.frameIndex == old(player.frameIndex) && player.frameTimer == old(player.frameTimer)
      ensures !old(chatActive) ==>
                PlayerTick(k, dt, player.speed, player.recovery, player.maxEnergy, tiles, mapRect,
                           old((player.rect, player.facing, PlayerControl.GaugesOf(player), (player.frameIndex, player.frameTimer))),
                           (moved, player.facing, PlayerControl.GaugesOf(player), (player.frameIndex, player.frameTimer)))
      ensures camera.offsetX == FollowAxis(player.rect.CenterX(), ViewWidth, camera.zoom, Some(mapRect.w))
      ensures camera.offsetY == FollowAxis(player.rect.CenterY(), ViewHeight, camera.zoom, Some(mapRect.h))
      ensures ChatOf() == old(ChatOf())
      ensures forall i :: 0 <= i < |enemies| ==>
                enemies[i].PoseOf() == EnemyControl.PassPose(sqrt, dt, moved, tiles, mapRect, enemies[i].alive,
                  enemies[i].speed, true, old(enemies[i].PoseOf()), draws[i])
    {
      PlayerPhase(sqrt, dt, k, spriteHeight);
      hurt, moved := WorldPhase(sqrt, dt, draws);
    }

    /** Everything after the player controller: projectiles, shots on the
        player, explosions, enemies, the respawn check and the camera. The
        player's facing, gauges and animation are left alone. */
    method WorldPhase(sqrt: real -> real, dt: real, draws: seq<PatrolDraw>)
      returns (ghost hurt: int, ghost moved: Rect)
      requires SqrtOracle(sqrt) && Valid() && |draws| == |enemies| && DrawsInRange(draws)
      modifies player`rect, player`health, projectiles`members, ShotSet(), enemies, explosions`explosions, BlastSet(),
               camera`offsetX, camera`offsetY
      ensures Valid()
      ensures forall i :: 0 <= i < |enemies| ==>
                enemies[i].PoseOf() == EnemyControl.PassPose(sqrt, dt, moved, tiles, mapRect, enemies[i].alive,
                  enemies[i].speed, true, old(enemies[i].PoseOf()), draws[i])
      ensures hurt <= old(player.health) && moved == old(player.rect)
      ensures hurt <= 0 ==> player.health == player.maxHealth && player.rect == moved.WithCenter(spawnX, spawnY)
      ensures hurt > 0 ==> player.health == hurt && player.rect == moved
      ensures camera.offsetX == FollowAxis(player.rect.CenterX(), ViewWidth, camera.zoom, Some(mapRect.w))
      ensures camera.offsetY == FollowAxis(player.rect.CenterY(), ViewHeight, camera.zoom, Some(mapRect.h))
    {
      ShotPhase(sqrt, dt);
      hurt, moved := EndPhase(sqrt, dt, draws);
    }

    /** The enemies' turn, the respawn check and the camera. */
    method EndPhase(sqrt: real -> real, dt: real, draws: seq<PatrolDraw>)
      returns (ghost hurt: int, ghost moved: Rect)
      requires Valid() && |draws| == |enemies| && DrawsInRange(draws)
      modifies player`rect, player`health, projectiles`members, enemies`x, enemies`y, enemies`rect, enemies`facing,
               enemies`changeDirTimer, enemies`shootTimer, enemies`state, enemies`frameTimer, enemies`frameIndex,
               enemies`hitCooldown, camera`offsetX, camera`offsetY
      ensures Valid()
      ensures forall i :: 0 <= i < |enemies| ==>
                enemies[i].PoseOf() == EnemyControl.PassPose(sqrt, dt, moved, tiles, mapRect, enemies[i].alive,
                  enemies[i].speed, true, old(enemies[i].PoseOf()), draws[i])
      ensures hurt <= old(player.health) && moved == old(player.rect)
      ensures hurt <= 0 ==> player.health == player.maxHealth && player.rect == moved.WithCenter(spawnX, spawnY)
      ensures hurt > 0 ==> player.health == hurt && player.rect == moved
      ensures camera.offsetX == FollowAxis(player.rect.CenterX(), ViewWidth, camera.zoom, Some(mapRect.w))
      ensures camera.offsetY == FollowAxis(player.rect.CenterY(), ViewHeight, camera.zoom, Some(mapRect.h))
    {
      EnemyPhase(sqrt, dt, draws);
      hurt, moved := player.health, player.rect;
      Settle();
    }

    /** The end of the tick: the respawn check, then the camera follows
        the player. */
    method Settle()
      requires Valid()
      modifies player`health, player`rect, camera`offsetX, camera`offsetY
      ensures Valid()
      ensures old(player.health) <= 0 ==>
                player.health == player.maxHealth && player.rect == old(player.rect).WithCenter(spawnX, spawnY)
      ensures old(player.health) > 0 ==> player.health == old(player.health) && player.rect == old(player.rect)
      ensures camera.offsetX == FollowAxis(player.rect.CenterX(), ViewWidth, camera.zoom, Some(mapRect.w))
      ensures camera.offsetY == FollowAxis(player.rect.CenterY(), ViewHeight, camera.zoom, Some(mapRect.h))
    {
      Respawn();
      camera.Follow(player.rect);
    }

    /** The player controller's turn, skipped while the chat has focus. */
    method PlayerPhase(sqrt: real -> real, dt: real, k: Keys, spriteHeight: nat)
      requires Valid()
      modifies player`rect, player`facing, player`timeSinceDash, player`energy, player`frameIndex,
               player`frameTimer, player`timeSinceLastShot, projectiles`members
      ensures Valid()
      ensures forall q :: q in projectiles.members ==> q in old(projectiles.members) || fresh(q)
      ensures chatActive ==>
                && player.rect == old(player.rect) && player.facing == old(player.facing)
                && PlayerControl.GaugesOf(player) == old(PlayerControl.GaugesOf(player))
                && player.frameIndex == old(player.frameIndex) && player.frameTimer == old(player.frameTimer)
      ensures !chatActive ==>
                PlayerTick(k, dt, player.speed, player.recovery, player.maxEnergy, tiles, mapRect,
                           old((player.rect, player.facing, PlayerControl.GaugesOf(player), (player.frameIndex, player.frameTimer))),
                           (player.rect, player.facing, PlayerControl.GaugesOf(player), (player.frameIndex, player.frameTimer)))
    {
      if !chatActive {
        controller.Update(sqrt, dt, k, projectiles, chatActive, spriteHeight);
      }
    }

    /** The projectiles move, enemy shots hit the player, explosions age. */
    method ShotPhase(sqrt: real -> real, dt: real)
      requires SqrtOracle(sqrt) && Valid()
      modifies ShotSet(), enemies`health, enemies`alive, player`health, explosions`explosions, BlastSet()
      ensures Valid()
      ensures player.health <= old(player.health)
    {
      ghost var ex0 := explosions.explosions;
      MoveShots(sqrt, dt, Flights(projectiles.members), Foes(enemies));
      assert explosions.explosions == ex0;
      TakeShotHits();
      assert forall e :: e in explosions.explosions ==> e in old(explosions.explosions) || fresh(e);
      AgeBlasts(dt);
    }

    /** ExplosionSystem.update on the screen's group. */
    method AgeBlasts(dt: real)
      requires Valid()
      modifies explosions.explosions
      ensures Valid()
    {
      explosions.Update(dt);
    }

    /** The enemy-shot check as the tick sees it: the screen stays well
        formed, the player only loses health, and every explosion is an
        old one or a new one. */
    method TakeShotHits()
      requires Valid()
      modifies player`health, projectiles.members`alive, explosions`explosions
      ensures Valid() && player.health <= old(player.health)
      ensures forall e :: e in explosions.explosions ==> e in old(explosions.explosions) || fresh(e)
    {
      EnemyShotHits();
    }

    /** The projectiles' and the enemies' fields are GroupRun of fs0 and
        foes0. */
    ghost predicate ShotsMoved(sqrt: real -> real, dt: real, fs0: seq<Flight>, foes0: seq<Foe>)
      reads projectiles`members, projectiles.members`x, projectiles.members`y, projectiles.members`travelled,
            projectiles.members`rect, projectiles.members`alive, enemies`rect, enemies`alive, enemies`health
    {
      && |fs0| == |projectiles.members| && |foes0| == |enemies|
      && var run := GroupRun(sqrt, dt, tiles, Aims(projectiles.members), fs0, foes0);
         && (forall j :: 0 <= j < |projectiles.members| ==> projectiles.members[j].FlightOf() == run.0[j])
         && (forall k :: 0 <= k < |enemies| ==> enemies[k].FoeOf() == run.1[k])
    }

    /** ProjectileSystem.update on the screen's groups: the projectiles'
        and the enemies' new fields are GroupRun of the old ones. */
    method MoveShots(sqrt: real -> real, dt: real, ghost fs0: seq<Flight>, ghost foes0: seq<Foe>)
      requires SqrtOracle(sqrt) && Valid()
      requires fs0 == Flights(projectiles.members) && foes0 == Foes(enemies)
      modifies projectiles.members`x, projectiles.members`y, projectiles.members`travelled, projectiles.members`rect,
               projectiles.members`alive, enemies`health, enemies`alive
      ensures Valid()
      ensures ShotsMoved(sqrt, dt, fs0, foes0)
    {
      FlyShots(sqrt, dt, fs0, foes0);
    }

    /** The group update itself, stated by ShotsMoved alone. */
    method FlyShots(sqrt: real -> real, dt: real, ghost fs0: seq<Flight>, ghost foes0: seq<Foe>)
      requires SqrtOracle(sqrt) && projectiles.Valid() && DistinctEnemies(enemies)
      requires fs0 == Flights(projectiles.members) && foes0 == Foes(enemies)
      modifies projectiles.members`x, projectiles.members`y, projectiles.members`travelled, projectiles.members`rect,
               projectiles.members`alive, enemies`health, enemies`alive
      ensures ShotsMoved(sqrt, dt, fs0, foes0)
    {
      projectiles.Update(sqrt, dt, tiles, enemies);
    }

    /** The enemy controller's turn: movement, shots and contact damage. */
    method EnemyPhase(sqrt: real -> real, dt: real, draws: seq<PatrolDraw>)
      requires Valid() && |draws| == |enemies| && DrawsInRange(draws)
      modifies player`health, enemies`x, enemies`y, enemies`rect, enemies`facing, enemies`changeDirTimer,
               enemies`shootTimer, enemies`state, enemies`frameTimer, enemies`frameIndex, enemies`hitCooldown,
               projectiles`members
      ensures Valid()
      ensures player.health <= old(player.health)
      ensures forall i :: 0 <= i < |enemies| ==>
                enemies[i].PoseOf() == EnemyControl.PassPose(sqrt, dt, player.rect, tiles, mapRect, enemies[i].alive,
                  enemies[i].speed, true, old(enemies[i].PoseOf()), draws[i])
    {
      ghost var hits := MoveEnemies(sqrt, dt, draws);
      EnemyTurnKeepsValid();
    }

    /** EnemyController.update as the tick sees it. */
    method MoveEnemies(sqrt: real -> real, dt: real, draws: seq<PatrolDraw>) returns (ghost hits: seq<bool>)
      requires EnemyControl.ReadyToUpdate(enemies) && projectiles.Valid()
      requires forall e :: e in enemies ==> e.projectileGroup == projectiles
      requires |draws| == |enemies| && DrawsInRange(draws)
      modifies player`health, enemies`x, enemies`y, enemies`rect, enemies`facing, enemies`changeDirTimer,
               enemies`shootTimer, enemies`state, enemies`frameTimer, enemies`frameIndex, enemies`hitCooldown,
               projectiles`members
      ensures EnemyControl.ReadyToUpdate(enemies) && projectiles.Valid()
      ensures |hits| == |enemies| && player.health == old(player.health) - EnemyControl.ContactDamage * EnemyControl.Count(hits)
      ensures forall i :: 0 <= i < |enemies| ==>
                hits[i] == EnemyControl.Ready(player.rect, enemies[i].rect, enemies[i].alive, old(enemies[i].hitCooldown))
      ensures forall i :: 0 <= i < |enemies| ==>
                enemies[i].hitCooldown ==
                  EnemyControl.NextCooldown(player.rect, enemies[i].rect, enemies[i].alive, old(enemies[i].hitCooldown), dt)
      ensures forall i :: 0 <= i < |enemies| ==>
                enemies[i].PoseOf() == EnemyControl.PassPose(sqrt, dt, player.rect, tiles, mapRect, enemies[i].alive,
                  enemies[i].speed, enemies[i].projectileGroup != null, old(enemies[i].PoseOf()), draws[i])
      ensures forall i :: 0 <= i < |enemies| ==> old(enemies[i].Shots()) <= enemies[i].Shots()
    {
      assert EnemyControl.Groups(enemies) <= {projectiles};
      hits := EnemyControl.Update(sqrt, dt, player, enemies, tiles, mapRect, draws);
    }

    /** The enemy turn leaves the screen well formed: it changes only the
        enemies' own fields, the player's health and the shot list. */
    twostate lemma EnemyTurnKeepsValid()
      requires old(Valid()) && EnemyControl.ReadyToUpdate(enemies)
      requires unchanged(player`rect, player`frameIndex, player`maxEnergy, player`energy, player`maxHealth,
                         explosions`explosions, camera`zoom, enemies`projectileGroup)
      requires projectiles.Valid()
      ensures Valid()
    {
    }

    /** The chat checks of HUDScreen.update for one event. */
    method HandleEvent(ev: Event)
      modifies this`chatMessages, this`chatInput, this`chatActive, this`panelVisible, this`chatScroll, this`exitShown
      ensures ChatOf() == ChatStep(old(ChatOf()), ev)
    {
      if ev.KeyDown? && ev.key == Escape {
        exitShown := true;
      }
      if ev.KeyDown? && ev.key == Tab {
        panelVisible := !panelVisible;
        if !panelVisible {
          chatActive := false;
          chatInput := "";
          chatScroll := 0;
        }
      }
      if ev.MouseDown? {
        chatActive := ContainsPoint(InputBox, ev.x, ev.y);
      }
      if ev.KeyDown? && chatActive {
        if ev.key == Enter && Strip(chatInput) != [] {
          chatMessages := chatMessages + ["[Player]: " + Strip(chatInput)];
          chatInput := "";
          chatScroll := 0;
        } else if ev.key == Backspace {
          chatInput := DropLast(chatInput);
        } else if ev.key == UpArrow {
          chatScroll := MinInt(chatScroll + 1, MaxInt(0, |chatMessages| - ChatLines));
        } else if ev.key == DownArrow {
          chatScroll := MaxInt(chatScroll - 1, 0);
        } else {
          chatInput := chatInput + ev.unicode;
        }
      }
    }

    /** The event loop of HUDScreen.update: the events in order. */
    method HandleEvents(events: seq<Event>)
      requires Valid()
      modifies this`chatMessages, this`chatInput, this`chatActive, this`panelVisible, this`chatScroll, this`exitShown
      ensures Valid()
      ensures ChatOf() == Replay(old(ChatOf()), events)
    {
      var i := 0;
      while i < |events|
        invariant 0 <= i <= |events|
        invariant Replay(ChatOf(), events[i..]) == Replay(old(ChatOf()), events)
      {
        HandleEvent(events[i]);
        assert events[i..][1..] == events[i + 1..];
        i := i + 1;
      }
    }

    /** HUDScreen.update(dt, events): the gameplay half with the chat
        focus the tick starts with, then the chat events. */
    method Update(sqrt: real -> real, dt: real, k: Keys, draws: seq<PatrolDraw>, spriteHeight: nat, events: seq<Event>)
      requires SqrtOracle(sqrt) && Valid() && |draws| == |enemies| && DrawsInRange(draws)
      modifies player`rect, player`facing, player`timeSinceDash, player`energy, player`frameIndex,
               player`frameTimer, player`timeSinceLastShot, player`health,
               projectiles, ShotSet(), enemies, explosions, BlastSet(), camera,
               this`chatMessages, this`chatInput, this`chatActive, this`panelVisible, this`chatScroll, this`exitShown
      ensures Valid() && 0 < player.health
      ensures old(chatActive) ==>
                && player.facing == old(player.facing) && PlayerControl.GaugesOf(player) == old(PlayerControl.GaugesOf(player))
                && player.frameIndex == old(player.frameIndex) && player.frameTimer == old(player.frameTimer)
      ensures !old(chatActive) ==>
                && player.facing == NewFacing(k, old(player.facing))
                && (player.frameIndex, player.frameTimer) ==
                     WalkFrames(old(player.frameIndex), old(player.frameTimer), dt, Moving(k), false)
      ensures ChatOf() == Replay(old(ChatOf()), events)
      ensures ScrollInBounds(old(ChatOf())) ==> ScrollInBounds(ChatOf())
    {
      ghost var hurt, moved := Gameplay(sqrt, dt, k, draws, spriteHeight);
      HandleEvents(events);
      if ScrollInBounds(old(ChatOf())) {
        ReplayKeepsScroll(old(ChatOf()), events);
      }
    }
  }

  /** `HUDScreen(game)`: on a map under 64 px on either axis __init__
      raises ValueError out of the enemy spawn loop and no screen exists;
      otherwise it is the screen the constructor builds. */
  method Open(mapWidth: int, mapHeight: int, tiles: seq<Rect>, playerSpawn: Option<(int, int)>,
              samples: seq<(int, int)>, draws: seq<PatrolDraw>) returns (r: Result<HudScreen, string>)
    requires SpawnAttempts <= |samples| && SpawnWant <= |draws|
    requires !MapTooSmall(mapWidth, mapHeight) ==> forall i :: 0 <= i < |samples| ==> InRange(samples[i], mapWidth, mapHeight)
    requires forall i :: 0 <= i < |draws| ==> DrawInRange(draws[i])
    ensures r.Err? <==> MapTooSmall(mapWidth, mapHeight)
    ensures r.Ok? ==>
              && fresh(r.value) && r.value.Valid()
              && r.value.mapRect == Rect(0, 0, mapWidth, mapHeight) && r.value.tiles == tiles
              && |r.value.enemies| <= SpawnWant && r.value.projectiles.members == []
              && r.value.ChatOf() == Chat([], "", false, true, 0, false)
  {
    if MapTooSmall(mapWidth, mapHeight) {
      return Err("empty range for randrange()");
    }
    var hud := new HudScreen(mapWidth, mapHeight, tiles, playerSpawn, samples, draws);
    return Ok(hud);
  }
}
