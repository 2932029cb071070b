# Kagetsu no Shiba — the simulation core, modelled in Dafny

This project models the game logic of *Kagetsu no Shiba*, a top-down
pygame action game. It covers:

- the camera;
- the player: its race stats, movement against collision rectangles, the
  dash, shooting and energy regeneration;
- the enemies: a patrol / chase / attack state machine with wall
  sliding, shooting and contact damage;
- projectiles and explosions;
- the configuration services for damage and races;
- the spawn validator;
- the two controllers;
- the in-game HUD screen's tick and chat box;
- the character-creation screen.

Each Python module becomes one Dafny module:

| Dafny file | module | models |
|---|---|---|
| `geometry.dfy` | `Geometry` | pygame's `Rect` (`move`, `center`, `colliderect`, `collidepoint`, `clamp_ip`) and the four facings |
| `arith.dfy` | `Arith` | `int()` truncation, `math.hypot` over a square-root oracle, and counters fed a constant step |
| `text.dfy` | `Text` | `str.strip()` and `s[:-1]` |
| `camera.dfy` | `CameraView` | `core/camera.py` |
| `explosion.dfy` | `ExplosionFx` | `core/explosion.py` and `systems/explosion_system.py` |
| `sprites.dfy` | `Sprites` | `core/projectile.py`, `entities/enemies.py`, and the projectile group of `systems/projectile_system.py` |
| `player.dfy` | `PlayerEntity` | `entities/player.py` |
| `player_controller.dfy` | `PlayerControl` | `systems/player_controller.py` |
| `enemy_controller.dfy` | `EnemyControl` | `systems/enemy_controller.py` |
| `damage.dfy` | `DamageConfig` | `services/damage_service.py` |
| `races.dfy` | `RaceConfig` | `services/race_service.py` |
| `spawning.dfy` | `SpawnValidation` | `services/spawn_validator.py` |
| `hud.dfy` | `Hud` | `ui/screens/hud_screen.py` |
| `char_create.dfy` | `CharCreate` | `ui/screens/char_create_screen.py` |
| `json.dfy`, `wrappers.dfy`, `input.dfy` | `JsonValue`, `Wrappers`, `Input` | JSON values, `None` and raised errors, and keyboard/mouse events |

Objects the game updates in place are Dafny classes, and their methods
modify exactly the fields the source assigns. These are the camera, the
player, the enemies, the projectiles and their group, the explosions and
their group, the two services with their class-level caches, the
controllers and the two screens.

pygame's `kill()` is modelled as clearing an `alive` flag. A group's
members are the listed sprites whose flag is still set.

The pure parts are functions, with lemmas stating what they promise:
- the state machine;
- the wall-sliding move;
- the chase step;
- the damage rule;
- the spawn test;
- the chat handler;
- the race-bonus rule.

**The square root.** `math.hypot` and `** 0.5` are taken as a parameter
`sqrt` that satisfies `SqrtOracle`: it returns the non-negative root of a
non-negative number. Comparisons with a distance are proved equivalent
to comparisons of squares (`HypotBelow`, `HypotAtMost`,
`StateBands`, `WithinStepIsDistance`, `ValidSpawnByDistance`).

**Random draws.** The random draws of the game are parameters:
- the candidate spawn points;
- each enemy's initial direction and patrol timer;
- the patrol re-draws.

Each comes with the range the source draws it from.

**Integers and floats.**
- Positions and timers are `real`.
- Rectangle coordinates are `int`.
- Every `int(...)`, and every float stored into a `Rect`, goes through
  `Arith.Trunc` (truncation toward zero).

## Model

| member | source | states |
|---|---|---|
| Arith.Trunc | core/projectile.py:55 | `int(v)` truncates toward zero: within one unit of v, below it for positive v and above it for negative v |
| Arith.HypotBelow | services/spawn_validator.py:12 | `hypot(a, b) < bound` holds exactly when the bound is positive and a² + b² < bound² |
| Arith.HypotAtMost | entities/enemies.py:93 | `hypot(a, b) <= bound` holds exactly when the bound is non-negative and a² + b² <= bound² |
| Arith.NormaliseIsUnit | entities/player.py:209-210 | dividing a vector of length at least 1 by max(length, eps) gives a vector of length exactly 1, and the floor eps is never used |
| Geometry.Rect.Move | entities/player.py:136 | `Rect.move` keeps the size and shifts the centre by (dx, dy) |
| Geometry.Rect.WithCenter | entities/enemies.py:124 | assigning `rect.center` keeps the size and puts the centre exactly there |
| Geometry.CollideSymmetric | entities/player.py:137 | `colliderect` is symmetric |
| Geometry.TouchingDoesNotCollide | entities/player.py:137 | rectangles that only share an edge do not collide |
| Geometry.ClampAxis | entities/player.py:147 | one axis of `clamp_ip`: a span that fits ends inside the bounds, and a span already inside stays put |
| Geometry.Clamp | entities/player.py:147 | `clamp_ip` keeps the size, puts a rectangle that fits inside the bounds, and leaves a rectangle already inside unchanged |
| Geometry.Facing.Vector | entities/enemies.py:44 | each direction's step has length exactly 1 |
| Text.LeadingSpaces | ui/screens/hud_screen.py:158 | the leading run is all whitespace, and it stops at the first character that is not whitespace |
| Text.TrailingSpaces | ui/screens/hud_screen.py:158 | the trailing run is all whitespace, and it stops at the last character that is not whitespace |
| Text.StripMeaning | ui/screens/hud_screen.py:158 | `strip()` is empty exactly when the text is all whitespace; otherwise the result starts and ends with a character that is not whitespace |
| Text.StripSlice | ui/screens/hud_screen.py:159 | `strip()` is the input's slice between its leading and trailing whitespace runs, and everything cut off is whitespace |
| Text.StripIdempotent | ui/screens/char_create_screen.py:85 | stripping twice strips nothing more |
| Text.DropLast | ui/screens/hud_screen.py:163 | `s[:-1]` removes exactly the last character, and gives "" for "" |
| CameraView.ClampZoom | core/camera.py:48-49 | the stored zoom lies in [0.5, 1.5]; it equals the request when the request is in range, and the nearer bound otherwise |
| CameraView.FollowAxis | core/camera.py:15-33 | without a world size the target's centre is centred in the view; with one the offset lies in [0, max(0, world - viewport/zoom)], and it is exactly the centring offset whenever that lies in range |
| CameraView.Camera.constructor | core/camera.py:4-13 | offsets 0, zoom 1, and the viewport and world sizes as given |
| CameraView.Camera.Follow | core/camera.py:15-33 | each offset is FollowAxis of the target's centre on that axis, and nothing else changes |
| CameraView.Camera.ApplyPoint | core/camera.py:45-46 | the screen point lies within one pixel of (p - offset) * zoom on each axis |
| CameraView.Camera.Apply | core/camera.py:37-43 | the corner is ApplyPoint of the rectangle's corner, and each side is the scaled side rounded down |
| CameraView.Camera.SetZoom | core/camera.py:48-49 | the zoom becomes ClampZoom(amount), and nothing else changes |
| ExplosionFx.Explosion.constructor | core/explosion.py:6-19 | the explosion is centred on the truncated point, its timer is 0, it has the given duration (default 0.4), and it is alive |
| ExplosionFx.Explosion.Update | core/explosion.py:21-24 | the timer grows by dt; the explosion stays alive exactly when it was alive and the timer is still below its duration |
| ExplosionFx.ExplosionLifetime | core/explosion.py:21-24 | with a constant frame time, an explosion survives exactly the first ⌈duration/dt⌉ - 1 updates, and its timer has reached the duration at update ⌈duration/dt⌉ |
| ExplosionFx.ExplosionSystem.constructor | systems/explosion_system.py:3-4 | the group starts empty |
| ExplosionFx.ExplosionSystem.Add | ui/screens/hud_screen.py:118-120 | `Group.add` appends a new explosion and ignores one already present |
| ExplosionFx.ExplosionSystem.Update | systems/explosion_system.py:5-6 | every live explosion is updated once; a removed one is left as it was |
| Sprites.StateBands | entities/enemies.py:61-66 | the squared-distance state machine takes the same transitions as the source's `hypot` comparisons against 160, 220 and 280 |
| Sprites.DominantFacing | entities/enemies.py:100-102 | the facing `_chase` picks has the largest dot product with the offset of all four, and it is horizontal exactly when \|dx\| > \|dy\| |
| Sprites.MoveOutcome | entities/enemies.py:109-130 | `_move` keeps the size; with a map it clamps into the map and syncs x, y to the centre; without one a free full step is taken whole, and a blocked axis keeps its coordinate |
| Sprites.BlockedStandsStill | entities/enemies.py:109-130 | with every move blocked the enemy stays put and does not count as moved; with one axis blocked the other axis still steps |
| Sprites.MotionSynced | entities/enemies.py:109-133 | every behaviour keeps the 32x64 size and leaves the rectangle centred on the truncated float position |
| Sprites.EnemyFrames | entities/enemies.py:150-159 | the animation keeps the frame within the 6 of a direction, and an idle enemy shows frame 0 with its timer kept |
| Sprites.UpdatePoseKeepsOk | entities/enemies.py:58-76 | Enemy.update on values keeps the between-update invariant (size, centring, frame range, patrol timer in (0, 3], shot timer non-negative) for any forward step and any draw in range |
| Sprites.WithinStepIsDistance | entities/enemies.py:89-93 | the squared snap test equals `hypot(dx, dy) <= max_step` |
| Sprites.ChaseStepLength | entities/enemies.py:103-105 | a chase step that does not snap has length exactly speed * dt |
| Sprites.ChaseSnaps | entities/enemies.py:87-106 | within one step the enemy lands on the target with no collision test and its facing kept; farther away it turns to the dominant axis and takes the `_move` step |
| Sprites.PatrolVelocity | entities/enemies.py:84-85 | the patrol step is the facing's unit vector times 40 px/s times dt |
| Sprites.FirstHitIn | core/projectile.py:68-73 | the first live enemy overlapping the projectile, in group order: the found index overlaps, and none before it does |
| Sprites.ImpactOf | core/projectile.py:57-73 | range is checked before walls, and walls before enemies; the projectile flies on only if none of the three stops it, and an enemy hit names the first overlapping live enemy |
| Sprites.FlyFlight | core/projectile.py:48-65 | one flight on values: the distance grows by the step's length, and a flight still live afterwards was live, is within range and clear of every wall |
| Sprites.FlyFoes | core/projectile.py:67-73 | one flight as the enemies see it: at most one enemy changes, a live one, and it takes exactly 10 damage; total enemy health drops by 0 or 10 |
| Sprites.GroupRunFlights | systems/projectile_system.py:17-23 | the group update on values: removed members are untouched, each live member moves exactly one step, and a member live afterwards was live and is within range |
| Sprites.GroupRunFoes | systems/projectile_system.py:17-23 | over the whole group no enemy moves or comes back and no enemy's health rises |
| Sprites.GroupRunDamage | systems/projectile_system.py:17-23 | over the whole group the enemies lose 10 health per hit, with at most one hit per live member |
| Sprites.Projectile.constructor | core/projectile.py:15-21 | position, direction, speed and range as given, travelled 0, alive, and a 16x16 rectangle centred on the truncated start |
| Sprites.Projectile.Travel | core/projectile.py:49-55 | the position moves by direction * speed * dt; travelled grows by the step's hypot and never shrinks; the rectangle is re-centred on the truncated position |
| Sprites.Projectile.Strike | core/projectile.py:57-73 | the projectile dies exactly when ImpactOf is not Flying; only the first live overlapping enemy loses 10 health, and it leaves its group at 0 or below; no other enemy changes |
| Sprites.Projectile.Update | core/projectile.py:44-73 | Travel followed by Strike on the new rectangle; enemies do not move |
| Sprites.NewProjectile | core/projectile.py:6-21 | a missing start_pos or direction is an error (ValueError); otherwise a fresh projectile with the given values, speed 50 and range 800 by default |
| Sprites.ProjectileRange | core/projectile.py:49-60 | with a unit direction a projectile covers exactly speed * dt per update, and survives its range check exactly for the first ⌈range/(speed·dt)⌉ - 1 updates |
| Sprites.AdvanceOne | core/projectile.py:44-73 | one member's update is exactly Fly on the values of its fields and of the enemies' fields |
| Sprites.ProjectileGroup.constructor | systems/projectile_system.py:7 | the group starts empty |
| Sprites.ProjectileGroup.Add | systems/projectile_system.py:13-14 | `Group.add` appends a new projectile, ignores one already present, and keeps members distinct |
| Sprites.ProjectileGroup.Update | systems/projectile_system.py:17-23 | every member's new fields and every enemy's new fields are GroupRun of the old ones: members in group order, each live one flying once against the enemies as the earlier members left them |
| Sprites.ProjectileGroup.AdvanceAt | systems/projectile_system.py:17-23 | one loop step extends the GroupRun prefix by member i and leaves the later members as they were |
| Sprites.Enemy.constructor | entities/enemies.py:15-54 | the enemy starts at (x, y) patrolling with the drawn facing and timer, full health (default 60), speed 80 by default, a 32x64 rectangle centred there, and no projectile group |
| Sprites.Enemy.TakeDamage | entities/enemies.py:161-164 | health drops by exactly dmg with no clamp; the enemy stays in its groups exactly while health stays above 0 |
| Sprites.Enemy.Move | entities/enemies.py:109-133 | the new position, rectangle and "moved" flag are exactly MoveOutcome |
| Sprites.Enemy.PatrolStep | entities/enemies.py:79-85 | the direction timer counts down; when it runs out the drawn timer and facing are taken; then the enemy moves by PatrolVelocity of its facing |
| Sprites.Enemy.ChaseStep | entities/enemies.py:87-106 | position, rectangle, "moved" and facing are exactly ChaseOutcome at the given speed |
| Sprites.Enemy.Snap | entities/enemies.py:92-97 | with the target in reach the centre lands on it, and the enemy counts as moved |
| Sprites.Enemy.Pursue | entities/enemies.py:99-106 | out of reach, the enemy faces the larger offset and its position and rectangle are MoveOutcome of the velocity |
| Sprites.Enemy.Shoot | entities/enemies.py:136-147 | without a group, or before 1.2 s, nothing happens; otherwise the timer restarts and one fresh enemy shot is appended, from the enemy's centre towards the target at speed 300 |
| Sprites.Enemy.Animate | entities/enemies.py:150-159 | the frame timer and index become EnemyFrames of the old ones: while moving the frame advances modulo 6 once the timer reaches 0.15 s; when idle the frame resets to 0 |
| Sprites.Enemy.AttackStep | entities/enemies.py:72-74 | the attack chases at half speed, then shoots at the target |
| Sprites.Enemy.Behave | entities/enemies.py:68-74 | position, rectangle, moved flag, facing and patrol timer are BehaviourOf the new state; only an attacking enemy can fire, which resets the shot timer and appends one aimed enemy shot |
| Sprites.Enemy.Update | entities/enemies.py:58-76 | every changed field is UpdatePose of the old ones (shot timer, NextState on the squared distance, behaviour, animation); a fired shot is appended to the enemy's group, otherwise the group is unchanged |
| Sprites.EnemyShotAimed | entities/enemies.py:140-142 | an enemy shot aimed away from its own centre has a unit direction pointing exactly along the offset |
| PlayerEntity.RaceStats | entities/player.py:57-82 | an unknown race gets 100/100/10/100, and every stat is positive |
| PlayerEntity.RaceTable | entities/player.py:58-77 | the four named races get their own rows: Saiyan 120/90/8/110, Namekian 140/110/12/90, Android 100/200/20/85, Shiba 110/100/10/100 |
| PlayerEntity.NewFacing | entities/player.py:120-127 | the last matching key pair wins (D/RIGHT over A/LEFT over S/DOWN over W/UP), and the facing is kept when no movement key is held |
| PlayerEntity.MoveIntent | entities/player.py:117-127 | on each axis the later key of the pair wins, and the step is ±speed * dt |
| PlayerEntity.WalkX | entities/player.py:135-138 | only x changes; a blocked tested move leaves the rectangle as it was |
| PlayerEntity.WalkY | entities/player.py:140-143 | only y changes; a blocked tested move leaves the rectangle as it was |
| PlayerEntity.WalkCommitsTested | entities/player.py:136-138 | for a whole-pixel step that stays at non-negative x, the committed rectangle is the one tested |
| PlayerEntity.WalkCanEnterWall | entities/player.py:136-138 | a step of -1.5 px tests the rectangle one pixel left, which is clear, but commits two pixels left, into the wall |
| PlayerEntity.WalkRect | entities/player.py:135-147 | the walk keeps the hitbox size and ends inside the map whenever the hitbox fits |
| PlayerEntity.DashVector | entities/player.py:172-178 | the dash vector is the facing's unit vector times speed * dt * 100 |
| PlayerEntity.DashRect | entities/player.py:180-190 | the dash keeps the size and ends inside the map; a free dash from a free rectangle is the clamped full move; a blocked one only clamps |
| PlayerEntity.Regen | entities/player.py:164-166 | the new energy is the regenerated energy capped at max_energy, and never above it |
| PlayerEntity.WalkFrames | entities/player.py:150-161 | the frame stays within the 6 of a direction; under an override frame and timer are kept; idle resets both; moving keeps the frame or advances it by one modulo 6 |
| PlayerEntity.ShotKeysVector | entities/player.py:199-207 | W/S/A/D are summed, each axis in [-1, 1], falling back to the facing when they cancel; never (0, 0) |
| PlayerEntity.ShotDirectionIsUnit | entities/player.py:199-210 | the shot direction always has length exactly 1 |
| PlayerEntity.Player.constructor | entities/player.py:11-55 | the 20x28 hitbox is centred at the bottom of the 32x64 frame; the race's stats apply; health and energy are full; the player faces down; all timers are 0 |
| PlayerEntity.Player.SetRaceStats | entities/player.py:57-85 | the stats become RaceStats(race), then health and energy are refilled to their maxima |
| PlayerEntity.Player.ProjectileSpawnPos | entities/player.py:87-93 | x is the hitbox's centre; y lies between the image's top and the hitbox's bottom |
| PlayerEntity.Player.TryDash | entities/player.py:168-192 | before 1 s or below 10 energy nothing changes; otherwise the rectangle becomes DashRect, the cooldown restarts and 10 energy is paid, floored at 0 |
| PlayerEntity.Player.TryShoot | entities/player.py:195-213 | None before 0.25 s; otherwise the timer restarts and a fresh player shot (speed 50, range 800) leaves the spawn position along ShotDirection |
| PlayerEntity.Player.Walk | entities/player.py:135-147 | the rectangle becomes WalkRect: the x move, the y move, the top-left fix, then the clamp |
| PlayerEntity.Player.Animate | entities/player.py:150-161 | frame index and timer become WalkFrames of the old ones |
| PlayerEntity.Player.Update | entities/player.py:116-166 | the facing follows the keys; the Q dash (or the dash timer) comes first, then the walk; then the animation, the shot timer, and capped regeneration |
| PlayerEntity.Player.Step | entities/player.py:117-147 | the movement half of update: facing, dash or dash timer, and the walk |
| PlayerControl.AfterUpdate | systems/player_controller.py:10-11 | after Player.update energy is at most max_energy, the shot timer grew by dt, and a successful dash restarted the dash timer |
| PlayerControl.AfterShot | systems/player_controller.py:13-17 | a fired shot restarts the shot timer and costs 5 energy floored at 0; an unfired one changes nothing; energy never rises |
| PlayerControl.AfterDash | systems/player_controller.py:19-20 | the second dash pays 10 energy and restarts the cooldown when ready, and otherwise changes nothing |
| PlayerControl.AtMostOneDash | systems/player_controller.py:10-20 | of the tick's two dash attempts at most one succeeds; the second succeeds only when the first failed for want of energy |
| PlayerControl.TickRect | systems/player_controller.py:10-20 | after a tick the hitbox has its size and lies inside the map |
| PlayerControl.PlayerController.constructor | systems/player_controller.py:4-7 | the controller keeps the player, the collision rectangles and the map rectangle |
| PlayerControl.PlayerController.Step | systems/player_controller.py:10-11 | the gauges become AfterUpdate, the facing NewFacing and the rectangle the walk after the optional dash |
| PlayerControl.PlayerController.Shoot | systems/player_controller.py:13-17 | the gauges become AfterShot; a fired shot is appended to the group as a fresh, live player projectile at the player's spawn position (hitbox centre x, 60% down the image), along the unit shot direction, at speed 50 with range 800 |
| PlayerControl.PlayerController.Dash | systems/player_controller.py:19-20 | the gauges become AfterDash, and the rectangle becomes DashRect when the dash is ready |
| PlayerControl.PlayerController.Tick | systems/player_controller.py:10-20 | without chat focus the gauges run through update, shot and dash, the rectangle is TickRect, and a fired shot is appended as a fresh player projectile at the spawn position of the hitbox after the walk (before the second dash), speed 50, range 800 |
| PlayerControl.PlayerController.Update | systems/player_controller.py:9-20 | with chat focus nothing changes; otherwise the gauges run through update, shot and dash, the rectangle is TickRect, and a fired shot is appended as a fresh player projectile at the spawn position of the hitbox after the walk, speed 50, range 800 |
| EnemyControl.ReadyFlags | systems/enemy_controller.py:10-12 | flag i is set exactly when enemy i is live, overlaps the player and its cooldown has run out |
| EnemyControl.UpdateOne | systems/enemy_controller.py:7-8 | one enemy's update: its fields become UpdatePose of the old ones, with the map rectangle given, and a fired shot is appended to its group |
| EnemyControl.EnemyPass | systems/enemy_controller.py:7-8 | every enemy's fields become PassPose: UpdatePose for a live enemy, unchanged for a removed one; the shot groups only grow |
| EnemyControl.PassAt | systems/enemy_controller.py:7-8 | one loop step: enemy i gets its PassPose, the earlier enemies keep theirs and the later ones are untouched (Passed moves from i to i + 1) |
| EnemyControl.Touch | systems/enemy_controller.py:9-16 | a touching enemy with no cooldown deals 10 and starts a 0.5 s cooldown; a touching one in cooldown counts it down; any other changes nothing |
| EnemyControl.TouchAt | systems/enemy_controller.py:9-16 | one loop step: damage from enemy i, and its cooldown advanced with the others kept |
| EnemyControl.ContactPass | systems/enemy_controller.py:9-16 | the player loses 10 for every enemy ready at the pass's start, and each cooldown becomes NextCooldown |
| EnemyControl.ContactLoop | systems/enemy_controller.py:9-16 | the loop's total damage is 10 times the number of set flags, and every cooldown becomes NextCooldown |
| EnemyControl.Update | systems/enemy_controller.py:6-16 | all enemies move first (PassPose each), then contact damage is 10 per enemy ready on the new rectangles with the pre-tick cooldowns, and each cooldown becomes NextCooldown |
| DamageConfig.RuleFor | services/damage_service.py:18 | the projectile type's rule, else `_default`, else base 10 with no falloff |
| DamageConfig.Damage | services/damage_service.py:15-24 | without a falloff the damage is the base (default 10); with one it is never below 1 |
| DamageConfig.DamageIgnoresDistance | services/damage_service.py:21-23 | without a falloff the distance does not matter |
| DamageConfig.DamageDecreases | services/damage_service.py:21-23 | with a positive falloff the damage never grows with distance |
| DamageConfig.FalloffPerSpan | services/damage_service.py:21-23 | with a whole falloff, k full 200 px spans cost k * falloff points, down to 1 |
| DamageConfig.DamageService.constructor | services/damage_service.py:4-5 | the cache starts empty |
| DamageConfig.DamageService.Load | services/damage_service.py:7-13 | the file is read only while nothing is cached; after that the cached config is returned |
| DamageConfig.DamageService.GetDamage | services/damage_service.py:15-24 | the result is Damage on the loaded config, and the file is read at most once |
| RaceConfig.Entry | services/race_service.py:17-20 | a missing race gives {}; a present race succeeds exactly when its entry is a dict |
| RaceConfig.Overrides | services/race_service.py:20 | `base.update(stats)` accepts a dict (its entries override) and the empty string (nothing to add), and raises on anything else |
| RaceConfig.GetStats | services/race_service.py:15-21 | get_stats succeeds exactly when the entry is a dict and its stats can update a dict |
| RaceConfig.EmptyStringStats | services/race_service.py:20 | a race whose stats is "" gets exactly the defaults |
| RaceConfig.UnknownRaceStats | services/race_service.py:15-21 | an unknown race gets exactly the defaults |
| RaceConfig.StatsMerge | services/race_service.py:18-20 | every key of the race's stats overrides, and every other default is kept |
| RaceConfig.GetMetadata | services/race_service.py:23-30 | a non-dict entry raises; an unknown race gets "" / "" / {}; otherwise each field is the entry's value or its default |
| RaceConfig.RaceService.constructor | services/race_service.py:4-5 | the cache starts empty |
| RaceConfig.RaceService.Load | services/race_service.py:7-13 | the file is read only while nothing is cached |
| RaceConfig.RaceService.Stats | services/race_service.py:15-21 | the result is GetStats on the loaded config, and the file is read at most once |
| RaceConfig.RaceService.Metadata | services/race_service.py:23-30 | the result is GetMetadata on the loaded config, and the file is read at most once |
| SpawnValidation.Footprint | services/spawn_validator.py:7 | the 32x64 test rectangle is centred on (x, y) |
| SpawnValidation.ValidSpawnByDistance | services/spawn_validator.py:5-14 | a point is valid exactly when its footprint hits no collider and, given an avoid point, its hypot distance is at least min_distance |
| SpawnValidation.Accepted | services/spawn_validator.py:16-26 | the accepted points are valid samples, in the order drawn |
| SpawnValidation.AcceptedStep | services/spawn_validator.py:16-26 | one more sample joins the accepted ones exactly when it is a valid spawn point |
| SpawnValidation.NoneAccepted | services/spawn_validator.py:16-26 | on a fully blocked map nothing is accepted |
| SpawnValidation.GenerateSpawns | services/spawn_validator.py:16-26 | the result is the valid samples among the attempts made; it never exceeds `want`; when it falls short every attempt was used; the loop stops on the valid sample that fills it |
| Hud.NewSpawn | ui/screens/hud_screen.py:77-79 | a fresh enemy centred on the accepted sample, patrolling, and shooting into the projectile group |
| Hud.SpawnEnemies | ui/screens/hud_screen.py:68-79 | at most 30 draws and at most 5 enemies; fewer than 5 only when all 30 draws were used; the enemies sit at the accepted centres and are distinct |
| Hud.TrySpawn | ui/screens/hud_screen.py:71-79 | one attempt: the enemies so far match the centres accepted from one more sample; a new enemy is appended exactly when that sample passes |
| Hud.SpawnLevel | ui/screens/hud_screen.py:68-79 | on a map of at least 64 px the spawn loop returns distinct, well-formed enemies that shoot into the level's group: for a prefix of at most 30 samples, the i-th enemy is a fresh patrolling Enemy (60 health, speed 80) centred on the i-th accepted sample, with the i-th patrol draw |
| Hud.SpawnedEnemiesClear | ui/screens/hud_screen.py:73-75 | every spawned enemy's footprint is clear of the tiles, and it is at least 150 px from the player's spawn |
| Hud.Views | ui/screens/hud_screen.py:114-115 | the hit check reads each projectile's liveness, kind, rectangle and position |
| Hud.HitPoints | ui/screens/hud_screen.py:114-121 | there is at most one hit point per projectile |
| Hud.HitPointsExactly | ui/screens/hud_screen.py:114-121 | there are no hit points exactly when no shot hits; every hitting shot's position is a hit point; every hit point comes from a hitting shot |
| Hud.AsWrittenViews | core/projectile.py:6-21 | as written the kind is never stored, so every view reads `from_enemy` as False |
| Hud.AsWrittenNeverHits | ui/screens/hud_screen.py:115 | as written no projectile ever hits the player through this check |
| Hud.EnemyShotOnPlayerHits | ui/screens/hud_screen.py:114-121 | with the kind stored, a live enemy shot overlapping the player is a hit, while the as-written check misses it |
| Hud.MaxScroll | ui/screens/hud_screen.py:165-166 | the scroll bound is never negative and covers every message beyond the five shown |
| Hud.ChatStepKeepsScroll | ui/screens/hud_screen.py:138-170 | one event keeps the scroll within its bound, and messages are only ever appended |
| Hud.TypingKeepsScroll | ui/screens/hud_screen.py:157-170 | the typing chain keeps the scroll within its bound and only appends |
| Hud.ReplayKeepsScroll | ui/screens/hud_screen.py:138-170 | a whole tick of events keeps the scroll within its bound and only appends |
| Hud.TabHidesAndClears | ui/screens/hud_screen.py:143-150 | TAB hides a shown panel, drops focus, clears input and scroll and posts nothing; TAB shows a hidden panel |
| Hud.EnterPosts | ui/screens/hud_screen.py:158-161 | RETURN posts "[Player]: " plus the stripped input and clears input and scroll; a blank input instead gets the key's text appended |
| Hud.UnfocusedKeysIgnored | ui/screens/hud_screen.py:157 | without focus, a key other than ESC and TAB changes nothing |
| Hud.HudScreen.constructor | ui/screens/hud_screen.py:29-103 | map rectangle and tiles as loaded; spawn point or (100, 100); a full-health Shiba player whose 20x28 hitbox sits at the bottom centre of its 32x64 frame; up to 5 fresh patrolling enemies, the i-th centred on the i-th accepted sample of some prefix of at most 30 samples, shooting into the level's group; empty groups; the camera following the player; an empty, visible, unfocused chat |
| Hud.Open | ui/screens/hud_screen.py:68-79 | HUDScreen(game) fails exactly on a map under 64 px on either axis (the spawn loop's randint raises); otherwise the screen is well formed on the loaded map with at most 5 enemies, no projectiles and an empty chat |
| Hud.HudScreen.HitOne | ui/screens/hud_screen.py:115-121 | a hitting shot costs 10 health, adds a fresh explosion at its truncated position and dies; any other shot changes nothing |
| Hud.HudScreen.EnemyShotHits | ui/screens/hud_screen.py:114-121 | the player loses 10 per hitting shot; one fresh explosion is appended per hit, at the hit points in order; exactly the hitting shots die |
| Hud.HudScreen.HitLoop | ui/screens/hud_screen.py:114-121 | the loop over the listed projectiles yields HitPoints, the matching health loss and the matching explosions |
| Hud.HudScreen.HitAt | ui/screens/hud_screen.py:115-121 | one loop step extends the checked prefix by one projectile |
| Hud.HudScreen.Respawn | ui/screens/hud_screen.py:127-129 | at 0 health or below the player is refilled and re-centred on the spawn point; otherwise nothing changes |
| Hud.HudScreen.Gameplay | ui/screens/hud_screen.py:107-131 | the player controller runs only without chat focus; health only falls, unless the player respawns; health ends positive; the camera follows the final rectangle; the chat is untouched |
| Hud.HudScreen.WorldPhase | ui/screens/hud_screen.py:111-131 | the damage taken is at most the old health, then come the respawn and the camera follow |
| Hud.HudScreen.EndPhase | ui/screens/hud_screen.py:124-131 | each enemy ends at its PassPose against the player's rectangle, the damage taken is at most the old health, then come the respawn and the camera follow |
| Hud.HudScreen.Settle | ui/screens/hud_screen.py:126-131 | a player at zero health or below is refilled and moved to the spawn point, otherwise left alone; the camera then follows the final rectangle |
| Hud.HudScreen.PlayerPhase | ui/screens/hud_screen.py:108-109 | with chat focus the player is untouched; otherwise it takes a PlayerTick |
| Hud.HudScreen.ShotPhase | ui/screens/hud_screen.py:111-123 | projectiles move, enemy shots hit, explosions age, and health never rises |
| Hud.HudScreen.TakeShotHits | ui/screens/hud_screen.py:114-121 | the screen stays well formed, health never rises, and only fresh explosions are added |
| Hud.HudScreen.MoveShots | systems/projectile_system.py:17-23 | the projectile system's update on the screen's groups: projectiles and enemies end as GroupRun of their old fields, and the screen stays well formed |
| Hud.HudScreen.EnemyPhase | ui/screens/hud_screen.py:124 | the enemy controller's turn: each enemy ends at its PassPose against the player, and health never rises |
| Hud.HudScreen.MoveEnemies | systems/enemy_controller.py:6-16 | EnemyController.update on the screen: each enemy ends at its PassPose, the player loses 10 per ready enemy, each cooldown becomes NextCooldown, and the shot group only grows |
| Hud.HudScreen.HandleEvent | ui/screens/hud_screen.py:138-170 | the chat fields become ChatStep of the event |
| Hud.HudScreen.HandleEvents | ui/screens/hud_screen.py:138-170 | the chat fields become Replay of the tick's events |
| Hud.HudScreen.Update | ui/screens/hud_screen.py:106-170 | the tick leaves the screen well formed, the player alive and the chat replayed; the scroll stays within its bound |
| CharCreate.CacheLookup | ui/screens/char_create_screen.py:17-22 | the returned metadata is what the table now holds for the race; only that key is added; other entries are kept |
| CharCreate.LookupIsMemoised | ui/screens/char_create_screen.py:17-22 | a second lookup answers the same and leaves the table alone, whatever a request would return; a first lookup returns the fetched metadata or the fallback |
| CharCreate.RaceCache.constructor | ui/screens/char_create_screen.py:7 | RACE_CACHE starts empty |
| CharCreate.RaceCache.Get | ui/screens/char_create_screen.py:17-22 | the result and the table are CacheLookup's; a request is made only for a race not yet cached |
| CharCreate.BonusesOf | ui/screens/char_create_screen.py:88-90 | the bonuses are `meta["bonuses"]` when both the metadata and that entry are dicts, and {} otherwise |
| CharCreate.Bonus | ui/screens/char_create_screen.py:91 | a missing bonus counts 0; a present one is its number |
| CharCreate.FallbackHasNoBonuses | ui/screens/char_create_screen.py:14-15 | the fallback metadata yields no bonuses: health and speed bonuses are 0 |
| CharCreate.FallbackKeepsStats | ui/screens/char_create_screen.py:88-95 | with the fallback metadata RETURN keeps the stats, refills health and stores a damage bonus of 0 |
| CharCreate.WithBonuses | ui/screens/char_create_screen.py:88-95 | the bonus lines on a profile satisfy BonusesApplied: health adds to the maximum, which health takes; damage is stored as given; speed adds; the first line that raises stops the rest |
| CharCreate.ChosenName | ui/screens/char_create_screen.py:85 | the name is the stripped input, or "Player" when that is empty; it is never empty |
| CharCreate.AdvancesCount | ui/screens/char_create_screen.py:53-58 | after n animation steps the frame is (frame + n) mod 6, and the direction has turned once per six frames |
| CharCreate.SelectStep | ui/screens/char_create_screen.py:70-75 | UP and DOWN keep the selection a valid index into the four races |
| CharCreate.Selection | ui/screens/char_create_screen.py:68-75 | the selection after a tick's events stays a valid index |
| CharCreate.SelectionCounts | ui/screens/char_create_screen.py:68-75 | the selection is the start plus the number of DOWNs minus the number of UPs, modulo 4 |
| CharCreate.NameFieldCounts | ui/screens/char_create_screen.py:76-77 | the name field loses one character per BACKSPACE and is empty once they outnumber its characters |
| CharCreate.NameStaysEmpty | ui/screens/char_create_screen.py:30 | no event types into the name field, so it stays "" and every character is named "Player" |
| CharCreate.ArrowsUndo | ui/screens/char_create_screen.py:70-75 | UP then DOWN, or DOWN then UP, restores the selection |
| CharCreate.EventStep | ui/screens/char_create_screen.py:68-98 | one event on the screen's state: selection and name follow SelectStep and NameStep; UP/DOWN build a fresh preview of the new race; RETURN looks up through the cache, labels the preview, satisfies BonusesApplied and hands off exactly when no line raised; only RETURN can fail |
| CharCreate.Run | ui/screens/char_create_screen.py:68-98 | the event loop stops exactly at the first RETURN that raises, which is the last event it handled; otherwise it handles every event |
| CharCreate.RunHalts | ui/screens/char_create_screen.py:68-98 | after a RETURN has raised, later events change nothing |
| CharCreate.RunStep | ui/screens/char_create_screen.py:68-98 | handling one more event after a run that has not raised is one EventStep |
| CharCreate.RunTracks | ui/screens/char_create_screen.py:70-77 | the selection and name after the loop are Selection and NameField of the events handled |
| CharCreate.HandOffKept | ui/screens/char_create_screen.py:79-98 | once the preview has gone to the HUD it stays handed over |
| CharCreate.HandOffNeedsReturn | ui/screens/char_create_screen.py:79-98 | the preview reaches the HUD only through a RETURN among the events handled |
| CharCreate.ReturnTwiceAddsTwice | ui/screens/char_create_screen.py:79-95 | with numeric bonuses, RETURN twice hands the preview over and adds the health and speed bonuses twice, health refilled to the new maximum, the second lookup answered from the cache |
| CharCreate.CharacterCreateScreen.constructor | ui/screens/char_create_screen.py:25-49 | the first race is selected with an empty name, the preview's profile is that of a fresh player of that race, and the animation is at rest |
| CharCreate.CharacterCreateScreen.Animate | ui/screens/char_create_screen.py:52-66 | the animation state becomes AnimStep; on a new frame the preview turns to the current direction; the preview's own frame is kept |
| CharCreate.CharacterCreateScreen.StandStill | ui/screens/char_create_screen.py:65-66 | a preview update with no key held and the animation overridden keeps its facing and frame |
| CharCreate.CharacterCreateScreen.Choose | ui/screens/char_create_screen.py:80-95 | RETURN looks the race up through the cache, and the preview's profile becomes WithBonuses of the metadata's bonuses on the labelled profile; the hand-off happens exactly when no line raised |
| CharCreate.CharacterCreateScreen.Label | ui/screens/char_create_screen.py:85-86 | the profile gets the chosen name and the race, nothing else changes |
| CharCreate.CharacterCreateScreen.ApplyBonuses | ui/screens/char_create_screen.py:91-95 | the preview's profile and the flag are WithBonuses of the bonuses on the old profile |
| CharCreate.CharacterCreateScreen.HandleEvent | ui/screens/char_create_screen.py:69-98 | the screen's state and the flag are EventStep of the old state; the animation is untouched |
| CharCreate.CharacterCreateScreen.Pick | ui/screens/char_create_screen.py:71-75 | the selection changes and the preview is a fresh player of the selected race |
| CharCreate.CharacterCreateScreen.Confirm | ui/screens/char_create_screen.py:79-98 | RETURN on the screen's state is EventStep of a RETURN press |
| CharCreate.CharacterCreateScreen.HandleEvents | ui/screens/char_create_screen.py:68-98 | the screen's state, the flag and the count of events handled are Run of the old state; selection and name are Selection and NameField of the events handled |
| CharCreate.CharacterCreateScreen.EventLoop | ui/screens/char_create_screen.py:68-98 | the loop has handled a prefix of the events, is Run on that prefix, and handled all of them unless RETURN raised |
| CharCreate.CharacterCreateScreen.Update | ui/screens/char_create_screen.py:51-98 | the animation state becomes AnimStep; then the screen's state (selection, name, preview profile, hand-off, cache) is Run of the old state over the events |

## Left out

- Drawing: every `draw` method, images, fonts, sprite sheets and `_trim_surface` are left out, because they only produce pixels. The one exception is a projectile's fallback size, a 16x16 circle, which the model uses as its rectangle.
- The image asset of `Projectile`: with a blast image on disk the rectangle is a rotated 40x32 image shifted back 12 px. That depends on files and on rotation in floating point, so only the fallback is modelled.
- `Camera.follow`'s `print` is left out, because it is console output only.
- I/O: the TMX map load, the two JSON configuration files and the race HTTP request are not modelled as I/O. The loaded map size, the tiles and the spawn object, the decoded file contents, and the response (`None` when the request or its decoding raised) are parameters.
- The prefetch thread of `CharacterCreateScreen.__init__` is left out, because it is concurrency. The cache is the same table the thread fills.
- `Game.set_screen("hud", player=...)` is modelled as the `handedOff` flag, because the screen switch belongs to the game loop. As written, `set_screen` takes no `player` argument (core/game.py:29), so this call raises TypeError; the model records the intended hand-off instead.
- The tab manager, the exit dialog's own event handling, the draggable vitals box and the canvas border are left out, because they are UI components outside the simulation core. The HUD's ESC only sets the `exitShown` flag.
- The square root is an oracle parameter (see the top of this file), because Dafny's reals have no square-root function.
- The random draws (`random.randint`, `random.uniform`, `random.choice`) are parameters, each constrained to the range the source draws it from.
- Floating point: positions, timers and energy are exact reals, so float rounding is not modelled.
- JSON values other than integers, strings and objects are a single `JOther`. A float or a bool in the race bonuses therefore counts as non-addable here, where Python would add it. In the damage configuration the base is an integer and the falloff a real number.
- Damage: the damage service is not called by any modelled operation, because enemies take a fixed 10 from projectiles, as the source does.
- CharCreate.CharacterCreateScreen.StandStill: states only that the preview keeps its facing and frame, because the screen relies on nothing else from the preview's update.
- Hud.HudScreen.Gameplay: states the player's health as at most the old health (or a refill on respawn) rather than an exact amount. The exact amounts are stated by EnemyShotHits and EnemyControl.Update.
- Hud.HudScreen.ShotPhase: states only that health never rises. The effect of each step is stated by MoveShots, EnemyShotHits and ExplosionSystem.Update, which it calls.
- Hud.HudScreen.TakeShotHits: states only that health never rises and that only fresh explosions are added. EnemyShotHits states the exact effect.
- Hud.HudScreen.EnemyPhase: states each enemy's new fields, but of the player only that health never rises. MoveEnemies states the exact damage.
- Hud.HudScreen.Update: does not restate the per-phase effects, which Gameplay and HandleEvents state.
- Hud.HudScreen.constructor: states each enemy through some prefix of the samples (the i-th enemy on the i-th accepted sample of it) rather than naming the prefix's length; SpawnEnemies names it.
- PlayerControl.TickRect: states only the size and that the hitbox stays inside the map. PlayerController.Update states the rectangle exactly.
- Sprites.Enemy.Update: treats the `map_rect` argument as `Option`, and the enemy controller always passes one.
- Sprites.Enemy.Shoot: models the intended enemy shot. As written, `Projectile.__init__` forwards the `from_enemy=True` keyword to `pygame.sprite.Sprite.__init__` (core/projectile.py:14), which raises TypeError, so no enemy shot is ever created.
- Sprites.ProjectileGroup.Update: models the intended call. As written, `ProjectileSystem.update` passes `explosions_group` (systems/projectile_system.py:22), which `Projectile.update` does not accept, so the group update raises TypeError on the first live projectile.
- Sprites.Enemy.Update: the enemy's shots are stated as appended to its own group.
- EnemyControl.EnemyPass: across the pass the model states only that each enemy's group grows (a prefix is kept), not which shot came from which enemy.
- EnemyControl.Update: states the enemies' shots only as each group growing (a prefix is kept), not which shot came from which enemy.
- Hud.HudScreen.MoveEnemies: states the enemies' shots only as each enemy's shot group growing (a prefix is kept), not which shot came from which enemy.
- Text.StripSlice: `str.strip()` is modelled on the Latin-1 whitespace characters only; the other Unicode whitespace characters are not stripped here.
- RaceConfig.GetStats: JSON arrays and other values are one `JOther`, so a `stats` list of pairs, which `dict.update` would accept, counts as raising here.
- PlayerEntity.Player.constructor: sets `damageBonus` to 0, where the source has no such attribute until RETURN on the character screen sets it.
- pygame's `Rect` attribute setters are modelled as truncating float values toward zero.

## Findings

| source | as written | input that shows it | evidently intended | confidence | as-written member | corrected member |
|---|---|---|---|---|---|---|
| core/projectile.py:6-21 and ui/screens/hud_screen.py:115 | `Projectile.__init__` takes no `from_enemy` parameter and never stores it. The HUD reads it with `getattr(p, "from_enemy", False)`, so every projectile reads as a player shot. Before that, as written no enemy shot exists at all: `Enemy._shoot` passes `from_enemy=True`, which `Projectile.__init__` forwards to `Sprite.__init__` (core/projectile.py:14), and that raises TypeError. | An enemy shot, live and overlapping the player's rectangle: the check skips it and the player takes no damage | an enemy shot overlapping the player costs 10 health and leaves an explosion | not executed | Hud.AsWrittenNeverHits | Hud.EnemyShotOnPlayerHits |

As written no enemy shot exists at all: `Enemy._shoot` passes
`from_enemy=True`, which `Projectile.__init__` forwards to
`pygame.sprite.Sprite.__init__` (core/projectile.py:14), and that raises.
Even a shot that did exist would read as a player shot, which is what the
row above shows. The model's projectile stores the `fromEnemy` flag, and
enemies set it (`Sprites.Enemy.Shoot`). With that flag,
`Hud.HudScreen.EnemyShotHits` proves the intended damage and explosions.

Two behaviours belong to this intended program, not to the source as
written, where neither can happen. The model keeps them because it models
the intended enemy shot and the intended hand-off:

- **Enemies hitting themselves.** An enemy's shot starts at the enemy's
  own centre, and `Projectile.update` does not check who fired it. So the
  shooter itself is the first enemy the shot can hit. As written no enemy
  shot is ever created (see above).
- **RETURN applies bonuses again.** Nothing stops a second RETURN on the
  character-creation screen. When the race's bonuses are numbers, the
  second RETURN adds them to the same preview again, from the cached
  metadata (`CharCreate.ReturnTwiceAddsTwice`). As written the first
  RETURN already raises TypeError in `Game.set_screen` (core/game.py:29),
  so a second one is never handled.

Other behaviours of the source, which the model keeps as written:

- **Walking into a wall.** The player's walk tests `rect.move(dx, 0)`
  with dx truncated, but commits `rect.x += dx`, which truncates the
  float sum. With a fractional step to the left, the committed rectangle
  is one pixel further than the tested one and can overlap the wall the
  test cleared (`PlayerEntity.WalkCanEnterWall`). For whole-pixel steps
  the two agree (`PlayerEntity.WalkCommitsTested`).
- **Two dash attempts per tick.** Q tries to dash twice per tick: once
  inside `Player.update` and once in the controller. At most one attempt
  succeeds (`PlayerControl.AtMostOneDash`).
- **The name is always "Player".** The character-creation screen has no
  text-entry branch, so the name field can only shrink. Every character is
  therefore named "Player" (`CharCreate.NameStaysEmpty`).
- **Keys falling through to text.** With the chat focused, these keys
  fall through to the last branch of the chat handler and append the
  key's text to the input (`Hud.EnterPosts`):
  - RETURN on a blank input;
  - TAB while the panel is hidden;
  - ESC.
