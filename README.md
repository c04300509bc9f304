# Shooter core in Dafny

This project models the simulation core of a small Swing arcade shooter. The
player moves a square ship at the bottom of a 900×650 field and fires volleys
of three bullets. Enemies fall from the top, either straight down or zig-zag.

Each tick of a running game does four things in order:
- moves the player, then every bullet, then every enemy;
- resolves bullet–enemy and enemy–player collisions;
- removes the dead;
- advances the spawn timer and the difficulty level.

Key presses drive the MENU / RUNNING / PAUSED / GAME_OVER state machine and the
four movement flags.

The project has three modules, following the two source files:

- `Entities` (`Entities.dfy`, for `src/Entities.java`)
  - the game states, the field size and the square bounds with
    `Rectangle.intersects`;
  - the two enemy behaviours;
  - classes `Player`, `Bullet` and `Enemy`. Their `Update`/`Move` methods
    change their fields in place, as in the source. Each is proved equal to a
    function on a value record (`PlayerStepped`, `BulletStepped`, `Moved`,
    `EnemyStepped`), and the entity properties are proved about those
    functions.
- `Simulation` (`Simulation.dfy`)
  - every operation of the game panel as a function from one `World` record to
    the next: the game state, the player, both lists, score, level and the two
    spawn fields;
  - reference definitions: the set of bullets that hit something, the first
    enemy each bullet hits, the enemies that touch the player. The two
    collision scans are proved equal to them;
  - the game's properties, proved as lemmas.
- `Panel` (`GamePanel.dfy`, for `src/GamePanel.java`)
  - class `GamePanel`, with the source's fields and the two lists as sequences
    of entity objects;
  - methods that update those fields and objects in place, with the same
    loops as the source. `Model()` reads the panel as a `World`, and every
    operation of the panel (constructor, `initGame`, `tick` and its four
    steps, `spawnEnemy`, `shoot`, the two key handlers) is proved to leave
    `Model()` equal to the matching `Simulation` function of the old
    `Model()`. So the lemmas of `Simulation` hold for the panel. The helper
    methods inside those operations are proved against smaller
    specifications instead:
    - one iteration of a collision loop, against a scan-progress predicate;
    - the inner enemy loop, against `FirstHit`;
    - the volley, against `Volley`.

Randomness and the clock are inputs:
- the four random draws of `spawnEnemy` are a `Draws` value. `ValidDraws`
  gives the ranges `java.util.Random` guarantees;
- the millisecond clock read by `shoot` is a parameter `now`.

In a few places the code does something a reader of the game might not
expect. The model follows the code:
- `handleCollisions` never looks at `alive`:
  - an enemy that one bullet has already marked dead can be hit again by a
    later bullet, for another 10 points;
  - a dead enemy still costs the player a life.
- Lives can fall below 0 when several enemies touch the player in one tick.
- `removeDead` and `spawnLogic` still run in the tick in which a collision sets
  GAME_OVER.
- P in MENU or GAME_OVER switches to RUNNING without resetting the session.
- `keyReleased` clears the movement flags in every state.

## Model

| member | source | states |
|---|---|---|
| Entities.Half | src/GamePanel.java:82 | `n / 2` truncates toward zero as in Java: twice the result is within 1 of n, on the side of 0 |
| Entities.IntersectsIffSharedPixel | src/Entities.java:25-27 | `Intersects`, the model of `Rectangle.intersects` on two entities' `getBounds`, holds exactly when some pixel lies inside both |
| Entities.IntersectsSymmetric | src/GamePanel.java:93 | the intersection test does not depend on the order of its arguments |
| Entities.EdgeContactIsNoHit | src/GamePanel.java:93 | rectangles that only touch along an edge do not intersect |
| Entities.Clamp | src/Entities.java:45-46 | `max(0, min(hi, v))` lies in [0, hi]; it is v inside the range, 0 below it and hi above it |
| Entities.PlayerStepped | src/Entities.java:40-47 | only x and y change. Along each axis the player first moves by -speed for LEFT/UP and +speed for RIGHT/DOWN. The result is that position when it lies in [0, WIDTH-size] (resp. [0, HEIGHT-size]), 0 below that range and the upper bound above it. With no flag set and already in range the position stays |
| Entities.LeftEdgeScenario | src/Entities.java:40-47 | an 88-pixel player at x = 0 holding LEFT stays at exactly 0; holding RIGHT it moves to 6 |
| Entities.NewPlayerStandsStill | src/Entities.java:35-39 | a player just built by `NewPlayer` inside the field does not move on update, since all its flags are off |
| Entities.PlayerStaysInField | src/Entities.java:40-47 | after any positive number of updates the player lies inside the playfield, with its size unchanged |
| Entities.Player.constructor | src/Entities.java:32-39 | a new player has speed 6, lives 3, lastShotTime 0, fireCooldown 180 and all four flags false |
| Entities.Player.Update | src/Entities.java:40-47 | the in-place update leaves the player's fields equal to PlayerStepped of the old ones |
| Entities.BulletStepped | src/Entities.java:62-64 | y grows by dy and x, size and dy stay; a bullet off screen is dead, one on screen keeps its flag, and a dead bullet never revives |
| Entities.BulletFlight | src/Entities.java:62-64 | after n updates a bullet has moved exactly n·dy vertically and not at all sideways, and is alive only if it was |
| Entities.BulletSurvivesIff | src/Entities.java:63-64 | with `OffScreen` as the death test, a bullet is alive after an update exactly when it was alive and its new y lies in [-size, HEIGHT] |
| Entities.UpwardBulletLeaves | src/Entities.java:62-64 | a bullet fired upwards at y = 100 with dy = -10 is at y = -600 and dead after 70 updates |
| Entities.Bullet.constructor | src/Entities.java:54-61 | a new bullet has the given position, size and dy and is alive |
| Entities.Bullet.Update | src/Entities.java:62-64 | the in-place update leaves the bullet equal to BulletStepped of the old one |
| Entities.Moved | src/Entities.java:11-22 | both behaviours add speed to y; straight-down keeps x; zig-zag adds dir·speed to x and flips dir exactly when the new x is below 0 or beyond WIDTH-size |
| Entities.ZigZagDirectionStaysUnit | src/Entities.java:16-22 | the zig-zag direction stays +1 or -1 |
| Entities.SwayingStep | src/Entities.java:16-22 | an enemy within one step of the strip [0, WIDTH-size], heading back whenever outside it, still is after an update |
| Entities.SwayingAfter | src/Entities.java:16-22 | the same holds after any number of updates |
| Entities.ZigZagStaysNearField | src/Entities.java:16-22 | a zig-zag enemy spawned heading right (dir +1) inside the strip is never more than one speed-step outside it, after any number of updates, although x is never clamped |
| Entities.StraightDownScenario | src/Entities.java:11-13 | a straight-down enemy at y = 0 with speed 5 is at y = 5, same x, still alive after one update |
| Entities.EnemyStepped | src/Entities.java:81-83 | an update is the behaviour's move, then death more than 200 pixels below the screen; an enemy never revives |
| Entities.Enemy.constructor | src/Entities.java:71-80 | a new enemy has the given fields and is alive |
| Entities.Enemy.Move | src/Entities.java:11-22 | the in-place move leaves the enemy equal to Moved of the old one |
| Entities.Enemy.Update | src/Entities.java:81-83 | the in-place update leaves the enemy equal to EnemyStepped of the old one |
| Simulation.Reset | src/GamePanel.java:30-34 | a fresh session has the given state and a player inside the field, its centre 4 pixels right of the field's centre, which stands still until a key is pressed |
| Simulation.InitGame | src/GamePanel.java:30-35 | a reset keeps the state and gives empty lists, score 0, level 1, interval 50, timer 0 and a fresh 88-pixel player with 3 lives |
| Simulation.NewEnemy | src/GamePanel.java:81-85 | a spawned enemy starts at y = -size, alive, with speed 2 + bonus + level/2; with valid draws 50 ≤ size < 90 and 0 ≤ x < WIDTH-size |
| Simulation.SpawnEnemy | src/GamePanel.java:81-85 | spawning appends exactly one enemy at the end of the list and changes nothing else |
| Simulation.SpawnLogic | src/GamePanel.java:75-79 | spawnLogic leaves the state, player, bullets and score alone |
| Simulation.SpawnLogicSpawns | src/GamePanel.java:75-77 | the `SpawnTimer` half of spawnLogic: when timer+1 reaches the interval exactly one enemy is appended and the timer becomes 0; otherwise the timer grows by 1 and the list is unchanged |
| Simulation.SpawnLogicPacing | src/GamePanel.java:78 | the `LevelUp` half of spawnLogic: the level rises by one exactly when score > level·20 and stays otherwise; the interval then becomes max(12, interval-6) and otherwise stays, so from 12 or more it stays in [12, old interval] |
| Simulation.FirstHit | src/GamePanel.java:91-96 | the result is an enemy the rectangle intersects with no intersected enemy before it, or none when it intersects no enemy |
| Simulation.StruckIffFirst | src/GamePanel.java:91-96 | an enemy is some bullet's first hit exactly when some bullet intersects it and none of the enemies before it |
| Simulation.BulletScan | src/GamePanel.java:89-98 | the bullet scan keeps both list lengths and counts at most one hit per bullet |
| Simulation.BulletScanBullets | src/GamePanel.java:89-98 | the scan marks dead exactly the bullets that intersect some enemy |
| Simulation.BulletScanEnemies | src/GamePanel.java:89-98 | the scan marks dead exactly the enemies that are some bullet's first hit |
| Simulation.BulletScanHits | src/GamePanel.java:89-98 | the scan counts one hit per bullet that intersects some enemy |
| Simulation.PlayerScan | src/GamePanel.java:99-107 | the player scan keeps the list length and takes between 0 and one life per enemy |
| Simulation.PlayerScanEnemies | src/GamePanel.java:99-107 | the player scan marks dead exactly the enemies intersecting the player |
| Simulation.PlayerScanLives | src/GamePanel.java:99-107 | the player scan takes one life per enemy intersecting the player and ends the game when a hit leaves lives ≤ 0 |
| Simulation.BulletPhase | src/GamePanel.java:89-98 | the bullet scan as a whole changes only the bullets, the enemies and the score |
| Simulation.PlayerPhase | src/GamePanel.java:99-107 | the player scan as a whole changes only the enemies, the player's lives and the state |
| Simulation.HandleCollisions | src/GamePanel.java:87-108 | collisions change only bullets, enemies, score, the player's lives and the state |
| Simulation.CollisionsAsMarks | src/GamePanel.java:87-108 | handleCollisions equals the reference definitions: marked bullets, enemies marked by first hits and then by the player, score +10 per hitting bullet, lives minus hits, GAME_OVER as the hits decide |
| Simulation.CollisionScore | src/GamePanel.java:89-98 | the score rises by exactly 10 per bullet that intersects at least one enemy, so it never falls and rises by at most 10 per bullet |
| Simulation.BulletHitCount | src/GamePanel.java:89-98 | the number of hit flags of the bullet scan is the number of bullets that intersect some enemy |
| Simulation.CollisionBullets | src/GamePanel.java:89-98 | a bullet does not move, and ends alive exactly when it was alive and intersects no enemy |
| Simulation.CollisionEnemies | src/GamePanel.java:87-108 | an enemy does not move, and ends alive exactly when it was alive, misses the player and is no bullet's first intersected enemy in list order |
| Simulation.CollisionLives | src/GamePanel.java:99-107 | lives drop by exactly the number of enemies (dead or alive) intersecting the player; the state becomes GAME_OVER iff there was a hit and lives ≤ 0 after it |
| Simulation.PlayerHitCount | src/GamePanel.java:99-107 | the number of player hits is the number of enemies intersecting the player |
| Simulation.CollisionKeepsPacing | src/GamePanel.java:87-108 | collisions leave level and spawn pacing alone and never lower the score |
| Simulation.FilterAppend | src/GamePanel.java:110-112 | `Filter`, the model of removeIf, on a concatenation is the concatenation of removeIf on each part |
| Simulation.FilterCounts | src/GamePanel.java:110-112 | `Filter` (removeIf) keeps only elements meeting the condition, each one as often as it occurred |
| Simulation.RemoveDead | src/GamePanel.java:110-112 | removeDead changes only the two lists |
| Simulation.RemoveDeadKeeps | src/GamePanel.java:110-112 | afterwards every bullet is alive and every enemy alive at most 100 pixels below the screen; each element meeting that is kept as often as it occurred |
| Simulation.RemoveDeadKeepsOrder | src/GamePanel.java:110-112 | the survivors keep their relative order: for any cut of a list, survivors before the cut precede those after it |
| Simulation.StepBullets | src/GamePanel.java:66 | every bullet, in place in the list, is updated once |
| Simulation.StepEnemies | src/GamePanel.java:67 | every enemy, in place in the list, is updated once |
| Simulation.MoveAll | src/GamePanel.java:65-67 | the entity updates change only the player and the two lists |
| Simulation.TickOutcome | src/GamePanel.java:61-73 | a tick of `Tick` in RUNNING: the player makes its move and then loses one life per enemy touching it after the move; the game is over exactly when that leaves no life, otherwise it keeps running; the score never falls |
| Simulation.FrozenTicks | src/GamePanel.java:61-73 | in MENU, PAUSED or GAME_OVER any number of ticks (`Ticks`) changes nothing |
| Simulation.TickPacing | src/GamePanel.java:61-79 | a tick keeps level ≥ 1 and the interval in [12, 50]; score and level never fall; level rises by at most 1; the interval never grows |
| Simulation.TicksPacing | src/GamePanel.java:61-79 | over any run of ticks the same holds, with the level rising by at most one per tick |
| Simulation.Volley | src/GamePanel.java:168-171 | a volley is three live size-20 bullets at bx-15, bx, bx+15 (bx = x + size/2 - 6), all at y-8, with dy -10, -12, -10 |
| Simulation.ShootFires | src/GamePanel.java:164-173 | `Shoot`: within the cooldown nothing changes; otherwise lastShotTime becomes now and exactly that volley is appended after the existing bullets |
| Simulation.ShootTwice | src/GamePanel.java:164-167 | of two shots the second fires only when the cooldown has passed since the first |
| Simulation.KeyTransitions | src/GamePanel.java:176-201 | the state machine of `KeyPressed`: ENTER goes from MENU or GAME_OVER to RUNNING, P maps RUNNING to PAUSED and every other state to RUNNING, and no other key press, nor any `KeyReleased`, changes the state |
| Simulation.EnterStartsSession | src/GamePanel.java:178-179 | ENTER in MENU or GAME_OVER starts a fresh session in RUNNING (score 0, level 1, interval 50, timer 0, empty lists, 3 lives); elsewhere it does nothing |
| Simulation.PauseToggles | src/GamePanel.java:180 | P turns RUNNING into PAUSED and every other state into RUNNING, changing nothing else |
| Simulation.MovementOnlyWhenRunning | src/GamePanel.java:182-190 | arrow keys and SPACE change nothing outside RUNNING; in RUNNING an arrow sets its own movement flag, leaves the others and everything else as they were, and SPACE shoots |
| Simulation.ReleaseClearsFlag | src/GamePanel.java:194-201 | `KeyReleased`: in any state, after a release a movement flag is set exactly when it was set before and its key is not the one released; nothing else changes |
| Simulation.KeysKeepPacing | src/GamePanel.java:176-201 | no key press or release breaks level ≥ 1 and the interval in [12, 50] |
| Panel.LiveBullets | src/GamePanel.java:110 | removeIf on the bullet objects keeps, in order, exactly the objects the value filter keeps, each object once |
| Panel.LiveEnemies | src/GamePanel.java:111 | removeIf on the enemy objects keeps, in order, exactly the objects the value filter keeps, each object once |
| Panel.UpdateBullets | src/GamePanel.java:66 | the forEach loop over the bullet objects leaves them equal to StepBullets of their old values |
| Panel.UpdateEnemies | src/GamePanel.java:67 | the forEach loop over the enemy objects leaves them equal to StepEnemies of their old values |
| Panel.KillBullet | src/GamePanel.java:95 | setting a bullet's alive flag changes that one entry of the list's values and nothing else |
| Panel.KillEnemy | src/GamePanel.java:95 | setting an enemy's alive flag changes that one entry of the list's values and nothing else |
| Panel.KillBoth | src/GamePanel.java:95 | a hit marks that bullet and that enemy dead and changes no other entry |
| Panel.GamePanel.constructor | src/GamePanel.java:11-34 | a new panel is the reset session in MENU |
| Panel.GamePanel.InitGame | src/GamePanel.java:30-35 | the in-place reset leaves the panel equal to Simulation.InitGame of the old one, with a fresh player |
| Panel.GamePanel.Tick | src/GamePanel.java:61-73 | a tick leaves the panel equal to Simulation.Tick of the old one, and outside RUNNING touches no object at all |
| Panel.GamePanel.MoveAll | src/GamePanel.java:65-67 | the three in-place updates leave the panel equal to Simulation.MoveAll of the old one |
| Panel.GamePanel.SpawnLogic | src/GamePanel.java:75-79 | the in-place spawnLogic leaves the panel equal to Simulation.SpawnLogic of the old one |
| Panel.GamePanel.LevelUp | src/GamePanel.java:78 | the level check leaves the panel equal to Simulation.LevelUp of the old one |
| Panel.GamePanel.SpawnEnemy | src/GamePanel.java:81-85 | adding a new enemy object leaves the panel equal to Simulation.SpawnEnemy of the old one |
| Panel.GamePanel.FirstTarget | src/GamePanel.java:91-96 | the inner iterator loop returns FirstHit of the rectangle against the enemy list |
| Panel.GamePanel.HandleCollisions | src/GamePanel.java:87-108 | the two in-place scans leave the panel equal to Simulation.HandleCollisions of the old one |
| Panel.GamePanel.BulletsAgainstEnemies | src/GamePanel.java:88-98 | the first scan leaves the panel equal to BulletPhase of the old one |
| Panel.GamePanel.ScanBullets | src/GamePanel.java:89-98 | the bullet loop ends with the bullets, enemies and score that BulletScan gives, and the player untouched |
| Panel.GamePanel.FireAt | src/GamePanel.java:90-97 | one iteration of the bullet loop advances the scan by exactly one bullet |
| Panel.GamePanel.Strike | src/GamePanel.java:93-95 | a bullet with a first hit kills itself and that enemy for 10 points, which advances the scan by one bullet |
| Panel.GamePanel.PassBy | src/GamePanel.java:91-96 | a bullet that hits no enemy advances the scan without any change |
| Panel.GamePanel.EnemiesAgainstPlayer | src/GamePanel.java:99-107 | the second scan leaves the panel equal to PlayerPhase of the old one |
| Panel.GamePanel.ScanEnemies | src/GamePanel.java:100-106 | the enemy loop ends with the enemies, lives and state that PlayerScan gives, and the bullets untouched |
| Panel.GamePanel.GuardAgainst | src/GamePanel.java:101-105 | one iteration of the enemy loop advances the player scan by exactly one enemy |
| Panel.GamePanel.Collide | src/GamePanel.java:103-104 | an enemy touching the player dies, costs a life and may end the game, which advances the scan by one enemy |
| Panel.GamePanel.LoseLife | src/GamePanel.java:103-104 | lives drop by one and the state becomes GAME_OVER when none is left, all else kept |
| Panel.GamePanel.Miss | src/GamePanel.java:103 | an enemy missing the player advances the scan without any change |
| Panel.GamePanel.RemoveDead | src/GamePanel.java:110-112 | the two removeIf calls leave the panel equal to Simulation.RemoveDead of the old one |
| Panel.GamePanel.Shoot | src/GamePanel.java:164-173 | the in-place shot leaves the panel equal to Simulation.Shoot of the old one |
| Panel.GamePanel.FireVolley | src/GamePanel.java:168-171 | the three new bullet objects are distinct and fresh, and their values are Volley of the player |
| Panel.GamePanel.KeyPressed | src/GamePanel.java:176-191 | the handler leaves the panel equal to Simulation.KeyPressed of the old one |
| Panel.GamePanel.PlayKey | src/GamePanel.java:182-190 | the RUNNING switch over the arrow keys and SPACE agrees with Simulation.KeyPressed |
| Panel.GamePanel.KeyReleased | src/GamePanel.java:194-201 | the handler leaves the panel equal to Simulation.KeyReleased of the old one |

## Left out

- `src/BeatItMain.java` is not part of this model. It builds the Swing frame and holds `main`.
- The game loop `run` is not modelled: its thread, nanosecond clock, `double` accumulator and sleep are timing, not game logic. `Simulation.Ticks` stands for a sequence of ticks.
- `startGame` is not modelled.
- The `synchronized` blocks and synchronized lists are not modelled, and neither is concurrent access from the input thread. The model is single-threaded.
- Rendering is left out: `paintComponent`, the `draw…` methods and every `render`.
- `keyTyped` does nothing and is left out.
- `Random` is replaced by the `Draws` parameter. Its ranges are stated by `ValidDraws`, which the operations do not demand, because nothing in the code depends on them.
- `System.currentTimeMillis` is replaced by the parameter `now`.
- Java's 32-bit `int` and 64-bit `long` arithmetic is modelled with unbounded integers. Overflow of score, coordinates, lives or times is not captured.
- `java.awt.Rectangle.intersects` is modelled without its overflow behaviour on huge coordinates.
- `KeyEvent` codes are the `Key` datatype. Every key the panel ignores is `Other`.
- `ZigZagBehavior` keeps its direction in a private object; here it is the value `ZigZag(dir)` in the enemy's behaviour field, reassigned when it flips. Each enemy gets its own behaviour object, so no sharing is lost.
- The unused `GamePanel` argument of `update` and `move` is dropped.
