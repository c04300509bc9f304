/*
 * The game panel as values: the whole session is a World record, and every
 * operation of the panel (initGame, tick, spawnLogic, spawnEnemy,
 * handleCollisions, removeDead, shoot, keyPressed, keyReleased) is a function
 * from the old World to the new one. The class GamePanel in module Panel
 * performs the same operations in place and is proved equal to these
 * functions; the properties of the game are proved here.
 *
 * The random draws of spawnEnemy are a Draws parameter and the wall clock read
 * by shoot is a parameter `now`.
 */
module Simulation {
  import opened Entities

  datatype Option<T> = None | Some(value: T)

  /** The keys the panel reacts to; every other key code is Other. */
  datatype Key = Enter | P | Left | Right | Up | Down | Space | Other

  datatype World = World(
    state: GameState,
    player: PlayerData,
    bullets: seq<BulletData>,
    enemies: seq<EnemyData>,
    score: int,
    level: int,
    enemySpawnTimer: int,
    enemySpawnInterval: int)

  /**
   * The four random draws of spawnEnemy, in the order they are made:
   * nextInt(40) for the size, nextInt(WIDTH - size) for x, nextInt(2) for the
   * speed bonus, nextBoolean() for the behaviour (true: straight down).
   */
  datatype Draws = Draws(sizeDraw: int, xDraw: int, speedDraw: int, straight: bool)

  /** The ranges java.util.Random guarantees for those draws. */
  predicate ValidDraws(d: Draws)
  {
    0 <= d.sizeDraw < 40 && 0 <= d.xDraw < WIDTH - (50 + d.sizeDraw) && 0 <= d.speedDraw < 2
  }

  // ---------------------------------------------------------------------
  // initGame
  // ---------------------------------------------------------------------

  /**
   * A fresh session in the given state: its player starts inside the field,
   * its centre 4 pixels right of the field's, and stands still until a
   * movement key is pressed.
   */
  function Reset(state: GameState): (r: World)
    ensures r.state == state
    ensures 0 <= r.player.x <= WIDTH - r.player.size && 0 <= r.player.y <= HEIGHT - r.player.size
    ensures r.player.x + Half(r.player.size) - 4 == Half(WIDTH)
    ensures PlayerStepped(r.player) == r.player
  {
    World(state, NewPlayer(WIDTH / 2 - 40, HEIGHT - 120, 88), [], [], 0, 1, 0, 50)
  }

  /** initGame: a fresh player, both lists cleared, score, level and spawn pacing reset; state kept. */
  function InitGame(w: World): (r: World)
    ensures r.state == w.state
    ensures r.bullets == [] && r.enemies == []
    ensures r.score == 0 && r.level == 1 && r.enemySpawnInterval == 50 && r.enemySpawnTimer == 0
    ensures r.player.lives == 3 && r.player.speed == 6 && r.player.size == 88
    ensures r.player.lastShotTime == 0 && r.player.fireCooldown == 180
    ensures !r.player.left && !r.player.right && !r.player.up && !r.player.down
  {
    Reset(w.state)
  }

  // ---------------------------------------------------------------------
  // spawnEnemy and spawnLogic
  // ---------------------------------------------------------------------

  /** The enemy spawnEnemy builds at the given level from the draws. */
  function NewEnemy(level: int, d: Draws): (e: EnemyData)
    ensures e.y == -e.size && e.alive
    ensures e.speed == 2 + d.speedDraw + Half(level)
    ensures e.behavior == if d.straight then StraightDown else ZigZag(1)
    ensures ValidDraws(d) ==> 50 <= e.size < 90 && 0 <= e.x < WIDTH - e.size
    ensures ValidDraws(d) && level >= 1 ==> 2 <= e.speed <= 3 + Half(level)
  {
    var size := 50 + d.sizeDraw;
    EnemyData(d.xDraw, -size, size, 2 + d.speedDraw + Half(level),
              if d.straight then StraightDown else ZigZag(1), true)
  }

  /** spawnEnemy: append one new enemy at the end of the list. */
  function SpawnEnemy(w: World, d: Draws): (r: World)
    ensures r.enemies == w.enemies + [NewEnemy(w.level, d)]
    ensures r.(enemies := w.enemies) == w
  {
    w.(enemies := w.enemies + [NewEnemy(w.level, d)])
  }

  /** The first half of spawnLogic: advance the spawn timer, spawning and restarting it at the interval. */
  function SpawnTimer(w: World, d: Draws): World
  {
    var timer := w.enemySpawnTimer + 1;
    if timer >= w.enemySpawnInterval then SpawnEnemy(w, d).(enemySpawnTimer := 0)
    else w.(enemySpawnTimer := timer)
  }

  /** The second half of spawnLogic: level up once score > level*20, shrinking the interval by 6 down to 12. */
  function LevelUp(w: World): World
  {
    if w.score > w.level * 20 then
      w.(level := w.level + 1, enemySpawnInterval := Max(12, w.enemySpawnInterval - 6))
    else w
  }

  /** spawnLogic: the spawn timer step, then the level check. */
  function SpawnLogic(w: World, d: Draws): (r: World)
    ensures r.state == w.state && r.player == w.player && r.bullets == w.bullets && r.score == w.score
  {
    LevelUp(SpawnTimer(w, d))
  }

  /** The spawn timer and the enemy list after spawnLogic. */
  lemma SpawnLogicSpawns(w: World, d: Draws)
    ensures var r := SpawnLogic(w, d);
      if w.enemySpawnTimer + 1 >= w.enemySpawnInterval then
        r.enemies == w.enemies + [NewEnemy(w.level, d)] && r.enemySpawnTimer == 0
      else
        r.enemies == w.enemies && r.enemySpawnTimer == w.enemySpawnTimer + 1
  {
  }

  /**
   * Level rises by one exactly when score > level*20; the interval then shrinks
   * by 6 but not below 12, and otherwise stays.
   */
  lemma SpawnLogicPacing(w: World, d: Draws)
    ensures var r := SpawnLogic(w, d);
      (r.level == w.level + 1 <==> w.score > w.level * 20) &&
      (r.level == w.level <==> w.score <= w.level * 20) &&
      r.enemySpawnInterval ==
        (if w.score > w.level * 20 then Max(12, w.enemySpawnInterval - 6) else w.enemySpawnInterval) &&
      (w.enemySpawnInterval >= 12 ==> 12 <= r.enemySpawnInterval <= w.enemySpawnInterval)
  {
  }

  // ---------------------------------------------------------------------
  // handleCollisions
  // ---------------------------------------------------------------------

  /** Some enemy's bounds intersect r. */
  ghost predicate Overlaps(r: Rect, es: seq<EnemyData>)
  {
    exists j :: 0 <= j < |es| && Intersects(r, es[j].Bounds())
  }

  /** The first enemy, in list order, whose bounds intersect r. */
  function FirstHit(r: Rect, es: seq<EnemyData>): (hit: Option<nat>)
    ensures hit.Some? ==> hit.value < |es| && Intersects(r, es[hit.value].Bounds())
    ensures hit.Some? ==> forall k :: 0 <= k < hit.value ==> !Intersects(r, es[k].Bounds())
    ensures hit.None? ==> forall k :: 0 <= k < |es| ==> !Intersects(r, es[k].Bounds())
  {
    if es == [] then None
    else if Intersects(r, es[0].Bounds()) then Some(0)
    else match FirstHit(r, es[1..])
      case None => None
      case Some(k) => Some(k + 1)
  }

  /** Number of true entries. */
  function CountTrue(s: seq<bool>): (n: nat)
    ensures n <= |s|
  {
    if s == [] then 0 else CountTrue(s[..|s| - 1]) + (if s[|s| - 1] then 1 else 0)
  }

  lemma {:induction false} CountTrueIsCardinality(s: seq<bool>)
    ensures CountTrue(s) == |set k | 0 <= k < |s| && s[k]|
  {
    if s != [] {
      var t := s[..|s| - 1];
      CountTrueIsCardinality(t);
      var small := set k | 0 <= k < |t| && t[k];
      var big := set k | 0 <= k < |s| && s[k];
      if s[|s| - 1] {
        assert big == small + {|s| - 1};
      } else {
        assert big == small;
      }
    }
  }

  /** For each bullet: do its bounds intersect some enemy? */
  ghost function BulletHitFlags(bs: seq<BulletData>, es: seq<EnemyData>): (f: seq<bool>)
    ensures |f| == |bs|
    ensures forall k :: 0 <= k < |bs| ==> f[k] == Overlaps(bs[k].Bounds(), es)
  {
    seq(|bs|, k requires 0 <= k < |bs| => Overlaps(bs[k].Bounds(), es))
  }

  /** For each enemy: do its bounds intersect the player's? */
  function PlayerHitFlags(es: seq<EnemyData>, p: PlayerData): (f: seq<bool>)
    ensures |f| == |es|
    ensures forall j :: 0 <= j < |es| ==> f[j] == Intersects(es[j].Bounds(), p.Bounds())
  {
    seq(|es|, j requires 0 <= j < |es| => Intersects(es[j].Bounds(), p.Bounds()))
  }

  /** Every bullet that intersects some enemy is marked dead; nothing else changes. */
  ghost function MarkBullets(bs: seq<BulletData>, es: seq<EnemyData>): (r: seq<BulletData>)
    ensures |r| == |bs|
    ensures forall k :: 0 <= k < |bs| ==>
      r[k] == if Overlaps(bs[k].Bounds(), es) then bs[k].(alive := false) else bs[k]
  {
    seq(|bs|, k requires 0 <= k < |bs| =>
      if Overlaps(bs[k].Bounds(), es) then bs[k].(alive := false) else bs[k])
  }

  /** Enemy j is the first enemy hit by some bullet of bs. */
  ghost predicate Struck(bs: seq<BulletData>, es: seq<EnemyData>, j: nat)
  {
    exists k :: 0 <= k < |bs| && FirstHit(bs[k].Bounds(), es) == Some(j)
  }

  /** Every enemy that is some bullet's first hit is marked dead; nothing else changes. */
  ghost function MarkEnemies(bs: seq<BulletData>, es: seq<EnemyData>): (r: seq<EnemyData>)
    ensures |r| == |es|
    ensures forall j :: 0 <= j < |es| ==>
      r[j] == if Struck(bs, es, j) then es[j].(alive := false) else es[j]
  {
    seq(|es|, j requires 0 <= j < |es| =>
      if Struck(bs, es, j) then es[j].(alive := false) else es[j])
  }

  /** Every enemy that intersects the player is marked dead; nothing else changes. */
  function MarkPlayerHits(es: seq<EnemyData>, p: PlayerData): (r: seq<EnemyData>)
    ensures |r| == |es|
    ensures forall j :: 0 <= j < |es| ==>
      r[j] == if Intersects(es[j].Bounds(), p.Bounds()) then es[j].(alive := false) else es[j]
  {
    seq(|es|, j requires 0 <= j < |es| =>
      if Intersects(es[j].Bounds(), p.Bounds()) then es[j].(alive := false) else es[j])
  }

  /** The state after n player hits starting from `lives`: GAME_OVER once a hit leaves lives <= 0. */
  function AfterHits(s: GameState, lives: int, n: nat): GameState
  {
    if n > 0 && lives - n <= 0 then GameOver else s
  }

  /** The bullet scan of handleCollisions: bullets, enemies and the number of hits so far. */
  datatype Scan = Scan(bullets: seq<BulletData>, enemies: seq<EnemyData>, hits: nat)

  /**
   * The first scan of handleCollisions over bs, in order: each bullet is
   * compared with the current enemy list and, at the first enemy it
   * overlaps, both are marked dead and the hit is counted.
   */
  function BulletScan(bs: seq<BulletData>, es: seq<EnemyData>): (s: Scan)
    ensures |s.bullets| == |bs| && |s.enemies| == |es| && s.hits <= |bs|
    decreases |bs|
  {
    if bs == [] then Scan([], es, 0)
    else
      var s := BulletScan(bs[..|bs| - 1], es);
      var b := bs[|bs| - 1];
      match FirstHit(b.Bounds(), s.enemies)
      case None => Scan(s.bullets + [b], s.enemies, s.hits)
      case Some(j) =>
        Scan(s.bullets + [b.(alive := false)], s.enemies[j := s.enemies[j].(alive := false)], s.hits + 1)
  }

  /** One more bullet of the scan: the step the loop of handleCollisions takes for bullet i. */
  lemma BulletScanStep(bs: seq<BulletData>, es: seq<EnemyData>, i: nat)
    requires i < |bs|
    ensures var s := BulletScan(bs[..i], es);
      BulletScan(bs[..i + 1], es) ==
        match FirstHit(bs[i].Bounds(), s.enemies)
        case None => Scan(s.bullets + [bs[i]], s.enemies, s.hits)
        case Some(j) =>
          Scan(s.bullets + [bs[i].(alive := false)], s.enemies[j := s.enemies[j].(alive := false)], s.hits + 1)
  {
    assert bs[..i + 1][..i] == bs[..i];
  }

  /** The player scan of handleCollisions: enemies, lives and state so far. */
  datatype Guard = Guard(enemies: seq<EnemyData>, lives: int, state: GameState)

  /**
   * The second scan of handleCollisions over es, in order: each enemy whose
   * bounds intersect the player's bounds pb is marked dead and costs a life;
   * the state becomes GAME_OVER when a hit leaves lives <= 0.
   */
  function PlayerScan(es: seq<EnemyData>, pb: Rect, lives: int, state: GameState): (g: Guard)
    ensures |g.enemies| == |es| && lives - |es| <= g.lives <= lives
    decreases |es|
  {
    if es == [] then Guard([], lives, state)
    else
      var g := PlayerScan(es[..|es| - 1], pb, lives, state);
      var e := es[|es| - 1];
      if Intersects(e.Bounds(), pb) then
        Guard(g.enemies + [e.(alive := false)], g.lives - 1, if g.lives - 1 <= 0 then GameOver else g.state)
      else Guard(g.enemies + [e], g.lives, g.state)
  }

  /** One more enemy of the player scan: the step the loop of handleCollisions takes for enemy j. */
  lemma PlayerScanStep(es: seq<EnemyData>, pb: Rect, lives: int, state: GameState, j: nat)
    requires j < |es|
    ensures var g := PlayerScan(es[..j], pb, lives, state);
      PlayerScan(es[..j + 1], pb, lives, state) ==
        if Intersects(es[j].Bounds(), pb) then
          Guard(g.enemies + [es[j].(alive := false)], g.lives - 1, if g.lives - 1 <= 0 then GameOver else g.state)
        else Guard(g.enemies + [es[j]], g.lives, g.state)
  {
    assert es[..j + 1][..j] == es[..j];
  }

  /** The bullet scan of handleCollisions applied to a world; only bullets, enemies and score change. */
  function BulletPhase(w: World): (r: World)
    ensures r == w.(bullets := r.bullets, enemies := r.enemies, score := r.score)
  {
    var s := BulletScan(w.bullets, w.enemies);
    w.(bullets := s.bullets, enemies := s.enemies, score := w.score + 10 * s.hits)
  }

  /** The player scan of handleCollisions applied to a world; only enemies, lives and state change. */
  function PlayerPhase(w: World): (r: World)
    ensures r == w.(enemies := r.enemies, player := w.player.(lives := r.player.lives), state := r.state)
  {
    var g := PlayerScan(w.enemies, w.player.Bounds(), w.player.lives, w.state);
    w.(enemies := g.enemies, player := w.player.(lives := g.lives), state := g.state)
  }

  /** handleCollisions: the bullet scan, then the player scan over the enemies it left. */
  function HandleCollisions(w: World): (r: World)
    ensures r == w.(bullets := r.bullets, enemies := r.enemies, score := r.score,
                    player := w.player.(lives := r.player.lives), state := r.state)
  {
    PlayerPhase(BulletPhase(w))
  }

  /** Marking enemies dead does not move them, so the first enemy a rectangle hits is unchanged. */
  lemma MarkedKeepsFirstHit(r: Rect, es: seq<EnemyData>, m: seq<EnemyData>)
    requires |m| == |es| && forall j :: 0 <= j < |es| ==> m[j].Bounds() == es[j].Bounds()
    ensures FirstHit(r, m) == FirstHit(r, es)
  {
    var h := FirstHit(r, es);
    var g := FirstHit(r, m);
  }

  /** A rectangle overlaps some enemy exactly when it has a first hit. */
  lemma OverlapsIffFirstHit(r: Rect, es: seq<EnemyData>)
    ensures Overlaps(r, es) <==> FirstHit(r, es).Some?
  {
    if FirstHit(r, es).Some? {
      assert Intersects(r, es[FirstHit(r, es).value].Bounds());
    }
  }

  /** Enemy j is struck by a prefix one longer exactly when struck before or the next bullet's first hit. */
  lemma StruckStep(bs: seq<BulletData>, es: seq<EnemyData>, j: nat)
    requires bs != []
    ensures Struck(bs, es, j) <==>
      Struck(bs[..|bs| - 1], es, j) || FirstHit(bs[|bs| - 1].Bounds(), es) == Some(j)
  {
    var n := |bs| - 1;
    if Struck(bs, es, j) {
      var k :| 0 <= k < |bs| && FirstHit(bs[k].Bounds(), es) == Some(j);
      if k < n {
        assert bs[..n][k] == bs[k];
      }
    }
    if Struck(bs[..n], es, j) {
      var k :| 0 <= k < n && FirstHit(bs[..n][k].Bounds(), es) == Some(j);
      assert bs[k] == bs[..n][k];
    }
  }

  /** The enemies left by the bullet scan are the enemies marked by the reference definition. */
  lemma {:induction false} BulletScanEnemies(bs: seq<BulletData>, es: seq<EnemyData>)
    ensures BulletScan(bs, es).enemies == MarkEnemies(bs, es)
  {
    if bs != [] {
      var n := |bs| - 1;
      var s := BulletScan(bs[..n], es);
      BulletScanEnemies(bs[..n], es);
      var m := MarkEnemies(bs[..n], es);
      MarkedKeepsFirstHit(bs[n].Bounds(), es, m);
      forall j | 0 <= j < |es|
        ensures BulletScan(bs, es).enemies[j] == MarkEnemies(bs, es)[j]
      {
        StruckStep(bs, es, j);
      }
    }
  }

  /** The bullets left by the bullet scan are the bullets marked by the reference definition. */
  lemma {:induction false} BulletScanBullets(bs: seq<BulletData>, es: seq<EnemyData>)
    ensures BulletScan(bs, es).bullets == MarkBullets(bs, es)
  {
    if bs != [] {
      var n := |bs| - 1;
      BulletScanBullets(bs[..n], es);
      LastBulletMarked(bs, es);
      MarkBulletsPrefix(bs, es);
    }
  }

  /** The last bullet of the scan dies exactly when the reference definition marks it. */
  lemma LastBulletMarked(bs: seq<BulletData>, es: seq<EnemyData>)
    requires bs != []
    ensures BulletScan(bs, es).bullets ==
      BulletScan(bs[..|bs| - 1], es).bullets + [MarkBullets(bs, es)[|bs| - 1]]
  {
    var n := |bs| - 1;
    BulletScanEnemies(bs[..n], es);
    MarkedKeepsFirstHit(bs[n].Bounds(), es, MarkEnemies(bs[..n], es));
    OverlapsIffFirstHit(bs[n].Bounds(), es);
  }

  /** Marking a prefix marks the same bullets as marking the whole list. */
  lemma MarkBulletsPrefix(bs: seq<BulletData>, es: seq<EnemyData>)
    requires bs != []
    ensures MarkBullets(bs[..|bs| - 1], es) + [MarkBullets(bs, es)[|bs| - 1]] == MarkBullets(bs, es)
  {
    var n := |bs| - 1;
    forall k | 0 <= k < n
      ensures MarkBullets(bs[..n], es)[k] == MarkBullets(bs, es)[k]
    {
      assert bs[..n][k] == bs[k];
    }
  }

  /** The bullet scan counts one hit per bullet that overlaps some enemy. */
  lemma {:induction false} BulletScanHits(bs: seq<BulletData>, es: seq<EnemyData>)
    ensures BulletScan(bs, es).hits == CountTrue(BulletHitFlags(bs, es))
  {
    if bs != [] {
      var n := |bs| - 1;
      var pre := bs[..n];
      BulletScanHits(pre, es);
      BulletScanEnemies(pre, es);
      MarkedKeepsFirstHit(bs[n].Bounds(), es, MarkEnemies(pre, es));
      OverlapsIffFirstHit(bs[n].Bounds(), es);
      var f := BulletHitFlags(bs, es);
      var g := BulletHitFlags(pre, es);
      forall k | 0 <= k < n
        ensures f[k] == g[k]
      {
        assert pre[k] == bs[k];
      }
      assert f[..n] == g;
    }
  }

  /** The player scan marks exactly the enemies intersecting the player's bounds. */
  lemma {:induction false} PlayerScanEnemies(es: seq<EnemyData>, p: PlayerData, state: GameState)
    ensures PlayerScan(es, p.Bounds(), p.lives, state).enemies == MarkPlayerHits(es, p)
  {
    if es != [] {
      var n := |es| - 1;
      PlayerScanEnemies(es[..n], p, state);
      var r := PlayerScan(es, p.Bounds(), p.lives, state).enemies;
      var m := MarkPlayerHits(es, p);
      forall k | 0 <= k < n
        ensures r[k] == m[k]
      {
        assert es[..n][k] == es[k];
      }
    }
  }

  /** The player scan takes one life per enemy intersecting the player, and ends the game as AfterHits says. */
  lemma {:induction false} PlayerScanLives(es: seq<EnemyData>, p: PlayerData, state: GameState)
    ensures var g := PlayerScan(es, p.Bounds(), p.lives, state);
      var n := CountTrue(PlayerHitFlags(es, p));
      g.lives == p.lives - n && g.state == AfterHits(state, p.lives, n)
  {
    if es != [] {
      var n := |es| - 1;
      PlayerScanLives(es[..n], p, state);
      var f := PlayerHitFlags(es, p);
      assert f[..n] == PlayerHitFlags(es[..n], p);
    }
  }

  /** handleCollisions agrees with the reference definitions: marks, counted hits and AfterHits. */
  lemma CollisionsAsMarks(w: World)
    ensures var es := MarkEnemies(w.bullets, w.enemies);
      var n := CountTrue(PlayerHitFlags(es, w.player));
      HandleCollisions(w) ==
        w.(bullets := MarkBullets(w.bullets, w.enemies),
           enemies := MarkPlayerHits(es, w.player),
           score := w.score + 10 * CountTrue(BulletHitFlags(w.bullets, w.enemies)),
           player := w.player.(lives := w.player.lives - n),
           state := AfterHits(w.state, w.player.lives, n))
  {
    BulletScanBullets(w.bullets, w.enemies);
    BulletScanHits(w.bullets, w.enemies);
    BulletScanEnemies(w.bullets, w.enemies);
    PlayerScanEnemies(MarkEnemies(w.bullets, w.enemies), w.player, w.state);
    PlayerScanLives(MarkEnemies(w.bullets, w.enemies), w.player, w.state);
  }

  /** Marking enemies dead does not move them. */
  lemma MarkEnemiesKeepsBounds(bs: seq<BulletData>, es: seq<EnemyData>, p: PlayerData)
    ensures PlayerHitFlags(MarkEnemies(bs, es), p) == PlayerHitFlags(es, p)
  {
  }

  /**
   * Score rises by exactly 10 for each bullet whose bounds intersect at least
   * one enemy, so it never decreases and rises by at most 10 per bullet.
   */
  lemma CollisionScore(w: World)
    ensures var hits := set k | 0 <= k < |w.bullets| && Overlaps(w.bullets[k].Bounds(), w.enemies);
      HandleCollisions(w).score == w.score + 10 * |hits|
    ensures w.score <= HandleCollisions(w).score <= w.score + 10 * |w.bullets|
  {
    CollisionsAsMarks(w);
    BulletHitCount(w.bullets, w.enemies);
  }

  /** The number of bullet-hit flags is the number of bullets overlapping some enemy. */
  lemma BulletHitCount(bs: seq<BulletData>, es: seq<EnemyData>)
    ensures CountTrue(BulletHitFlags(bs, es)) ==
      |set k | 0 <= k < |bs| && Overlaps(bs[k].Bounds(), es)|
  {
    var f := BulletHitFlags(bs, es);
    CountTrueIsCardinality(f);
    assert (set k | 0 <= k < |f| && f[k]) == (set k | 0 <= k < |bs| && Overlaps(bs[k].Bounds(), es));
  }

  /** A bullet dies in the collision pass exactly when it intersects some enemy, and does not move. */
  lemma CollisionBullets(w: World, k: nat)
    requires k < |w.bullets|
    ensures |HandleCollisions(w).bullets| == |w.bullets|
    ensures var b := HandleCollisions(w).bullets[k];
      b == w.bullets[k].(alive := b.alive) &&
      (b.alive <==> w.bullets[k].alive &&
                    forall j :: 0 <= j < |w.enemies| ==> !Intersects(w.bullets[k].Bounds(), w.enemies[j].Bounds()))
  {
    CollisionsAsMarks(w);
  }

  /**
   * An enemy dies in the collision pass exactly when it was already dead, or
   * it is the first enemy in list order that some bullet intersects, or it
   * intersects the player. A bullet marks only its first target.
   */
  lemma CollisionEnemies(w: World, j: nat)
    requires j < |w.enemies|
    ensures |HandleCollisions(w).enemies| == |w.enemies|
    ensures var e := HandleCollisions(w).enemies[j];
      e == w.enemies[j].(alive := e.alive) &&
      (e.alive <==>
        w.enemies[j].alive &&
        !Intersects(w.enemies[j].Bounds(), w.player.Bounds()) &&
        !exists k :: 0 <= k < |w.bullets| &&
          Intersects(w.bullets[k].Bounds(), w.enemies[j].Bounds()) &&
          forall m :: 0 <= m < j ==> !Intersects(w.bullets[k].Bounds(), w.enemies[m].Bounds()))
  {
    CollisionsAsMarks(w);
    StruckIffFirst(w.bullets, w.enemies, j);
    var m := MarkEnemies(w.bullets, w.enemies);
    assert HandleCollisions(w).enemies[j] == MarkPlayerHits(m, w.player)[j];
  }

  /** j is the first hit of r exactly when r intersects enemy j and none of the enemies before it. */
  lemma FirstHitIff(r: Rect, es: seq<EnemyData>, j: nat)
    ensures FirstHit(r, es) == Some(j) <==>
      j < |es| && Intersects(r, es[j].Bounds()) && forall m :: 0 <= m < j ==> !Intersects(r, es[m].Bounds())
  {
  }

  /** Enemy j is struck exactly when some bullet intersects it and none of the enemies before it. */
  lemma StruckIffFirst(bs: seq<BulletData>, es: seq<EnemyData>, j: nat)
    requires j < |es|
    ensures Struck(bs, es, j) <==>
      exists k :: 0 <= k < |bs| &&
        Intersects(bs[k].Bounds(), es[j].Bounds()) &&
        forall m :: 0 <= m < j ==> !Intersects(bs[k].Bounds(), es[m].Bounds())
  {
    if Struck(bs, es, j) {
      var k :| 0 <= k < |bs| && FirstHit(bs[k].Bounds(), es) == Some(j);
      FirstHitIff(bs[k].Bounds(), es, j);
    }
    if exists k :: 0 <= k < |bs| &&
        Intersects(bs[k].Bounds(), es[j].Bounds()) &&
        forall m :: 0 <= m < j ==> !Intersects(bs[k].Bounds(), es[m].Bounds())
    {
      var k :| 0 <= k < |bs| && Intersects(bs[k].Bounds(), es[j].Bounds()) &&
        forall m :: 0 <= m < j ==> !Intersects(bs[k].Bounds(), es[m].Bounds());
      FirstHitIff(bs[k].Bounds(), es, j);
    }
  }

  /**
   * Lives drop by exactly the number of enemies whose bounds intersect the
   * player, dead or alive; if that leaves lives <= 0 after at least one hit,
   * the state becomes GAME_OVER, otherwise it is kept.
   */
  lemma CollisionLives(w: World)
    ensures var n := |set j | 0 <= j < |w.enemies| && Intersects(w.enemies[j].Bounds(), w.player.Bounds())|;
      var r := HandleCollisions(w);
      r.player == w.player.(lives := w.player.lives - n) &&
      r.state == (if n > 0 && w.player.lives - n <= 0 then GameOver else w.state)
  {
    CollisionsAsMarks(w);
    MarkEnemiesKeepsBounds(w.bullets, w.enemies, w.player);
    PlayerHitCount(w.enemies, w.player);
  }

  /** The number of player-hit flags is the number of enemies overlapping the player. */
  lemma PlayerHitCount(es: seq<EnemyData>, p: PlayerData)
    ensures CountTrue(PlayerHitFlags(es, p)) ==
      |set j | 0 <= j < |es| && Intersects(es[j].Bounds(), p.Bounds())|
  {
    var f := PlayerHitFlags(es, p);
    CountTrueIsCardinality(f);
    assert (set j | 0 <= j < |f| && f[j]) ==
           (set j | 0 <= j < |es| && Intersects(es[j].Bounds(), p.Bounds()));
  }

  /** Collisions touch neither the level nor the spawn pacing. */
  lemma CollisionKeepsPacing(w: World)
    ensures var r := HandleCollisions(w);
      r.level == w.level && r.enemySpawnTimer == w.enemySpawnTimer &&
      r.enemySpawnInterval == w.enemySpawnInterval && r.score >= w.score
  {
    CollisionsAsMarks(w);
  }

  // ---------------------------------------------------------------------
  // removeDead
  // ---------------------------------------------------------------------

  /** The elements of s satisfying keep, in their original order (List.removeIf of the rest). */
  function Filter<T>(s: seq<T>, keep: T -> bool): seq<T>
  {
    if s == [] then []
    else (if keep(s[0]) then [s[0]] else []) + Filter(s[1..], keep)
  }

  /** Filtering a concatenation filters each part: the kept elements keep their relative order. */
  lemma {:induction false} FilterAppend<T>(a: seq<T>, b: seq<T>, keep: T -> bool)
    ensures Filter(a + b, keep) == Filter(a, keep) + Filter(b, keep)
  {
    if a == [] {
      assert a + b == b;
    } else {
      var ab := a + b;
      assert ab[0] == a[0] && ab[1..] == a[1..] + b;
      FilterAppend(a[1..], b, keep);
      var head := if keep(a[0]) then [a[0]] else [];
      assert Filter(ab, keep) == head + Filter(a[1..] + b, keep);
      assert Filter(a, keep) == head + Filter(a[1..], keep);
    }
  }

  /** Filter keeps every element that satisfies keep, as often as it occurs, and nothing else. */
  lemma {:induction false} FilterCounts<T>(s: seq<T>, keep: T -> bool)
    ensures forall x :: x in Filter(s, keep) ==> keep(x)
    ensures forall x :: keep(x) ==> multiset(Filter(s, keep))[x] == multiset(s)[x]
  {
    if s != [] {
      FilterCounts(s[1..], keep);
      assert s == [s[0]] + s[1..];
    }
  }

  /** removeIf(b -> !b.alive) keeps exactly the live bullets. */
  predicate BulletKept(b: BulletData)
  {
    b.alive
  }

  /** removeIf(e -> !e.alive || e.y > HEIGHT + 100) keeps live enemies at most 100 pixels below the screen. */
  predicate EnemyKept(e: EnemyData)
  {
    e.alive && e.y <= HEIGHT + 100
  }

  /** removeDead. */
  function RemoveDead(w: World): (r: World)
    ensures r == w.(bullets := r.bullets, enemies := r.enemies)
  {
    w.(bullets := Filter(w.bullets, BulletKept), enemies := Filter(w.enemies, EnemyKept))
  }

  /**
   * After removeDead every bullet is alive and every enemy alive and at most
   * 100 pixels below the screen, and every element meeting that condition is
   * kept as often as it occurred.
   */
  lemma RemoveDeadKeeps(w: World)
    ensures var r := RemoveDead(w);
      (forall b :: b in r.bullets ==> b.alive) &&
      (forall e :: e in r.enemies ==> e.alive && e.y <= HEIGHT + 100) &&
      (forall b: BulletData :: b.alive ==> multiset(r.bullets)[b] == multiset(w.bullets)[b]) &&
      (forall e: EnemyData :: e.alive && e.y <= HEIGHT + 100 ==> multiset(r.enemies)[e] == multiset(w.enemies)[e])
  {
    FilterCounts(w.bullets, BulletKept);
    FilterCounts(w.enemies, EnemyKept);
  }

  /**
   * removeDead keeps the survivors in their original order: cutting either
   * list anywhere, the survivors of the first part come before those of the
   * second.
   */
  lemma RemoveDeadKeepsOrder(w: World, i: nat, j: nat)
    requires i <= |w.bullets| && j <= |w.enemies|
    ensures RemoveDead(w).bullets == Filter(w.bullets[..i], BulletKept) + Filter(w.bullets[i..], BulletKept)
    ensures RemoveDead(w).enemies == Filter(w.enemies[..j], EnemyKept) + Filter(w.enemies[j..], EnemyKept)
  {
    FilterAppend(w.bullets[..i], w.bullets[i..], BulletKept);
    assert w.bullets[..i] + w.bullets[i..] == w.bullets;
    FilterAppend(w.enemies[..j], w.enemies[j..], EnemyKept);
    assert w.enemies[..j] + w.enemies[j..] == w.enemies;
  }

  // ---------------------------------------------------------------------
  // tick
  // ---------------------------------------------------------------------

  function StepBullets(bs: seq<BulletData>): (r: seq<BulletData>)
    ensures |r| == |bs| && forall k :: 0 <= k < |bs| ==> r[k] == BulletStepped(bs[k])
  {
    seq(|bs|, k requires 0 <= k < |bs| => BulletStepped(bs[k]))
  }

  function StepEnemies(es: seq<EnemyData>): (r: seq<EnemyData>)
    ensures |r| == |es| && forall j :: 0 <= j < |es| ==> r[j] == EnemyStepped(es[j])
  {
    seq(|es|, j requires 0 <= j < |es| => EnemyStepped(es[j]))
  }

  /** The three entity updates of a running tick: player, then bullets, then enemies. */
  function MoveAll(w: World): (r: World)
    ensures r == w.(player := r.player, bullets := r.bullets, enemies := r.enemies)
  {
    w.(player := PlayerStepped(w.player), bullets := StepBullets(w.bullets), enemies := StepEnemies(w.enemies))
  }

  /**
   * tick: nothing outside RUNNING; in RUNNING the updates, then
   * handleCollisions, removeDead and spawnLogic, in that order (the last two
   * run even when the collisions ended the game).
   */
  function Tick(w: World, d: Draws): World
  {
    if w.state != Running then w
    else SpawnLogic(RemoveDead(HandleCollisions(MoveAll(w))), d)
  }

  /**
   * What one running tick does to the game: the player moves first, then
   * loses one life per enemy touching it after the move, and the game is over
   * exactly when that left no life; score never falls.
   */
  lemma TickOutcome(w: World, d: Draws)
    requires w.state == Running
    ensures var m := MoveAll(w);
      var n := |set j | 0 <= j < |m.enemies| && Intersects(m.enemies[j].Bounds(), m.player.Bounds())|;
      var r := Tick(w, d);
      r.player == PlayerStepped(w.player).(lives := w.player.lives - n) &&
      r.state == (if n > 0 && w.player.lives - n <= 0 then GameOver else Running) &&
      r.score >= w.score
  {
    CollisionLives(MoveAll(w));
    CollisionKeepsPacing(MoveAll(w));
  }

  /** The world after one tick per element of ds. */
  ghost function Ticks(w: World, ds: seq<Draws>): World
    decreases |ds|
  {
    if ds == [] then w else Ticks(Tick(w, ds[0]), ds[1..])
  }

  /** In MENU, PAUSED or GAME_OVER no number of ticks changes anything. */
  lemma {:induction false} FrozenTicks(w: World, ds: seq<Draws>)
    requires w.state != Running
    ensures Ticks(w, ds) == w
  {
    if ds != [] {
      FrozenTicks(w, ds[1..]);
    }
  }

  /** The pacing invariant of a session: level at least 1, spawn interval within [12, 50]. */
  ghost predicate Paced(w: World)
  {
    1 <= w.level && 12 <= w.enemySpawnInterval <= 50
  }

  /** One tick keeps the pacing invariant; score and level never fall, level rises at most by one, the interval never grows. */
  lemma TickPacing(w: World, d: Draws)
    requires Paced(w)
    ensures var r := Tick(w, d);
      Paced(r) && w.score <= r.score && w.level <= r.level <= w.level + 1 &&
      r.enemySpawnInterval <= w.enemySpawnInterval
  {
    if w.state == Running {
      var c := HandleCollisions(MoveAll(w));
      CollisionKeepsPacing(MoveAll(w));
      SpawnLogicPacing(RemoveDead(c), d);
    }
  }

  /** Over any run of ticks: score and level never fall and the interval never grows nor drops below 12. */
  lemma {:induction false} TicksPacing(w: World, ds: seq<Draws>)
    requires Paced(w)
    ensures var r := Ticks(w, ds);
      Paced(r) && w.score <= r.score && w.level <= r.level <= w.level + |ds| &&
      r.enemySpawnInterval <= w.enemySpawnInterval
    decreases |ds|
  {
    if ds != [] {
      TickPacing(w, ds[0]);
      TicksPacing(Tick(w, ds[0]), ds[1..]);
    }
  }

  // ---------------------------------------------------------------------
  // shoot
  // ---------------------------------------------------------------------

  /** The three bullets fired from the player's position. */
  function Volley(p: PlayerData): (v: seq<BulletData>)
    ensures |v| == 3
    ensures forall b :: b in v ==> b.size == 20 && b.alive && b.y == p.y - 8
    ensures var bx := p.x + Half(p.size) - 6;
      v[0].x == bx - 15 && v[1].x == bx && v[2].x == bx + 15 &&
      v[0].dy == -10 && v[1].dy == -12 && v[2].dy == -10
  {
    var bx := p.x + Half(p.size) - 6;
    var top := p.y - 8;
    [BulletData(bx - 15, top, 20, -10, true), BulletData(bx, top, 20, -12, true), BulletData(bx + 15, top, 20, -10, true)]
  }

  /** shoot at time now: nothing within the cooldown, else record the time and fire a volley. */
  function Shoot(w: World, now: int): World
  {
    if now - w.player.lastShotTime < w.player.fireCooldown then w
    else w.(player := w.player.(lastShotTime := now), bullets := w.bullets + Volley(w.player))
  }

  /**
   * Within the cooldown a shot changes nothing; otherwise it records the time
   * and appends three live size-20 bullets after the existing ones, at
   * bx - 15, bx, bx + 15 (bx = x + size/2 - 6), all at y - 8, with dy -10, -12, -10.
   */
  lemma ShootFires(w: World, now: int)
    ensures now - w.player.lastShotTime < w.player.fireCooldown ==> Shoot(w, now) == w
    ensures now - w.player.lastShotTime >= w.player.fireCooldown ==>
      var r := Shoot(w, now);
      var n := |w.bullets|;
      var bx := w.player.x + Half(w.player.size) - 6;
      r == w.(player := r.player, bullets := r.bullets) &&
      r.player == w.player.(lastShotTime := now) &&
      |r.bullets| == n + 3 && r.bullets[..n] == w.bullets &&
      (forall k :: n <= k < n + 3 ==> r.bullets[k].size == 20 && r.bullets[k].alive && r.bullets[k].y == w.player.y - 8) &&
      r.bullets[n].x == bx - 15 && r.bullets[n + 1].x == bx && r.bullets[n + 2].x == bx + 15 &&
      r.bullets[n].dy == -10 && r.bullets[n + 1].dy == -12 && r.bullets[n + 2].dy == -10
  {
    if now - w.player.lastShotTime >= w.player.fireCooldown {
      var v := Volley(w.player);
      var n := |w.bullets|;
      var r := Shoot(w, now);
      assert r.bullets == w.bullets + v;
      assert r.bullets[..n] == w.bullets;
      assert r.bullets[n] == v[0] && r.bullets[n + 1] == v[1] && r.bullets[n + 2] == v[2];
      assert v[0] in v && v[1] in v && v[2] in v;
    }
  }

  /**
   * Two shots: the second fires only if the cooldown has passed since the
   * first, so two shots within the cooldown give exactly one volley.
   */
  lemma ShootTwice(w: World, t1: int, t2: int)
    requires t1 - w.player.lastShotTime >= w.player.fireCooldown
    ensures var r := Shoot(Shoot(w, t1), t2);
      |r.bullets| == |w.bullets| + (if t2 - t1 < w.player.fireCooldown then 3 else 6) &&
      r.player.lastShotTime == (if t2 - t1 < w.player.fireCooldown then t1 else t2)
  {
  }

  // ---------------------------------------------------------------------
  // keyPressed and keyReleased
  // ---------------------------------------------------------------------

  /** keyPressed, with the current time for the shot SPACE may fire. */
  function KeyPressed(w: World, key: Key, now: int): World
  {
    if w.state == Menu && key == Enter then InitGame(w).(state := Running)
    else if w.state == GameOver && key == Enter then InitGame(w).(state := Running)
    else if key == P then w.(state := if w.state == Running then Paused else Running)
    else if w.state == Running then
      match key
      case Left => w.(player := w.player.(left := true))
      case Right => w.(player := w.player.(right := true))
      case Up => w.(player := w.player.(up := true))
      case Down => w.(player := w.player.(down := true))
      case Space => Shoot(w, now)
      case _ => w
    else w
  }

  /** keyReleased clears the matching movement flag, whatever the state. */
  function KeyReleased(w: World, key: Key): World
  {
    match key
    case Left => w.(player := w.player.(left := false))
    case Right => w.(player := w.player.(right := false))
    case Up => w.(player := w.player.(up := false))
    case Down => w.(player := w.player.(down := false))
    case _ => w
  }

  /** ENTER in MENU or GAME_OVER starts a fresh session in RUNNING; elsewhere it does nothing. */
  lemma EnterStartsSession(w: World, now: int)
    ensures var r := KeyPressed(w, Enter, now);
      if w.state == Menu || w.state == GameOver then
        r == Reset(Running) && r.score == 0 && r.level == 1 && r.enemySpawnInterval == 50 &&
        r.enemySpawnTimer == 0 && r.bullets == [] && r.enemies == [] && r.player.lives == 3
      else r == w
  {
  }

  /**
   * The game-state machine of keyPressed: ENTER starts from MENU or
   * GAME_OVER, P toggles, and no other key (SPACE included) changes the state.
   */
  lemma KeyTransitions(w: World, key: Key, now: int)
    ensures KeyPressed(w, key, now).state ==
      if key == Enter && (w.state == Menu || w.state == GameOver) then Running
      else if key == P then (if w.state == Running then Paused else Running)
      else w.state
    ensures KeyReleased(w, key).state == w.state
  {
  }

  /** P pauses a running game and otherwise (also from MENU or GAME_OVER) resumes, changing nothing else. */
  lemma PauseToggles(w: World, now: int)
    ensures KeyPressed(w, P, now) == w.(state := if w.state == Running then Paused else Running)
  {
  }

  /** Movement keys and SPACE change the session only while RUNNING; there an arrow sets its own flag and nothing else. */
  lemma MovementOnlyWhenRunning(w: World, key: Key, now: int)
    requires key in {Left, Right, Up, Down, Space}
    ensures w.state != Running ==> KeyPressed(w, key, now) == w
    ensures w.state == Running && key != Space ==>
      var r := KeyPressed(w, key, now);
      r == w.(player := r.player) &&
      r.player.(left := w.player.left, right := w.player.right,
                up := w.player.up, down := w.player.down) == w.player &&
      r.player.left == (w.player.left || key == Left) &&
      r.player.right == (w.player.right || key == Right) &&
      r.player.up == (w.player.up || key == Up) &&
      r.player.down == (w.player.down || key == Down)
    ensures w.state == Running && key == Space ==> KeyPressed(w, key, now) == Shoot(w, now)
  {
  }

  /** Releasing a key clears its own movement flag, in any state, and changes nothing else. */
  lemma ReleaseClearsFlag(w: World, key: Key)
    ensures var r := KeyReleased(w, key);
      r == w.(player := r.player) &&
      r.player.(left := w.player.left, right := w.player.right, up := w.player.up, down := w.player.down) == w.player &&
      r.player.left == (w.player.left && key != Left) &&
      r.player.right == (w.player.right && key != Right) &&
      r.player.up == (w.player.up && key != Up) &&
      r.player.down == (w.player.down && key != Down)
  {
  }

  /** No key press or release breaks the pacing invariant. */
  lemma KeysKeepPacing(w: World, key: Key, now: int)
    requires Paced(w)
    ensures Paced(KeyPressed(w, key, now)) && Paced(KeyReleased(w, key))
  {
  }
}
