/*
 * The game panel as the source has it: one object whose fields (the state,
 * the player, the bullet and enemy lists, score, level and the spawn pacing)
 * are updated in place by tick, the input handlers and their helpers.
 *
 * Model() reads the panel and its entities as a Simulation.World; every
 * method is proved to leave Model() equal to the matching Simulation function
 * of the old Model(), so the properties proved in Simulation hold of the
 * panel. The lists are sequences of entity objects, each object at most once.
 */
module Panel {
  import opened Entities
  import opened Simulation

  /** No object occurs twice in s. */
  ghost predicate Distinct<T>(s: seq<T>)
  {
    forall i, j :: 0 <= i < j < |s| ==> s[i] != s[j]
  }

  /** Two distinct lists with no object in common concatenate to a distinct list. */
  lemma DistinctAppend<T>(a: seq<T>, b: seq<T>)
    requires Distinct(a) && Distinct(b) && forall x :: x in b ==> x !in a
    ensures Distinct(a + b)
  {
    forall i, j | 0 <= i < j < |a + b|
      ensures (a + b)[i] != (a + b)[j]
    {
      if i < |a| <= j {
        assert (a + b)[j] == b[j - |a|] && b[j - |a|] in b;
      }
    }
  }

  /** Putting in front of a distinct list an object not among its elements keeps it distinct. */
  lemma DistinctCons<T>(x: T, rest: seq<T>, pool: seq<T>)
    requires Distinct(rest) && x !in pool && forall y :: y in rest ==> y in pool
    ensures Distinct([x] + rest)
  {
  }

  function BulletDatas(bs: seq<Bullet>): (r: seq<BulletData>)
    reads bs
    ensures |r| == |bs|
  {
    seq(|bs|, k reads bs requires 0 <= k < |bs| => bs[k].Data())
  }

  function EnemyDatas(es: seq<Enemy>): (r: seq<EnemyData>)
    reads es
    ensures |r| == |es|
  {
    seq(|es|, j reads es requires 0 <= j < |es| => es[j].Data())
  }

  /** Entry k of BulletDatas(bs) is the data of bs[k]. */
  lemma BulletsAt(bs: seq<Bullet>)
    ensures forall k :: 0 <= k < |bs| ==> BulletDatas(bs)[k] == bs[k].Data()
  {
  }

  /** Entry j of EnemyDatas(es) is the data of es[j]. */
  lemma EnemiesAt(es: seq<Enemy>)
    ensures forall j :: 0 <= j < |es| ==> EnemyDatas(es)[j] == es[j].Data()
  {
  }

  /** bullets.removeIf(b -> !b.alive), on the list of objects. */
  function LiveBullets(bs: seq<Bullet>): (r: seq<Bullet>)
    requires Distinct(bs)
    reads bs
    ensures BulletDatas(r) == Filter(BulletDatas(bs), BulletKept)
    ensures forall b :: b in r ==> b in bs
    ensures Distinct(r)
  {
    if bs == [] then []
    else
      var rest := LiveBullets(bs[1..]);
      assert BulletDatas(bs)[1..] == BulletDatas(bs[1..]);
      if bs[0].alive then
        assert bs[0] !in bs[1..];
        DistinctCons(bs[0], rest, bs[1..]);
        [bs[0]] + rest
      else rest
  }

  /** enemies.removeIf(e -> !e.alive || e.y > HEIGHT + 100), on the list of objects. */
  function LiveEnemies(es: seq<Enemy>): (r: seq<Enemy>)
    requires Distinct(es)
    reads es
    ensures EnemyDatas(r) == Filter(EnemyDatas(es), EnemyKept)
    ensures forall e :: e in r ==> e in es
    ensures Distinct(r)
  {
    if es == [] then []
    else
      var rest := LiveEnemies(es[1..]);
      assert EnemyDatas(es)[1..] == EnemyDatas(es[1..]);
      if es[0].alive && es[0].y <= HEIGHT + 100 then
        assert es[0] !in es[1..];
        DistinctCons(es[0], rest, es[1..]);
        [es[0]] + rest
      else rest
  }

  lemma AppendDatas(a: seq<Bullet>, b: seq<Bullet>)
    ensures BulletDatas(a + b) == BulletDatas(a) + BulletDatas(b)
  {
  }

  /** bullets.forEach(b -> b.update()). */
  method UpdateBullets(bs: seq<Bullet>)
    requires Distinct(bs)
    modifies bs
    ensures BulletDatas(bs) == StepBullets(old(BulletDatas(bs)))
  {
    ghost var bs0 := BulletDatas(bs);
    var i := 0;
    while i < |bs|
      invariant 0 <= i <= |bs|
      invariant forall k :: 0 <= k < i ==> bs[k].Data() == BulletStepped(bs0[k])
      invariant forall k :: i <= k < |bs| ==> bs[k].Data() == bs0[k]
      modifies bs
    {
      bs[i].Update();
      i := i + 1;
    }
  }

  /** enemies.forEach(e -> e.update()). */
  method UpdateEnemies(es: seq<Enemy>)
    requires Distinct(es)
    modifies es
    ensures EnemyDatas(es) == StepEnemies(old(EnemyDatas(es)))
  {
    ghost var es0 := EnemyDatas(es);
    var j := 0;
    while j < |es|
      invariant 0 <= j <= |es|
      invariant forall k :: 0 <= k < j ==> es[k].Data() == EnemyStepped(es0[k])
      invariant forall k :: j <= k < |es| ==> es[k].Data() == es0[k]
      modifies es
    {
      es[j].Update();
      j := j + 1;
    }
  }

  /** The loop step of a scan: entries before j are done, from j on untouched; entry j is replaced or kept. */
  lemma Seam<T>(done: seq<T>, s: seq<T>, j: nat, x: T)
    requires |done| == j < |s|
    ensures (done + s[j..])[j] == s[j]
    ensures (done + s[j..])[j := x] == (done + [x]) + s[j + 1..]
    ensures done + s[j..] == (done + [s[j]]) + s[j + 1..]
  {
    assert s[j..] == [s[j]] + s[j + 1..];
  }

  /** b.alive = false on the k-th bullet of the list. */
  method KillBullet(bs: seq<Bullet>, k: nat)
    requires k < |bs| && Distinct(bs)
    modifies bs[k]
    ensures BulletDatas(bs) == old(BulletDatas(bs))[k := old(BulletDatas(bs))[k].(alive := false)]
  {
    bs[k].alive := false;
  }

  /** A bullet and the enemy it hit both die. */
  method KillBoth(bs: seq<Bullet>, i: nat, es: seq<Enemy>, j: nat)
    requires i < |bs| && Distinct(bs) && j < |es| && Distinct(es)
    modifies bs[i], es[j]
    ensures BulletDatas(bs) == old(BulletDatas(bs))[i := old(BulletDatas(bs))[i].(alive := false)]
    ensures EnemyDatas(es) == old(EnemyDatas(es))[j := old(EnemyDatas(es))[j].(alive := false)]
  {
    KillBullet(bs, i);
    KillEnemy(es, j);
  }

  /** e.alive = false on the k-th enemy of the list. */
  method KillEnemy(es: seq<Enemy>, k: nat)
    requires k < |es| && Distinct(es)
    modifies es[k]
    ensures EnemyDatas(es) == old(EnemyDatas(es))[k := old(EnemyDatas(es))[k].(alive := false)]
  {
    es[k].alive := false;
  }

  class GamePanel {
    var state: GameState
    var player: Player
    var bullets: seq<Bullet>
    var enemies: seq<Enemy>
    var score: int
    var level: int
    var enemySpawnTimer: int
    var enemySpawnInterval: int

    ghost predicate Valid()
      reads this
    {
      Distinct(bullets) && Distinct(enemies)
    }

    /** The session as a value. */
    function Model(): World
      reads this, player, bullets, enemies
    {
      World(state, player.Data(), BulletDatas(bullets), EnemyDatas(enemies),
            score, level, enemySpawnTimer, enemySpawnInterval)
    }

    /** The field initialisers, then initGame. */
    constructor ()
      ensures Valid() && fresh(player)
      ensures Model() == Reset(Menu)
    {
      state := Menu;
      player := new Player(WIDTH / 2 - 40, HEIGHT - 120, 88);
      bullets, enemies := [], [];
      score, level := 0, 1;
      enemySpawnTimer, enemySpawnInterval := 0, 50;
    }

    method InitGame()
      modifies this
      ensures Valid() && fresh(player)
      ensures Model() == Simulation.InitGame(old(Model()))
    {
      player := new Player(WIDTH / 2 - 40, HEIGHT - 120, 88);
      bullets := [];
      enemies := [];
      score, level := 0, 1;
      enemySpawnInterval, enemySpawnTimer := 50, 0;
    }

    method Tick(d: Draws)
      requires Valid()
      modifies this, player, bullets, enemies
      ensures Valid()
      ensures Model() == Simulation.Tick(old(Model()), d)
      ensures old(state) != Running ==>
        unchanged(this) && unchanged(player) && unchanged(bullets) && unchanged(enemies)
    {
      if state != Running {
        return;
      }
      MoveAll();
      HandleCollisions();
      RemoveDead();
      SpawnLogic(d);
    }

    /** The entity updates of a running tick: player, then every bullet, then every enemy. */
    method MoveAll()
      requires Valid()
      modifies player, bullets, enemies
      ensures Valid()
      ensures Model() == Simulation.MoveAll(old(Model()))
    {
      player.Update();
      UpdateBullets(bullets);
      UpdateEnemies(enemies);
    }

    method SpawnLogic(d: Draws)
      requires Valid()
      modifies this`enemySpawnTimer, this`enemies, this`level, this`enemySpawnInterval
      ensures Valid()
      ensures Model() == Simulation.SpawnLogic(old(Model()), d)
    {
      ghost var w0 := Model();
      enemySpawnTimer := enemySpawnTimer + 1;
      if enemySpawnTimer >= enemySpawnInterval {
        SpawnEnemy(d);
        enemySpawnTimer := 0;
      }
      assert Model() == SpawnTimer(w0, d);
      LevelUp();
    }

    /** The level check at the end of spawnLogic. */
    method LevelUp()
      requires Valid()
      modifies this`level, this`enemySpawnInterval
      ensures Valid()
      ensures Model() == Simulation.LevelUp(old(Model()))
    {
      if score > level * 20 {
        level := level + 1;
        enemySpawnInterval := Max(12, enemySpawnInterval - 6);
      }
    }

    method SpawnEnemy(d: Draws)
      requires Valid()
      modifies this`enemies
      ensures Valid()
      ensures Model() == Simulation.SpawnEnemy(old(Model()), d)
    {
      var size := 50 + d.sizeDraw;
      var x := d.xDraw;
      var y := -size;
      var speed := 2 + d.speedDraw + Half(level);
      var behavior := if d.straight then StraightDown else ZigZag(1);
      var e := new Enemy(x, y, size, speed, behavior);
      enemies := enemies + [e];
      assert EnemyDatas(enemies) == EnemyDatas(old(enemies)) + [e.Data()];
    }

    /** The inner scan of handleCollisions: the first enemy, in list order, whose bounds intersect r. */
    method FirstTarget(r: Rect) returns (hit: Option<nat>)
      ensures hit == FirstHit(r, EnemyDatas(enemies))
    {
      EnemiesAt(enemies);
      var j: nat := 0;
      while j < |enemies|
        invariant j <= |enemies|
        invariant forall k :: 0 <= k < j ==> !Intersects(r, enemies[k].Data().Bounds())
      {
        if Intersects(r, enemies[j].Data().Bounds()) {
          return Some(j);
        }
        j := j + 1;
      }
      return None;
    }

    method HandleCollisions()
      requires Valid()
      modifies this`score, this`state, player, bullets, enemies
      ensures Valid()
      ensures Model() == Simulation.HandleCollisions(old(Model()))
    {
      BulletsAgainstEnemies();
      EnemiesAgainstPlayer();
    }

    /** The first scan of handleCollisions: each bullet kills the first enemy it overlaps, for 10 points. */
    method BulletsAgainstEnemies()
      requires Valid()
      modifies this`score, bullets, enemies
      ensures Valid()
      ensures Model() == BulletPhase(old(Model()))
    {
      ghost var w0 := Model();
      ScanStarts();
      ScanBullets(w0.bullets, w0.enemies, w0.score);
      ghost var s := BulletScan(w0.bullets, w0.enemies);
      assert Model() == w0.(bullets := s.bullets, enemies := s.enemies, score := w0.score + 10 * s.hits);
    }

    /** The loop of the first scan, over the bullets bs0 against the enemies es0 from score score0. */
    method ScanBullets(ghost bs0: seq<BulletData>, ghost es0: seq<EnemyData>, ghost score0: int)
      requires Valid() && ScannedUpTo(bs0, es0, score0, 0)
      modifies this`score, bullets, enemies
      ensures Valid() && player.Data() == old(player.Data())
      ensures var s := BulletScan(bs0, es0);
        BulletDatas(bullets) == s.bullets && EnemyDatas(enemies) == s.enemies && score == score0 + 10 * s.hits
    {
      var i := 0;
      while i < |bullets|
        invariant 0 <= i <= |bullets|
        invariant ScannedUpTo(bs0, es0, score0, i)
        invariant player.Data() == old(player.Data())
        modifies bullets, enemies, this`score
      {
        FireAt(i, bs0, es0, score0);
        i := i + 1;
      }
      ScanEnds(bs0, es0, score0);
    }

    /** Once every bullet has been processed, the scan's result is the state. */
    lemma ScanEnds(bs0: seq<BulletData>, es0: seq<EnemyData>, score0: int)
      requires ScannedUpTo(bs0, es0, score0, |bullets|)
      ensures var s := BulletScan(bs0, es0);
        BulletDatas(bullets) == s.bullets && EnemyDatas(enemies) == s.enemies && score == score0 + 10 * s.hits
    {
      assert bs0[..|bullets|] == bs0 && bs0[|bullets|..] == [];
    }

    /** The first scan has processed the first i bullets of bs0 against es0, starting from score0. */
    ghost predicate ScannedUpTo(bs0: seq<BulletData>, es0: seq<EnemyData>, score0: int, i: nat)
      reads this, bullets, enemies
    {
      i <= |bs0| &&
      var s := BulletScan(bs0[..i], es0);
      BulletDatas(bullets) == s.bullets + bs0[i..] && EnemyDatas(enemies) == s.enemies &&
      score == score0 + 10 * s.hits
    }

    /** Before the first scan no bullet has been processed. */
    lemma ScanStarts()
      ensures ScannedUpTo(BulletDatas(bullets), EnemyDatas(enemies), score, 0)
    {
      assert BulletDatas(bullets)[0..] == BulletDatas(bullets);
    }

    /** One step of the first scan: bullet i and the first enemy it overlaps, if any, die for 10 points. */
    method FireAt(i: nat, ghost bs0: seq<BulletData>, ghost es0: seq<EnemyData>, ghost score0: int)
      requires i < |bullets| && Distinct(bullets) && Distinct(enemies) && ScannedUpTo(bs0, es0, score0, i)
      modifies bullets[i], enemies, this`score
      ensures ScannedUpTo(bs0, es0, score0, i + 1)
    {
      ghost var s := BulletScan(bs0[..i], es0);
      BulletsAt(bullets);
      var target := FirstTarget(bullets[i].Data().Bounds());
      if target.Some? {
        Strike(i, target.value, bs0, es0, score0);
      } else {
        PassBy(i, bs0, es0, score0);
      }
    }

    /** Bullet i of the scan has its first hit at enemy j: both die and the score rises by 10. */
    method Strike(i: nat, j: nat, ghost bs0: seq<BulletData>, ghost es0: seq<EnemyData>, ghost score0: int)
      requires i < |bullets| && j < |enemies| && Distinct(bullets) && Distinct(enemies)
      requires ScannedUpTo(bs0, es0, score0, i) && i < |bs0|
      requires FirstHit(bs0[i].Bounds(), BulletScan(bs0[..i], es0).enemies) == Some(j)
      modifies bullets[i], enemies[j], this`score
      ensures ScannedUpTo(bs0, es0, score0, i + 1)
    {
      ghost var s := BulletScan(bs0[..i], es0);
      BulletScanStep(bs0, es0, i);
      Seam(s.bullets, bs0, i, bs0[i].(alive := false));
      KillBoth(bullets, i, enemies, j);
      score := score + 10;
    }

    /** Bullet i of the scan overlaps no enemy: nothing changes but the scan position. */
    lemma PassBy(i: nat, bs0: seq<BulletData>, es0: seq<EnemyData>, score0: int)
      requires ScannedUpTo(bs0, es0, score0, i) && i < |bs0|
      requires FirstHit(bs0[i].Bounds(), BulletScan(bs0[..i], es0).enemies) == None
      ensures ScannedUpTo(bs0, es0, score0, i + 1)
    {
      ghost var s := BulletScan(bs0[..i], es0);
      BulletScanStep(bs0, es0, i);
      Seam(s.bullets, bs0, i, bs0[i]);
    }

    /** The second scan of handleCollisions: each enemy overlapping the player dies and costs a life. */
    method EnemiesAgainstPlayer()
      requires Valid()
      modifies this`state, player, enemies
      ensures Valid()
      ensures Model() == PlayerPhase(old(Model()))
    {
      ghost var w0 := Model();
      GuardStarts();
      ScanEnemies(w0.enemies, w0.player, w0.state);
    }

    /** The loop of the second scan, over the enemies es0 against player p from state s0. */
    method ScanEnemies(ghost es0: seq<EnemyData>, ghost p: PlayerData, ghost s0: GameState)
      requires Valid() && GuardedUpTo(es0, p, s0, 0)
      modifies this`state, player, enemies
      ensures Valid() && BulletDatas(bullets) == old(BulletDatas(bullets))
      ensures var g := PlayerScan(es0, p.Bounds(), p.lives, s0);
        EnemyDatas(enemies) == g.enemies && player.Data() == p.(lives := g.lives) && state == g.state
    {
      var j := 0;
      while j < |enemies|
        invariant 0 <= j <= |enemies|
        invariant GuardedUpTo(es0, p, s0, j)
        invariant BulletDatas(bullets) == old(BulletDatas(bullets))
        modifies enemies, player, this`state
      {
        GuardAgainst(j, es0, p, s0);
        j := j + 1;
      }
      assert es0[..j] == es0 && es0[j..] == [];
    }

    /** The second scan has processed the first j enemies of es0, starting from player p in state s0. */
    ghost predicate GuardedUpTo(es0: seq<EnemyData>, p: PlayerData, s0: GameState, j: nat)
      reads this, player, enemies
    {
      j <= |es0| &&
      var g := PlayerScan(es0[..j], p.Bounds(), p.lives, s0);
      EnemyDatas(enemies) == g.enemies + es0[j..] && player.Data() == p.(lives := g.lives) && state == g.state
    }

    /** Before the second scan no enemy has been processed. */
    lemma GuardStarts()
      ensures GuardedUpTo(EnemyDatas(enemies), player.Data(), state, 0)
    {
      assert EnemyDatas(enemies)[0..] == EnemyDatas(enemies);
    }

    /** One step of the second scan: enemy j, if it overlaps the player, dies and costs a life. */
    method GuardAgainst(j: nat, ghost es0: seq<EnemyData>, ghost p: PlayerData, ghost s0: GameState)
      requires j < |enemies| && Distinct(enemies) && GuardedUpTo(es0, p, s0, j)
      modifies enemies[j], player, this`state
      ensures GuardedUpTo(es0, p, s0, j + 1)
    {
      EnemiesAt(enemies);
      if Intersects(enemies[j].Data().Bounds(), player.Data().Bounds()) {
        Collide(j, es0, p, s0);
      } else {
        Miss(j, es0, p, s0);
      }
    }

    /** Enemy j of the second scan overlaps the player: it dies, a life is lost, and none left ends the game. */
    method Collide(j: nat, ghost es0: seq<EnemyData>, ghost p: PlayerData, ghost s0: GameState)
      requires j < |enemies| && Distinct(enemies) && GuardedUpTo(es0, p, s0, j) && j < |es0|
      requires Intersects(es0[j].Bounds(), p.Bounds())
      modifies enemies[j], player, this`state
      ensures GuardedUpTo(es0, p, s0, j + 1)
    {
      ghost var g := PlayerScan(es0[..j], p.Bounds(), p.lives, s0);
      PlayerScanStep(es0, p.Bounds(), p.lives, s0, j);
      Seam(g.enemies, es0, j, es0[j].(alive := false));
      KillEnemy(enemies, j);
      LoseLife();
    }

    /** player.lives--, and GAME_OVER once no life is left. */
    method LoseLife()
      modifies player, this`state
      ensures player.Data() == old(player.Data()).(lives := old(player.lives) - 1)
      ensures state == if player.lives <= 0 then GameOver else old(state)
    {
      player.lives := player.lives - 1;
      if player.lives <= 0 {
        state := GameOver;
      }
    }

    /** Enemy j of the second scan misses the player: nothing changes but the scan position. */
    lemma Miss(j: nat, es0: seq<EnemyData>, p: PlayerData, s0: GameState)
      requires GuardedUpTo(es0, p, s0, j) && j < |es0|
      requires !Intersects(es0[j].Bounds(), p.Bounds())
      ensures GuardedUpTo(es0, p, s0, j + 1)
    {
      ghost var g := PlayerScan(es0[..j], p.Bounds(), p.lives, s0);
      PlayerScanStep(es0, p.Bounds(), p.lives, s0, j);
      Seam(g.enemies, es0, j, es0[j]);
    }

    method RemoveDead()
      requires Valid()
      modifies this`bullets, this`enemies
      ensures Valid()
      ensures Model() == Simulation.RemoveDead(old(Model()))
    {
      bullets := LiveBullets(bullets);
      enemies := LiveEnemies(enemies);
    }

    method Shoot(now: int)
      requires Valid()
      modifies this`bullets, player
      ensures Valid()
      ensures Model() == Simulation.Shoot(old(Model()), now)
    {
      if now - player.lastShotTime < player.fireCooldown {
        return;
      }
      ghost var p0 := player.Data();
      player.lastShotTime := now;
      var volley := FireVolley(player);
      assert Volley(player.Data()) == Volley(p0);
      DistinctAppend(bullets, volley);
      AppendDatas(bullets, volley);
      bullets := bullets + volley;
    }

    /** The three bullets of a shot, new objects placed from the player's position. */
    static method FireVolley(p: Player) returns (volley: seq<Bullet>)
      ensures Distinct(volley) && forall b :: b in volley ==> fresh(b)
      ensures BulletDatas(volley) == Volley(p.Data())
    {
      var bx := p.x + Half(p.size) - 6;
      var top := p.y - 8;
      var b1 := new Bullet(bx - 15, top, 20, -10);
      var b2 := new Bullet(bx, top, 20, -12);
      var b3 := new Bullet(bx + 15, top, 20, -10);
      volley := [b1, b2, b3];
    }

    method KeyPressed(key: Key, now: int)
      requires Valid()
      modifies this, player
      ensures Valid()
      ensures Model() == Simulation.KeyPressed(old(Model()), key, now)
    {
      if state == Menu && key == Enter {
        InitGame();
        state := Running;
        return;
      }
      if state == GameOver && key == Enter {
        InitGame();
        state := Running;
        return;
      }
      if key == P {
        state := if state == Running then Paused else Running;
        return;
      }
      if state == Running {
        PlayKey(key, now);
      }
    }

    /** The keys that act while the game runs: arrows start moving, SPACE shoots. */
    method PlayKey(key: Key, now: int)
      requires Valid() && state == Running && key != P
      modifies this`bullets, player
      ensures Valid()
      ensures Model() == Simulation.KeyPressed(old(Model()), key, now)
    {
      match key
      case Left => player.left := true;
      case Right => player.right := true;
      case Up => player.up := true;
      case Down => player.down := true;
      case Space => Shoot(now);
      case _ =>
    }

    method KeyReleased(key: Key)
      modifies player
      ensures Model() == Simulation.KeyReleased(old(Model()), key)
    {
      match key
      case Left => player.left := false;
      case Right => player.right := false;
      case Up => player.up := false;
      case Down => player.down := false;
      case _ =>
    }
  }
}
