/*
 * The entity layer of the shooter: the playfield, the four game states, the
 * square bounding boxes and their intersection test, the two enemy movement
 * behaviours, and the three kinds of entity (player, bullet, enemy).
 *
 * Each entity is a class whose update method changes its own fields in place,
 * as in the source. Each class also has a value record (PlayerData,
 * BulletData, EnemyData) and a function Data() giving the current fields as
 * that record; the update methods are proved against functions on the records
 * (PlayerStepped, BulletStepped, Moved, EnemyStepped), and the properties of
 * the entity layer are proved about those functions.
 */
module Entities {

  /** Playfield width and height in logical pixels. */
  const WIDTH: int := 900
  const HEIGHT: int := 650

  datatype GameState = Menu | Running | Paused | GameOver

  function Max(a: int, b: int): int { if a < b then b else a }
  function Min(a: int, b: int): int { if a < b then a else b }

  /** `n / 2` with Java's division, which truncates toward zero. */
  function Half(n: int): (r: int)
    ensures n >= 0 ==> 0 <= 2 * r <= n && n - 2 * r <= 1
    ensures n < 0 ==> n <= 2 * r <= 0 && 2 * r - n <= 1
  {
    if n >= 0 then n / 2 else -((-n) / 2)
  }

  // ---------------------------------------------------------------------
  // Bounding boxes
  // ---------------------------------------------------------------------

  /** An axis-aligned rectangle, as java.awt.Rectangle. */
  datatype Rect = Rect(x: int, y: int, width: int, height: int)

  /** The size-by-size square at (x, y): every entity's bounds. */
  function Square(x: int, y: int, size: int): Rect
  {
    Rect(x, y, size, size)
  }

  /** The pixel (px, py) lies inside r. */
  predicate Covers(r: Rect, px: int, py: int)
  {
    r.x <= px < r.x + r.width && r.y <= py < r.y + r.height
  }

  /**
   * Rectangle.intersects: an empty rectangle meets nothing; otherwise the two
   * must overlap strictly on both axes (without Java's int overflow).
   */
  predicate Intersects(a: Rect, b: Rect)
  {
    a.width > 0 && a.height > 0 && b.width > 0 && b.height > 0 &&
    a.x < b.x + b.width && b.x < a.x + a.width &&
    a.y < b.y + b.height && b.y < a.y + a.height
  }

  /** Two rectangles intersect exactly when some pixel lies in both. */
  lemma IntersectsIffSharedPixel(a: Rect, b: Rect)
    ensures Intersects(a, b) <==> exists px, py :: Covers(a, px, py) && Covers(b, px, py)
  {
    if Intersects(a, b) {
      var px := Max(a.x, b.x);
      var py := Max(a.y, b.y);
      assert Covers(a, px, py) && Covers(b, px, py);
    }
  }

  /** Intersection does not depend on the order of the two rectangles. */
  lemma IntersectsSymmetric(a: Rect, b: Rect)
    ensures Intersects(a, b) == Intersects(b, a)
  {
  }

  /** Squares that only touch along an edge do not intersect. */
  lemma EdgeContactIsNoHit(a: Rect, b: Rect)
    requires a.x + a.width == b.x || b.x + b.width == a.x ||
             a.y + a.height == b.y || b.y + b.height == a.y
    ensures !Intersects(a, b)
  {
  }

  // ---------------------------------------------------------------------
  // Player
  // ---------------------------------------------------------------------

  datatype PlayerData = PlayerData(
    x: int, y: int, size: int,
    speed: int, lives: int,
    left: bool, right: bool, up: bool, down: bool,
    lastShotTime: int, fireCooldown: int)
  {
    function Bounds(): Rect { Square(x, y, size) }
  }

  /** The fields of a player just constructed at (x, y) with the given size. */
  function NewPlayer(x: int, y: int, size: int): PlayerData
  {
    PlayerData(x, y, size, 6, 3, false, false, false, false, 0, 180)
  }

  /** Math.max(0, Math.min(hi, v)). */
  function Clamp(v: int, hi: int): (r: int)
    ensures 0 <= r
    ensures 0 <= hi ==> r <= hi
    ensures 0 <= v <= hi ==> r == v
    ensures 0 <= hi && v < 0 ==> r == 0
    ensures 0 <= hi && hi < v ==> r == hi
  {
    Max(0, Min(hi, v))
  }

  /**
   * Player.update: move by the speed along each axis whose flag is set, then
   * clamp into the playfield.
   */
  function PlayerStepped(p: PlayerData): (r: PlayerData)
    ensures r == p.(x := r.x, y := r.y)
    ensures 0 <= r.x && 0 <= r.y
    ensures p.size <= WIDTH ==> r.x <= WIDTH - p.size
    ensures p.size <= HEIGHT ==> r.y <= HEIGHT - p.size
    ensures !p.left && !p.right && 0 <= p.x <= WIDTH - p.size ==> r.x == p.x
    ensures !p.up && !p.down && 0 <= p.y <= HEIGHT - p.size ==> r.y == p.y
    ensures var mx := p.x - (if p.left then p.speed else 0) + (if p.right then p.speed else 0);
      (0 <= mx <= WIDTH - p.size ==> r.x == mx) &&
      (0 <= WIDTH - p.size && mx < 0 ==> r.x == 0) &&
      (0 <= WIDTH - p.size < mx ==> r.x == WIDTH - p.size)
    ensures var my := p.y - (if p.up then p.speed else 0) + (if p.down then p.speed else 0);
      (0 <= my <= HEIGHT - p.size ==> r.y == my) &&
      (0 <= HEIGHT - p.size && my < 0 ==> r.y == 0) &&
      (0 <= HEIGHT - p.size < my ==> r.y == HEIGHT - p.size)
  {
    var x := p.x - (if p.left then p.speed else 0) + (if p.right then p.speed else 0);
    var y := p.y - (if p.up then p.speed else 0) + (if p.down then p.speed else 0);
    p.(x := Clamp(x, WIDTH - p.size), y := Clamp(y, HEIGHT - p.size))
  }

  /** A player at the left edge holding LEFT stays exactly at x = 0; holding RIGHT it moves by its speed. */
  lemma LeftEdgeScenario(y: int)
    requires 0 <= y <= HEIGHT - 88
    ensures PlayerStepped(NewPlayer(0, y, 88).(left := true)).x == 0
    ensures PlayerStepped(NewPlayer(0, y, 88).(right := true)).x == 6
  {
  }

  /** A new player inside the field stands still until a movement key is pressed. */
  lemma NewPlayerStandsStill(x: int, y: int, size: int)
    requires 0 <= x <= WIDTH - size && 0 <= y <= HEIGHT - size
    ensures PlayerStepped(NewPlayer(x, y, size)) == NewPlayer(x, y, size)
  {
  }

  /** The player after n ticks with unchanged flags. */
  function PlayerAfter(p: PlayerData, n: nat): PlayerData
  {
    if n == 0 then p else PlayerStepped(PlayerAfter(p, n - 1))
  }

  /** Once any tick has run, the player stays inside the playfield for good. */
  lemma {:induction false} PlayerStaysInField(p: PlayerData, n: nat)
    requires 0 < n && p.size <= WIDTH && p.size <= HEIGHT
    ensures var q := PlayerAfter(p, n);
      0 <= q.x <= WIDTH - p.size && 0 <= q.y <= HEIGHT - p.size && q.size == p.size
  {
    if n > 1 {
      PlayerStaysInField(p, n - 1);
    }
  }

  class Player {
    var x: int
    var y: int
    var size: int
    var speed: int
    var lives: int
    var left: bool
    var right: bool
    var up: bool
    var down: bool
    var lastShotTime: int
    var fireCooldown: int

    function Data(): PlayerData
      reads this
    {
      PlayerData(x, y, size, speed, lives, left, right, up, down, lastShotTime, fireCooldown)
    }

    constructor (x: int, y: int, size: int)
      ensures Data() == NewPlayer(x, y, size)
      ensures speed == 6 && lives == 3 && lastShotTime == 0 && fireCooldown == 180
      ensures !left && !right && !up && !down
    {
      this.x := x;
      this.y := y;
      this.size := size;
      speed, lives := 6, 3;
      left, right, up, down := false, false, false, false;
      lastShotTime, fireCooldown := 0, 180;
    }

    method Update()
      modifies this
      ensures Data() == PlayerStepped(old(Data()))
    {
      if left { x := x - speed; }
      if right { x := x + speed; }
      if up { y := y - speed; }
      if down { y := y + speed; }
      x := Max(0, Min(WIDTH - size, x));
      y := Max(0, Min(HEIGHT - size, y));
    }
  }

  // ---------------------------------------------------------------------
  // Bullet
  // ---------------------------------------------------------------------

  datatype BulletData = BulletData(x: int, y: int, size: int, dy: int, alive: bool)
  {
    function Bounds(): Rect { Square(x, y, size) }
  }

  /** Wholly above the top edge, or below the bottom edge (no margin at the top). */
  predicate OffScreen(b: BulletData)
  {
    b.y + b.size < 0 || b.y > HEIGHT
  }

  /** Bullet.update: move vertically by dy; die on leaving the screen. */
  function BulletStepped(b: BulletData): (r: BulletData)
    ensures r.x == b.x && r.y == b.y + b.dy && r.size == b.size && r.dy == b.dy
    ensures OffScreen(r) ==> !r.alive
    ensures !OffScreen(r) ==> r.alive == b.alive
    ensures r.alive ==> b.alive
  {
    var moved := b.(y := b.y + b.dy);
    if OffScreen(moved) then moved.(alive := false) else moved
  }

  /** A bullet survives an update exactly when it was alive and its new top edge lies in [-size, HEIGHT]. */
  lemma BulletSurvivesIff(b: BulletData)
    ensures BulletStepped(b).alive <==> b.alive && -b.size <= b.y + b.dy <= HEIGHT
  {
  }

  /** The bullet after n ticks. */
  function BulletAfter(b: BulletData, n: nat): BulletData
  {
    if n == 0 then b else BulletStepped(BulletAfter(b, n - 1))
  }

  /** After n ticks a bullet has moved n*dy vertically, not at all horizontally, and is never revived. */
  lemma {:induction false} BulletFlight(b: BulletData, n: nat)
    ensures var c := BulletAfter(b, n);
      c.x == b.x && c.y == b.y + n * b.dy && c.size == b.size && c.dy == b.dy &&
      (c.alive ==> b.alive)
  {
    if n > 0 {
      BulletFlight(b, n - 1);
    }
  }

  /** A bullet fired at (100, 100) with dy = -10 is at y = -600 and dead after 70 ticks. */
  lemma UpwardBulletLeaves()
    ensures var c := BulletAfter(BulletData(100, 100, 20, -10, true), 70);
      c.y == -600 && c.x == 100 && !c.alive
  {
    var b := BulletData(100, 100, 20, -10, true);
    BulletFlight(b, 69);
  }

  // ---------------------------------------------------------------------
  // Enemy and its behaviours
  // ---------------------------------------------------------------------

  /**
   * The movement policy each enemy owns: straight down, or zig-zag with its
   * own horizontal direction (+1 or -1, starting at +1).
   */
  datatype Behavior = StraightDown | ZigZag(dir: int)

  datatype EnemyData = EnemyData(x: int, y: int, size: int, speed: int, behavior: Behavior, alive: bool)
  {
    function Bounds(): Rect { Square(x, y, size) }
  }

  /** EnemyBehavior.move, for both behaviours. */
  function Moved(e: EnemyData): (r: EnemyData)
    ensures r.y == e.y + e.speed
    ensures r.size == e.size && r.speed == e.speed && r.alive == e.alive
    ensures r.behavior.StraightDown? <==> e.behavior.StraightDown?
    ensures e.behavior.StraightDown? ==> r.x == e.x
    ensures e.behavior.ZigZag? ==>
      r.x == e.x + e.behavior.dir * e.speed &&
      r.behavior.dir == (if r.x < 0 || r.x > WIDTH - e.size then -e.behavior.dir else e.behavior.dir)
  {
    match e.behavior
    case StraightDown => e.(y := e.y + e.speed)
    case ZigZag(dir) =>
      var x := e.x + dir * e.speed;
      e.(y := e.y + e.speed, x := x,
         behavior := if x < 0 || x > WIDTH - e.size then ZigZag(-dir) else ZigZag(dir))
  }

  /** A zig-zag direction stays +1 or -1. */
  lemma ZigZagDirectionStaysUnit(e: EnemyData)
    requires e.behavior.ZigZag? && (e.behavior.dir == 1 || e.behavior.dir == -1)
    ensures Moved(e).behavior.ZigZag?
    ensures Moved(e).behavior.dir == 1 || Moved(e).behavior.dir == -1
  {
  }

  /** Enemy.update: move by the behaviour; die far (200 pixels) below the screen. */
  function EnemyStepped(e: EnemyData): (r: EnemyData)
    ensures r == Moved(e).(alive := r.alive)
    ensures r.y > HEIGHT + 200 ==> !r.alive
    ensures r.y <= HEIGHT + 200 ==> r.alive == e.alive
    ensures r.alive ==> e.alive
  {
    var m := Moved(e);
    if m.y > HEIGHT + 200 then m.(alive := false) else m
  }

  /** The enemy after n ticks. */
  function EnemyAfter(e: EnemyData, n: nat): EnemyData
  {
    if n == 0 then e else EnemyStepped(EnemyAfter(e, n - 1))
  }

  /**
   * A zig-zag enemy lies within one step of the strip [0, WIDTH - size], and
   * heads back into it whenever it is outside.
   */
  ghost predicate Swaying(e: EnemyData)
  {
    e.behavior.ZigZag? && (e.behavior.dir == 1 || e.behavior.dir == -1) &&
    0 <= e.speed && e.size <= WIDTH &&
    -e.speed <= e.x <= WIDTH - e.size + e.speed &&
    (e.x < 0 ==> e.behavior.dir == 1) &&
    (e.x > WIDTH - e.size ==> e.behavior.dir == -1)
  }

  lemma SwayingStep(e: EnemyData)
    requires Swaying(e)
    ensures Swaying(EnemyStepped(e))
  {
    if e.behavior.dir == 1 {
      assert Moved(e).x == e.x + e.speed;
    } else {
      assert Moved(e).x == e.x - e.speed;
    }
  }

  /**
   * Although ZigZag never clamps x, an enemy that starts inside the strip
   * never strays more than one speed-step outside it, on any tick.
   */
  lemma {:induction false} ZigZagStaysNearField(e: EnemyData, n: nat)
    requires e.behavior == ZigZag(1) && 0 <= e.speed && e.size <= WIDTH
    requires 0 <= e.x <= WIDTH - e.size
    ensures var f := EnemyAfter(e, n);
      -e.speed <= f.x <= WIDTH - e.size + e.speed && f.size == e.size && f.speed == e.speed
  {
    SwayingAfter(e, n);
  }

  lemma {:induction false} SwayingAfter(e: EnemyData, n: nat)
    requires Swaying(e)
    ensures Swaying(EnemyAfter(e, n))
    ensures EnemyAfter(e, n).size == e.size && EnemyAfter(e, n).speed == e.speed
  {
    if n > 0 {
      SwayingAfter(e, n - 1);
      SwayingStep(EnemyAfter(e, n - 1));
    }
  }

  /** A straight-down enemy at y = 0 with speed 5 is at y = 5, same x, after one tick. */
  lemma StraightDownScenario(x: int, size: int)
    ensures var f := EnemyStepped(EnemyData(x, 0, size, 5, StraightDown, true));
      f.y == 5 && f.x == x && f.alive
  {
  }

  class Bullet {
    var x: int
    var y: int
    var size: int
    var dy: int
    var alive: bool

    function Data(): BulletData
      reads this
    {
      BulletData(x, y, size, dy, alive)
    }

    constructor (x: int, y: int, size: int, dy: int)
      ensures Data() == BulletData(x, y, size, dy, true)
    {
      this.x := x;
      this.y := y;
      this.size := size;
      this.dy := dy;
      alive := true;
    }

    method Update()
      modifies this
      ensures Data() == BulletStepped(old(Data()))
    {
      y := y + dy;
      if y + size < 0 || y > HEIGHT { alive := false; }
    }
  }

  class Enemy {
    var x: int
    var y: int
    var size: int
    var speed: int
    var behavior: Behavior
    var alive: bool

    function Data(): EnemyData
      reads this
    {
      EnemyData(x, y, size, speed, behavior, alive)
    }

    constructor (x: int, y: int, size: int, speed: int, behavior: Behavior)
      ensures Data() == EnemyData(x, y, size, speed, behavior, true)
    {
      this.x := x;
      this.y := y;
      this.size := size;
      this.speed := speed;
      this.behavior := behavior;
      alive := true;
    }

    /** StraightDownBehavior.move and ZigZagBehavior.move. */
    method Move()
      modifies this
      ensures Data() == Moved(old(Data()))
    {
      match behavior
      case StraightDown =>
        y := y + speed;
      case ZigZag(dir) =>
        y := y + speed;
        x := x + dir * speed;
        if x < 0 || x > WIDTH - size { behavior := ZigZag(-dir); }
    }

    method Update()
      modifies this
      ensures Data() == EnemyStepped(old(Data()))
    {
      Move();
      if y > HEIGHT + 200 { alive := false; }
    }
  }
}
