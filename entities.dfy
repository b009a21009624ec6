/** The projectiles and enemies of the game (script.js, classes `Bullet`, `EnemyBullet`, `Enemy`
    and the spawner `spawnEnemy`), with the dimensions and rates the source fixes. Each of them
    is a value here; the engine replaces an element of its owning sequence where the source
    updates the object in place. */
module Entities {
  import opened Basics
  import opened Geometry

  /** A value returned by `Math.random()`. */
  type Random = r: real | 0.0 <= r < 1.0

  /** The canvas's size, read by the layout and by the offscreen tests. */
  datatype Canvas = Canvas(width: real, height: real)

  const PlayerWidth: real := 40.0
  const PlayerHeight: real := 40.0
  const PlayerSpeed: real := 5.5
  const PlayerFireRate: int := 12
  const PlayerLives: int := 3
  const InvulnerableTicks: int := 60

  const BulletRadius: real := 5.0
  const BulletSpeed: real := 9.0
  const EnemyBulletRadius: real := 5.0

  const EnemyWidth: real := 40.0
  const EnemyHeight: real := 40.0
  const EnemyFireRate: int := 30
  /** Horizontal distance between centres within which an enemy may fire. */
  const AlignTolerance: real := 25.0 + EnemyWidth / 2.0

  const SpawnY: real := -40.0
  /** The spawner keeps x within `canvas.width - 50`. */
  const SpawnMargin: real := 50.0

  const Subjects: seq<string> :=
    ["OOPs", "PYTHON", "DBMS", "CYBER", "AWS", "IWP", "CLOUD", "CPP", "JAVA", "SOFTWARE", "COLLEGE"]

  /** A player projectile: a circle of radius `BulletRadius` moving up `BulletSpeed` per tick. */
  datatype Bullet = Bullet(x: real, y: real)
  {
    /** One tick: straight up by `BulletSpeed`. */
    function Update(): (b: Bullet)
      ensures b.x == x && b.y < y && y - b.y == BulletSpeed
    { this.(y := y - BulletSpeed) }

    /** Past the top edge. */
    predicate Offscreen() { y + BulletRadius < 0.0 }
  }

  /** An enemy projectile: a circle of radius `EnemyBulletRadius` moving down `speed` per tick. */
  datatype EnemyBullet = EnemyBullet(x: real, y: real, speed: real)
  {
    /** One tick: straight down by its own speed, which stays. */
    function Update(): (b: EnemyBullet)
      ensures b.x == x && b.speed == speed && b.y - y == speed
    { this.(y := y + speed) }

    /** Past the bottom edge. */
    predicate Offscreen(canvasHeight: real) { y - EnemyBulletRadius > canvasHeight }
  }

  /** The two `Math.random()` values an enemy draws when it fires: the projectile's speed and
      the extra delay before it may fire again. */
  datatype ShotDraw = ShotDraw(speed: Random, delay: Random)

  /** What one `Enemy.update` produces: the enemy's new state and the projectile it pushed, if any. */
  datatype Advance = Advance(enemy: Enemy, shot: Option<EnemyBullet>)

  datatype Enemy = Enemy(x: real, y: real, speed: real, points: int, subject: string, fireCooldown: int)
  {
    function Box(): Geometry.Box { Geometry.Box(x, y, EnemyWidth, EnemyHeight) }

    /** The player's horizontal centre is within the tolerance band around the enemy's. */
    predicate Aligned(playerX: real)
    {
      Abs(playerX + PlayerWidth / 2.0 - (x + EnemyWidth / 2.0)) <= AlignTolerance
    }

    /** `Enemy.update`: descend by `speed`, count the fire cooldown down, and fire from the
        bottom centre when the cooldown has run out, the enemy is aligned with the player and is
        still above it; firing restarts the cooldown at `EnemyFireRate` plus a random delay. */
    function Update(playerX: real, playerY: real, d: ShotDraw): (r: Advance)
      ensures r.enemy == this.(y := y + speed, fireCooldown := r.enemy.fireCooldown)
      ensures r.shot.Some? <==> fireCooldown <= 1 && Aligned(playerX) && y + speed < playerY
      ensures r.shot.Some? ==>
                && r.shot.value.x == x + EnemyWidth / 2.0
                && r.shot.value.y == y + speed + EnemyHeight
                && 4.0 <= r.shot.value.speed < 5.5
                && EnemyFireRate <= r.enemy.fireCooldown < EnemyFireRate + 60
      ensures r.shot.None? ==> r.enemy.fireCooldown == if fireCooldown > 0 then fireCooldown - 1 else fireCooldown
    {
      var y' := y + speed;
      var cooldown := if fireCooldown > 0 then fireCooldown - 1 else fireCooldown;
      if cooldown <= 0 && Aligned(playerX) && y' < playerY then
        var shot := EnemyBullet(x + EnemyWidth / 2.0, y' + EnemyHeight, 4.0 + d.speed * 1.5);
        Advance(this.(y := y', fireCooldown := EnemyFireRate + RandomIndex(d.delay, 60)), Some(shot))
      else
        Advance(this.(y := y', fireCooldown := cooldown), None)
    }

    /** Fully past the bottom edge. */
    predicate Offscreen(canvasHeight: real) { y - EnemyHeight > canvasHeight }
  }

  /** The `Math.random()` values one `spawnEnemy` call draws (the colour's draw has no effect on
      behaviour and is not modelled). */
  datatype SpawnDraw = SpawnDraw(x: Random, speed: Random, subject: Random, cooldown: Random)

  /** `Math.floor(r * n)` for a random r: an index below n. */
  function RandomIndex(r: Random, n: nat): (k: nat)
    requires n > 0
    ensures k < n
  {
    assert r * (n as real) < 1.0 * (n as real);
    (r * (n as real)).Floor
  }

  /** `Math.random() * m` for a non-negative m lies in [0, m]. */
  function RandomScaled(r: Random, m: real): (v: real)
    requires m >= 0.0
    ensures 0.0 <= v <= m
  {
    assert r * m <= 1.0 * m;
    r * m
  }

  /** `spawnEnemy` together with the `Enemy` constructor: a random column, a speed in
      [1.5, 3.7), points `floor(speed * 12)`, a subject label and an initial fire cooldown in
      [40, 120). A canvas narrower than the margin gives a column that is not clamped. */
  function NewEnemy(canvasWidth: real, d: SpawnDraw): (e: Enemy)
    ensures e.y == SpawnY
    ensures 1.5 <= e.speed < 3.7
    ensures e.points as real <= e.speed * 12.0 < e.points as real + 1.0
    ensures 18 <= e.points <= 44
    ensures canvasWidth >= SpawnMargin ==> 0.0 <= e.x <= canvasWidth - SpawnMargin
    ensures e.subject in Subjects
    ensures 40 <= e.fireCooldown < 120
  {
    var speed := 1.5 + d.speed * 2.2;
    var x := if canvasWidth >= SpawnMargin then RandomScaled(d.x, canvasWidth - SpawnMargin)
             else d.x * (canvasWidth - SpawnMargin);
    Enemy(x, SpawnY, speed, (speed * 12.0).Floor,
          Subjects[RandomIndex(d.subject, |Subjects|)], 40 + RandomIndex(d.cooldown, 80))
  }

  /** Number of projectiles an enemy fires over `|ds|` consecutive updates while the player
      stays at (playerX, playerY). */
  function ShotsFired(e: Enemy, playerX: real, playerY: real, ds: seq<ShotDraw>): nat
    decreases |ds|
  {
    if ds == [] then 0
    else
      var a := e.Update(playerX, playerY, ds[0]);
      (if a.shot.Some? then 1 else 0) + ShotsFired(a.enemy, playerX, playerY, ds[1..])
  }

  /** A player projectile only ever moves up, and once past the top edge it stays there. */
  lemma BulletMovesUp(b: Bullet)
    ensures b.Update().x == b.x && b.Update().y < b.y
    ensures b.Offscreen() ==> b.Update().Offscreen()
  {
  }

  /** An enemy projectile with a non-negative speed only ever moves down, and once past the
      bottom edge it stays there. */
  lemma EnemyBulletMovesDown(b: EnemyBullet, canvasHeight: real)
    requires b.speed >= 0.0
    ensures b.Update().x == b.x && b.Update().y >= b.y
    ensures b.Offscreen(canvasHeight) ==> b.Update().Offscreen(canvasHeight)
  {
  }

  /** An enemy whose cooldown is above `|ds|` fires nothing during the next `|ds|` updates. */
  lemma {:induction false} CooldownSilences(e: Enemy, playerX: real, playerY: real, ds: seq<ShotDraw>)
    requires |ds| < e.fireCooldown
    ensures ShotsFired(e, playerX, playerY, ds) == 0
    decreases |ds|
  {
    if ds != [] {
      CooldownSilences(e.Update(playerX, playerY, ds[0]).enemy, playerX, playerY, ds[1..]);
    }
  }

  /** Once an enemy has fired it stays silent for the next `EnemyFireRate - 1` updates: at most
      one projectile per cooldown cycle. */
  lemma OneShotPerCycle(e: Enemy, playerX: real, playerY: real, d: ShotDraw, ds: seq<ShotDraw>)
    requires e.Update(playerX, playerY, d).shot.Some?
    requires |ds| < EnemyFireRate
    ensures ShotsFired(e.Update(playerX, playerY, d).enemy, playerX, playerY, ds) == 0
  {
    CooldownSilences(e.Update(playerX, playerY, d).enemy, playerX, playerY, ds);
  }

  /** An enemy whose centre is outside the tolerance band of a stationary player never fires,
      however many ticks pass. */
  lemma {:induction false} FarEnemyNeverFires(e: Enemy, playerX: real, playerY: real, ds: seq<ShotDraw>)
    requires !e.Aligned(playerX)
    ensures ShotsFired(e, playerX, playerY, ds) == 0
    decreases |ds|
  {
    if ds != [] {
      FarEnemyNeverFires(e.Update(playerX, playerY, ds[0]).enemy, playerX, playerY, ds[1..]);
    }
  }
}
