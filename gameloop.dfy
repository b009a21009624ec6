/** The game's globals as one object whose callbacks update it in place (script.js: `startGame`,
    `endGame`, `spawnEnemy`, the countdown callback and `gameLoop`). Every method is proved to
    leave the object in the state the matching `Engine` function computes. */
module GameLoop {
  import opened Basics
  import opened Geometry
  import opened Entities
  import opened Players
  import opened Results
  import opened Engine
  import EngineProofs

  class Game {
    const canvas: Canvas
    var player: Player
    var bullets: seq<Bullet>
    var enemies: seq<Enemy>
    var enemyBullets: seq<EnemyBullet>
    var score: int
    var timeLeft: int
    var running: bool
    var verdict: Option<Verdict>

    ghost predicate Valid()
      reads this, player
    {
      player.canvasWidth == canvas.width
    }

    /** The object's state as a value. */
    function View(): World
      reads this, player
    {
      World(canvas, player.State(), bullets, enemies, enemyBullets, score, timeLeft, running, verdict)
    }

    constructor (c: Canvas)
      ensures Valid() && View() == Initial(c)
    {
      canvas := c;
      player := new Player(c);
      bullets, enemies, enemyBullets := [], [], [];
      score, timeLeft := 0, GameSeconds;
      running, verdict := false, None;
    }

    method StartGame()
      modifies this
      ensures Valid() && fresh(player)
      ensures View() == Engine.StartGame(old(View()))
      ensures EngineProofs.Inv(View())
    {
      player := new Player(canvas);
      bullets, enemies, enemyBullets := [], [], [];
      score := 0;
      timeLeft := GameSeconds;
      running := true;
      verdict := None;
    }

    method EndGame()
      requires Valid()
      modifies this
      ensures Valid()
      ensures player == old(player)
      ensures View() == Engine.EndGame(old(View()))
      ensures EngineProofs.Inv(old(View())) ==> EngineProofs.Inv(View())
    {
      if !running {
        return;
      }
      running := false;
      verdict := Some(Verdict(ShownTier(score), score));
    }

    /** The countdown callback. */
    method Countdown()
      requires Valid()
      modifies this
      ensures Valid()
      ensures player == old(player)
      ensures View() == Engine.Countdown(old(View()))
      ensures EngineProofs.Inv(old(View())) ==> EngineProofs.Inv(View())
    {
      if EngineProofs.Inv(View()) {
        EngineProofs.CountdownInv(View());
      }
      if !running {
        return;
      }
      timeLeft := timeLeft - 1;
      if timeLeft <= 0 {
        EndGame();
      }
    }

    /** The spawner callback. */
    method SpawnEnemy(d: SpawnDraw)
      requires Valid()
      modifies this
      ensures Valid()
      ensures player == old(player)
      ensures View() == Engine.Spawn(old(View()), d)
      ensures EngineProofs.Inv(old(View())) ==> EngineProofs.Inv(View())
    {
      if EngineProofs.Inv(View()) {
        EngineProofs.SpawnInv(View(), d);
      }
      if !running {
        return;
      }
      enemies := enemies + [NewEnemy(canvas.width, d)];
    }

    /** `player.damage()`, with its call of `endGame()`. */
    method DamagePlayer()
      requires Valid()
      modifies this, player
      ensures Valid()
      ensures player == old(player)
      ensures View() == HitPlayer(old(View()))
    {
      var knockedOut := player.Damage();
      if knockedOut {
        EndGame();
      }
    }

    /** `gameLoop`: player update, then the three loops at script.js:238-278. */
    method Tick(keys: Keys, draw: nat -> ShotDraw)
      requires Valid()
      modifies this, player
      ensures Valid() && player == old(player)
      ensures View() == Engine.Tick(old(View()), keys, draw)
      ensures EngineProofs.Inv(old(View())) ==> EngineProofs.Inv(View())
    {
      if EngineProofs.Inv(View()) {
        EngineProofs.TickInv(View(), keys, draw);
      }
      if !running {
        return;
      }
      bullets := player.Update(keys, bullets);
      assert View() == PlayerPhase(old(View()), keys);
      ResolveBullets();
      ResolveEnemies(draw);
      ResolveEnemyBullets();
    }

    /** The player-projectile loop. */
    method ResolveBullets()
      requires Valid()
      modifies this
      ensures Valid()
      ensures player == old(player)
      ensures View() == BulletPhase(old(View()))
    {
      ghost var target := BulletPhase(View());
      ghost var w := View();
      var i := |bullets|;
      while i > 0
        invariant player == old(player) && w == View()
        invariant 0 <= i <= |w.bullets| && BulletsFrom(w, i) == target
      {
        i := i - 1;
        ResolveBullet(i);
        BulletsFromUnfold(w, View(), i);
        w := View();
      }
    }

    /** One iteration of the player-projectile loop, on the projectile at index i. */
    method ResolveBullet(i: nat)
      requires i < |bullets|
      requires Valid()
      modifies this
      ensures Valid()
      ensures player == old(player)
      ensures View() == BulletStep(old(View()), i)
    {
      var b := bullets[i].Update();
      bullets := bullets[i := b];
      if b.Offscreen() {
        bullets := Remove(bullets, i);
        return;
      }
      ghost var bullets0, enemies0, score0 := bullets, enemies, score;
      var j := |enemies|;
      while j > 0
        invariant 0 <= j <= |enemies|
        invariant bullets == bullets0 && enemies == enemies0 && score == score0
        invariant forall k :: j <= k < |enemies| ==> !Struck(enemies[k], b)
      {
        j := j - 1;
        var e := enemies[j];
        if RectCircleCollide(e.x, e.y, EnemyWidth, EnemyHeight, b.x, b.y, BulletRadius) {
          assert LastHit(b, enemies) == Some(j);
          score := score + e.points;
          enemies := Remove(enemies, j);
          bullets := Remove(bullets, i);
          return;
        }
      }
      assert LastHit(b, enemies) == None;
    }

    /** The enemy loop; the enemy at index i draws `draw(i)` if it fires. */
    method ResolveEnemies(draw: nat -> ShotDraw)
      requires Valid()
      modifies this, player
      ensures Valid()
      ensures player == old(player)
      ensures View() == EnemyPhase(old(View()), draw)
    {
      ghost var target := EnemyPhase(View(), draw);
      ghost var w := View();
      var i := |enemies|;
      while i > 0
        invariant player == old(player) && w == View()
        invariant 0 <= i <= |w.enemies| && EnemiesFrom(w, i, draw) == target
      {
        i := i - 1;
        ResolveEnemy(i, draw(i));
        EnemiesFromUnfold(w, View(), i, draw);
        w := View();
      }
    }

    /** One iteration of the enemy loop, on the enemy at index i. */
    method ResolveEnemy(i: nat, d: ShotDraw)
      requires i < |enemies|
      requires Valid()
      modifies this, player
      ensures Valid()
      ensures player == old(player)
      ensures View() == EnemyStep(old(View()), i, d)
    {
      var a := enemies[i].Update(player.x, player.y, d);
      var e := a.enemy;
      enemies := enemies[i := e];
      if a.shot.Some? {
        enemyBullets := enemyBullets + [a.shot.value];
      }
      if e.Offscreen(canvas.height) {
        enemies := Remove(enemies, i);
      } else if RectRect(e.Box(), player.State().Box()) && player.hitInvul <= 0 {
        DamagePlayer();
        score := IntMax(0, score - ContactPenalty);
        enemies := Remove(enemies, i);
      }
    }

    /** The enemy-projectile loop. */
    method ResolveEnemyBullets()
      requires Valid()
      modifies this, player
      ensures Valid()
      ensures player == old(player)
      ensures View() == EnemyBulletPhase(old(View()))
    {
      ghost var target := EnemyBulletPhase(View());
      ghost var w := View();
      var i := |enemyBullets|;
      while i > 0
        invariant player == old(player) && w == View()
        invariant 0 <= i <= |w.enemyBullets| && EnemyBulletsFrom(w, i) == target
      {
        i := i - 1;
        ResolveEnemyBullet(i);
        EnemyBulletsFromUnfold(w, View(), i);
        w := View();
      }
    }

    /** One iteration of the enemy-projectile loop, on the projectile at index i. */
    method ResolveEnemyBullet(i: nat)
      requires i < |enemyBullets|
      requires Valid()
      modifies this, player
      ensures Valid()
      ensures player == old(player)
      ensures View() == EnemyBulletStep(old(View()), i)
    {
      var b := enemyBullets[i].Update();
      enemyBullets := enemyBullets[i := b];
      if b.Offscreen(canvas.height) {
        enemyBullets := Remove(enemyBullets, i);
      } else if RectCircleCollide(player.x, player.y, PlayerWidth, PlayerHeight, b.x, b.y, EnemyBulletRadius) {
        DamagePlayer();
        enemyBullets := Remove(enemyBullets, i);
        score := IntMax(0, score - HitPenalty);
      }
    }
  }
}
