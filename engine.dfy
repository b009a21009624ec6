/** The game's world and its periodic callbacks as functions on values (script.js: the globals,
    `startGame`, `endGame`, `spawnEnemy`, the countdown callback and `gameLoop`). The class
    `GameLoop.Game` runs the same steps in place and is proved to agree with these functions;
    `EngineProofs` proves what they promise. */
module Engine {
  import opened Basics
  import opened Geometry
  import opened Entities
  import opened Players
  import opened Results

  /** Score lost when an enemy rams the player. */
  const ContactPenalty: int := 15
  /** Score lost when an enemy projectile hits the player. */
  const HitPenalty: int := 8
  /** Length of a game in countdown ticks (seconds). */
  const GameSeconds: int := 60

  /** The game's global state. `running` is `gameRunning`; the three periodic callbacks are
      scheduled exactly while it holds. `verdict` is the result panel: `None` while hidden. */
  datatype World = World(
    canvas: Canvas,
    player: PlayerState,
    bullets: seq<Bullet>,
    enemies: seq<Enemy>,
    enemyBullets: seq<EnemyBullet>,
    score: int,
    timeLeft: int,
    running: bool,
    verdict: Option<Verdict>)

  /** The lifecycle: no game yet, a game in progress, a game over with its result shown. */
  datatype Phase = Idle | Running | Ended

  function PhaseOf(w: World): Phase
  {
    if w.running then Running else if w.verdict.None? then Idle else Ended
  }

  /** The page as loaded, before the start button is pressed. */
  function Initial(c: Canvas): (w: World)
    ensures PhaseOf(w) == Idle
  {
    World(c, Spawned(c), [], [], [], 0, GameSeconds, false, None)
  }

  /** `startGame`: a fresh player, no projectiles or enemies, score 0, a full minute, running,
      result panel hidden. */
  function StartGame(w: World): (r: World)
    ensures PhaseOf(r) == Running && r.canvas == w.canvas
    ensures r.bullets == [] && r.enemies == [] && r.enemyBullets == []
    ensures r.score == 0 && r.timeLeft == GameSeconds && r.player == Spawned(w.canvas)
    ensures r.running && r.verdict == None
  {
    World(w.canvas, Spawned(w.canvas), [], [], [], 0, GameSeconds, true, None)
  }

  /** `endGame`: does nothing unless a game is running; otherwise stops it and shows the tier
      of the score at that moment. */
  function EndGame(w: World): (r: World)
    ensures !r.running
    ensures !w.running ==> r == w
    ensures w.running ==> r == w.(running := false, verdict := Some(Verdict(ShownTier(w.score), w.score)))
  {
    if !w.running then w
    else w.(running := false, verdict := Some(Verdict(ShownTier(w.score), w.score)))
  }

  /** The countdown callback: one second less, and the game ends when none is left. */
  function Countdown(w: World): (r: World)
    ensures !w.running ==> r == w
    ensures w.running ==> r.timeLeft == w.timeLeft - 1 && (r.running <==> r.timeLeft > 0)
    ensures r == w.(timeLeft := r.timeLeft, running := r.running, verdict := r.verdict)
  {
    if !w.running then w
    else
      var w1 := w.(timeLeft := w.timeLeft - 1);
      if w1.timeLeft <= 0 then EndGame(w1) else w1
  }

  /** The spawner callback: one new enemy at the top. */
  function Spawn(w: World, d: SpawnDraw): (r: World)
    ensures !w.running ==> r == w
    ensures w.running ==> r.enemies == w.enemies + [NewEnemy(w.canvas.width, d)]
    ensures r == w.(enemies := r.enemies)
  {
    if !w.running then w
    else w.(enemies := w.enemies + [NewEnemy(w.canvas.width, d)])
  }

  /** `player.damage()` seen from the world: the player takes the hit, and a hit that leaves no
      life ends the game. Nothing but the player and the lifecycle changes. */
  function HitPlayer(w: World): (r: World)
    ensures r.player == Damaged(w.player)
    ensures r.running == (w.running && !KnockedOut(w.player))
    ensures r.verdict == if w.running && KnockedOut(w.player) then Some(Verdict(ShownTier(w.score), w.score)) else w.verdict
    ensures r == w.(player := r.player, running := r.running, verdict := r.verdict)
  {
    var w1 := w.(player := Damaged(w.player));
    if KnockedOut(w.player) then EndGame(w1) else w1
  }

  /** Step 1 of a tick: `player.update()`. */
  function PlayerPhase(w: World, keys: Keys): (r: World)
    ensures r == w.(player := r.player, bullets := r.bullets)
  {
    var a := Updated(w.player, keys, w.canvas.width, w.bullets);
    w.(player := a.player, bullets := a.bullets)
  }

  /** A player projectile touches an enemy's box. */
  predicate Struck(e: Enemy, b: Bullet)
  {
    RectCircleCollide(e.x, e.y, EnemyWidth, EnemyHeight, b.x, b.y, BulletRadius)
  }

  /** The enemy a projectile hits first when the enemies are scanned from the back of the array:
      the highest index whose box the projectile touches. */
  function LastHit(b: Bullet, es: seq<Enemy>): (r: Option<nat>)
    ensures r.Some? ==> r.value < |es| && Struck(es[r.value], b)
    ensures r.Some? ==> forall k :: r.value < k < |es| ==> !Struck(es[k], b)
    ensures r.None? ==> forall k :: 0 <= k < |es| ==> !Struck(es[k], b)
    decreases |es|
  {
    if es == [] then None
    else if Struck(es[|es| - 1], b) then Some(|es| - 1)
    else LastHit(b, es[..|es| - 1])
  }

  /** One iteration of the player-projectile loop, on the projectile at index i: move it; drop it
      if it left the canvas; otherwise, if it hits an enemy, score that enemy's points and drop
      both. */
  function BulletStep(w: World, i: nat): (r: World)
    requires i < |w.bullets|
    ensures i <= |r.bullets| && r.bullets[..i] == w.bullets[..i]
    ensures r == w.(bullets := r.bullets, enemies := r.enemies, score := r.score)
  {
    var b := w.bullets[i].Update();
    var bs := w.bullets[i := b];
    if b.Offscreen() then w.(bullets := Remove(bs, i))
    else
      match LastHit(b, w.enemies)
      case None => w.(bullets := bs)
      case Some(j) => w.(score := w.score + w.enemies[j].points, enemies := Remove(w.enemies, j), bullets := Remove(bs, i))
  }

  /** The player-projectile loop run over indices k - 1 down to 0. */
  function BulletsFrom(w: World, k: nat): (r: World)
    requires k <= |w.bullets|
    ensures r == w.(bullets := r.bullets, enemies := r.enemies, score := r.score)
    decreases k
  {
    if k == 0 then w else BulletsFrom(BulletStep(w, k - 1), k - 1)
  }

  lemma BulletsFromUnfold(w: World, w': World, i: nat)
    requires i < |w.bullets| && w' == BulletStep(w, i)
    ensures i <= |w'.bullets| && BulletsFrom(w', i) == BulletsFrom(w, i + 1)
  {
  }

  /** Step 2 of a tick: the player-projectile loop over the whole array, back to front. */
  function BulletPhase(w: World): (r: World)
    ensures r == w.(bullets := r.bullets, enemies := r.enemies, score := r.score)
  {
    BulletsFrom(w, |w.bullets|)
  }

  function ShotList(shot: Option<EnemyBullet>): seq<EnemyBullet>
  {
    if shot.Some? then [shot.value] else []
  }

  /** One iteration of the enemy loop, on the enemy at index i: move it (it may fire); drop it if
      it left the canvas; otherwise, if it rams a vulnerable player, damage the player, take
      `ContactPenalty` off the score (not below 0) and drop the enemy. */
  function EnemyStep(w: World, i: nat, d: ShotDraw): (r: World)
    requires i < |w.enemies|
    ensures i <= |r.enemies| && r.enemies[..i] == w.enemies[..i]
    ensures r == w.(enemies := r.enemies, enemyBullets := r.enemyBullets, score := r.score,
                    player := r.player, running := r.running, verdict := r.verdict)
  {
    var a := w.enemies[i].Update(w.player.x, w.player.y, d);
    var e := a.enemy;
    var es := w.enemies[i := e];
    var w1 := w.(enemies := es, enemyBullets := w.enemyBullets + ShotList(a.shot));
    if e.Offscreen(w.canvas.height) then w1.(enemies := Remove(es, i))
    else if RectRect(e.Box(), w.player.Box()) && w.player.hitInvul <= 0 then
      var w2 := HitPlayer(w1);
      w2.(score := IntMax(0, w2.score - ContactPenalty), enemies := Remove(es, i))
    else w1
  }

  /** The enemy loop run over indices k - 1 down to 0; the enemy at index i draws `draw(i)`. */
  function EnemiesFrom(w: World, k: nat, draw: nat -> ShotDraw): (r: World)
    requires k <= |w.enemies|
    ensures r == w.(enemies := r.enemies, enemyBullets := r.enemyBullets, score := r.score,
                    player := r.player, running := r.running, verdict := r.verdict)
    decreases k
  {
    if k == 0 then w else EnemiesFrom(EnemyStep(w, k - 1, draw(k - 1)), k - 1, draw)
  }

  lemma EnemiesFromUnfold(w: World, w': World, i: nat, draw: nat -> ShotDraw)
    requires i < |w.enemies| && w' == EnemyStep(w, i, draw(i))
    ensures i <= |w'.enemies| && EnemiesFrom(w', i, draw) == EnemiesFrom(w, i + 1, draw)
  {
  }

  /** Step 3 of a tick: the enemy loop over the whole array, back to front. */
  function EnemyPhase(w: World, draw: nat -> ShotDraw): (r: World)
    ensures r == w.(enemies := r.enemies, enemyBullets := r.enemyBullets, score := r.score,
                    player := r.player, running := r.running, verdict := r.verdict)
  {
    EnemiesFrom(w, |w.enemies|, draw)
  }

  /** An enemy projectile touches the player's box. */
  predicate PlayerStruck(p: PlayerState, b: EnemyBullet)
  {
    RectCircleCollide(p.x, p.y, PlayerWidth, PlayerHeight, b.x, b.y, EnemyBulletRadius)
  }

  /** One iteration of the enemy-projectile loop, on the projectile at index i: move it; drop it
      if it left the canvas; otherwise, if it touches the player, call `damage` (which does
      nothing while the player is invulnerable), drop the projectile and take `HitPenalty` off
      the score (not below 0). */
  function EnemyBulletStep(w: World, i: nat): (r: World)
    requires i < |w.enemyBullets|
    ensures i <= |r.enemyBullets| && r.enemyBullets[..i] == w.enemyBullets[..i]
    ensures r == w.(enemyBullets := r.enemyBullets, score := r.score,
                    player := r.player, running := r.running, verdict := r.verdict)
  {
    var b := w.enemyBullets[i].Update();
    var bs := w.enemyBullets[i := b];
    if b.Offscreen(w.canvas.height) then w.(enemyBullets := Remove(bs, i))
    else if PlayerStruck(w.player, b) then
      var w2 := HitPlayer(w.(enemyBullets := bs));
      w2.(enemyBullets := Remove(bs, i), score := IntMax(0, w2.score - HitPenalty))
    else w.(enemyBullets := bs)
  }

  /** The enemy-projectile loop run over indices k - 1 down to 0. */
  function EnemyBulletsFrom(w: World, k: nat): (r: World)
    requires k <= |w.enemyBullets|
    ensures r == w.(enemyBullets := r.enemyBullets, score := r.score,
                    player := r.player, running := r.running, verdict := r.verdict)
    decreases k
  {
    if k == 0 then w else EnemyBulletsFrom(EnemyBulletStep(w, k - 1), k - 1)
  }

  lemma EnemyBulletsFromUnfold(w: World, w': World, i: nat)
    requires i < |w.enemyBullets| && w' == EnemyBulletStep(w, i)
    ensures i <= |w'.enemyBullets| && EnemyBulletsFrom(w', i) == EnemyBulletsFrom(w, i + 1)
  {
  }

  /** Step 4 of a tick: the enemy-projectile loop over the whole array, back to front. */
  function EnemyBulletPhase(w: World): (r: World)
    ensures r == w.(enemyBullets := r.enemyBullets, score := r.score,
                    player := r.player, running := r.running, verdict := r.verdict)
  {
    EnemyBulletsFrom(w, |w.enemyBullets|)
  }

  /** `gameLoop` without the redraw. It only runs while the game is running (its interval is
      cleared by `endGame`); a game that ends part-way through still finishes the tick. */
  function Tick(w: World, keys: Keys, draw: nat -> ShotDraw): (r: World)
    ensures !w.running ==> r == w
    ensures r.canvas == w.canvas && r.timeLeft == w.timeLeft
  {
    if !w.running then w
    else EnemyBulletPhase(EnemyPhase(BulletPhase(PlayerPhase(w, keys)), draw))
  }
}
