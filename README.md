# Placement-Hunter game engine, modelled in Dafny

Placement-Hunter is a browser arcade shooter. The player's sprite sits at the bottom of a canvas
and moves sideways. It fires projectiles upward at enemies, each labelled with a college subject,
that descend from the top and fire back. A game lasts one minute. Three periodic callbacks drive it:
a game tick of about 60 Hz, an enemy spawner that runs every 0.9 s, and a one-second countdown. A game
ends when the time runs out or the last life is lost. The result panel then shows a
"placement" tier chosen from the final score.

The project models the engine behind that: the entities and their per-tick updates, the two
collision tests, the three back-to-front removal passes of the game tick, and the lifecycle
(start, end and the tier choice). The modules follow the structure of `script.js`:

- `Basics`: `Option`, `Math.max`/`Math.min`/`Math.abs`, and `splice(i, 1)` on sequences
  (`Remove`).
- `Geometry`: `rectCircleCollide` and `rectRect`, plus what they mean geometrically.
- `Entities`: the `Bullet`, `EnemyBullet` and `Enemy` values with their `update`/`offscreen`
  operations, the constants the source fixes, and `spawnEnemy` (`NewEnemy`).
- `Players`: the value of the player's fields (`PlayerState`) and a pure function for each of
  its methods. The class `Player` updates those fields in place and is proved to follow the
  functions.
- `Results`: the tier choice of `showResult`, as written and corrected.
- `Engine`: the game's globals as a `World` value, and a pure function for each callback and for
  each pass of the game tick. Each pass is an index-recursive function over the back-to-front
  loop.
- `EngineProofs`: what the engine promises, proved about those functions:
  - the score never goes negative;
  - a running game always has a life left;
  - every projectile kills at most one enemy and scores exactly its points;
  - a tick costs at most one life;
  - the lifecycle only moves forward;
  - a minute of countdowns ends the game.
- `GameLoop`: the class `Game`, holding the globals as fields. `Game` runs the three backward
  `splice` loops in place and is proved to leave the exact state that `Engine` computes. Every
  callback is also proved to keep the world invariant of `EngineProofs`.

Randomness comes in as parameters whose values lie in [0, 1), like `Math.random()`:
- `SpawnDraw` holds the values one `spawnEnemy` call draws.
- `ShotDraw` holds the values an enemy draws when it fires. The enemy at index `i` of a tick
  draws `draw(i)`.

The keys held during a tick come in as a `Keys` snapshot. Positions are exact reals.

A game that ends part-way through a tick is modelled as the source behaves. `endGame` is called
from inside `damage`, and the remaining loops of that tick still run. So the score can still
change after the result panel has recorded it: the verdict keeps the score from the moment the
game ended.

The result panel is modelled as the page shows it. `showResult` reads `player.score`, which is
always undefined, so the engine records `Results.ShownTier` of the final score: "TCS" for a score
of 0 or below, and the intended tier otherwise. The intended choice is `Results.ResultTier`, and
`Results.ShownTier` and `EngineProofs.RecordedTierVersusIntended` state how the two relate (see
"## Findings").

The lives counter is not floored at 0 in the code: `damage` simply decrements it
(script.js:62). The model follows the code. `EngineProofs.Inv` proves that lives never go below 0
anyway, because at most one hit per invulnerability window can land and the last one ends the
game.

## Model

| member | source | states |
|---|---|---|
| Basics.Remove | script.js:241-248 | `splice(i, 1)` removes exactly the element at `i`; it keeps the others in order and removes nothing else from the multiset |
| Geometry.RectCircleCollide | script.js:221-227 | a circle whose centre lies in the box collides with it |
| Geometry.RectRect | script.js:229-231 | for boxes of non-negative size, a box whose top-left corner lies in the other overlaps it |
| Geometry.ClampIsNearest | script.js:222-223 | clamping the centre into an interval gives the point of the interval nearest to it |
| Geometry.RectCircleMeansSharedPoint | script.js:221-227 | for a box of non-negative size, `rectCircleCollide` holds iff some point of the closed box lies within distance `cr` of the centre, so touching counts |
| Geometry.CentreInsideCollides | script.js:221-227 | a circle whose centre lies inside the box always collides, whatever its radius |
| Geometry.RectRectSymmetric | script.js:229-231 | `rectRect(a, b) == rectRect(b, a)` |
| Geometry.RectRectMeansSharedPoint | script.js:229-231 | for boxes of non-negative size, `rectRect` holds iff the closed boxes share a point |
| Geometry.SharedEdgeOverlaps | script.js:229-231 | boxes of non-negative size overlap when they touch: one's right edge is the other's left edge and their vertical extents meet, or one's bottom edge is the other's top edge and their horizontal extents meet; this covers every shared edge and corner |
| Entities.Bullet.Update | script.js:83 | a tick moves the projectile straight up by 9 |
| Entities.EnemyBullet.Update | script.js:100 | a tick moves the projectile straight down by its own speed, which stays |
| Entities.Enemy.Update | script.js:125-134 | the enemy descends by its speed and nothing else but its cooldown changes; it fires iff its cooldown has run out, it is aligned within `25 + width/2` and it is above the player; the shot leaves the bottom centre at a speed in [4, 5.5) and the cooldown restarts in [30, 90); without a shot the cooldown counts down |
| Entities.RandomIndex | script.js:114 | `Math.floor(r * n)` for r in [0, 1) is an index below n |
| Entities.RandomScaled | script.js:174 | `Math.random() * m` for m ≥ 0 lies in [0, m] |
| Entities.NewEnemy | script.js:173-179 | a new enemy starts at y = −40 with a speed in [1.5, 3.7); its points are the floor of speed·12, so between 18 and 44; the subject is one of the eleven labels; on a canvas at least 50 wide the column lies in [0, width − 50]; the initial fire cooldown (script.js:114) is in [40, 120) |
| Entities.BulletMovesUp | script.js:83-84 | a player projectile only moves up, and once off the top it stays off |
| Entities.EnemyBulletMovesDown | script.js:100-101 | an enemy projectile with non-negative speed only moves down, and once off the bottom it stays off |
| Entities.CooldownSilences | script.js:127-132 | an enemy whose cooldown exceeds the number of updates fires nothing during them |
| Entities.OneShotPerCycle | script.js:130-132 | after firing, an enemy fires nothing in the next 29 updates |
| Entities.FarEnemyNeverFires | script.js:128-130 | an enemy outside the alignment band of a stationary player never fires |
| Players.Spawned | script.js:26-36 | the new player has 3 lives, no invulnerability and can shoot; its centre is the canvas's horizontal centre and its bottom is 10 above the bottom edge; on a canvas at least 40 wide it lies on the canvas |
| Players.MovedLeft | script.js:45 | only x changes; it moves left by the speed or stops at 0, never beyond |
| Players.MovedRight | script.js:46 | only x changes; it moves right by the speed or stops at `width − 40`, never beyond |
| Players.Shot | script.js:47-52 | with the cooldown running nothing changes; otherwise it appends exactly one projectile at (x + 20, y) and sets the cooldown to 12; either way the player cannot shoot again at once |
| Players.Updated | script.js:53-59 | lives and y are unchanged; invulnerability counts down; with no move key x stays, with only a left key x becomes max(0, x − 5.5), with only a right key min(width − 40, x + 5.5), and with both the left move comes first and then the right move; it fires iff a fire key is held and the cooldown was at most 1, and then the cooldown is 12; a sprite on the canvas stays on it |
| Players.Damaged | script.js:60-63 | while invulnerable, nothing changes; otherwise exactly one life is lost and invulnerability becomes 60 |
| Players.InvulnerabilityRunsDown | script.js:55 | over n ticks, invulnerability drops by n (not below 0) and lives stay |
| Players.InvulnerabilityWindow | script.js:55-63 | after a hit that lands, further hits are absorbed for exactly the next 59 ticks |
| Players.CooldownRunsDown | script.js:54-58 | while the cooldown exceeds the number of ticks, nothing is fired and the cooldown drops by one per tick |
| Players.ShotsAreSpaced | script.js:47-58 | after a shot, the next 11 ticks fire nothing, even with the fire key held |
| Players.StaysOnCanvas | script.js:45-57 | a sprite that starts on the canvas stays on it through any number of ticks |
| Players.MovesStayOnCanvas | script.js:45-46 | `moveLeft` and `moveRight` each keep an x in [0, width − 40] there |
| Players.Player.constructor | script.js:26-36 | the new player is centred, 10 above the bottom edge, ready to fire, with 3 lives and no invulnerability |
| Players.Player.MoveLeft | script.js:45 | updates x in place as `MovedLeft` says |
| Players.Player.MoveRight | script.js:46 | updates x in place as `MovedRight` says |
| Players.Player.Shoot | script.js:48-52 | updates the cooldown and the shared projectile array as `Shot` says |
| Players.Player.Update | script.js:53-59 | updates the fields and the projectile array as `Updated` says |
| Players.Player.Damage | script.js:60-66 | updates lives and invulnerability as `Damaged` says, and reports whether `damage` reaches its `endGame()` call |
| Results.ResultTier | script.js:194-215 | the corrected tier: Berozgari iff score ≤ 0, TCS iff 0 < score < 100, Dream Offer iff score ≥ 400, and one tier per hundred in between |
| Results.TierAsWritten | script.js:197-215 | the tier choice as written: Berozgari iff the value read for `player.score` is a number at most 0 |
| Results.ShownTier | script.js:194-215 | the tier the panel shows for the game's score: TCS for a score of 0 or below and the corrected tier otherwise, so never Berozgari |
| Results.TierMonotone | script.js:197-215 | a higher score never earns a lower tier |
| Results.BerozgariUnreachable | script.js:197 | as written, with `player.score` undefined, Berozgari is never chosen |
| Results.ZeroScoreShowsTcs | script.js:197-202 | as written, a final score of 0 shows TCS, where the corrected choice shows Berozgari |
| Results.CorrectionIsLocal | script.js:197-215 | the written and corrected choices agree for every positive score; reading the game's score in the first test gives the corrected choice |
| Engine.Initial | script.js:14-15 | before the first start the game is idle |
| Engine.StartGame | script.js:141-148 | a fresh player, no projectiles or enemies, score 0, 60 seconds, running, result hidden |
| Engine.EndGame | script.js:163-170 | no effect unless running; otherwise it stops the game and records the current score with the tier the panel shows for it (`ShownTier`) |
| Engine.Countdown | script.js:156-160 | no effect unless running; otherwise one second less, and the game is still running iff time is left; nothing else changes |
| Engine.Spawn | script.js:173-178 | no effect unless running; otherwise one new enemy is appended and nothing else changes |
| Engine.HitPlayer | script.js:60-66 | the player takes the hit; a hit that leaves no life ends the game, recording the current score with its shown tier; nothing else changes |
| Engine.PlayerPhase | script.js:235 | the player update changes only the player and the projectile array |
| Engine.LastHit | script.js:242-250 | the inner scan finds the highest-index enemy the projectile touches, or reports that it touches none |
| Engine.BulletStep | script.js:239-250 | one iteration changes only projectiles, enemies and score, and leaves the projectiles before index i alone |
| Engine.BulletsFrom | script.js:238-252 | the player-projectile pass changes only projectiles, enemies and score |
| Engine.BulletPhase | script.js:238-252 | the whole player-projectile pass changes only projectiles, enemies and score |
| Engine.EnemyStep | script.js:256-264 | one iteration changes only enemies, enemy projectiles, score, player and lifecycle, and leaves the enemies before index i alone |
| Engine.EnemiesFrom | script.js:255-265 | the enemy pass changes only enemies, enemy projectiles, score, player and lifecycle |
| Engine.EnemyPhase | script.js:255-265 | the whole enemy pass changes only enemies, enemy projectiles, score, player and lifecycle |
| Engine.EnemyBulletStep | script.js:269-277 | one iteration changes only enemy projectiles, score, player and lifecycle, and leaves the projectiles before index i alone |
| Engine.EnemyBulletsFrom | script.js:268-278 | the enemy-projectile pass changes only enemy projectiles, score, player and lifecycle |
| Engine.EnemyBulletPhase | script.js:268-278 | the whole enemy-projectile pass changes only enemy projectiles, score, player and lifecycle |
| Engine.Tick | script.js:234-278 | a tick of a stopped game changes nothing; a tick never changes the canvas or the time left |
| EngineProofs.InitialInv | script.js:14-15 | the page as loaded satisfies the world invariant |
| EngineProofs.StartGameInv | script.js:141-148 | a started game satisfies the world invariant |
| EngineProofs.EndGameInv | script.js:163-170 | ending a game keeps the invariant |
| EngineProofs.CountdownInv | script.js:156-160 | the countdown keeps the invariant: a running game has at least one second left |
| EngineProofs.SpawnInv | script.js:173-178 | spawning keeps the invariant: every enemy's points are non-negative |
| EngineProofs.HitPlayerInv | script.js:60-66 | a hit keeps the invariant: lives never go below 0, and a running game has a life |
| EngineProofs.BulletStepInv | script.js:239-250 | one player-projectile iteration keeps the invariant |
| EngineProofs.BulletsFromInv | script.js:238-252 | the player-projectile pass keeps the invariant |
| EngineProofs.EnemyStepInv | script.js:256-264 | one enemy iteration keeps the invariant; the −15 penalty is floored at 0 |
| EngineProofs.EnemiesFromInv | script.js:255-265 | the enemy pass keeps the invariant |
| EngineProofs.EnemyBulletStepInv | script.js:269-277 | one enemy-projectile iteration keeps the invariant; the −8 penalty is floored at 0 |
| EngineProofs.EnemyBulletsFromInv | script.js:268-278 | the enemy-projectile pass keeps the invariant |
| EngineProofs.TickInv | script.js:234-278 | a whole tick keeps the invariant, so the score is never negative |
| EngineProofs.PointsRemove | script.js:245-247 | splicing an enemy out takes exactly its points off the total |
| EngineProofs.BulletStepEffect | script.js:239-250 | an offscreen projectile is dropped with enemies and score untouched; one touching no enemy stays, moved; one touching an enemy removes exactly one enemy it touches, adds exactly that enemy's points and is dropped; earlier projectiles are untouched |
| EngineProofs.BulletStepAccounting | script.js:239-250 | over one iteration, the enemies left are a sub-multiset of those before, the score rises by exactly the points removed, and at most one enemy is lost per projectile consumed |
| EngineProofs.BulletsFromAccounting | script.js:238-252 | the same accounting for the pass from any index down |
| EngineProofs.BulletPhaseAccounting | script.js:238-252 | the same accounting for the whole player-projectile pass |
| EngineProofs.EnemyStepEffect | script.js:256-264 | a shot the enemy fires is appended; an offscreen enemy is dropped and nothing else changes; an enemy ramming a vulnerable player costs exactly one life, opens the 60-tick window, takes 15 off the score (not below 0), ends the game on the last life and is dropped; otherwise it stays, moved |
| EngineProofs.EnemyBulletStepEffect | script.js:269-277 | an offscreen projectile is dropped; one touching the player is dropped and costs 8 points (not below 0) even while the player is invulnerable, but costs a life iff the player is not; otherwise it stays, moved |
| EngineProofs.HitAgain | script.js:61-63 | a second hit right after a landed one is absorbed |
| EngineProofs.EnemiesFromHits | script.js:255-265 | the enemy pass lands at most one hit |
| EngineProofs.EnemyBulletsFromHits | script.js:268-278 | the enemy-projectile pass lands at most one hit |
| EngineProofs.TickCostsAtMostOneLife | script.js:234-278 | a tick costs at most one life however many things touch the player; a lost life leaves invulnerability at 60; the sprite stays on the canvas |
| EngineProofs.EnemiesFromPhase | script.js:255-265 | the enemy pass never moves the lifecycle backwards |
| EngineProofs.EnemyBulletsFromPhase | script.js:268-278 | the enemy-projectile pass never moves the lifecycle backwards |
| EngineProofs.Lifecycle | script.js:141-178 | starting always gives Running; ending turns Running into Ended and leaves other phases; tick and countdown only stay or end; spawning never changes the phase |
| EngineProofs.EndGameIdempotent | script.js:163-165 | ending twice is ending once, and afterwards the game is not running |
| EngineProofs.LastLifeEndsGame | script.js:60-66 | a landed hit on the last life leaves 0 lives, ends the game and records the current score with its shown tier |
| EngineProofs.TimeRunsOut | script.js:156-160 | with t seconds left, the game is still running after t − 1 countdowns and over after t, with its score and the shown tier recorded |
| EngineProofs.QuietGameShowsTcs | script.js:141-160 | a fresh game with no other events ends after 60 countdowns with score 0 shown as TCS, although the intended tier for 0 is Berozgari |
| EngineProofs.RecordedTierVersusIntended | script.js:163-170 | ending a game records its score; the recorded tier is the intended one iff the score is positive, and a score of 0 or below is recorded as TCS |
| GameLoop.Game.constructor | script.js:13-16 | the game starts idle: not running and no result shown; the other fields hold stand-ins (see "## Left out") |
| GameLoop.Game.StartGame | script.js:141-148 | resets the fields in place to `Engine.StartGame` with a fresh player object, and establishes the invariant |
| GameLoop.Game.EndGame | script.js:163-170 | updates the fields to `Engine.EndGame`, recording the shown tier, and keeps the invariant |
| GameLoop.Game.Countdown | script.js:156-160 | updates the fields to `Engine.Countdown` and keeps the invariant |
| GameLoop.Game.SpawnEnemy | script.js:173-178 | appends to the enemy array as `Engine.Spawn` says and keeps the invariant |
| GameLoop.Game.DamagePlayer | script.js:60-66 | damages the player object in place and ends the game as `Engine.HitPlayer` says |
| GameLoop.Game.Tick | script.js:234-278 | runs the player update and the three loops in place, reaching exactly `Engine.Tick`, and keeps the invariant |
| GameLoop.Game.ResolveBullets | script.js:238-252 | the backward loop over the projectile array reaches exactly `Engine.BulletPhase` |
| GameLoop.Game.ResolveBullet | script.js:239-250 | one iteration, including the backward inner scan over enemies, reaches exactly `Engine.BulletStep` |
| GameLoop.Game.ResolveEnemies | script.js:255-265 | the backward loop over the enemy array reaches exactly `Engine.EnemyPhase` |
| GameLoop.Game.ResolveEnemy | script.js:256-264 | one iteration reaches exactly `Engine.EnemyStep` |
| GameLoop.Game.ResolveEnemyBullets | script.js:268-278 | the backward loop over the enemy-projectile array reaches exactly `Engine.EnemyBulletPhase` |
| GameLoop.Game.ResolveEnemyBullet | script.js:269-277 | one iteration reaches exactly `Engine.EnemyBulletStep` |

## Left out

- Drawing: the `draw` methods, the blink at script.js:38, and the clear and redraw at
  script.js:281-285. They only render.
- DOM glue: `updateUI`, `flashDamage`, the result panel's and start button's styling, canvas
  focus and the message strings. The `Verdict` value gives what the panel shows: the tier in its
  title, as `showResult` chooses it as written, and the score in its message. `Results.Title`
  gives the panel titles.
- Values before the first start: script.js:14 leaves `player`, `bullets`, `enemies`,
  `enemyBullets`, `score` and `timeLeft` undefined until `startGame`. `Engine.Initial` and the
  `GameLoop.Game` constructor give them stand-ins: a spawned player, empty arrays, score 0 and
  60 seconds. No callback reads them before the start, because all of them do nothing while the
  game is not running.
- Timers: `setInterval`/`clearInterval` are not modelled. Each callback is a method that the
  caller invokes and that does nothing while the game is stopped, as a cleared interval would.
  How ticks, spawns and countdowns interleave in time is not modelled.
- Restarting while a game runs: starting again would leave the old intervals scheduled. That
  case is not modelled, because the start button is disabled and the restart button is hidden
  while a game runs.
- The keyboard listeners (script.js:289-297): the `keys` table is a `Keys` snapshot passed to each
  tick.
- `Math.random` and `rand`: each random value is a parameter in [0, 1). The enemy colour draw
  (script.js:113) has no behavioural effect and is left out.
- IEEE floating point: positions and speeds are exact reals. `Math.floor` is `.Floor`, which is
  the same on the values it is applied to. No float-exact result is claimed.
- Entities updated in place: `Bullet`, `EnemyBullet` and `Enemy` objects are values here. Their
  in-place `update` replaces the element of the one array that holds it, which is the same
  because each object is held by exactly one array and never aliased. The player, whose object
  is shared by the whole engine, is a class.
- Engine.Tick: its own contract says only that a stopped game is unaffected and that the canvas
  and the time left stay. What a tick does is stated by the lemmas about it
  (`EngineProofs.TickInv`, `EngineProofs.TickCostsAtMostOneLife`, `EngineProofs.Lifecycle`) and
  by the pass lemmas.

## Findings

| source | as written | input that shows it | evidently intended | confidence | as-written member | corrected member |
|---|---|---|---|---|---|---|
| script.js:197 | the first tier test reads `player.score`, a property the player object never has; `undefined <= 0` is false in JavaScript | any game that ends with score 0, for example one where nothing is done for 60 seconds: the panel shows "TCS", and the "Berozgari" branch can never be taken | the test reads the game's `score`, like the tests after it, so a score of 0 or less shows "Berozgari" | high, not executed | Results.TierAsWritten, Results.ShownTier (Results.BerozgariUnreachable, Results.ZeroScoreShowsTcs, EngineProofs.QuietGameShowsTcs) | Results.ResultTier (Results.TierMonotone, Results.CorrectionIsLocal, EngineProofs.RecordedTierVersusIntended); the engine records `Results.ShownTier`, as the page shows it, and the last lemma relates the two |
