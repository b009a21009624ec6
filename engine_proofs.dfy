/** What the engine promises, proved about the functions of `Engine`: the score never goes
    negative and lives never run out while a game runs, each projectile kills at most one enemy
    and scores exactly its points, a tick costs at most one life, the lifecycle only moves
    Idle -> Running -> Ended -> Running, and an untouched game ends when its minute is up. */
module EngineProofs {
  import opened Basics
  import opened Geometry
  import opened Entities
  import opened Players
  import opened Results
  import opened Engine

  // ---------------------------------------------------------------------------------------
  // The world invariant

  /** Every enemy is worth a non-negative number of points. */
  ghost predicate PointsNonNegative(es: seq<Enemy>)
  {
    forall k :: 0 <= k < |es| ==> es[k].points >= 0
  }

  /** The score is never negative; lives never drop below 0, a running game has a life and a
      second left, and a player without lives is still inside the window opened by the hit
      that took the last one. */
  ghost predicate Inv(w: World)
  {
    && w.score >= 0
    && PointsNonNegative(w.enemies)
    && w.player.lives >= 0
    && (w.player.lives == 0 ==> w.player.hitInvul > 0)
    && (w.running ==> w.player.lives >= 1 && w.timeLeft >= 1)
  }

  lemma InitialInv(c: Canvas)
    ensures Inv(Initial(c))
  {
  }

  lemma StartGameInv(w: World)
    ensures Inv(StartGame(w))
  {
  }

  lemma EndGameInv(w: World)
    requires Inv(w)
    ensures Inv(EndGame(w))
  {
  }

  lemma CountdownInv(w: World)
    requires Inv(w)
    ensures Inv(Countdown(w))
  {
  }

  lemma SpawnInv(w: World, d: SpawnDraw)
    requires Inv(w)
    ensures Inv(Spawn(w, d))
  {
    var e := NewEnemy(w.canvas.width, d);
    assert e.points >= 18;
  }

  /** A hit either is ignored or costs exactly one life; the last life ends the game. */
  lemma HitPlayerInv(w: World)
    requires Inv(w)
    ensures Inv(HitPlayer(w))
  {
  }

  lemma RemovePointsNonNegative(es: seq<Enemy>, j: nat)
    requires j < |es| && PointsNonNegative(es)
    ensures PointsNonNegative(Remove(es, j))
  {
    var r := Remove(es, j);
    forall k | 0 <= k < |r| ensures r[k].points >= 0 {
      if k < j { assert r[k] == es[k]; } else { assert r[k] == es[k + 1]; }
    }
  }

  lemma BulletStepInv(w: World, i: nat)
    requires i < |w.bullets| && Inv(w)
    ensures Inv(BulletStep(w, i))
  {
    var b := w.bullets[i].Update();
    if !b.Offscreen() && LastHit(b, w.enemies).Some? {
      RemovePointsNonNegative(w.enemies, LastHit(b, w.enemies).value);
    }
  }

  lemma {:induction false} BulletsFromInv(w: World, k: nat)
    requires k <= |w.bullets| && Inv(w)
    ensures Inv(BulletsFrom(w, k))
    decreases k
  {
    if k > 0 {
      BulletStepInv(w, k - 1);
      BulletsFromInv(BulletStep(w, k - 1), k - 1);
    }
  }

  lemma EnemyStepInv(w: World, i: nat, d: ShotDraw)
    requires i < |w.enemies| && Inv(w)
    ensures Inv(EnemyStep(w, i, d))
  {
    var e := w.enemies[i].Update(w.player.x, w.player.y, d).enemy;
    var es := w.enemies[i := e];
    assert PointsNonNegative(es);
    RemovePointsNonNegative(es, i);
    HitPlayerInv(w.(enemies := es, enemyBullets := EnemyStep(w, i, d).enemyBullets));
  }

  lemma {:induction false} EnemiesFromInv(w: World, k: nat, draw: nat -> ShotDraw)
    requires k <= |w.enemies| && Inv(w)
    ensures Inv(EnemiesFrom(w, k, draw))
    decreases k
  {
    if k > 0 {
      EnemyStepInv(w, k - 1, draw(k - 1));
      EnemiesFromInv(EnemyStep(w, k - 1, draw(k - 1)), k - 1, draw);
    }
  }

  lemma EnemyBulletStepInv(w: World, i: nat)
    requires i < |w.enemyBullets| && Inv(w)
    ensures Inv(EnemyBulletStep(w, i))
  {
    var b := w.enemyBullets[i].Update();
    HitPlayerInv(w.(enemyBullets := w.enemyBullets[i := b]));
  }

  lemma {:induction false} EnemyBulletsFromInv(w: World, k: nat)
    requires k <= |w.enemyBullets| && Inv(w)
    ensures Inv(EnemyBulletsFrom(w, k))
    decreases k
  {
    if k > 0 {
      EnemyBulletStepInv(w, k - 1);
      EnemyBulletsFromInv(EnemyBulletStep(w, k - 1), k - 1);
    }
  }

  /** A whole tick keeps the invariant: in particular the score stays non-negative, since kills
      add non-negative points and both penalties are floored at 0. */
  lemma TickInv(w: World, keys: Keys, draw: nat -> ShotDraw)
    requires Inv(w)
    ensures Inv(Tick(w, keys, draw))
  {
    if w.running {
      var w1 := PlayerPhase(w, keys);
      assert Inv(w1);
      BulletsFromInv(w1, |w1.bullets|);
      var w2 := BulletPhase(w1);
      EnemiesFromInv(w2, |w2.enemies|, draw);
      var w3 := EnemyPhase(w2, draw);
      EnemyBulletsFromInv(w3, |w3.enemyBullets|);
    }
  }

  // ---------------------------------------------------------------------------------------
  // The player-projectile pass

  /** Total points of a sequence of enemies. */
  function Points(es: seq<Enemy>): int
    decreases |es|
  {
    if es == [] then 0 else Points(es[..|es| - 1]) + es[|es| - 1].points
  }

  lemma {:induction false} PointsConcat(a: seq<Enemy>, b: seq<Enemy>)
    ensures Points(a + b) == Points(a) + Points(b)
    decreases |b|
  {
    if b == [] {
      assert a + b == a;
    } else {
      var c := a + b;
      assert c[..|c| - 1] == a + b[..|b| - 1];
      assert c[|c| - 1] == b[|b| - 1];
      PointsConcat(a, b[..|b| - 1]);
    }
  }

  lemma PointsSingle(e: Enemy)
    ensures Points([e]) == e.points
  {
    assert [e][..0] == [];
  }

  lemma PointsSplice(pre: seq<Enemy>, e: Enemy, post: seq<Enemy>)
    ensures Points(pre + [e] + post) == Points(pre + post) + e.points
  {
    PointsConcat(pre + [e], post);
    PointsConcat(pre, [e]);
    PointsConcat(pre, post);
    PointsSingle(e);
  }

  /** Splicing an enemy out takes exactly its points off the total. */
  lemma PointsRemove(es: seq<Enemy>, j: nat)
    requires j < |es|
    ensures Points(Remove(es, j)) == Points(es) - es[j].points
  {
    SplitAt(es, j);
    PointsSplice(es[..j], es[j], es[j + 1..]);
  }

  /** The projectile at index i, once moved: off the top, it is dropped and nothing else
      changes; touching no enemy, it stays in place and nothing else changes; touching some
      enemy, exactly one enemy it touches is spliced out, the score rises by exactly that
      enemy's points and the projectile is dropped. The projectiles before index i are never
      touched. */
  lemma BulletStepEffect(w: World, i: nat)
    requires i < |w.bullets|
    ensures var b := w.bullets[i].Update();
            var r := BulletStep(w, i);
            && r.bullets[..i] == w.bullets[..i]
            && (b.Offscreen() ==>
                  r.bullets == Remove(w.bullets, i) && r.enemies == w.enemies && r.score == w.score)
            && (!b.Offscreen() && (forall k :: 0 <= k < |w.enemies| ==> !Struck(w.enemies[k], b)) ==>
                  r.bullets == w.bullets[i := b] && r.enemies == w.enemies && r.score == w.score)
            && (!b.Offscreen() && (exists k :: 0 <= k < |w.enemies| && Struck(w.enemies[k], b)) ==>
                  r.bullets == Remove(w.bullets, i) &&
                  exists j :: 0 <= j < |w.enemies| && Struck(w.enemies[j], b) &&
                    r.enemies == Remove(w.enemies, j) && r.score == w.score + w.enemies[j].points)
  {
    var b := w.bullets[i].Update();
    RemoveUpdated(w.bullets, i, b);
    if !b.Offscreen() {
      match LastHit(b, w.enemies)
      case None =>
      case Some(j) =>
        assert Struck(w.enemies[j], b);
    }
  }

  /** Over one step, the enemies lost are a sub-multiset of those before, the score rises by
      exactly their points, and no more enemies are lost than projectiles. */
  lemma BulletStepAccounting(w: World, i: nat)
    requires i < |w.bullets|
    ensures var r := BulletStep(w, i);
            && multiset(r.enemies) <= multiset(w.enemies)
            && r.score == w.score + Points(w.enemies) - Points(r.enemies)
            && |r.bullets| <= |w.bullets|
            && |w.enemies| - |r.enemies| <= |w.bullets| - |r.bullets|
  {
    var b := w.bullets[i].Update();
    if !b.Offscreen() {
      match LastHit(b, w.enemies)
      case None =>
      case Some(j) => PointsRemove(w.enemies, j);
    }
  }

  /** The player-projectile pass, from index k - 1 down: the enemies left are a sub-multiset of
      those before, the score rises by exactly the points of the enemies spliced out, and at most
      one enemy is lost per projectile consumed. */
  lemma {:induction false} BulletsFromAccounting(w: World, k: nat)
    requires k <= |w.bullets|
    ensures var r := BulletsFrom(w, k);
            && multiset(r.enemies) <= multiset(w.enemies)
            && r.score == w.score + Points(w.enemies) - Points(r.enemies)
            && |r.bullets| <= |w.bullets|
            && |w.enemies| - |r.enemies| <= |w.bullets| - |r.bullets|
    decreases k
  {
    if k > 0 {
      BulletStepAccounting(w, k - 1);
      BulletsFromAccounting(BulletStep(w, k - 1), k - 1);
    }
  }

  lemma BulletPhaseAccounting(w: World)
    ensures var r := BulletPhase(w);
            && multiset(r.enemies) <= multiset(w.enemies)
            && r.score == w.score + Points(w.enemies) - Points(r.enemies)
            && |w.enemies| - |r.enemies| <= |w.bullets| - |r.bullets|
  {
    BulletsFromAccounting(w, |w.bullets|);
  }

  // ---------------------------------------------------------------------------------------
  // The enemy and enemy-projectile passes

  /** The enemy at index i, once moved: whatever happens next, the projectile it fired (if any)
      is appended. Off the bottom, it is dropped and nothing else changes. Ramming a vulnerable
      player, it costs exactly one life, opens the invulnerability window, takes
      `ContactPenalty` off the score but not below 0, ends the game on the last life, and is
      dropped. Otherwise it stays in place, moved, and nothing else changes. */
  lemma EnemyStepEffect(w: World, i: nat, d: ShotDraw)
    requires i < |w.enemies|
    ensures var a := w.enemies[i].Update(w.player.x, w.player.y, d);
            var e := a.enemy;
            var r := EnemyStep(w, i, d);
            && r.enemies[..i] == w.enemies[..i]
            && r.enemyBullets == w.enemyBullets + ShotList(a.shot)
            && (e.Offscreen(w.canvas.height) ==>
                  r.enemies == Remove(w.enemies, i) && r.player == w.player && r.score == w.score &&
                  r.running == w.running)
            && (!e.Offscreen(w.canvas.height) && RectRect(e.Box(), w.player.Box()) && w.player.hitInvul <= 0 ==>
                  && r.enemies == Remove(w.enemies, i)
                  && r.player == w.player.(lives := w.player.lives - 1, hitInvul := InvulnerableTicks)
                  && r.score == IntMax(0, w.score - ContactPenalty)
                  && (r.running <==> w.running && w.player.lives > 1))
            && (!e.Offscreen(w.canvas.height) && !(RectRect(e.Box(), w.player.Box()) && w.player.hitInvul <= 0) ==>
                  r.enemies == w.enemies[i := e] && r.player == w.player && r.score == w.score &&
                  r.running == w.running)
  {
    var e := w.enemies[i].Update(w.player.x, w.player.y, d).enemy;
    RemoveUpdated(w.enemies, i, e);
  }

  /** The enemy projectile at index i, once moved: off the bottom, it is dropped and nothing else
      changes. Touching the player, it is dropped and costs `HitPenalty` (not below 0) even while
      the player is invulnerable, but a life only when the player is not. Otherwise it stays in
      place, moved. */
  lemma EnemyBulletStepEffect(w: World, i: nat)
    requires i < |w.enemyBullets|
    ensures var b := w.enemyBullets[i].Update();
            var r := EnemyBulletStep(w, i);
            && r.enemyBullets[..i] == w.enemyBullets[..i]
            && (b.Offscreen(w.canvas.height) ==>
                  r.enemyBullets == Remove(w.enemyBullets, i) && r.player == w.player && r.score == w.score)
            && (!b.Offscreen(w.canvas.height) && PlayerStruck(w.player, b) ==>
                  && r.enemyBullets == Remove(w.enemyBullets, i)
                  && r.score == IntMax(0, w.score - HitPenalty)
                  && r.player == Damaged(w.player)
                  && (r.player.lives < w.player.lives <==> w.player.hitInvul <= 0))
            && (!b.Offscreen(w.canvas.height) && !PlayerStruck(w.player, b) ==>
                  r.enemyBullets == w.enemyBullets[i := b] && r.player == w.player && r.score == w.score)
  {
    var b := w.enemyBullets[i].Update();
    RemoveUpdated(w.enemyBullets, i, b);
  }

  // ---------------------------------------------------------------------------------------
  // At most one life per tick

  /** p is p0, or p0 after one hit that landed. */
  ghost predicate HitAtMostOnce(p0: PlayerState, p: PlayerState)
  {
    p == p0 || (p0.hitInvul <= 0 && p == Damaged(p0))
  }

  /** A second hit right after a landed one is absorbed by the invulnerability window. */
  lemma HitAgain(p0: PlayerState, p: PlayerState)
    requires HitAtMostOnce(p0, p)
    ensures HitAtMostOnce(p0, Damaged(p))
  {
  }

  lemma EnemyStepHits(p0: PlayerState, w: World, i: nat, d: ShotDraw)
    requires i < |w.enemies| && HitAtMostOnce(p0, w.player)
    ensures HitAtMostOnce(p0, EnemyStep(w, i, d).player)
  {
    HitAgain(p0, w.player);
  }

  lemma {:induction false} EnemiesFromHits(p0: PlayerState, w: World, k: nat, draw: nat -> ShotDraw)
    requires k <= |w.enemies| && HitAtMostOnce(p0, w.player)
    ensures HitAtMostOnce(p0, EnemiesFrom(w, k, draw).player)
    decreases k
  {
    if k > 0 {
      EnemyStepHits(p0, w, k - 1, draw(k - 1));
      EnemiesFromHits(p0, EnemyStep(w, k - 1, draw(k - 1)), k - 1, draw);
    }
  }

  lemma EnemyBulletStepHits(p0: PlayerState, w: World, i: nat)
    requires i < |w.enemyBullets| && HitAtMostOnce(p0, w.player)
    ensures HitAtMostOnce(p0, EnemyBulletStep(w, i).player)
  {
    HitAgain(p0, w.player);
  }

  lemma {:induction false} EnemyBulletsFromHits(p0: PlayerState, w: World, k: nat)
    requires k <= |w.enemyBullets| && HitAtMostOnce(p0, w.player)
    ensures HitAtMostOnce(p0, EnemyBulletsFrom(w, k).player)
    decreases k
  {
    if k > 0 {
      EnemyBulletStepHits(p0, w, k - 1);
      EnemyBulletsFromHits(p0, EnemyBulletStep(w, k - 1), k - 1);
    }
  }

  /** However many enemies and projectiles touch the player in one tick, it loses at most one
      life, and if it does the invulnerability window is open at the end of the tick. The sprite
      also stays on the canvas. */
  lemma TickCostsAtMostOneLife(w: World, keys: Keys, draw: nat -> ShotDraw)
    ensures var r := Tick(w, keys, draw);
            && w.player.lives - 1 <= r.player.lives <= w.player.lives
            && (r.player.lives < w.player.lives ==> r.player.hitInvul == InvulnerableTicks)
            && (OnCanvas(w.player, w.canvas.width) ==> OnCanvas(r.player, w.canvas.width))
  {
    if w.running {
      var w1 := PlayerPhase(w, keys);
      var w2 := BulletPhase(w1);
      var w3 := EnemyPhase(w2, draw);
      EnemiesFromHits(w1.player, w2, |w2.enemies|, draw);
      EnemyBulletsFromHits(w1.player, w3, |w3.enemyBullets|);
    }
  }

  // ---------------------------------------------------------------------------------------
  // The lifecycle

  /** The lifecycle moves forward only: a phase stays, or a running game ends. */
  predicate Follows(a: Phase, b: Phase)
  {
    a == b || (a == Running && b == Ended)
  }

  lemma {:induction false} EnemiesFromPhase(w: World, k: nat, draw: nat -> ShotDraw)
    requires k <= |w.enemies|
    ensures Follows(PhaseOf(w), PhaseOf(EnemiesFrom(w, k, draw)))
    decreases k
  {
    if k > 0 {
      EnemiesFromPhase(EnemyStep(w, k - 1, draw(k - 1)), k - 1, draw);
    }
  }

  lemma {:induction false} EnemyBulletsFromPhase(w: World, k: nat)
    requires k <= |w.enemyBullets|
    ensures Follows(PhaseOf(w), PhaseOf(EnemyBulletsFrom(w, k)))
    decreases k
  {
    if k > 0 {
      EnemyBulletsFromPhase(EnemyBulletStep(w, k - 1), k - 1);
    }
  }

  /** Idle -> Running by starting; Running -> Ended by the end of the game, whichever callback
      ends it; Ended -> Running by restarting. No callback moves the lifecycle backwards, and
      the callbacks of a stopped game change nothing. */
  lemma Lifecycle(w: World, keys: Keys, draw: nat -> ShotDraw, d: SpawnDraw)
    ensures PhaseOf(StartGame(w)) == Running
    ensures PhaseOf(EndGame(w)) == if PhaseOf(w) == Running then Ended else PhaseOf(w)
    ensures Follows(PhaseOf(w), PhaseOf(Tick(w, keys, draw)))
    ensures Follows(PhaseOf(w), PhaseOf(Countdown(w)))
    ensures PhaseOf(Spawn(w, d)) == PhaseOf(w)
  {
    if w.running {
      var w1 := PlayerPhase(w, keys);
      var w2 := BulletPhase(w1);
      var w3 := EnemyPhase(w2, draw);
      EnemiesFromPhase(w2, |w2.enemies|, draw);
      EnemyBulletsFromPhase(w3, |w3.enemyBullets|);
    }
  }

  /** Ending a game twice is the same as ending it once. */
  lemma EndGameIdempotent(w: World)
    ensures EndGame(EndGame(w)) == EndGame(w)
    ensures !EndGame(w).running
  {
  }

  /** A player on the last life who takes a hit ends the game at once, whatever time is left. */
  lemma LastLifeEndsGame(w: World)
    requires w.running && w.player.lives == 1 && w.player.hitInvul <= 0
    ensures HitPlayer(w).player.lives == 0 && PhaseOf(HitPlayer(w)) == Ended
    ensures HitPlayer(w).verdict == Some(Verdict(ShownTier(w.score), w.score))
  {
  }

  // ---------------------------------------------------------------------------------------
  // The countdown

  /** The world after n countdown callbacks and nothing else. */
  function Countdowns(w: World, n: nat): World
    decreases n
  {
    if n == 0 then w else Countdowns(Countdown(w), n - 1)
  }

  /** A running game with t seconds left is still running after t - 1 countdowns and is over,
      with the tier of its score shown, after t. */
  lemma {:induction false} TimeRunsOut(w: World, t: nat)
    requires w.running && w.timeLeft == t && t >= 1
    ensures Countdowns(w, t - 1).running && Countdowns(w, t - 1).timeLeft == 1
    ensures var r := Countdowns(w, t);
            !r.running && r.timeLeft == 0 && r.verdict == Some(Verdict(ShownTier(w.score), w.score))
    decreases t
  {
    if t > 1 {
      TimeRunsOut(Countdown(w), t - 1);
    }
  }

  /** A game in which nothing is scored ends after `GameSeconds` countdowns showing "TCS", the
      tier the panel shows for a score of 0, although the intended tier is the lowest. */
  lemma QuietGameShowsTcs(w: World)
    ensures var r := Countdowns(StartGame(w), GameSeconds as nat);
            PhaseOf(r) == Ended && r.verdict == Some(Verdict(Tcs, 0)) && ResultTier(0) == Berozgari
  {
    TimeRunsOut(StartGame(w), GameSeconds as nat);
  }

  /** The tier recorded when a game ends is the intended one exactly when the final score is
      positive; a game that ends at 0 or below is shown as "TCS", never in the lowest tier. */
  lemma RecordedTierVersusIntended(w: World)
    requires w.running
    ensures var v := EndGame(w).verdict;
            v.Some? && v.value.score == w.score &&
            (v.value.tier == ResultTier(w.score) <==> w.score > 0) &&
            (w.score <= 0 ==> v.value.tier == Tcs && ResultTier(w.score) == Berozgari)
  {
  }
}
