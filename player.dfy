/** The player's sprite (script.js, class `Player`). `PlayerState` is the value of its mutable
    fields; the functions below say what each method does to it, and the class `Player` updates
    its fields in place and is proved to follow those functions. */
module Players {
  import opened Basics
  import opened Geometry
  import opened Entities

  datatype PlayerState = PlayerState(x: real, y: real, fireCooldown: int, lives: int, hitInvul: int)
  {
    function Box(): Geometry.Box { Geometry.Box(x, y, PlayerWidth, PlayerHeight) }
  }

  /** The keys held at the time of a tick (the `keys` table the listeners maintain). */
  datatype Keys = Keys(arrowLeft: bool, a: bool, arrowRight: bool, d: bool, space: bool, spaceCode: bool, arrowUp: bool)
  {
    predicate Left() { arrowLeft || a }
    predicate Right() { arrowRight || d }
    predicate Fire() { space || spaceCode || arrowUp }
  }

  /** The player's state together with the shared `bullets` array it pushes into. */
  datatype PlayerAndBullets = PlayerAndBullets(player: PlayerState, bullets: seq<Bullet>)

  /** `new Player()`: centred at the bottom of the canvas, ready to fire, with three lives. */
  function Spawned(c: Canvas): (p: PlayerState)
    ensures p.lives == PlayerLives && p.hitInvul == 0 && CanShoot(p)
    ensures p.x + PlayerWidth / 2.0 == c.width / 2.0 && p.y + PlayerHeight == c.height - 10.0
    ensures c.width >= PlayerWidth ==> OnCanvas(p, c.width)
  {
    PlayerState(c.width / 2.0 - PlayerWidth / 2.0, c.height - PlayerHeight - 10.0, 0, PlayerLives, 0)
  }

  /** The sprite lies horizontally within a canvas of the given width. */
  predicate OnCanvas(p: PlayerState, canvasWidth: real)
  {
    0.0 <= p.x <= canvasWidth - PlayerWidth
  }

  /** `moveLeft`: one step left, stopping at the left edge. */
  function MovedLeft(p: PlayerState): (r: PlayerState)
    ensures r == p.(x := r.x)
    ensures r.x >= 0.0 && r.x >= p.x - PlayerSpeed
    ensures r.x == 0.0 || r.x == p.x - PlayerSpeed
  {
    p.(x := Max(0.0, p.x - PlayerSpeed))
  }

  /** `moveRight`: one step right, stopping where the sprite touches the right edge. */
  function MovedRight(p: PlayerState, canvasWidth: real): (r: PlayerState)
    ensures r == p.(x := r.x)
    ensures r.x <= canvasWidth - PlayerWidth && r.x <= p.x + PlayerSpeed
    ensures r.x == canvasWidth - PlayerWidth || r.x == p.x + PlayerSpeed
  {
    p.(x := Min(canvasWidth - PlayerWidth, p.x + PlayerSpeed))
  }

  /** `canShoot`. */
  predicate CanShoot(p: PlayerState)
  {
    p.fireCooldown <= 0
  }

  /** `shoot`: when the cooldown has run out, push one projectile at the sprite's top centre and
      restart the cooldown; otherwise nothing changes. Either way the player cannot shoot again
      straight away. */
  function Shot(p: PlayerState, bullets: seq<Bullet>): (r: PlayerAndBullets)
    ensures !CanShoot(p) ==> r == PlayerAndBullets(p, bullets)
    ensures CanShoot(p) ==> r.bullets == bullets + [Bullet(p.x + PlayerWidth / 2.0, p.y)]
    ensures r.player == p.(fireCooldown := r.player.fireCooldown)
    ensures CanShoot(p) ==> r.player.fireCooldown == PlayerFireRate
    ensures !CanShoot(r.player)
  {
    if !CanShoot(p) then PlayerAndBullets(p, bullets)
    else PlayerAndBullets(p.(fireCooldown := PlayerFireRate), bullets + [Bullet(p.x + PlayerWidth / 2.0, p.y)])
  }

  /** `update`: count both cooldowns down, move as the keys say, then shoot if the fire key is
      held and the cooldown allows. */
  function Updated(p: PlayerState, keys: Keys, canvasWidth: real, bullets: seq<Bullet>): (r: PlayerAndBullets)
    ensures r.player.y == p.y && r.player.lives == p.lives
    ensures r.player.hitInvul == if p.hitInvul > 0 then p.hitInvul - 1 else p.hitInvul
    ensures r.bullets == bullets || r.bullets == bullets + [Bullet(r.player.x + PlayerWidth / 2.0, p.y)]
    ensures |r.bullets| == |bullets| + 1 <==> keys.Fire() && p.fireCooldown <= 1
    ensures |r.bullets| == |bullets| + 1 ==> r.player.fireCooldown == PlayerFireRate
    ensures |r.bullets| == |bullets| ==> r.player.fireCooldown == if p.fireCooldown > 0 then p.fireCooldown - 1 else p.fireCooldown
    ensures !keys.Left() && !keys.Right() ==> r.player.x == p.x
    ensures keys.Left() && !keys.Right() ==> r.player.x == Max(0.0, p.x - PlayerSpeed)
    ensures !keys.Left() && keys.Right() ==> r.player.x == Min(canvasWidth - PlayerWidth, p.x + PlayerSpeed)
    ensures keys.Left() && keys.Right() ==>
              r.player.x == Min(canvasWidth - PlayerWidth, Max(0.0, p.x - PlayerSpeed) + PlayerSpeed)
    ensures OnCanvas(p, canvasWidth) ==> OnCanvas(r.player, canvasWidth)
  {
    var p1 := p.(fireCooldown := if p.fireCooldown > 0 then p.fireCooldown - 1 else p.fireCooldown,
                 hitInvul := if p.hitInvul > 0 then p.hitInvul - 1 else p.hitInvul);
    var p2 := if keys.Left() then MovedLeft(p1) else p1;
    var p3 := if keys.Right() then MovedRight(p2, canvasWidth) else p2;
    if keys.Fire() && CanShoot(p3) then Shot(p3, bullets) else PlayerAndBullets(p3, bullets)
  }

  /** `damage`: ignored while invulnerable; otherwise one life is lost and the invulnerability
      window opens. */
  function Damaged(p: PlayerState): (r: PlayerState)
    ensures p.hitInvul > 0 ==> r == p
    ensures p.hitInvul <= 0 ==> r == p.(lives := p.lives - 1, hitInvul := InvulnerableTicks)
  {
    if p.hitInvul > 0 then p else p.(lives := p.lives - 1, hitInvul := InvulnerableTicks)
  }

  /** `damage` reaches its `endGame()` call: the hit landed and no life is left. */
  predicate KnockedOut(p: PlayerState)
  {
    p.hitInvul <= 0 && p.lives - 1 <= 0
  }

  /** The player after one `update` per snapshot in `ks`, and the bullets it fired meanwhile. */
  function UpdatedAll(p: PlayerState, ks: seq<Keys>, canvasWidth: real, bullets: seq<Bullet>): PlayerAndBullets
    decreases |ks|
  {
    if ks == [] then PlayerAndBullets(p, bullets)
    else
      var r := Updated(p, ks[0], canvasWidth, bullets);
      UpdatedAll(r.player, ks[1..], canvasWidth, r.bullets)
  }

  /** Whatever the keys, each tick takes one off a positive invulnerability counter and the
      lives stay as they are. */
  lemma {:induction false} InvulnerabilityRunsDown(p: PlayerState, ks: seq<Keys>, canvasWidth: real, bullets: seq<Bullet>)
    requires p.hitInvul >= 0
    ensures var q := UpdatedAll(p, ks, canvasWidth, bullets).player;
            q.lives == p.lives && q.hitInvul == if p.hitInvul >= |ks| then p.hitInvul - |ks| else 0
    decreases |ks|
  {
    if ks != [] {
      var r := Updated(p, ks[0], canvasWidth, bullets);
      InvulnerabilityRunsDown(r.player, ks[1..], canvasWidth, r.bullets);
    }
  }

  /** After a hit lands, the next `InvulnerableTicks - 1` ticks leave the player immune, and once
      `InvulnerableTicks` ticks have passed the next hit costs a life again. */
  lemma InvulnerabilityWindow(p: PlayerState, ks: seq<Keys>, canvasWidth: real, bullets: seq<Bullet>)
    requires p.hitInvul == 0
    ensures var q := UpdatedAll(Damaged(p), ks, canvasWidth, bullets).player;
            q.lives == p.lives - 1 &&
            (Damaged(q) == q <==> |ks| < InvulnerableTicks)
  {
    InvulnerabilityRunsDown(Damaged(p), ks, canvasWidth, bullets);
  }

  /** While the fire cooldown is above the number of ticks, no projectile is fired whatever the
      keys, and the cooldown runs down one per tick. */
  lemma {:induction false} CooldownRunsDown(p: PlayerState, ks: seq<Keys>, canvasWidth: real, bullets: seq<Bullet>)
    requires |ks| < p.fireCooldown
    ensures var r := UpdatedAll(p, ks, canvasWidth, bullets);
            r.bullets == bullets && r.player.fireCooldown == p.fireCooldown - |ks|
    decreases |ks|
  {
    if ks != [] {
      var r := Updated(p, ks[0], canvasWidth, bullets);
      CooldownRunsDown(r.player, ks[1..], canvasWidth, r.bullets);
    }
  }

  /** After a shot, the next `PlayerFireRate - 1` ticks fire nothing, even with the fire key held. */
  lemma ShotsAreSpaced(p: PlayerState, bullets: seq<Bullet>, ks: seq<Keys>, canvasWidth: real)
    requires CanShoot(p)
    requires |ks| < PlayerFireRate
    ensures var s := Shot(p, bullets);
            UpdatedAll(s.player, ks, canvasWidth, s.bullets).bullets == s.bullets
  {
    var s := Shot(p, bullets);
    CooldownRunsDown(s.player, ks, canvasWidth, s.bullets);
  }

  /** A player that starts on the canvas stays on it through any number of ticks. */
  lemma {:induction false} StaysOnCanvas(p: PlayerState, ks: seq<Keys>, canvasWidth: real, bullets: seq<Bullet>)
    requires OnCanvas(p, canvasWidth)
    ensures OnCanvas(UpdatedAll(p, ks, canvasWidth, bullets).player, canvasWidth)
    decreases |ks|
  {
    if ks != [] {
      var r := Updated(p, ks[0], canvasWidth, bullets);
      StaysOnCanvas(r.player, ks[1..], canvasWidth, r.bullets);
    }
  }

  /** Each move on its own keeps an on-canvas sprite on the canvas. */
  lemma MovesStayOnCanvas(p: PlayerState, canvasWidth: real)
    requires OnCanvas(p, canvasWidth)
    ensures OnCanvas(MovedLeft(p), canvasWidth) && OnCanvas(MovedRight(p, canvasWidth), canvasWidth)
  {
  }

  /** The player sprite. Its size, speed and fire rate are the constants of `Entities`; `y` and
      the canvas width never change after construction. */
  class Player {
    const canvasWidth: real
    const y: real
    var x: real
    var fireCooldown: int
    var lives: int
    var hitInvul: int

    function State(): PlayerState
      reads this
    {
      PlayerState(x, y, fireCooldown, lives, hitInvul)
    }

    constructor (c: Canvas)
      ensures State() == Spawned(c) && canvasWidth == c.width
    {
      canvasWidth := c.width;
      y := c.height - PlayerHeight - 10.0;
      x := c.width / 2.0 - PlayerWidth / 2.0;
      fireCooldown := 0;
      lives := PlayerLives;
      hitInvul := 0;
    }

    method MoveLeft()
      modifies this
      ensures State() == MovedLeft(old(State()))
    {
      x := Max(0.0, x - PlayerSpeed);
    }

    method MoveRight()
      modifies this
      ensures State() == MovedRight(old(State()), canvasWidth)
    {
      x := Min(canvasWidth - PlayerWidth, x + PlayerSpeed);
    }

    method Shoot(bullets: seq<Bullet>) returns (bullets': seq<Bullet>)
      modifies this
      ensures PlayerAndBullets(State(), bullets') == Shot(old(State()), bullets)
    {
      if !CanShoot(State()) {
        return bullets;
      }
      bullets' := bullets + [Bullet(x + PlayerWidth / 2.0, y)];
      fireCooldown := PlayerFireRate;
    }

    method Update(keys: Keys, bullets: seq<Bullet>) returns (bullets': seq<Bullet>)
      modifies this
      ensures PlayerAndBullets(State(), bullets') == Updated(old(State()), keys, canvasWidth, bullets)
    {
      if fireCooldown > 0 { fireCooldown := fireCooldown - 1; }
      if hitInvul > 0 { hitInvul := hitInvul - 1; }
      if keys.Left() { MoveLeft(); }
      if keys.Right() { MoveRight(); }
      bullets' := bullets;
      if keys.Fire() && CanShoot(State()) {
        bullets' := Shoot(bullets);
      }
    }

    /** Returns whether the source's `damage` goes on to call `endGame()`. */
    method Damage() returns (knockedOut: bool)
      modifies this
      ensures State() == Damaged(old(State()))
      ensures knockedOut == KnockedOut(old(State()))
    {
      knockedOut := false;
      if hitInvul > 0 {
        return;
      }
      lives := lives - 1;
      hitInvul := InvulnerableTicks;
      knockedOut := lives <= 0;
    }
  }
}
