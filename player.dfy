/** The player's ship: movement, cooldown-gated firing and the timed power-up
    (game.js:251-299). `PlayerState` and the functions over it specify each
    operation; the class `Player` carries the fields the source updates in place
    and its methods are proved to follow those functions. */
module Players {
  import opened Collision
  import opened Entities

  const PlayerWidth: int := 40
  const PlayerHeight: int := 40
  const PlayerSpeed: int := 5
  /** Ticks between shots without and with the power-up. */
  const NormalCooldown: int := 15
  const PoweredCooldown: int := 5
  /** Ticks a power-up lasts (five seconds at sixty ticks a second). */
  const PowerUpDuration: int := 300

  /** The part of a `Player` object that changes over a game. */
  datatype PlayerState = PlayerState(x: int, y: int, shootCooldown: int, powerUpActive: bool, powerUpTimer: int)

  function PlayerBox(s: PlayerState): Box {
    Box(s.x as real, s.y as real, PlayerWidth as real, PlayerHeight as real)
  }

  /** What the game keeps true of its player: the ship stays on the canvas on
      the grid of its speed, the counters stay in range, and the power-up is
      active exactly while its timer is positive. */
  predicate Sound(s: PlayerState) {
    0 <= s.x <= CanvasWidth - PlayerWidth && s.x % PlayerSpeed == 0 &&
    0 <= s.shootCooldown <= NormalCooldown &&
    0 <= s.powerUpTimer <= PowerUpDuration &&
    (s.powerUpActive <==> s.powerUpTimer > 0)
  }

  /** The state of a freshly constructed player. */
  function Spawned(x: int, y: int): (r: PlayerState)
    ensures r.x == x && r.y == y
    ensures r.shootCooldown == 0 && !r.powerUpActive && r.powerUpTimer == 0
    ensures 0 <= x <= CanvasWidth - PlayerWidth && x % PlayerSpeed == 0 ==> Sound(r)
  {
    PlayerState(x, y, 0, false, 0)
  }

  /** `moveLeft`: steps left by the speed whenever the ship is right of 0. It
      does not clamp, but on the speed grid it cannot pass below 0. */
  function MovedLeft(s: PlayerState): (r: PlayerState)
    ensures r.(x := s.x) == s
    ensures s.x > 0 ==> r.x == s.x - PlayerSpeed
    ensures s.x <= 0 ==> r == s
    ensures Sound(s) ==> Sound(r)
  {
    if s.x > 0 then s.(x := s.x - PlayerSpeed) else s
  }

  /** `moveRight`: steps right by the speed whenever the ship's left edge is
      left of `canvasWidth - width`; on the game's canvas it cannot leave it. */
  function MovedRight(s: PlayerState, canvasWidth: int): (r: PlayerState)
    ensures r.(x := s.x) == s
    ensures s.x < canvasWidth - PlayerWidth ==> r.x == s.x + PlayerSpeed
    ensures s.x >= canvasWidth - PlayerWidth ==> r == s
    ensures Sound(s) && canvasWidth == CanvasWidth ==> Sound(r)
  {
    if s.x < canvasWidth - PlayerWidth then s.(x := s.x + PlayerSpeed) else s
  }

  /** `shoot`: a bullet from the ship's horizontal centre, moving up by 8,
      exactly when the cooldown has run out; firing restarts the cooldown at 5
      with the power-up and at 15 without. No bullet, no change. */
  function Fired(s: PlayerState): (r: (PlayerState, Option<Bullet>))
    ensures r.1.Some? <==> s.shootCooldown <= 0
    ensures r.1.Some? ==>
              r.1.value == Bullet(s.x as real + 18.0, s.y as real, -8.0) &&
              r.0 == s.(shootCooldown := if s.powerUpActive then 5 else 15)
    ensures r.1.None? ==> r.0 == s
    ensures Sound(s) ==> Sound(r.0)
  {
    if s.shootCooldown <= 0 then
      (s.(shootCooldown := if s.powerUpActive then PoweredCooldown else NormalCooldown),
       Some(Bullet(s.x as real + (PlayerWidth as real) / 2.0 - 2.0, s.y as real, -8.0)))
    else
      (s, None)
  }

  /** `activatePowerUp`: on, with a full timer, whatever the timer held before. */
  function PoweredUp(s: PlayerState): (r: PlayerState)
    ensures r.powerUpActive && r.powerUpTimer == PowerUpDuration
    ensures r.(powerUpActive := s.powerUpActive, powerUpTimer := s.powerUpTimer) == s
    ensures Sound(s) ==> Sound(r)
  {
    s.(powerUpActive := true, powerUpTimer := PowerUpDuration)
  }

  /** `update`: the cooldown counts down while positive and never goes below
      zero; an active power-up counts down and switches off when its timer does. */
  function Ticked(s: PlayerState): (r: PlayerState)
    ensures r.x == s.x && r.y == s.y
    ensures s.shootCooldown > 0 ==> r.shootCooldown == s.shootCooldown - 1
    ensures s.shootCooldown <= 0 ==> r.shootCooldown == s.shootCooldown
    ensures s.powerUpActive ==> r.powerUpTimer == s.powerUpTimer - 1 && (r.powerUpActive <==> r.powerUpTimer > 0)
    ensures !s.powerUpActive ==> !r.powerUpActive && r.powerUpTimer == s.powerUpTimer
    ensures Sound(s) ==> Sound(r)
  {
    var cooled := if s.shootCooldown > 0 then s.(shootCooldown := s.shootCooldown - 1) else s;
    if cooled.powerUpActive then
      var timer := cooled.powerUpTimer - 1;
      cooled.(powerUpTimer := timer, powerUpActive := !(timer <= 0))
    else
      cooled
  }

  /** `n` consecutive calls of `update`. */
  function Updates(s: PlayerState, n: nat): PlayerState
    decreases n
  {
    if n == 0 then s else Updates(Ticked(s), n - 1)
  }

  /** One game tick with fire held and no movement: the player's `update`
      runs first, then `shoot`. The flag says whether a bullet came out. */
  function FireTick(s: PlayerState): (PlayerState, bool) {
    var f := Fired(Ticked(s));
    (f.0, f.1.Some?)
  }

  /** For each of `n` consecutive ticks with fire held, whether it fired. */
  function HeldFire(s: PlayerState, n: nat): (r: seq<bool>)
    ensures |r| == n
    decreases n
  {
    if n == 0 then [] else
      var t := FireTick(s);
      [t.1] + HeldFire(t.0, n - 1)
  }

  /** Ticks of fire held before the next bullet, from cooldown `c`. */
  function Wait(c: int): int {
    if c <= 1 then 0 else c - 1
  }

  /** Without a power-up, with fire held, the first bullet comes after `Wait`
      ticks and then one every 15 ticks. */
  lemma {:induction false} HeldFireSchedule(s: PlayerState, n: nat, k: nat)
    requires !s.powerUpActive && 0 <= s.shootCooldown <= NormalCooldown
    requires k < n
    ensures HeldFire(s, n)[k] <==>
            k >= Wait(s.shootCooldown) && (k - Wait(s.shootCooldown)) % NormalCooldown == 0
    decreases n
  {
    var t := FireTick(s);
    var w := Wait(s.shootCooldown);
    if k == 0 {
      assert HeldFire(s, n)[0] == t.1;
    } else {
      HeldFireSchedule(t.0, n - 1, k - 1);
      assert HeldFire(s, n)[k] == HeldFire(t.0, n - 1)[k - 1];
      if s.shootCooldown <= 1 {
        // The shot restarts the cooldown at 15: the next one is 15 ticks on.
        assert t.1 && t.0.shootCooldown == NormalCooldown && w == 0;
        assert Wait(t.0.shootCooldown) == NormalCooldown - 1;
        assert (k - 15) % 15 == k % 15;
      } else {
        // No shot yet: the wait shrinks by one.
        assert !t.1 && t.0.shootCooldown == s.shootCooldown - 1;
        assert Wait(t.0.shootCooldown) == w - 1;
      }
    }
  }

  /** A fresh player holding fire fires on ticks 1, 16, 31, ...: the update that
      precedes each shot is what makes the period 15 and not 16. */
  lemma FreshPlayerFiresEvery15(x: int, y: int, n: nat, k: nat)
    requires k < n
    ensures HeldFire(Spawned(x, y), n)[k] <==> k % NormalCooldown == 0
  {
    HeldFireSchedule(Spawned(x, y), n, k);
  }

  /** Running the updates in two batches is running them all. */
  lemma {:induction false} UpdatesAdd(s: PlayerState, a: nat, b: nat)
    ensures Updates(s, a + b) == Updates(Updates(s, a), b)
    decreases a
  {
    if a > 0 {
      UpdatesAdd(Ticked(s), a - 1, b);
    }
  }

  /** An active power-up with timer t counts down one per update and is still
      on after n < t updates, off after exactly t. */
  lemma {:induction false} PowerUpCountdown(s: PlayerState, n: nat)
    requires s.powerUpActive && 0 < s.powerUpTimer && n <= s.powerUpTimer
    ensures Updates(s, n).powerUpTimer == s.powerUpTimer - n
    ensures Updates(s, n).powerUpActive <==> n < s.powerUpTimer
    decreases n
  {
    if n > 1 {
      PowerUpCountdown(Ticked(s), n - 1);
    } else if n == 1 {
      assert Updates(s, 1) == Ticked(s);
    }
  }

  /** Once off, the power-up stays off under updates. */
  lemma {:induction false} InactiveStaysInactive(s: PlayerState, n: nat)
    requires !s.powerUpActive
    ensures !Updates(s, n).powerUpActive
    decreases n
  {
    if n > 0 {
      InactiveStaysInactive(Ticked(s), n - 1);
    }
  }

  /** After `activatePowerUp`, the power-up is on through 299 updates and off
      from the 300th on, whatever the player's state before. */
  lemma PowerUpLasts300(s: PlayerState, n: nat)
    ensures Updates(PoweredUp(s), n).powerUpActive <==> n < PowerUpDuration
  {
    var p := PoweredUp(s);
    if n <= PowerUpDuration {
      PowerUpCountdown(p, n);
    } else {
      PowerUpCountdown(p, PowerUpDuration);
      UpdatesAdd(p, PowerUpDuration, n - PowerUpDuration);
      InactiveStaysInactive(Updates(p, PowerUpDuration), n - PowerUpDuration);
    }
  }

  /** The ship object of the game. */
  class Player {
    var x: int
    var y: int
    var shootCooldown: int
    var powerUpActive: bool
    var powerUpTimer: int

    function State(): PlayerState
      reads this
    {
      PlayerState(x, y, shootCooldown, powerUpActive, powerUpTimer)
    }

    constructor (x0: int, y0: int)
      ensures State() == Spawned(x0, y0)
    {
      x, y := x0, y0;
      shootCooldown := 0;
      powerUpActive := false;
      powerUpTimer := 0;
    }

    method MoveLeft()
      modifies this`x
      ensures State() == MovedLeft(old(State()))
    {
      if x > 0 {
        x := x - PlayerSpeed;
      }
    }

    method MoveRight(canvasWidth: int)
      modifies this`x
      ensures State() == MovedRight(old(State()), canvasWidth)
    {
      if x < canvasWidth - PlayerWidth {
        x := x + PlayerSpeed;
      }
    }

    method Shoot() returns (bullet: Option<Bullet>)
      modifies this`shootCooldown
      ensures (State(), bullet) == Fired(old(State()))
    {
      if shootCooldown <= 0 {
        shootCooldown := if powerUpActive then PoweredCooldown else NormalCooldown;
        return Some(Bullet(x as real + (PlayerWidth as real) / 2.0 - 2.0, y as real, -8.0));
      }
      return None;
    }

    method ActivatePowerUp()
      modifies this`powerUpActive, this`powerUpTimer
      ensures State() == PoweredUp(old(State()))
    {
      powerUpActive := true;
      powerUpTimer := PowerUpDuration;
    }

    method Update()
      modifies this`shootCooldown, this`powerUpActive, this`powerUpTimer
      ensures State() == Ticked(old(State()))
    {
      if shootCooldown > 0 {
        shootCooldown := shootCooldown - 1;
      }
      if powerUpActive {
        powerUpTimer := powerUpTimer - 1;
        if powerUpTimer <= 0 {
          powerUpActive := false;
        }
      }
    }
  }
}
