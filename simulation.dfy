/** One tick of the game (`Game.update`, game.js:51-157) as a function on a
    snapshot of the game's state, built from one function per stage of the
    tick, and what the tick is proved to keep true. The class `Game` in
    module Shooter runs the same stages imperatively and is proved to agree. */
module Simulation {
  import opened Collision
  import opened Entities
  import opened Lists
  import opened Players

  /** Spawn interval at the start of a game, and the value below which the ramp stops. */
  const InitialSpawnRate: real := 60.0
  const MinSpawnRate: real := 20.0
  /** Spawned enemies get an x drawn from [0, SpawnXRange), which keeps them on the canvas. */
  const SpawnXRange: real := (CanvasWidth - 40) as real
  /** Points per destroyed enemy. */
  const HitScore: int := 10

  /** The two `Math.random` draws a destroyed enemy may consume: whether a
      power-up drops, and the fallback x of that power-up. */
  datatype HitRoll = HitRoll(drop: real, fallbackX: real)

  /** What a tick reads from outside the simulation: the held keys (left,
      right, fire) and the `Math.random` draws for the spawned enemy's x and
      speed. `hitRolls(k)` are the draws of the k-th hit of the tick. */
  datatype TickInput = TickInput(
    left: bool, right: bool, fire: bool,
    spawnRoll: real, speedRoll: real,
    hitRolls: nat -> HitRoll)

  /** The fields of `Game` that the simulation reads and writes. */
  datatype WorldState = WorldState(
    player: PlayerState,
    bullets: seq<Bullet>,
    enemies: seq<Enemy>,
    particles: seq<Particle>,
    powerUps: seq<PowerUp>,
    score: int,
    level: int,
    gameRunning: bool,
    enemySpawnTimer: int,
    enemySpawnRate: real)

  /** `Math.floor(score / 100) + 1`: the level is the hundreds of the score,
      plus one. The score is an integer and Dafny's division by a positive
      constant rounds down, so `score / 100` is that floor for every score. */
  function Level(score: int): (level: int)
    ensures 100 * (level - 1) <= score < 100 * level
  {
    score / 100 + 1
  }

  /** The state the constructor and `restart` set up. */
  function Initial(): (w: WorldState)
    ensures Inv(w)
  {
    WorldState(Spawned(CanvasWidth / 2, CanvasHeight - 60), [], [], [], [],
               0, 1, true, 0, InitialSpawnRate)
  }

  // ---------------------------------------------------------------------------
  // What survives a pruning pass

  predicate BulletOnScreen(b: Bullet) {
    b.y > 0.0
  }

  function EnemyTouches(p: PlayerState): Enemy -> bool {
    e => CheckCollision(EnemyBox(e), PlayerBox(p))
  }

  function EnemyKept(p: PlayerState): Enemy -> bool {
    e => !CheckCollision(EnemyBox(e), PlayerBox(p)) && e.y < (CanvasHeight + 40) as real
  }

  function PowerUpTouches(p: PlayerState): PowerUp -> bool {
    u => CheckCollision(PowerUpBox(u), PlayerBox(p))
  }

  function PowerUpKept(p: PlayerState): PowerUp -> bool {
    u => !CheckCollision(PowerUpBox(u), PlayerBox(p)) && u.y < (CanvasHeight + 20) as real
  }

  predicate ParticleAlive(q: Particle) {
    q.life > 0
  }

  // ---------------------------------------------------------------------------
  // The stages of a tick, in the order `update` runs them

  /** The held movement keys applied to the ship, left first. */
  function Steered(s: PlayerState, input: TickInput): (r: PlayerState)
    ensures r.(x := s.x) == s
    ensures !input.left && !input.right ==> r == s
    ensures Sound(s) ==> Sound(r)
  {
    var left := if input.left then MovedLeft(s) else s;
    if input.right then MovedRight(left, CanvasWidth) else left
  }

  /** Held keys move the player, the player's `update` runs, and then, with
      fire held, `shoot`, whose bullet (if any) is appended. */
  function PlayerPhase(w: WorldState, input: TickInput): (r: WorldState)
    ensures r.(player := w.player, bullets := w.bullets) == w
    ensures Sound(w.player) ==> Sound(r.player)
    ensures r.player.y == w.player.y
    ensures w.bullets <= r.bullets && |r.bullets| <= |w.bullets| + 1
  {
    var ticked := Ticked(Steered(w.player, input));
    if input.fire then
      var fired := Fired(ticked);
      w.(player := fired.0,
         bullets := if fired.1.Some? then w.bullets + [fired.1.value] else w.bullets)
    else
      w.(player := ticked)
  }

  /** The player stage appends a bullet exactly when fire is held and the
      cooldown has run out after the player's `update`; the bullet leaves the
      ship's horizontal centre, moving up by 8. */
  lemma PlayerPhaseShoots(w: WorldState, input: TickInput)
    ensures var r := PlayerPhase(w, input);
            var shoots := input.fire && Ticked(Steered(w.player, input)).shootCooldown <= 0;
            (shoots ==> r.bullets == w.bullets + [Bullet(r.player.x as real + 18.0, r.player.y as real, -8.0)]) &&
            (!shoots ==> r.bullets == w.bullets)
  {
  }

  /** With fire held and no movement, the player stage is one `FireTick`:
      the update, then the shot, so `HeldFireSchedule` describes the ticks
      of the game. */
  lemma PlayerPhaseHeldFire(w: WorldState, input: TickInput)
    requires !input.left && !input.right && input.fire
    ensures PlayerPhase(w, input).player == FireTick(w.player).0
    ensures PlayerPhase(w, input).bullets ==
            if FireTick(w.player).1
            then w.bullets + [Bullet(w.player.x as real + 18.0, w.player.y as real, -8.0)]
            else w.bullets
  {
  }

  /** Bullets move; those at or above the top edge are dropped. */
  function BulletPhase(w: WorldState): (r: WorldState)
    ensures r.(bullets := w.bullets) == w
    ensures |r.bullets| <= |w.bullets|
  {
    w.(bullets := FilterUpdated(w.bullets, UpdatedBullet, BulletOnScreen))
  }

  /** The bullet pass keeps exactly the moved bullets still below the top edge. */
  lemma BulletPhaseKeeps(w: WorldState)
    ensures forall b :: b in BulletPhase(w).bullets ==>
              BulletOnScreen(b) && exists k :: 0 <= k < |w.bullets| && b == UpdatedBullet(w.bullets[k])
    ensures forall k :: 0 <= k < |w.bullets| && UpdatedBullet(w.bullets[k]).y > 0.0 ==>
              UpdatedBullet(w.bullets[k]) in BulletPhase(w).bullets
  {
    FilterUpdatedKeeps(w.bullets, UpdatedBullet, BulletOnScreen);
  }

  /** The spawn interval is a multiple of one half between 20 and 60. */
  predicate RateOk(rate: real) {
    MinSpawnRate <= rate <= InitialSpawnRate && (2.0 * rate).Floor as real == 2.0 * rate
  }

  /** The spawn timer counts ticks since the last spawn and is below the interval. */
  predicate SpawnerOk(timer: int, rate: real) {
    RateOk(rate) && 0 <= timer && (timer as real) < rate
  }

  /** The enemy spawner: the timer counts this tick; on reaching the interval
      one enemy appears above the canvas at a drawn x with a drawn speed in
      [2, 4), the timer restarts, and the interval shrinks by 0.5 while above 20. */
  function SpawnPhase(w: WorldState, spawnRoll: real, speedRoll: real): (r: WorldState)
    ensures r.(enemies := w.enemies, enemySpawnTimer := w.enemySpawnTimer,
               enemySpawnRate := w.enemySpawnRate) == w
    ensures (w.enemySpawnTimer + 1) as real >= w.enemySpawnRate ==>
              r.enemies == w.enemies + [Enemy(spawnRoll * SpawnXRange, -40.0, 2.0 + speedRoll * 2.0)] &&
              r.enemySpawnTimer == 0 &&
              r.enemySpawnRate == if w.enemySpawnRate > MinSpawnRate then w.enemySpawnRate - 0.5
                                  else w.enemySpawnRate
    ensures (w.enemySpawnTimer + 1) as real < w.enemySpawnRate ==>
              r.enemies == w.enemies && r.enemySpawnTimer == w.enemySpawnTimer + 1 &&
              r.enemySpawnRate == w.enemySpawnRate
    ensures r.enemySpawnRate <= w.enemySpawnRate
  {
    var timer := w.enemySpawnTimer + 1;
    if timer as real >= w.enemySpawnRate then
      var spawned := Enemy(spawnRoll * SpawnXRange, -40.0, 2.0 + speedRoll * 2.0);
      w.(enemies := w.enemies + [spawned],
         enemySpawnTimer := 0,
         enemySpawnRate := if w.enemySpawnRate > MinSpawnRate then w.enemySpawnRate - 0.5
                           else w.enemySpawnRate)
    else
      w.(enemySpawnTimer := timer)
  }

  /** The spawner stays within its ramp: the interval never drops below 20,
      stays on its half-tick grid, and the timer stays below it. */
  lemma SpawnPhaseKeepsSpawner(w: WorldState, spawnRoll: real, speedRoll: real)
    requires SpawnerOk(w.enemySpawnTimer, w.enemySpawnRate)
    ensures SpawnerOk(SpawnPhase(w, spawnRoll, speedRoll).enemySpawnTimer,
                      SpawnPhase(w, spawnRoll, speedRoll).enemySpawnRate)
  {
    var rate := w.enemySpawnRate;
    if rate > MinSpawnRate {
      assert (2.0 * (rate - 0.5)).Floor == (2.0 * rate).Floor - 1;
    }
  }

  /** Enemies move; any enemy that then overlaps the player ends the game and
      is dropped, and so is any enemy past the bottom edge. The pass does not
      stop at the first contact. */
  function EnemyPhase(w: WorldState): (r: WorldState)
    ensures r.(enemies := w.enemies, gameRunning := w.gameRunning) == w
    ensures |r.enemies| <= |w.enemies|
    ensures r.gameRunning ==> w.gameRunning
  {
    w.(enemies := FilterUpdated(w.enemies, UpdatedEnemy, EnemyKept(w.player)),
       gameRunning := if AnyUpdated(w.enemies, UpdatedEnemy, EnemyTouches(w.player)) then false
                      else w.gameRunning)
  }

  /** The enemy pass keeps exactly the moved enemies clear of the player and
      above the bottom limit, and ends the game exactly when a moved enemy
      touches the player. */
  lemma EnemyPhaseKeeps(w: WorldState)
    ensures forall e :: e in EnemyPhase(w).enemies ==>
              EnemyKept(w.player)(e) && exists k :: 0 <= k < |w.enemies| && e == UpdatedEnemy(w.enemies[k])
    ensures forall k :: 0 <= k < |w.enemies| && EnemyKept(w.player)(UpdatedEnemy(w.enemies[k])) ==>
              UpdatedEnemy(w.enemies[k]) in EnemyPhase(w).enemies
    ensures EnemyPhase(w).gameRunning <==>
              w.gameRunning &&
              forall k :: 0 <= k < |w.enemies| ==> !EnemyTouches(w.player)(UpdatedEnemy(w.enemies[k]))
  {
    FilterUpdatedKeeps(w.enemies, UpdatedEnemy, EnemyKept(w.player));
    AnyUpdatedWitness(w.enemies, UpdatedEnemy, EnemyTouches(w.player));
  }

  // ---------------------------------------------------------------------------
  // The bullet-enemy pass (game.js:111-134)

  /** The state the reverse nested loop works on; `hits` counts the hits so
      far and selects the random draws of the next one. */
  datatype HitPass = HitPass(
    bullets: seq<Bullet>, enemies: seq<Enemy>, particles: seq<Particle>,
    powerUps: seq<PowerUp>, score: int, hits: nat)

  predicate Strikes(b: Bullet, e: Enemy) {
    CheckCollision(BulletBox(b), EnemyBox(e))
  }

  /** The inner loop's scan, from the last enemy down: the highest index of an
      enemy the bullet strikes, if any. */
  function LastStruck(b: Bullet, es: seq<Enemy>): (r: Option<nat>)
    ensures r.Some? ==> r.value < |es|
    decreases |es|
  {
    if |es| == 0 then None
    else if Strikes(b, es[|es| - 1]) then Some(|es| - 1)
    else LastStruck(b, es[..|es| - 1])
  }

  /** The scan finds the highest-indexed enemy the bullet strikes, and finds
      nothing exactly when the bullet strikes no enemy. */
  lemma {:induction false} LastStruckIsLast(b: Bullet, es: seq<Enemy>)
    ensures LastStruck(b, es).Some? ==>
              Strikes(b, es[LastStruck(b, es).value]) &&
              forall k :: LastStruck(b, es).value < k < |es| ==> !Strikes(b, es[k])
    ensures LastStruck(b, es).None? <==> forall k :: 0 <= k < |es| ==> !Strikes(b, es[k])
    decreases |es|
  {
    if |es| > 0 && !Strikes(b, es[|es| - 1]) {
      var init := es[..|es| - 1];
      LastStruckIsLast(b, init);
      assert forall k :: 0 <= k < |es| - 1 ==> init[k] == es[k];
    }
  }

  /** `this.enemies[j]?.x || Math.random() * width`, evaluated after the splice. */
  function DropX(es: seq<Enemy>, j: nat, roll: HitRoll): (r: real)
    ensures (j < |es| && r == es[j].x) || r == roll.fallbackX * 800.0
    ensures r == 0.0 ==> roll.fallbackX == 0.0
  {
    if j < |es| && es[j].x != 0.0 then es[j].x else roll.fallbackX * CanvasWidth as real
  }

  /** `this.enemies[j]?.y || 100`, evaluated after the splice. */
  function DropY(es: seq<Enemy>, j: nat): (r: real)
    ensures (j < |es| && r == es[j].y) || r == 100.0
    ensures r != 0.0
  {
    if j < |es| && es[j].y != 0.0 then es[j].y else 100.0
  }

  /** Bullet `i` strikes enemy `j`: ten particles at the enemy's centre, both
      removed, ten points, and with a drop draw below 0.1 a power-up placed
      where the enemy AFTER the destroyed one is (or at the fallback when the
      destroyed enemy was the last, or when a read coordinate is 0). */
  function ApplyHit(p: HitPass, i: nat, j: nat, roll: HitRoll): (r: HitPass)
    requires i < |p.bullets| && j < |p.enemies|
    ensures r.score == p.score + HitScore && r.hits == p.hits + 1
    ensures |r.bullets| == |p.bullets| - 1 && |r.enemies| == |p.enemies| - 1
    ensures |r.particles| == |p.particles| + ExplosionSize
    ensures |p.powerUps| <= |r.powerUps| <= |p.powerUps| + 1
  {
    var e := p.enemies[j];
    var enemies := Removed(p.enemies, j);
    HitPass(Removed(p.bullets, i),
            enemies,
            p.particles + Explosion(e.x + 20.0, e.y + 20.0),
            if roll.drop < 0.1 then p.powerUps + [PowerUp(DropX(enemies, j, roll), DropY(enemies, j))]
            else p.powerUps,
            p.score + HitScore,
            p.hits + 1)
  }

  /** What a hit does: the bullet and the enemy are spliced out, ten fresh
      particles follow at the enemy's centre, and with a drop draw below 0.1
      one power-up is appended, placed where the enemy AFTER the destroyed one
      is, or at the fallback when the destroyed enemy was the last. */
  lemma ApplyHitEffect(p: HitPass, i: nat, j: nat, roll: HitRoll)
    requires i < |p.bullets| && j < |p.enemies|
    ensures ApplyHit(p, i, j, roll).bullets == Removed(p.bullets, i)
    ensures ApplyHit(p, i, j, roll).enemies == Removed(p.enemies, j)
    ensures ApplyHit(p, i, j, roll).particles ==
            p.particles + Explosion(p.enemies[j].x + 20.0, p.enemies[j].y + 20.0)
    ensures p.powerUps <= ApplyHit(p, i, j, roll).powerUps
    ensures |ApplyHit(p, i, j, roll).powerUps| == |p.powerUps| + (if roll.drop < 0.1 then 1 else 0)
    ensures roll.drop < 0.1 && j + 1 < |p.enemies| ==>
              ApplyHit(p, i, j, roll).powerUps[|p.powerUps|] ==
              PowerUp(if p.enemies[j + 1].x != 0.0 then p.enemies[j + 1].x else roll.fallbackX * 800.0,
                      if p.enemies[j + 1].y != 0.0 then p.enemies[j + 1].y else 100.0)
    ensures roll.drop < 0.1 && j + 1 == |p.enemies| ==>
              ApplyHit(p, i, j, roll).powerUps[|p.powerUps|] == PowerUp(roll.fallbackX * 800.0, 100.0)
  {
    var enemies := Removed(p.enemies, j);
    if j + 1 < |p.enemies| {
      assert enemies[j] == p.enemies[j + 1];
    }
  }

  /** One iteration of the outer loop: bullet `i` against the enemies, last
      first. A bullet that strikes nothing changes nothing; one that strikes
      removes itself and one enemy and scores once. */
  function Struck(p: HitPass, i: nat, rolls: nat -> HitRoll): (r: HitPass)
    requires i < |p.bullets|
    ensures r.hits == p.hits ==> r == p
    ensures r.hits != p.hits ==>
              r.hits == p.hits + 1 && r.score == p.score + HitScore &&
              |r.bullets| == |p.bullets| - 1 && |r.enemies| == |p.enemies| - 1 &&
              |r.particles| == |p.particles| + ExplosionSize &&
              |p.powerUps| <= |r.powerUps| <= |p.powerUps| + 1
  {
    var struck := LastStruck(p.bullets[i], p.enemies);
    if struck.Some? then ApplyHit(p, i, struck.value, rolls(p.hits)) else p
  }

  /** The outer loop over bullets `i - 1` down to 0, each resolved by `Struck`. */
  function Resolve(p: HitPass, i: nat, rolls: nat -> HitRoll): (r: HitPass)
    requires i <= |p.bullets|
    ensures p.hits <= r.hits <= p.hits + i
    decreases i
  {
    if i == 0 then p
    else Resolve(Struck(p, i - 1, rolls), i - 1, rolls)
  }

  /** Each bullet strikes at most one enemy, and every hit scores 10, removes
      a bullet and an enemy, and adds ten particles and at most one power-up. */
  lemma {:induction false} ResolveCounts(p: HitPass, i: nat, rolls: nat -> HitRoll)
    requires i <= |p.bullets|
    ensures var r := Resolve(p, i, rolls);
            p.hits <= r.hits <= p.hits + i &&
            r.score == p.score + 10 * (r.hits - p.hits) &&
            |r.bullets| == |p.bullets| - (r.hits - p.hits) &&
            |r.enemies| == |p.enemies| - (r.hits - p.hits) &&
            |r.particles| == |p.particles| + 10 * (r.hits - p.hits) &&
            |p.powerUps| <= |r.powerUps| <= |p.powerUps| + (r.hits - p.hits)
    decreases i
  {
    if i > 0 {
      ResolveCounts(Struck(p, i - 1, rolls), i - 1, rolls);
    }
  }

  /** One step of the outer loop: bullet `i` is resolved, then the ones below it. */
  lemma ResolveStep(p: HitPass, i: nat, rolls: nat -> HitRoll)
    requires i < |p.bullets|
    ensures Resolve(p, i + 1, rolls) == Resolve(Struck(p, i, rolls), i, rolls)
  {
  }

  /** On a hit, the bullet spliced out is bullet `i` and the enemy spliced out
      is the one the inner scan found: the highest-indexed enemy it strikes. */
  lemma StruckEffect(p: HitPass, i: nat, rolls: nat -> HitRoll)
    requires i < |p.bullets|
    ensures LastStruck(p.bullets[i], p.enemies).Some? ==>
              Struck(p, i, rolls).bullets == Removed(p.bullets, i) &&
              Struck(p, i, rolls).enemies == Removed(p.enemies, LastStruck(p.bullets[i], p.enemies).value) &&
              Struck(p, i, rolls).hits == p.hits + 1
    ensures LastStruck(p.bullets[i], p.enemies).None? ==> Struck(p, i, rolls) == p
  {
    var struck := LastStruck(p.bullets[i], p.enemies);
    if struck.Some? {
      ApplyHitEffect(p, i, struck.value, rolls(p.hits));
    }
  }

  /** A bullet changes the state exactly when it strikes some enemy. */
  lemma StruckOnlyOnHit(p: HitPass, i: nat, rolls: nat -> HitRoll)
    requires i < |p.bullets|
    ensures Struck(p, i, rolls) == p <==>
            forall j :: 0 <= j < |p.enemies| ==> !Strikes(p.bullets[i], p.enemies[j])
  {
    LastStruckIsLast(p.bullets[i], p.enemies);
  }

  /** Taking out twice is taking out. */
  lemma SubChain<T>(a: seq<T>, b: seq<T>, c: seq<T>)
    requires multiset(b) <= multiset(a) && multiset(c) <= multiset(b)
    ensures multiset(c) <= multiset(a)
  {
  }

  /** One iteration only removes bullets and enemies. */
  lemma StruckOnlyRemoves(p: HitPass, i: nat, rolls: nat -> HitRoll)
    requires i < |p.bullets|
    ensures multiset(Struck(p, i, rolls).bullets) <= multiset(p.bullets)
    ensures multiset(Struck(p, i, rolls).enemies) <= multiset(p.enemies)
  {
    var struck := LastStruck(p.bullets[i], p.enemies);
    if struck.Some? {
      ApplyHitEffect(p, i, struck.value, rolls(p.hits));
      RemovedMultiset(p.bullets, i);
      RemovedMultiset(p.enemies, struck.value);
    }
  }

  /** One iteration only appends particles, all fresh, and power-ups. */
  lemma StruckOnlyAppends(p: HitPass, i: nat, rolls: nat -> HitRoll)
    requires i < |p.bullets|
    ensures p.particles <= Struck(p, i, rolls).particles
    ensures forall k :: |p.particles| <= k < |Struck(p, i, rolls).particles| ==>
              Struck(p, i, rolls).particles[k].life == ParticleLife
    ensures p.powerUps <= Struck(p, i, rolls).powerUps
  {
    var struck := LastStruck(p.bullets[i], p.enemies);
    if struck.Some? {
      var e := p.enemies[struck.value];
      var r := ApplyHit(p, i, struck.value, rolls(p.hits));
      ApplyHitEffect(p, i, struck.value, rolls(p.hits));
      forall k | |p.particles| <= k < |r.particles|
        ensures r.particles[k].life == ParticleLife
      {
        assert r.particles[k] == Explosion(e.x + 20.0, e.y + 20.0)[k - |p.particles|];
      }
    }
  }

  /** The pass only removes bullets and enemies. */
  lemma {:induction false} ResolveOnlyRemoves(p: HitPass, i: nat, rolls: nat -> HitRoll)
    requires i <= |p.bullets|
    ensures multiset(Resolve(p, i, rolls).bullets) <= multiset(p.bullets)
    ensures multiset(Resolve(p, i, rolls).enemies) <= multiset(p.enemies)
    decreases i
  {
    if i > 0 {
      var next := Struck(p, i - 1, rolls);
      var r := Resolve(next, i - 1, rolls);
      StruckOnlyRemoves(p, i - 1, rolls);
      ResolveOnlyRemoves(next, i - 1, rolls);
      SubChain(p.bullets, next.bullets, r.bullets);
      SubChain(p.enemies, next.enemies, r.enemies);
    }
  }

  /** The pass only appends particles and power-ups, and every particle it
      appends is fresh, with the full lifetime. */
  lemma {:induction false} ResolveOnlyAppends(p: HitPass, i: nat, rolls: nat -> HitRoll)
    requires i <= |p.bullets|
    ensures p.particles <= Resolve(p, i, rolls).particles
    ensures forall k :: |p.particles| <= k < |Resolve(p, i, rolls).particles| ==>
              Resolve(p, i, rolls).particles[k].life == ParticleLife
    ensures p.powerUps <= Resolve(p, i, rolls).powerUps
    decreases i
  {
    if i > 0 {
      var next := Struck(p, i - 1, rolls);
      var r := Resolve(next, i - 1, rolls);
      assert r == Resolve(p, i, rolls);
      StruckOnlyAppends(p, i - 1, rolls);
      ResolveOnlyAppends(next, i - 1, rolls);
      FreshAppends(p.particles, next.particles, r.particles);
      assert p.powerUps <= r.powerUps;
    }
  }

  /** Two appends of fresh particles in a row are one. */
  lemma FreshAppends(a: seq<Particle>, b: seq<Particle>, c: seq<Particle>)
    requires a <= b && b <= c
    requires forall k :: |a| <= k < |b| ==> b[k].life == ParticleLife
    requires forall k :: |b| <= k < |c| ==> c[k].life == ParticleLife
    ensures a <= c
    ensures forall k :: |a| <= k < |c| ==> c[k].life == ParticleLife
  {
    forall k | |a| <= k < |b|
      ensures c[k].life == ParticleLife
    {
      assert c[k] == b[k];
    }
  }

  /** The whole bullet-enemy pass. */
  function HitPhase(w: WorldState, rolls: nat -> HitRoll): (r: WorldState)
    ensures r.(bullets := w.bullets, enemies := w.enemies, particles := w.particles,
               powerUps := w.powerUps, score := w.score) == w
    ensures r.score - w.score == 10 * (|w.bullets| - |r.bullets|)
    ensures |r.bullets| <= |w.bullets|
    ensures |w.bullets| - |r.bullets| == |w.enemies| - |r.enemies|
    ensures |r.particles| - |w.particles| == 10 * (|w.bullets| - |r.bullets|)
  {
    var start := HitPass(w.bullets, w.enemies, w.particles, w.powerUps, w.score, 0);
    var pass := Resolve(start, |w.bullets|, rolls);
    ResolveCounts(start, |w.bullets|, rolls);
    w.(bullets := pass.bullets, enemies := pass.enemies, particles := pass.particles,
       powerUps := pass.powerUps, score := pass.score)
  }

  /** The whole pass only removes bullets and enemies, and only appends
      particles (all fresh) and power-ups. */
  lemma HitPhaseKeeps(w: WorldState, rolls: nat -> HitRoll)
    ensures multiset(HitPhase(w, rolls).bullets) <= multiset(w.bullets)
    ensures multiset(HitPhase(w, rolls).enemies) <= multiset(w.enemies)
    ensures w.particles <= HitPhase(w, rolls).particles
    ensures forall k :: |w.particles| <= k < |HitPhase(w, rolls).particles| ==>
              HitPhase(w, rolls).particles[k].life == ParticleLife
    ensures w.powerUps <= HitPhase(w, rolls).powerUps
  {
    var start := HitPass(w.bullets, w.enemies, w.particles, w.powerUps, w.score, 0);
    ResolveOnlyRemoves(start, |w.bullets|, rolls);
    ResolveOnlyAppends(start, |w.bullets|, rolls);
  }

  /** No bullet from index `from` on strikes any enemy. */
  ghost predicate ClearFrom(p: HitPass, from: nat) {
    forall a, e :: from <= a < |p.bullets| && 0 <= e < |p.enemies| ==> !Strikes(p.bullets[a], p.enemies[e])
  }

  /** Resolving bullet `i` extends the cleared range down to `i`: a bullet
      that strikes nothing clears itself, and a hit only removes bullets and
      enemies from pairs already clear. */
  lemma StruckClears(p: HitPass, i: nat, rolls: nat -> HitRoll)
    requires i < |p.bullets| && ClearFrom(p, i + 1)
    ensures ClearFrom(Struck(p, i, rolls), i)
  {
    var struck := LastStruck(p.bullets[i], p.enemies);
    LastStruckIsLast(p.bullets[i], p.enemies);
    StruckEffect(p, i, rolls);
    var next := Struck(p, i, rolls);
    if struck.Some? {
      var j := struck.value;
      RemovedElements(p.bullets, i);
      RemovedElements(p.enemies, j);
      forall a, e | i <= a < |next.bullets| && 0 <= e < |next.enemies|
        ensures !Strikes(next.bullets[a], next.enemies[e])
      {
        assert next.bullets[a] == p.bullets[a + 1];
        if e < j {
          assert next.enemies[e] == p.enemies[e];
        } else {
          assert next.enemies[e] == p.enemies[e + 1];
        }
      }
    }
  }

  /** Resolving bullets `i - 1` down to 0 clears every pair. */
  lemma {:induction false} ResolveClears(p: HitPass, i: nat, rolls: nat -> HitRoll)
    requires i <= |p.bullets| && ClearFrom(p, i)
    ensures ClearFrom(Resolve(p, i, rolls), 0)
    decreases i
  {
    if i > 0 {
      StruckClears(p, i - 1, rolls);
      ResolveClears(Struck(p, i - 1, rolls), i - 1, rolls);
    }
  }

  /** After the pass no surviving bullet strikes a surviving enemy: every
      colliding pair has been resolved. */
  lemma HitPhaseClears(w: WorldState, rolls: nat -> HitRoll)
    ensures forall b, e :: b in HitPhase(w, rolls).bullets && e in HitPhase(w, rolls).enemies ==>
              !Strikes(b, e)
  {
    var start := HitPass(w.bullets, w.enemies, w.particles, w.powerUps, w.score, 0);
    var pass := Resolve(start, |w.bullets|, rolls);
    ResolveClears(start, |w.bullets|, rolls);
    assert HitPhase(w, rolls).bullets == pass.bullets && HitPhase(w, rolls).enemies == pass.enemies;
    forall b, e | b in pass.bullets && e in pass.enemies
      ensures !Strikes(b, e)
    {
      var a :| 0 <= a < |pass.bullets| && pass.bullets[a] == b;
      var k :| 0 <= k < |pass.enemies| && pass.enemies[k] == e;
    }
  }

  // ---------------------------------------------------------------------------

  /** Power-ups move; one the player touches activates the power-up and is
      removed, one past the bottom edge is dropped. */
  function PowerUpPhase(w: WorldState): (r: WorldState)
    ensures r.(powerUps := w.powerUps, player := w.player) == w
    ensures |r.powerUps| <= |w.powerUps|
    ensures r.player == w.player || r.player == PoweredUp(w.player)
  {
    w.(powerUps := FilterUpdated(w.powerUps, UpdatedPowerUp, PowerUpKept(w.player)),
       player := if AnyUpdated(w.powerUps, UpdatedPowerUp, PowerUpTouches(w.player))
                 then PoweredUp(w.player) else w.player)
  }

  /** The power-up pass keeps exactly the moved power-ups clear of the player
      and above the bottom limit, and powers the player up exactly when a
      moved power-up touches it. */
  lemma PowerUpPhaseKeeps(w: WorldState)
    ensures forall u :: u in PowerUpPhase(w).powerUps ==>
              PowerUpKept(w.player)(u) && exists k :: 0 <= k < |w.powerUps| && u == UpdatedPowerUp(w.powerUps[k])
    ensures forall k :: 0 <= k < |w.powerUps| && PowerUpKept(w.player)(UpdatedPowerUp(w.powerUps[k])) ==>
              UpdatedPowerUp(w.powerUps[k]) in PowerUpPhase(w).powerUps
    ensures (exists k :: 0 <= k < |w.powerUps| && PowerUpTouches(w.player)(UpdatedPowerUp(w.powerUps[k])))
              ==> PowerUpPhase(w).player == PoweredUp(w.player)
    ensures (forall k :: 0 <= k < |w.powerUps| ==> !PowerUpTouches(w.player)(UpdatedPowerUp(w.powerUps[k])))
              ==> PowerUpPhase(w).player == w.player
  {
    FilterUpdatedKeeps(w.powerUps, UpdatedPowerUp, PowerUpKept(w.player));
    AnyUpdatedWitness(w.powerUps, UpdatedPowerUp, PowerUpTouches(w.player));
  }

  /** Particles age; those whose lifetime reaches 0 are dropped. */
  function ParticlePhase(w: WorldState): (r: WorldState)
    ensures r.(particles := w.particles) == w
    ensures |r.particles| <= |w.particles|
  {
    w.(particles := FilterUpdated(w.particles, UpdatedParticle, ParticleAlive))
  }

  /** The particle pass keeps exactly the aged particles with life left. */
  lemma ParticlePhaseKeeps(w: WorldState)
    ensures forall q :: q in ParticlePhase(w).particles ==>
              ParticleAlive(q) && exists k :: 0 <= k < |w.particles| && q == UpdatedParticle(w.particles[k])
    ensures forall k :: 0 <= k < |w.particles| && UpdatedParticle(w.particles[k]).life > 0 ==>
              UpdatedParticle(w.particles[k]) in ParticlePhase(w).particles
  {
    FilterUpdatedKeeps(w.particles, UpdatedParticle, ParticleAlive);
  }

  /** `Game.update`: nothing happens once the game is over; otherwise every
      stage runs, in order, even after the enemy pass has ended the game. */
  function Step(w: WorldState, input: TickInput): (r: WorldState)
    ensures !w.gameRunning ==> r == w
  {
    if !w.gameRunning then w
    else
      var w1 := PlayerPhase(w, input);
      var w2 := BulletPhase(w1);
      var w3 := SpawnPhase(w2, input.spawnRoll, input.speedRoll);
      var w4 := EnemyPhase(w3);
      var w5 := HitPhase(w4, input.hitRolls);
      var w6 := PowerUpPhase(w5);
      var w7 := ParticlePhase(w6);
      w7.(level := Level(w7.score))
  }

  // ---------------------------------------------------------------------------
  // What every tick keeps true

  /** The game's invariant: a sound player, a score made of hits with the
      level it implies, a spawner within its ramp, and every list holding only
      what the last pruning pass would keep. */
  predicate Inv(w: WorldState) {
    Sound(w.player) &&
    ScoreOk(w) &&
    SpawnerOk(w.enemySpawnTimer, w.enemySpawnRate) &&
    Pruned(w) &&
    (forall q :: q in w.particles ==> q.life <= ParticleLife)
  }

  /** The score is a non-negative multiple of 10 and the level is the one it implies. */
  predicate ScoreOk(w: WorldState) {
    w.score >= 0 && w.score % HitScore == 0 && w.level == Level(w.score)
  }

  /** Every list holds only what its pruning pass keeps: bullets below the top
      edge, enemies and power-ups clear of the player and above their bottom
      limits, particles with life left. */
  predicate Pruned(w: WorldState) {
    (forall b :: b in w.bullets ==> BulletOnScreen(b)) &&
    (forall e :: e in w.enemies ==> EnemyKept(w.player)(e)) &&
    (forall u :: u in w.powerUps ==> PowerUpKept(w.player)(u)) &&
    (forall q :: q in w.particles ==> ParticleAlive(q))
  }

  /** Adding whole tens keeps a multiple of ten. */
  lemma TensStayTens(score: int, hits: int)
    requires score % 10 == 0
    ensures (score + 10 * hits) % 10 == 0
  {
  }

  /** A running tick is the composition of its stages. */
  lemma StepStages(w: WorldState, input: TickInput)
    requires w.gameRunning
    ensures Step(w, input) ==
            var w7 := ParticlePhase(PowerUpPhase(HitPhase(EnemyPhase(SpawnPhase(BulletPhase(PlayerPhase(w, input)),
                        input.spawnRoll, input.speedRoll)), input.hitRolls)));
            w7.(level := Level(w7.score))
  {
  }

  /** The player stays sound through a tick. */
  lemma StepKeepsSound(w: WorldState, input: TickInput)
    requires Sound(w.player)
    ensures Sound(Step(w, input).player)
  {
    if w.gameRunning {
      StepStages(w, input);
      var w1 := PlayerPhase(w, input);
      var w5 := HitPhase(EnemyPhase(SpawnPhase(BulletPhase(w1), input.spawnRoll, input.speedRoll)), input.hitRolls);
      assert w5.player == w1.player;
    }
  }

  /** A running tick adds ten points for each of its hits, and sets the level
      from the new score. */
  lemma StepHits(w: WorldState, input: TickInput) returns (hits: nat)
    requires w.gameRunning
    ensures hits == |BulletPhase(PlayerPhase(w, input)).bullets| - |Step(w, input).bullets|
    ensures Step(w, input).score == w.score + 10 * hits
    ensures Step(w, input).level == Level(Step(w, input).score)
  {
    var w1 := PlayerPhase(w, input);
    var w2 := BulletPhase(w1);
    var w3 := SpawnPhase(w2, input.spawnRoll, input.speedRoll);
    var w4 := EnemyPhase(w3);
    var w5 := HitPhase(w4, input.hitRolls);
    var w7 := ParticlePhase(PowerUpPhase(w5));
    assert Step(w, input) == w7.(level := Level(w7.score));
    assert w4.score == w.score && w7.score == w5.score;
    assert w4.bullets == w2.bullets && w7.bullets == w5.bullets;
    hits := |w4.bullets| - |w5.bullets|;
  }

  /** A tick adds ten points per hit and nothing else, and leaves the level
      equal to the floor of the score over 100, plus one. */
  lemma StepKeepsScore(w: WorldState, input: TickInput)
    requires ScoreOk(w)
    ensures ScoreOk(Step(w, input))
    ensures Step(w, input).score >= w.score
  {
    if w.gameRunning {
      var hits := StepHits(w, input);
      TensStayTens(w.score, hits);
    }
  }

  /** The spawner stays within its ramp through a tick, and its interval never grows. */
  lemma StepKeepsSpawner(w: WorldState, input: TickInput)
    requires SpawnerOk(w.enemySpawnTimer, w.enemySpawnRate)
    ensures SpawnerOk(Step(w, input).enemySpawnTimer, Step(w, input).enemySpawnRate)
    ensures Step(w, input).enemySpawnRate <= w.enemySpawnRate
  {
    if w.gameRunning {
      StepStages(w, input);
      var w2 := BulletPhase(PlayerPhase(w, input));
      var w3 := SpawnPhase(w2, input.spawnRoll, input.speedRoll);
      SpawnPhaseKeepsSpawner(w2, input.spawnRoll, input.speedRoll);
      var w5 := HitPhase(EnemyPhase(w3), input.hitRolls);
      var w7 := ParticlePhase(PowerUpPhase(w5));
      assert w5.enemySpawnTimer == w3.enemySpawnTimer && w5.enemySpawnRate == w3.enemySpawnRate;
      assert w7.enemySpawnTimer == w5.enemySpawnTimer && w7.enemySpawnRate == w5.enemySpawnRate;
    }
  }

  /** After a running tick every remaining bullet is below the top edge. */
  lemma StepPrunesBullets(w: WorldState, input: TickInput)
    requires w.gameRunning
    ensures forall b :: b in Step(w, input).bullets ==> BulletOnScreen(b)
  {
    StepStages(w, input);
    var w2 := BulletPhase(PlayerPhase(w, input));
    var w4 := EnemyPhase(SpawnPhase(w2, input.spawnRoll, input.speedRoll));
    var w5 := HitPhase(w4, input.hitRolls);
    BulletPhaseKeeps(PlayerPhase(w, input));
    HitPhaseKeeps(w4, input.hitRolls);
    assert w4.bullets == w2.bullets;
    assert ParticlePhase(PowerUpPhase(w5)).bullets == w5.bullets;
    forall b | b in w5.bullets ensures BulletOnScreen(b) {
      assert multiset(w5.bullets)[b] > 0;
      assert b in w2.bullets;
    }
  }

  /** After a running tick every remaining enemy is clear of the player and
      above the bottom limit. */
  lemma StepPrunesEnemies(w: WorldState, input: TickInput)
    requires w.gameRunning
    ensures forall e :: e in Step(w, input).enemies ==> EnemyKept(Step(w, input).player)(e)
  {
    StepStages(w, input);
    var w3 := SpawnPhase(BulletPhase(PlayerPhase(w, input)), input.spawnRoll, input.speedRoll);
    var w4 := EnemyPhase(w3);
    var w5 := HitPhase(w4, input.hitRolls);
    var w6 := PowerUpPhase(w5);
    EnemyPhaseKeeps(w3);
    HitPhaseKeeps(w4, input.hitRolls);
    assert ParticlePhase(w6).enemies == w5.enemies;
    assert w5.player == w3.player;
    // Collecting a power-up does not move the player.
    assert PlayerBox(w6.player) == PlayerBox(w3.player);
    forall e | e in w5.enemies ensures EnemyKept(w6.player)(e) {
      assert multiset(w5.enemies)[e] > 0;
      assert e in w4.enemies;
    }
  }

  /** After a running tick every remaining power-up is clear of the player
      and above the bottom limit. */
  lemma StepPrunesPowerUps(w: WorldState, input: TickInput)
    requires w.gameRunning
    ensures forall u :: u in Step(w, input).powerUps ==> PowerUpKept(Step(w, input).player)(u)
  {
    StepStages(w, input);
    var w5 := HitPhase(EnemyPhase(SpawnPhase(BulletPhase(PlayerPhase(w, input)),
                input.spawnRoll, input.speedRoll)), input.hitRolls);
    var w6 := PowerUpPhase(w5);
    PowerUpPhaseKeeps(w5);
    assert ParticlePhase(w6).powerUps == w6.powerUps && ParticlePhase(w6).player == w6.player;
    // Collecting a power-up does not move the player.
    assert PlayerBox(w6.player) == PlayerBox(w5.player);
  }

  /** After a running tick every remaining particle has life left, and none
      has more than a fresh one. */
  lemma StepPrunesParticles(w: WorldState, input: TickInput)
    requires w.gameRunning
    requires forall q :: q in w.particles ==> q.life <= ParticleLife
    ensures forall q :: q in Step(w, input).particles ==> 0 < q.life <= ParticleLife
  {
    StepStages(w, input);
    var w4 := EnemyPhase(SpawnPhase(BulletPhase(PlayerPhase(w, input)), input.spawnRoll, input.speedRoll));
    var w5 := HitPhase(w4, input.hitRolls);
    var w6 := PowerUpPhase(w5);
    HitPhaseKeeps(w4, input.hitRolls);
    ParticlePhaseKeeps(w6);
    assert w4.particles == w.particles;
    assert w6.particles == w5.particles;
    forall q | q in w5.particles ensures q.life <= ParticleLife {
      var k :| 0 <= k < |w5.particles| && w5.particles[k] == q;
      if k < |w4.particles| {
        assert w4.particles[k] == q;
      }
    }
  }

  /** After a running tick no bullet strikes an enemy. */
  lemma StepClears(w: WorldState, input: TickInput)
    requires w.gameRunning
    ensures forall b, e :: b in Step(w, input).bullets && e in Step(w, input).enemies ==> !Strikes(b, e)
  {
    StepStages(w, input);
    var w5 := HitPhase(EnemyPhase(SpawnPhase(BulletPhase(PlayerPhase(w, input)),
                input.spawnRoll, input.speedRoll)), input.hitRolls);
    HitPhaseClears(EnemyPhase(SpawnPhase(BulletPhase(PlayerPhase(w, input)),
                     input.spawnRoll, input.speedRoll)), input.hitRolls);
    var w6 := PowerUpPhase(w5);
    assert ParticlePhase(w6).bullets == w5.bullets && ParticlePhase(w6).enemies == w5.enemies;
  }

  /** Every tick keeps the invariant; with `Initial`, it holds in every state
      a game reaches. */
  lemma StepKeepsInv(w: WorldState, input: TickInput)
    requires Inv(w)
    ensures Inv(Step(w, input))
  {
    StepKeepsSound(w, input);
    StepKeepsScore(w, input);
    StepKeepsSpawner(w, input);
    if w.gameRunning {
      StepPrunesBullets(w, input);
      StepPrunesEnemies(w, input);
      StepPrunesPowerUps(w, input);
      StepPrunesParticles(w, input);
    }
  }
}
