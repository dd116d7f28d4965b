/** The `Game` object: the fields the source updates in place, its tick
    `update` with the pruning loops and the reverse nested bullet-enemy loop,
    `createExplosion`, the flag part of `gameOver`, and `restart`. Each method
    is proved to follow the functions of module Simulation, so the lemmas
    proved there hold of the object. */
module Shooter {
  import opened Collision
  import opened Entities
  import opened Lists
  import opened Players
  import opened Simulation

  /** The inner loop of the bullet-enemy pass: enemies from the last down,
      stopping at the first one the bullet strikes. */
  method ScanEnemies(b: Bullet, es: seq<Enemy>) returns (found: Option<nat>)
    ensures found == LastStruck(b, es)
  {
    var j := |es| - 1;
    assert es[..j + 1] == es;
    while j >= 0
      invariant -1 <= j < |es|
      invariant LastStruck(b, es[..j + 1]) == LastStruck(b, es)
      decreases j + 1
    {
      assert es[..j + 1][j] == es[j];
      if CheckCollision(BulletBox(b), EnemyBox(es[j])) {
        return Some(j);
      }
      assert es[..j + 1][..j] == es[..j];
      j := j - 1;
    }
    return None;
  }

  class Game {
    var player: Player
    var bullets: seq<Bullet>
    var enemies: seq<Enemy>
    var particles: seq<Particle>
    var powerUps: seq<PowerUp>
    var score: int
    var level: int
    var gameRunning: bool
    var enemySpawnTimer: int
    var enemySpawnRate: real

    /** The game's state as a value. */
    function Snapshot(): WorldState
      reads this, player
    {
      WorldState(player.State(), bullets, enemies, particles, powerUps,
                 score, level, gameRunning, enemySpawnTimer, enemySpawnRate)
    }

    ghost predicate Valid()
      reads this, player
    {
      Inv(Snapshot())
    }

    /** The simulation part of the constructor. */
    constructor ()
      ensures fresh(player)
      ensures Snapshot() == Initial()
      ensures Valid()
    {
      player := new Player(CanvasWidth / 2, CanvasHeight - 60);
      bullets, enemies, particles, powerUps := [], [], [], [];
      score, level := 0, 1;
      gameRunning := true;
      enemySpawnTimer, enemySpawnRate := 0, InitialSpawnRate;
    }

    /** One tick. Does nothing once the game is over; otherwise runs every
        stage, and keeps the game's invariant. */
    method Update(input: TickInput)
      requires Valid()
      modifies this`bullets, this`enemies, this`particles, this`powerUps, this`score, this`level,
               this`gameRunning, this`enemySpawnTimer, this`enemySpawnRate, player
      ensures Snapshot() == Step(old(Snapshot()), input)
      ensures Valid()
    {
      if !gameRunning {
        return;
      }
      ghost var w := Snapshot();
      UpdatePlayer(input);
      UpdateBullets();
      SpawnEnemies(input.spawnRoll, input.speedRoll);
      UpdateEnemies();
      ResolveHits(input.hitRolls);
      UpdatePowerUps();
      UpdateParticles();
      ghost var w7 := Snapshot();
      level := Level(score);
      assert Snapshot() == w7.(level := Level(w7.score));
      StepStages(w, input);
      StepKeepsInv(w, input);
    }

    /** The held keys move the player, the player's `update` runs, and with
        fire held its shot, if any, joins the bullets. */
    method UpdatePlayer(input: TickInput)
      modifies player, this`bullets
      ensures player == old(player)
      ensures Snapshot() == PlayerPhase(old(Snapshot()), input)
    {
      if input.left {
        player.MoveLeft();
      }
      if input.right {
        player.MoveRight(CanvasWidth);
      }
      player.Update();
      if input.fire {
        var bullet := player.Shoot();
        if bullet.Some? {
          bullets := bullets + [bullet.value];
        }
      }
    }

    /** Bullets move and are kept while below the top edge. */
    method UpdateBullets()
      modifies this`bullets
      ensures player == old(player)
      ensures Snapshot() == BulletPhase(old(Snapshot()))
    {
      var kept: seq<Bullet> := [];
      var k := 0;
      while k < |bullets|
        invariant 0 <= k <= |bullets|
        invariant kept == FilterUpdated(bullets[..k], UpdatedBullet, BulletOnScreen)
      {
        var bullet := UpdatedBullet(bullets[k]);
        if bullet.y > 0.0 {
          kept := kept + [bullet];
        }
        assert bullets[..k + 1][..k] == bullets[..k];
        k := k + 1;
      }
      assert bullets[..k] == bullets;
      bullets := kept;
    }

    /** The spawner with its difficulty ramp. */
    method SpawnEnemies(spawnRoll: real, speedRoll: real)
      modifies this`enemies, this`enemySpawnTimer, this`enemySpawnRate
      ensures player == old(player)
      ensures Snapshot() == SpawnPhase(old(Snapshot()), spawnRoll, speedRoll)
    {
      enemySpawnTimer := enemySpawnTimer + 1;
      if enemySpawnTimer as real >= enemySpawnRate {
        enemies := enemies + [Enemy(spawnRoll * SpawnXRange, -40.0, 2.0 + speedRoll * 2.0)];
        enemySpawnTimer := 0;
        if enemySpawnRate > MinSpawnRate {
          enemySpawnRate := enemySpawnRate - 0.5;
        }
      }
    }

    /** Enemies move; contact with the player ends the game and removes the
        enemy, and the pass goes on with the remaining enemies. */
    method UpdateEnemies()
      modifies this`enemies, this`gameRunning
      ensures player == old(player)
      ensures Snapshot() == EnemyPhase(old(Snapshot()))
    {
      ghost var p0 := player.State();
      var kept: seq<Enemy> := [];
      var k := 0;
      while k < |enemies|
        invariant 0 <= k <= |enemies| && enemies == old(enemies) && player.State() == p0
        invariant kept == FilterUpdated(enemies[..k], UpdatedEnemy, EnemyKept(p0))
        invariant gameRunning ==
                  if AnyUpdated(enemies[..k], UpdatedEnemy, EnemyTouches(p0)) then false
                  else old(gameRunning)
      {
        var enemy := UpdatedEnemy(enemies[k]);
        FilterUpdatedExtend(enemies, k, UpdatedEnemy, EnemyKept(p0));
        AnyUpdatedExtend(enemies, k, UpdatedEnemy, EnemyTouches(p0));
        ghost var touches := CheckCollision(EnemyBox(enemy), PlayerBox(p0));
        assert EnemyTouches(p0)(enemy) == touches;
        assert EnemyKept(p0)(enemy) == (!touches && enemy.y < (CanvasHeight + 40) as real);
        if CheckCollision(EnemyBox(enemy), PlayerBox(player.State())) {
          GameOver();
        } else if enemy.y < (CanvasHeight + 40) as real {
          kept := kept + [enemy];
        }
        k := k + 1;
      }
      assert enemies[..k] == enemies;
      enemies := kept;
    }

    /** The part of the state the bullet-enemy pass works on, with the
        number of hits so far. */
    function Pass(hits: nat): HitPass
      reads this
    {
      HitPass(bullets, enemies, particles, powerUps, score, hits)
    }

    /** The bullet-enemy pass of the tick, on the game's state. */
    method ResolveHits(rolls: nat -> HitRoll)
      modifies this`bullets, this`enemies, this`particles, this`powerUps, this`score
      ensures player == old(player)
      ensures Snapshot() == HitPhase(old(Snapshot()), rolls)
    {
      ScanBullets(rolls);
    }

    /** The reverse nested loop: bullets from the last, enemies from the last;
        the first enemy a bullet strikes is destroyed with it, and the scan
        moves on to the next bullet. */
    method ScanBullets(rolls: nat -> HitRoll)
      modifies this`bullets, this`enemies, this`particles, this`powerUps, this`score
      ensures Pass(0) == Resolve(old(Pass(0)), |old(bullets)|, rolls).(hits := 0)
    {
      ghost var start := Pass(0);
      var hits: nat := 0;
      var i := |bullets| - 1;
      while i >= 0
        invariant -1 <= i < |bullets|
        invariant Resolve(Pass(hits), i + 1, rolls) == Resolve(start, |start.bullets|, rolls)
        decreases i + 1
      {
        hits := ResolveBullet(i, rolls, hits);
        i := i - 1;
      }
    }

    /** One pass of the outer loop: bullet `i` against the enemies, from the
        last down; on the first hit both go and the pass ends. */
    method ResolveBullet(i: nat, rolls: nat -> HitRoll, hits: nat) returns (hits': nat)
      requires i < |bullets|
      modifies this`bullets, this`enemies, this`particles, this`powerUps, this`score
      ensures Pass(hits') == Struck(old(Pass(hits)), i, rolls)
      ensures Resolve(Pass(hits'), i, rolls) == Resolve(old(Pass(hits)), i + 1, rolls)
    {
      ResolveStep(Pass(hits), i, rolls);
      hits' := hits;
      var target := ScanEnemies(bullets[i], enemies);
      if target.Some? {
        Hit(i, target.value, rolls, hits);
        hits' := hits + 1;
      }
    }

    /** The body of the inner loop on a hit, for the enemy the scan found:
        ten particles at the enemy's centre, both removed, ten points, and
        maybe a power-up. */
    method Hit(i: nat, j: nat, rolls: nat -> HitRoll, hits: nat)
      requires i < |bullets| && LastStruck(bullets[i], enemies) == Some(j)
      modifies this`bullets, this`enemies, this`particles, this`powerUps, this`score
      ensures Pass(hits + 1) == Struck(old(Pass(hits)), i, rolls)
    {
      var roll := rolls(hits);
      CreateExplosion(enemies[j].x + 20.0, enemies[j].y + 20.0);
      bullets := Removed(bullets, i);
      enemies := Removed(enemies, j);
      score := score + HitScore;
      if roll.drop < 0.1 {
        powerUps := powerUps + [PowerUp(DropX(enemies, j, roll), DropY(enemies, j))];
      }
    }

    /** Ten particles of full lifetime at (x, y). */
    method CreateExplosion(x: real, y: real)
      modifies this`particles
      ensures particles == old(particles) + Explosion(x, y)
    {
      for k := 0 to ExplosionSize
        invariant particles == old(particles) + Explosion(x, y)[..k]
      {
        particles := particles + [Particle(x, y, ParticleLife)];
        assert Explosion(x, y)[..k + 1] == Explosion(x, y)[..k] + [Particle(x, y, ParticleLife)];
      }
    }

    /** Power-ups move; one the player touches is collected, one past the
        bottom limit is dropped. */
    method UpdatePowerUps()
      modifies this`powerUps, player
      ensures Snapshot() == PowerUpPhase(old(Snapshot()))
    {
      ghost var p0 := player.State();
      ghost var touched := false;
      var kept: seq<PowerUp> := [];
      var k := 0;
      while k < |powerUps|
        invariant 0 <= k <= |powerUps| && powerUps == old(powerUps)
        invariant kept == FilterUpdated(powerUps[..k], UpdatedPowerUp, PowerUpKept(p0))
        invariant touched == AnyUpdated(powerUps[..k], UpdatedPowerUp, PowerUpTouches(p0))
        invariant player.State() == if touched then PoweredUp(p0) else p0
      {
        var powerUp := UpdatedPowerUp(powerUps[k]);
        FilterUpdatedExtend(powerUps, k, UpdatedPowerUp, PowerUpKept(p0));
        AnyUpdatedExtend(powerUps, k, UpdatedPowerUp, PowerUpTouches(p0));
        assert PlayerBox(player.State()) == PlayerBox(p0);
        ghost var touches := CheckCollision(PowerUpBox(powerUp), PlayerBox(p0));
        assert PowerUpTouches(p0)(powerUp) == touches;
        assert PowerUpKept(p0)(powerUp) == (!touches && powerUp.y < (CanvasHeight + 20) as real);
        if CheckCollision(PowerUpBox(powerUp), PlayerBox(player.State())) {
          player.ActivatePowerUp();
          touched := true;
        } else if powerUp.y < (CanvasHeight + 20) as real {
          kept := kept + [powerUp];
        }
        k := k + 1;
      }
      assert powerUps[..k] == powerUps;
      powerUps := kept;
    }

    /** Particles age and are kept while they have life left. */
    method UpdateParticles()
      modifies this`particles
      ensures Snapshot() == ParticlePhase(old(Snapshot()))
    {
      var kept: seq<Particle> := [];
      var k := 0;
      while k < |particles|
        invariant 0 <= k <= |particles|
        invariant kept == FilterUpdated(particles[..k], UpdatedParticle, ParticleAlive)
      {
        var particle := UpdatedParticle(particles[k]);
        if particle.life > 0 {
          kept := kept + [particle];
        }
        assert particles[..k + 1][..k] == particles[..k];
        k := k + 1;
      }
      assert particles[..k] == particles;
      particles := kept;
    }

    /** The state change of `gameOver`: the game stops. */
    method GameOver()
      modifies this`gameRunning
      ensures !gameRunning
    {
      gameRunning := false;
    }

    /** A fresh player at (400, 540), empty lists, score 0, level 1, the
        spawner back at its start, and the game running. */
    method Restart()
      modifies this
      ensures fresh(player)
      ensures Snapshot() == Initial()
      ensures player.State() == PlayerState(400, 540, 0, false, 0)
      ensures bullets == [] && enemies == [] && particles == [] && powerUps == []
      ensures score == 0 && level == 1 && gameRunning
      ensures enemySpawnTimer == 0 && enemySpawnRate == 60.0
      ensures Valid()
    {
      player := new Player(CanvasWidth / 2, CanvasHeight - 60);
      bullets := [];
      enemies := [];
      particles := [];
      powerUps := [];
      score := 0;
      level := 1;
      gameRunning := true;
      enemySpawnTimer := 0;
      enemySpawnRate := InitialSpawnRate;
    }
  }
}
