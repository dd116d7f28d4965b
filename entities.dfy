/** The playfield and the passive entities of the shooter: bullets, enemies,
    power-ups and explosion particles, each with its per-tick motion rule
    (game.js:320-418). Entities are values here; their `update` methods,
    which move the object in place, become functions returning the moved value. */
module Entities {
  import opened Collision

  /** The canvas size fixed by the game's constructor (game.js:5-6). */
  const CanvasWidth: int := 800
  const CanvasHeight: int := 600

  /** Particles created by one explosion, and the lifetime each starts with. */
  const ExplosionSize: nat := 10
  const ParticleLife: int := 30

  /** The source's `null` / `undefined` results. */
  datatype Option<T> = None | Some(value: T)

  /** A projectile, 4 wide and 10 high, moving by `speedY` each tick. */
  datatype Bullet = Bullet(x: real, y: real, speedY: real)

  /** A descending enemy, 40 by 40, with the speed drawn at its creation. */
  datatype Enemy = Enemy(x: real, y: real, speed: real)

  /** A collectable power-up, 20 by 20, falling 2 per tick. */
  datatype PowerUp = PowerUp(x: real, y: real)

  /** An explosion particle: the point it was emitted from and its remaining lifetime. */
  datatype Particle = Particle(x: real, y: real, life: int)

  function BulletBox(b: Bullet): Box { Box(b.x, b.y, 4.0, 10.0) }
  function EnemyBox(e: Enemy): Box { Box(e.x, e.y, 40.0, 40.0) }
  function PowerUpBox(u: PowerUp): Box { Box(u.x, u.y, 20.0, 20.0) }

  /** `Bullet.update`: only the height changes; an upward bullet rises. */
  function UpdatedBullet(b: Bullet): (r: Bullet)
    ensures r.(y := b.y) == b
    ensures b.speedY < 0.0 ==> r.y < b.y
  {
    b.(y := b.y + b.speedY)
  }

  /** `Enemy.update`: only the height changes; an enemy with positive speed descends. */
  function UpdatedEnemy(e: Enemy): (r: Enemy)
    ensures r.(y := e.y) == e
    ensures e.speed > 0.0 ==> r.y > e.y
  {
    e.(y := e.y + e.speed)
  }

  /** `PowerUp.update` without its cosmetic rotation: it descends by 2. */
  function UpdatedPowerUp(u: PowerUp): (r: PowerUp)
    ensures r.x == u.x && r.y > u.y
  {
    u.(y := u.y + 2.0)
  }

  /** `Particle.update` reduced to its lifetime: the particle ages by one tick. */
  function UpdatedParticle(q: Particle): (r: Particle)
    ensures r.(life := q.life) == q
    ensures r.life == q.life - 1
  {
    q.(life := q.life - 1)
  }

  /** The particles `createExplosion` emits at (x, y). */
  function Explosion(x: real, y: real): (r: seq<Particle>)
    ensures |r| == ExplosionSize
    ensures forall k :: 0 <= k < |r| ==> r[k] == Particle(x, y, ParticleLife)
  {
    seq(ExplosionSize, _ => Particle(x, y, ParticleLife))
  }
}
