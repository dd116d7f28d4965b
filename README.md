# Space shooter simulation, in Dafny

A model of the fixed-tick simulation of a browser space shooter (`game.js`).
It covers:

- the player's ship, with movement, a firing cooldown and a timed power-up;
- the bullets, enemies, power-ups and explosion particles, and how each moves per tick;
- the strict bounding-box collision test;
- the enemy spawner and its difficulty ramp;
- the `Game.update` tick, which prunes the entity lists, ends the game when an enemy touches the ship, resolves bullet-enemy hits with a reverse nested loop and in-place `splice`, collects power-ups, expires particles and recomputes the level;
- `restart`, and the flag that `gameOver` clears.

The model is built in two layers:

- **Value layer.** Modules `Collision`, `Entities`, `Lists`, `Players` (its functions) and `Simulation` describe each operation as a function on values. `Simulation.Step` is one whole tick on a `WorldState`.
- **Imperative layer.** `Players.Player` and `Shooter.Game` are classes with the fields that the source updates in place. Each method is proved to leave the object in the state the matching function computes, e.g. `Game.Update` ensures `Snapshot() == Step(old(Snapshot()), input)`. The lists are `seq` fields that the methods reassign: they `push`, `filter` and `splice`. The pruning passes, the nested bullet-enemy loop and `createExplosion` are `while`/`for` loops proved against their specification functions.

What a tick keeps is proved once, about `Step`: the invariant `Simulation.Inv`. Because `Game.Update` follows `Step`, it is an invariant of the object too, held in `Game.Valid()`.

## Randomness and the outside world

The source's random draws become inputs to the tick (`TickInput`):

- `spawnRoll` is the spawned enemy's x draw.
- `speedRoll` is that enemy's speed draw.
- `hitRolls(k)` holds the drop draw and the fallback-x draw of the k-th hit of the tick.

Held keys become three booleans (left, right, fire). The canvas is fixed at 800 by 600. Positions and speeds that the source computes in floating point are `real`. The player's x and y are `int`, because they only ever move by 5 from (400, 540).

## Behaviour modelled as written

- **Game over does not end the tick.** The enemy pass keeps testing the remaining enemies after a contact, and every later stage of the tick still runs. Only the next tick sees `gameRunning` false, and then it changes nothing (`Simulation.Step`).
- **Moves are not clamped.** `moveLeft` steps whenever `x > 0`, and `moveRight` whenever `x < canvasWidth - 40`. The ship still cannot leave the canvas, because it starts at 400 and moves on a grid of 5. `Players.Sound` states this, and the tick keeps it.
- **The player updates before it shoots.** With fire held and no power-up, a fresh player fires on ticks 1, 16, 31, and so on, a period of 15 rather than 16 (`Players.FreshPlayerFiresEvery15`).
- **A power-up drops at the wrong place.** Its position is read from `this.enemies[j]` after the splice has removed the destroyed enemy. So it appears where the next enemy is. When the destroyed enemy was the last one, the read is undefined and the `||` fallback applies: a random x and y = 100. The fallback also applies whenever the read coordinate is 0. `Simulation.ApplyHitEffect` states the position in every case, each coordinate falling back on its own.
- **The level uses integer division.** It is `score / 100 + 1`. The score is always an integer, and Dafny's division by a positive constant rounds down, so this is exactly `Math.floor(score / 100) + 1`.

## Model

| member | source | states |
|---|---|---|
| Collision.CheckCollision | game.js:159-166 | the strict overlap test; boxes that only share an edge, on either axis and either side, never collide |
| Collision.CollisionSymmetric | game.js:159-166 | the test gives the same answer with its arguments swapped |
| Collision.CollisionMeansCommonPoint | game.js:159-166 | for boxes of positive size, the test holds exactly when some point lies strictly inside both |
| Entities.UpdatedBullet | game.js:354-356 | only the bullet's height changes, and an upward bullet rises |
| Entities.UpdatedEnemy | game.js:329-331 | only the enemy's height changes, and an enemy with positive speed descends |
| Entities.UpdatedPowerUp | game.js:380-383 | a power-up keeps its x and descends |
| Entities.UpdatedParticle | game.js:412-418 | a particle only ages, losing exactly one unit of life |
| Entities.Explosion | game.js:168-172 | an explosion is exactly ten particles at the given point, each with lifetime 30 |
| Lists.FilterUpdated | game.js:80-83 | an update-and-prune `filter` pass never makes the list longer |
| Lists.FilterUpdatedKeeps | game.js:80-83 | a `filter` pass that updates as it prunes keeps only updated elements that pass the test, and keeps every one that does |
| Lists.AnyUpdated | game.js:98-108 | the "some updated element passes the test" flag can hold only of a non-empty list |
| Lists.AnyUpdatedWitness | game.js:98-108 | the "some updated element passes the test" flag holds exactly when such an element exists |
| Lists.Removed | game.js:118-119 | `splice(i, 1)` makes the list exactly one element shorter |
| Lists.RemovedMultiset | game.js:118-119 | `splice(i, 1)` takes out exactly one copy of the element at `i` and adds nothing |
| Players.Spawned | game.js:252-261 | a new ship is at the given point with cooldown 0 and no power-up; on the speed grid and the canvas it is sound |
| Players.MovedLeft | game.js:263-267 | `moveLeft` subtracts exactly 5 from x when x > 0, else changes nothing; nothing but x changes; soundness is kept |
| Players.MovedRight | game.js:269-273 | `moveRight` adds exactly 5 when x < canvasWidth - 40, else changes nothing; nothing but x changes; soundness is kept on the game's canvas |
| Players.Fired | game.js:275-281 | a bullet at (x + 18, y) with speed -8 comes out exactly when the cooldown is at most 0, and the cooldown restarts at 5 with the power-up and 15 without; otherwise no bullet and no change |
| Players.PoweredUp | game.js:283-286 | the power-up is on with timer 300 whatever it was before, and nothing else changes |
| Players.Ticked | game.js:288-299 | the cooldown counts down only while positive; an active power-up counts down and goes off when its timer reaches 0 |
| Players.HeldFireSchedule | game.js:71-77 | with fire held and no power-up, the first shot comes after the remaining cooldown and then one every 15 ticks |
| Players.FreshPlayerFiresEvery15 | game.js:71-77 | a fresh ship holding fire shoots on exactly the ticks k with k % 15 == 0 |
| Players.PowerUpCountdown | game.js:293-298 | an active power-up with timer t loses one per update and is still on after n < t updates, off after t |
| Players.PowerUpLasts300 | game.js:283-299 | after `activatePowerUp` the power-up is on for exactly the first 299 updates |
| Players.Player.constructor | game.js:252-261 | the new ship's state is `Spawned(x, y)` |
| Players.Player.MoveLeft | game.js:263-267 | the ship's new state is `MovedLeft` of the old one |
| Players.Player.MoveRight | game.js:269-273 | the ship's new state is `MovedRight` of the old one |
| Players.Player.Shoot | game.js:275-281 | the new state and the returned bullet are `Fired` of the old state |
| Players.Player.ActivatePowerUp | game.js:283-286 | the ship's new state is `PoweredUp` of the old one |
| Players.Player.Update | game.js:288-299 | the ship's new state is `Ticked` of the old one |
| Simulation.Level | game.js:156 | the level is the one whose hundred-point band holds the score |
| Simulation.Initial | game.js:8-20 | the starting state satisfies the game's invariant |
| Simulation.Steered | game.js:63-69 | the held arrow keys change only the ship's x, change nothing when neither is held, and keep a sound ship sound |
| Simulation.PlayerPhase | game.js:63-77 | only the ship and the bullets change; the ship stays sound and keeps its y; at most one bullet is appended and none is lost |
| Simulation.PlayerPhaseShoots | game.js:72-77 | a bullet at the ship's centre, moving up by 8, is appended exactly when fire is held and the cooldown, after the player's `update`, has run out; otherwise the bullets are unchanged |
| Simulation.PlayerPhaseHeldFire | game.js:71-77 | with fire held and no movement, the player stage is the update followed by the shot, so the period-15 schedule holds of the game's ticks |
| Simulation.BulletPhase | game.js:79-83 | the bullet pass changes only the bullets and never adds one |
| Simulation.BulletPhaseKeeps | game.js:79-83 | the bullet pass keeps exactly the moved bullets still below the top edge |
| Simulation.SpawnPhase | game.js:85-95 | the timer counts the tick; on reaching the interval one enemy appears at y = -40 with a drawn x and speed, and the timer restarts; the interval drops by 0.5 when it was above 20 and stays otherwise; without a spawn only the timer changes |
| Simulation.SpawnPhaseKeepsSpawner | game.js:86-95 | the interval stays between 20 and 60 on its half-tick grid, and the timer stays below it |
| Simulation.EnemyPhase | game.js:97-108 | the enemy pass changes only the enemies and the running flag, never adds an enemy, and can stop the game but never restart it |
| Simulation.EnemyPhaseKeeps | game.js:97-108 | the enemy pass keeps exactly the moved enemies clear of the ship and above 640, and ends the game exactly when a moved enemy touches the ship |
| Simulation.LastStruck | game.js:112-113 | the inner scan, when it finds an enemy, returns an index into the enemy list |
| Simulation.LastStruckIsLast | game.js:112-113 | the inner scan finds the highest-indexed enemy the bullet strikes, and finds none exactly when it strikes none |
| Simulation.DropX | game.js:127 | the drop's x is the x of the enemy now at `j`, or the random fallback; a read x of 0 is never used, so the x is 0 only when the random draw is 0 |
| Simulation.DropY | game.js:127 | the drop's y is the y of the enemy now at `j`, or 100; it is never 0 |
| Simulation.ApplyHit | game.js:113-131 | a hit counts once, scores 10, removes one bullet and one enemy, adds ten particles, and adds at most one power-up |
| Simulation.ApplyHitEffect | game.js:113-131 | a hit splices out the bullet and the enemy, appends ten particles at the enemy's centre, and may append one power-up. Its x is the x of the enemy after the destroyed one, or the random fallback when that x is 0. Its y is that enemy's y, or 100 when that y is 0. When the destroyed enemy was last, the power-up goes to the fallback point |
| Simulation.Struck | game.js:112-132 | a bullet that strikes nothing changes nothing; a hit is counted once, scores 10, removes exactly one bullet and one enemy, and adds ten particles and at most one power-up |
| Simulation.StruckEffect | game.js:112-132 | on a hit, the bullet spliced out is bullet `i` and the enemy spliced out is the highest-indexed one it strikes; with no hit nothing changes |
| Simulation.StruckOnlyOnHit | game.js:112-132 | a bullet changes the state exactly when it strikes some enemy |
| Simulation.Resolve | game.js:111-134 | the outer loop over `i` bullets adds at most one hit per bullet |
| Simulation.ResolveCounts | game.js:111-134 | each bullet destroys at most one enemy, and each hit adds 10 points and 10 particles, removes one bullet and one enemy, and adds at most one power-up |
| Simulation.ResolveOnlyRemoves | game.js:111-134 | the pass only removes bullets and enemies |
| Simulation.ResolveOnlyAppends | game.js:111-134 | the pass only appends particles, each with lifetime 30, and power-ups |
| Simulation.HitPhase | game.js:110-134 | the pass changes only the lists and the score; the score grows by 10 per destroyed bullet; bullets and enemies shrink by the same count; the particles grow by 10 per hit |
| Simulation.StruckClears | game.js:111-134 | resolving one more bullet keeps every pair from that bullet up free of collisions |
| Simulation.ResolveClears | game.js:111-134 | the reverse loop over the bullets leaves no bullet striking any enemy |
| Simulation.HitPhaseClears | game.js:110-134 | after the pass no surviving bullet strikes a surviving enemy: every colliding pair has been resolved |
| Simulation.HitPhaseKeeps | game.js:110-134 | after the pass, bullets and enemies are sub-multisets of what they were, and the old particles and power-ups are a prefix of the new ones |
| Simulation.PowerUpPhase | game.js:136-147 | only the power-ups and the ship change, and the ship is either unchanged or powered up |
| Simulation.PowerUpPhaseKeeps | game.js:136-147 | the power-up pass keeps exactly the moved power-ups clear of the ship and above 620, and powers the ship up exactly when a moved power-up touches it |
| Simulation.ParticlePhase | game.js:149-153 | the particle pass changes only the particles and never adds one |
| Simulation.ParticlePhaseKeeps | game.js:149-153 | the particle pass keeps exactly the aged particles with life left: each kept one is the aged form of an old one, and every aged one with life left is kept |
| Simulation.Step | game.js:51-52 | once the game is over, a tick changes nothing |
| Simulation.StepKeepsSound | game.js:63-77 | the ship stays on the canvas with its counters in range through every tick |
| Simulation.StepHits | game.js:122-156 | a running tick adds ten points for each bullet the hit pass destroys, and sets the level from the new score |
| Simulation.StepKeepsScore | game.js:122-156 | the score stays a non-negative multiple of 10, it never falls, and the level stays `score / 100 + 1` |
| Simulation.StepKeepsSpawner | game.js:86-95 | the spawner stays within its ramp through every tick, and its interval never grows |
| Simulation.StepPrunesBullets | game.js:79-83 | after a running tick every bullet is below the top edge |
| Simulation.StepPrunesEnemies | game.js:97-108 | after a running tick every enemy is clear of the ship and above 640 |
| Simulation.StepPrunesPowerUps | game.js:136-147 | after a running tick every power-up is clear of the ship and above 620 |
| Simulation.StepPrunesParticles | game.js:149-153 | after a running tick every particle has life left and no more than a fresh one |
| Simulation.StepClears | game.js:110-157 | after a running tick no bullet strikes an enemy |
| Simulation.StepKeepsInv | game.js:51-157 | every tick keeps the game's invariant |
| Shooter.ScanEnemies | game.js:112-113 | the inner loop returns exactly the highest-indexed enemy the bullet strikes |
| Shooter.Game.constructor | game.js:2-20 | the new game's state is the initial one, which satisfies the invariant |
| Shooter.Game.Update | game.js:51-157 | the new state is `Step` of the old one, and the invariant is kept |
| Shooter.Game.UpdatePlayer | game.js:63-77 | the ship and the bullets change as `PlayerPhase` says |
| Shooter.Game.UpdateBullets | game.js:79-83 | the bullets become what `BulletPhase` keeps |
| Shooter.Game.SpawnEnemies | game.js:85-95 | the spawner and the enemies change as `SpawnPhase` says |
| Shooter.Game.UpdateEnemies | game.js:97-108 | the enemies and the running flag change as `EnemyPhase` says |
| Shooter.Game.ResolveHits | game.js:110-134 | the lists and the score change as `HitPhase` says |
| Shooter.Game.ScanBullets | game.js:111-134 | the outer loop leaves the state that `Resolve` computes over every bullet |
| Shooter.Game.ResolveBullet | game.js:112-133 | one pass of the outer loop changes the state as `Struck` says |
| Shooter.Game.Hit | game.js:113-131 | the body of the inner loop on a hit changes the state as `Struck` says |
| Shooter.Game.CreateExplosion | game.js:168-172 | exactly `Explosion(x, y)` is appended to the particles |
| Shooter.Game.UpdatePowerUps | game.js:136-147 | the power-ups and the ship change as `PowerUpPhase` says |
| Shooter.Game.UpdateParticles | game.js:149-153 | the particles become what `ParticlePhase` keeps |
| Shooter.Game.GameOver | game.js:222-223 | the game stops |
| Shooter.Game.Restart | game.js:231-242 | a fresh ship at (400, 540), empty lists, score 0, level 1, spawn timer 0, interval 60, the game running, and the invariant holding |

## Left out

- Drawing is not modelled: `render`, `drawUI` and every entity's `render` have no effect on the simulation.
- The star background (`initStars` and the star loop at the top of `update`) is not modelled. It is cosmetic and only draws random numbers.
- DOM wiring is not modelled: the key listeners, the restart listener that `gameOver` registers, `gameLoop` with `requestAnimationFrame`, and the load hook. Held keys enter the tick as booleans instead. Restart is modelled as the operation it triggers.
- `Math.random` is not modelled. Its draws are inputs to the tick. The spawned enemy's speed is `2 + 2 * speedRoll`.
- Particle drift and size are not modelled (velocity, the 0.98 decay and the size). Neither is `PowerUp.rotation`. None of them affects the simulation, so a particle keeps the point it was emitted from.
- `powerUpSpawnTimer` is not modelled. The source never reads it.
- Floating-point rounding is not modelled. Positions, speeds and the spawn interval are exact reals. The spawn interval is the one value whose exactness is proved: it steps by 0.5 between 60 and 20, which binary floating point also represents exactly. Heights are running sums of random speeds, and the source rounds those sums. At a boundary, that rounding can decide a collision test or the `y < 640` and `y < 620` prunes differently from exact arithmetic.
- Entities are values kept in `seq` fields, not shared objects. The source never keeps a reference to an entity outside its list, so no aliasing is lost.
