# PSO.js in Dafny

This project models `pso.js`, a particle swarm optimiser. The engine works as follows:

- A swarm of `size` particles moves through a space of `dimensions` coordinates and minimises a caller's `fitness` function.
- Each particle remembers its personal best. It also has `degree` random links to other particles, which form its neighbourhood.
- The particle is pulled towards its own best and towards the best point of its neighbourhood. This is the constriction-coefficient update, with the parameters `C1`, `C2` and `X` and a small positional `noise`.
- `evolve()` repeats `step()` until the caller's `criteria` holds of the best point found, or until `steps` steps have been taken.

The model has six modules:

- **`Wrappers`** (`wrappers.dfy`) holds the `Option` type, which stands for a property that may be absent.
- **`PsoConfig`** (`config.dfy`) holds the table of defaults and the per-field merge of the caller's options object.
- **`Neighbourhood`** (`neighbourhood.dfy`) says what a valid link list is. It proves the pigeonhole bound that makes `degree >= size` hang the source.
- **`Bests`** (`bests.dfy`) holds the personal, neighbourhood and global best rules as functions of the fitness values. It proves that they are minimal and that ties keep the first one seen.
- **`Swarm`** (`swarm.dfy`) treats the swarm as a value:
  - one `Step` is the composition of the source's four phases, in the source's order;
  - the step preserves an invariant `Valid`;
  - `Steps` iterates the step.
- **`Engine`** (`engine.dfy`) holds the class `PSO`, whose fields are the source's fields:
  - the methods `Build`, `Initialize`, `Step`, `Evolve`, `ReplaceParticlesBests`, `UpdateVelocities`, `UpdatePositions` and `Reset` follow the source's loops;
  - each is proved against the `Swarm`/`Bests` definitions above.

Modelling choices:

- **Arrays.** The JavaScript arrays that the source grows with `push` and overwrites cell by cell are sequence-valued fields, which the methods reassign.
- **Arithmetic** is exact, over `real`.
- **Math.random** is a fixed stream `rand: nat -> real` with values in `[0, 1)`. The field `drawn` counts the draws used so far. Every loop consumes its draws in the source's order:
  - one per coordinate in `initialize()` and in `updatePositions()`;
  - two per coordinate in `updateVelocities()`;
  - one per attempt in the link sampling.
- **The link-rejection loop** of `initialize()` never terminates when a particle cannot find `degree` distinct links. The model gives construction a total draw budget `fuel`:
  - The sampling is specified as functions of the draws: `Seek`, `SampledLinks` and `SampledEdges`. They give up only once the whole budget is spent.
  - The engine's `edges` are exactly what `SampledEdges` draws.
  - `hung` is set exactly when it gave up.
  - A construction that did not hang has `size == 0 || degree < size`. With `degree >= size > 0`, no budget suffices.

`curStep` is not quite a count of the steps taken. The test `curStep++ < steps` in `evolve()` also counts the test that ends the loop. So when the budget runs out, `curStep` is `max(steps, 0) + 1`; see `Engine.PSO.Evolve`.

## Model

| member | source | states |
|---|---|---|
| `PsoConfig.Merge` | pso.js:26-30 | One property of the merge: a property the caller gave is kept; an absent one takes the default; either way the property ends up present. |
| `PsoConfig.Fill` | pso.js:24-31 | The options object after the merge loop is complete, keeps every property the caller set, and holds the default for every property the caller left out. |
| `PsoConfig.ConfigOfFill` | pso.js:4-31 | Each of the ten fields copied onto the engine equals the caller's value when one was given, and otherwise the default from the table. |
| `PsoConfig.FillComplete` | pso.js:79-81 | Merging an already filled options object changes nothing, so `reset()` without arguments rebuilds the same configuration. |
| `PsoConfig.ConfigOf` | pso.js:30 | The engine's fields copied from a filled options object; `PsoConfig.ConfigOfFill` states their values. |
| `PsoConfig.DefaultFitness` | pso.js:9-15 | The default fitness: the sum of squares of the position (the source's Euclidean norm without its root). |
| `PsoConfig.DefaultCriteria` | pso.js:16-18 | The default criterion: the engine's fitness of the result is at most `1.0e-2`. |
| `PsoConfig.SumOfSquares` | pso.js:9-15 | The default fitness (without its square root) is non-negative and is zero at the origin. |
| `Bests.PersonalBest` | pso.js:129-136 | The new personal-best fitness is the old best or the fresh measurement, is no greater than either, and stays the old best on a tie. |
| `Bests.LocalBestOf` | pso.js:139-148 | The neighbourhood scan always yields a particle index of the swarm. |
| `Bests.LocalBestIsBest` | pso.js:139-148 | The neighbourhood best is `n` or one of its links and is no worse than any of them. It differs from `n` only if it is strictly better, and it is `n` exactly when no link is strictly better. |
| `Bests.LocalBestFirstSeen` | pso.js:142-147 | On a tie among links, the link met first wins: every earlier link is strictly worse. |
| `Bests.GlobalBestOf` | pso.js:150-152 | The incremental global best is always a particle index. |
| `Bests.GlobalBestIsBest` | pso.js:150-152 | The global best is the previous best particle or a visited one, and no visited particle is fitter. It leaves the previous best only for a strictly fitter particle. |
| `Bests.GlobalBestFirstSeen` | pso.js:150-152 | On a tie, the lowest index wins: every particle before the new global best is strictly worse. |
| `Neighbourhood.LinkInRange` | pso.js:72 | `Math.floor(size * Math.random())` is an index of the swarm. |
| `Neighbourhood.DistinctCardinality` | pso.js:71 | A list without repeats has as many distinct elements as entries. |
| `Neighbourhood.Indices` | pso.js:67-76 | The particle indices `0 .. size - 1` form a set of exactly `size` elements. |
| `Neighbourhood.NeighbourhoodBound` | pso.js:69-73 | A particle's links are in range, distinct and never the particle itself, so there are fewer than `size` of them; with `degree >= size` the rejection loop cannot finish. |
| `Swarm.Rnd` | pso.js:45-47 | `rnd()` lies in `[-0.5, 0.5)` whenever Math.random lies in `[0, 1)`. |
| `Swarm.Constricted` | pso.js:118-121 | The constriction update of one velocity cell, with its two draws. |
| `Swarm.Moved` | pso.js:108-111 | One particle's moved position row has as many cells as before. |
| `Swarm.Accelerated` | pso.js:117-122 | One particle's new velocity row has as many cells as before. |
| `Swarm.MovedSwarm` | pso.js:106-113 | updatePositions() keeps `size` rows of `dimensions` cells. |
| `Swarm.AcceleratedSwarm` | pso.js:115-124 | updateVelocities() keeps `size` rows of `dimensions` cells. |
| `Swarm.MovedAt` | pso.js:109-110 | Coordinate `d` of a moved particle is its old value plus its velocity plus `rnd() * noise`, with draw `start + d`. |
| `Swarm.AcceleratedAt` | pso.js:118-121 | Coordinate `d` of a new velocity is the constriction update towards the own best and the neighbourhood best, with draws `start + 2d` and `start + 2d + 1`. |
| `Swarm.MovedSwarmRow` | pso.js:107-112 | Particle `n` of the moved swarm is its own row moved with the draws starting at `start + n * dimensions`. |
| `Swarm.AcceleratedSwarmRow` | pso.js:116-123 | Particle `n`'s new velocity is its row accelerated towards `partBestPos[n]` and `partBestPos[bestParticleInNeighs[n]]`, with the draws starting at `start + 2 * n * dimensions`. |
| `Swarm.Evaluated` | pso.js:84 | Evaluating the swarm yields one fitness per position. |
| `Swarm.EvaluatedAt` | pso.js:84 | Entry `n` of the evaluation is `fitness(positions[n])`. |
| `Swarm.PersonalBestFits` | pso.js:128-136 | The first pass yields one personal-best fitness per particle. |
| `Swarm.PersonalBestFitsAt` | pso.js:130-131 | Entry `n` of the first pass is the strict running minimum of the old best and the fresh measurement. |
| `Swarm.PersonalBestRows` | pso.js:128-136 | The first pass keeps `size` personal-best rows of `dimensions` coordinates each. |
| `Swarm.PersonalBestRowsAt` | pso.js:130-134 | Particle `n`'s personal-best position becomes its current position exactly when the fresh fitness is strictly lower, and otherwise stays as it was. |
| `Swarm.LocalBestsUpTo` | pso.js:139-148 | The second pass records one neighbourhood best per visited particle, each an index of the swarm. |
| `Swarm.LocalBests` | pso.js:137-149 | Every particle gets a neighbourhood best that indexes the swarm. |
| `Swarm.LocalBestsAt` | pso.js:139-148 | Entry `n` of the recorded neighbourhood bests is the scan over particle `n`'s own links. |
| `Swarm.Evaluate` | pso.js:84 | Evaluation keeps every list's shape. |
| `Swarm.ReplaceBests` | pso.js:126-154 | replaceParticlesBests() keeps the shape and records exactly one in-range neighbourhood best per particle. |
| `Swarm.Accelerate` | pso.js:115-124 | updateVelocities() keeps every list's shape. |
| `Swarm.Move` | pso.js:106-113 | updatePositions() keeps every list's shape. |
| `Swarm.PhasesWriteOwnLists` | pso.js:106-124 | updateVelocities() changes only the velocities and updatePositions() only the positions (besides using up their draws); fitness values, personal bests and best particles are untouched. |
| `Swarm.Valid` | pso.js:126-154 | The invariant between steps. It requires shapes, links in range and `bestParticle` in range. Each personal-best fitness is the sentinel or the fitness at the personal-best position, and is no worse than the last measurement. `bestParticle` is a global minimum, and the recorded neighbourhood bests equal the scans. |
| `Swarm.Step` | pso.js:83-88 | step() is the four phases in the source's order. It keeps every list's shape and uses three draws per coordinate. |
| `Swarm.BestsMeasured` | pso.js:129-136 | After the bests are replaced, each personal-best fitness is no worse than the fresh measurement, and is still the fitness at the personal-best position (or the sentinel). |
| `Swarm.StepKeepsValid` | pso.js:83-88 | A step preserves the invariant. In particular, a personal best is replaced only by the position just measured together with its fitness. |
| `Swarm.StepMeasuresBeforeMoving` | pso.js:83-88 | A step measures every particle at its position before the move, and no personal best rises or ends above that measurement. |
| `Swarm.Steps` | pso.js:92-94 | Any number of successive steps from a valid swarm leaves a valid swarm. |
| `Swarm.StepsNext` | pso.js:92-94 | The definition of `Steps` one unfolding at a time: zero steps change nothing, and step `k + 1` is one step after the first `k`, applied to a swarm that is ready for it. |
| `Swarm.StepsNeverRaise` | pso.js:129-131 | However many steps are taken, no particle's personal-best fitness ever rises. |
| `Engine.LinkDraw` | pso.js:72 | The draw `Math.floor(size * Math.random())` is an index of the swarm whenever the draw lies in `[0, 1)`. |
| `Engine.Seek` | pso.js:70-73 | The rejection loop for one link: draw while the link is the particle itself or already taken. It stops on a rejected link only when the whole draw budget is spent. |
| `Engine.SampledLinks` | pso.js:69-75 | One particle's `k` links, drawn in order. They are all found unless the budget is spent, and then fewer than `k` were found. |
| `Engine.SampledEdges` | pso.js:67-76 | Every particle's links, drawn in order from one budget. Sampling gives up only when the budget is spent, and only with `size > 0` and `degree > 0`. |
| `Engine.Store` | pso.js:140 | `a[i] = v` sets cell `i`, keeps every other cell, and appends when `i` is the length. |
| `Engine.Options.constructor` | pso.js:24 | An options object holds the caller's properties. |
| `Engine.PSO.constructor` | pso.js:3-43 | Construction fills the caller's options object (or a fresh one) with the defaults and configures the engine from it. It leaves a freshly initialized swarm with empty neighbourhood bests and zero counters. Its links are exactly those `SampledEdges` draws, and `hung` is set exactly when sampling gave up, after spending all of `fuel`. Otherwise the swarm is valid and linked, and `size == 0` or `degree < size`. |
| `Engine.PSO.Reset` | pso.js:79-81 | reset() rebuilds from the given options object, or from the stored one, in which case the configuration is unchanged. A previously stored options object that is replaced keeps its properties. |
| `Engine.PSO.Build` | pso.js:24-42 | The options object is filled in place and agrees with the engine's fields; then the swarm is cleared and initialized. |
| `Engine.PSO.Configure` | pso.js:30 | Every configuration field takes the options object's value. |
| `Engine.PSO.Start` | pso.js:33-42 | After clearing and initialize(), the swarm is freshly drawn with sentinel fitness, and the best-particle fields and `curStep` are zero or empty. The links are those `SampledEdges` draws. Unless sampling gave up, the invariant holds, and `size == 0` or `degree < size`. |
| `Engine.PSO.Clear` | pso.js:33-41 | Every swarm list is empty; `bestParticle` and `curStep` are 0. |
| `Engine.PSO.FreshIsValid` | pso.js:49-77 | A freshly initialized swarm whose links are in range satisfies the invariant between steps. |
| `Engine.PSO.Initialize` | pso.js:49-77 | initialize() leaves `size` sentinel fitness values, random positions, personal bests equal to those positions, and zero velocities. The links are exactly those `SampledEdges` draws after the particles' draws. `hung` is set exactly when sampling gave up, which happens only once all of `fuel` is spent, and never when `size` or `degree` is 0. Otherwise each particle has exactly `degree` distinct in-range links other than itself, and `size == 0` or `degree < size`. |
| `Engine.PSO.LinkSwarm` | pso.js:67-76 | The edge loop sets `edges` to what `SampledEdges` draws and `hung` exactly when it gave up, after spending all of `fuel`. Otherwise every particle is linked. |
| `Engine.PSO.Sentinels` | pso.js:51-54 | Both fitness lists hold `size` copies of Number.MAX_VALUE. |
| `Engine.PSO.NewParticles` | pso.js:56-65 | Particle `n` has position `rnd()` of draws `start + n * dimensions ...`, a personal best equal to that position, and zero velocity. |
| `Engine.PSO.NewParticle` | pso.js:57-64 | One particle's coordinates are successive `rnd()` draws, its personal best is a copy, and its velocity is all zeros. |
| `Engine.PSO.NewEdges` | pso.js:67-76 | The loop's links, draws spent and completion are exactly those of `SampledEdges`. If it completes, every particle has exactly `degree` valid links, and `size == 0` or `degree < size`. |
| `Engine.PSO.NewLinks` | pso.js:68-75 | The loop's links, draws spent and completion are exactly those of `SampledLinks`, and the links are valid: in range, not `n`, no repeats. |
| `Engine.PSO.Result` | pso.js:102-104 | result() is `partBestPos[bestParticle]`, and absent exactly when `bestParticle` indexes no particle. |
| `Engine.PSO.ResultIsBest` | pso.js:102-104 | Between steps, the result of a non-empty swarm exists and has `dimensions` coordinates. It is the personal best of a particle whose recorded fitness no other personal best beats, and that fitness is the fitness of the result (or still the sentinel). |
| `Engine.PSO.IsSuccessful` | pso.js:98-100 | isSuccessful() holds exactly when the criterion holds of the current result. With the default criterion and fitness, that means the result's sum of squares is at most `1.0e-2`. |
| `Engine.PSO.Step` | pso.js:83-88 | step() leaves the swarm equal to evaluate, then replace bests, then update velocities, then update positions, applied to the old swarm. |
| `Engine.PSO.Evolve` | pso.js:90-96 | evolve() takes at most `steps` steps, and none when the criterion already holds or `steps <= 0`. The final state is exactly that many steps from the start. The criterion failed on every state a step was taken from (`FailedBefore`), so evolve() stops at the first success. It stops either because the criterion holds, with `curStep` equal to the steps taken, or because the budget is used up without success, with `curStep == max(steps, 0) + 1`. It returns `partBestPos[bestParticle]`. |
| `Engine.PSO.ReplaceParticlesBests` | pso.js:126-154 | The method's new state is the replace-bests phase applied to the old swarm. |
| `Engine.PSO.PersonalBests` | pso.js:128-136 | The first loop computes, for every particle, the strict running minimum of its fitness and the matching personal-best row. |
| `Engine.PSO.CopyRow` | pso.js:132-134 | The cell-by-cell copy leaves the personal-best row equal to the position. |
| `Engine.PSO.NeighbourhoodBests` | pso.js:137-153 | The second loop records every particle's neighbourhood-best scan, and ends with the incremental global best over the whole swarm. |
| `Engine.PSO.LocalBest` | pso.js:139-148 | The loop over one particle's links returns the neighbourhood best. |
| `Engine.PSO.UpdatePositions` | pso.js:106-113 | The new state is the move phase: only positions and the draw counter change. |
| `Engine.PSO.MovedRows` | pso.js:107-112 | The nested loops produce every particle's moved row, with its own block of draws. |
| `Engine.PSO.MovedRow` | pso.js:108-111 | The inner loop moves each coordinate by its velocity plus one noise draw. |
| `Engine.PSO.UpdateVelocities` | pso.js:115-124 | The new state is the velocity phase: only velocities and the draw counter change. |
| `Engine.PSO.AcceleratedRows` | pso.js:116-123 | The nested loops produce every particle's constricted velocity, each towards the personal best of its recorded neighbourhood best. |
| `Engine.PSO.AcceleratedRow` | pso.js:117-122 | The inner loop applies the constriction update to each coordinate with two fresh draws. |

## Left out

- **Floating point.** All arithmetic is exact over `real`. IEEE rounding, NaN and infinities are not modelled. Number.MAX_VALUE is kept as its exact value.
- `PsoConfig.DefaultFitness`: the default fitness is the sum of squares, without `Math.sqrt` (there is no square root over `real`). So the default criterion's threshold `1.0e-2` applies to the squared norm.
- `Engine.PSO.IsSuccessful`: its statement about the default criterion uses that squared norm, so it accepts a norm up to `0.1` where the source needs `0.01`.
- **The extra arguments** that `Array.prototype.map` passes to `fitness` (index and array) are not modelled. The criterion receives the engine's fitness rather than the engine as `this`.
- **Math.random** is an injected stream of draws, consumed in program order; it is not a random source. The distribution of the draws and statistical convergence are not modelled.
- **The link sampling loop** never returns in the source when a particle cannot collect `degree` links. The model bounds it by a draw budget `fuel`, and `hung` records that sampling gave up. A construction that hangs in the source is one that sets `hung` for every `fuel`.
- **Integers.** `size`, `dimensions` and `degree` are natural numbers. A negative value behaves like 0 in the source's loops; the model does not represent one. `steps` is an integer, and a negative budget allows no step.
- **Exceptions** thrown by `fitness` or `criteria` are not modelled.
- **Aliasing.** Rows are values, so updates in place are sequence updates. `result()` returns a copy, not the live array that later steps overwrite.
- **JavaScript plumbing.** `hasOwnProperty`, `for ... in` and `PSO.call(this, ...)` are not modelled. Property order is not modelled either: the merge is field by field over the ten defaults.
- `Engine.PSO.Evolve`: requires a non-empty swarm. With `size == 0`, `result()` is `undefined` and the default criterion throws on it.
- `Engine.PSO.Step`: requires the swarm to be ready for a step (shapes, links in range, `bestParticle` in range) rather than fully valid. Preservation of validity is stated separately by `Swarm.StepKeepsValid`.
- `Engine.PSO.Initialize`: requires the lists to be empty, as the constructor leaves them; the source pushes onto whatever the lists hold.
- `Engine.PSO.Reset`: `options || this.options` is modelled as a nullable reference, so other falsy values are not considered.
