/**
 * The swarm of pso.js as a value, and one step of the algorithm
 * (pso.js:83-88) as the composition of its four phases: evaluate every
 * particle, replace the bests (pso.js:126-154), update the velocities
 * (pso.js:115-124) and update the positions (pso.js:106-113). Arithmetic is
 * exact; Math.random is the stream `rand`, consumed in the order of the
 * source's loops.
 */
module Swarm {
  import opened PsoConfig
  import opened Bests

  /** The successive results of Math.random: each lies in [0, 1). */
  ghost predicate IsRandomStream(rand: nat -> real) {
    forall i: nat :: 0.0 <= rand(i) < 1.0
  }

  /** rnd() (pso.js:45-47) when it consumes draw number `i`: the draw moved to [-0.5, 0.5). */
  function Rnd(rand: nat -> real, i: nat): (r: real)
    ensures IsRandomStream(rand) ==> -0.5 <= r < 0.5
  {
    rand(i) - 0.5
  }

  /** Row `n + 1` of a row-major walk over `dimensions` cells per row starts where row `n` ends. */
  lemma NextRow(n: nat, dimensions: nat)
    ensures (n + 1) * dimensions == n * dimensions + dimensions
  {
  }

  /** `count` rows of `dimensions` cells each. */
  ghost predicate Rows(rows: seq<Position>, count: nat, dimensions: nat) {
    |rows| == count && forall n :: 0 <= n < count ==> |rows[n]| == dimensions
  }

  /** `count` link lists whose entries all index a swarm of `count` particles. */
  ghost predicate LinksIn(edges: seq<seq<int>>, count: nat) {
    |edges| == count &&
    forall n, i :: 0 <= n < count && 0 <= i < |edges[n]| ==> 0 <= edges[n][i] < count
  }

  /** The constriction-coefficient velocity update of one cell (pso.js:118-121). */
  function Constricted(X: real, C1: real, C2: real, v: real, p: real, own: real, local: real, r1: real, r2: real)
    : (v': real)
  {
    X * (v + C1 * r1 * (own - p) + C2 * r2 * (local - p))
  }

  /**
   * Position row `before` moved by `velocity` plus the noise of draws
   * `start, start + 1, ...` (pso.js:109-110); cell by cell in MovedAt.
   */
  ghost function Moved(noise: real, rand: nat -> real, before: Position, velocity: Position, start: nat): (row: Position)
    requires |velocity| == |before|
    ensures |row| == |before|
    decreases |before|
  {
    if before == [] then []
    else
      [before[0] + velocity[0] + Rnd(rand, start) * noise] +
      Moved(noise, rand, before[1..], velocity[1..], start + 1)
  }

  /**
   * Velocity row `before` after the constriction update at `position`,
   * towards the particle's own best `own` and its neighbourhood best `local`,
   * with draws `start + 2d` and `start + 2d + 1` for cell `d` (pso.js:118-121);
   * cell by cell in AcceleratedAt.
   */
  ghost function Accelerated(X: real, C1: real, C2: real, rand: nat -> real, before: Position, position: Position,
                             own: Position, local: Position, start: nat): (row: Position)
    requires |position| == |before| && |own| == |before| && |local| == |before|
    ensures |row| == |before|
    decreases |before|
  {
    if before == [] then []
    else
      [Constricted(X, C1, C2, before[0], position[0], own[0], local[0], rand(start), rand(start + 1))] +
      Accelerated(X, C1, C2, rand, before[1..], position[1..], own[1..], local[1..], start + 2)
  }

  /**
   * Every particle's position after updatePositions(): row `n` moved with the
   * draws from `start + n * dimensions` (MovedSwarmRow).
   */
  ghost function MovedSwarm(noise: real, rand: nat -> real, positions: seq<Position>, velocities: seq<Position>,
                            start: nat, dimensions: nat): (r: seq<Position>)
    requires Rows(positions, |positions|, dimensions) && Rows(velocities, |positions|, dimensions)
    ensures Rows(r, |positions|, dimensions)
    decreases |positions|
  {
    if positions == [] then []
    else
      [Moved(noise, rand, positions[0], velocities[0], start)] +
      MovedSwarm(noise, rand, positions[1..], velocities[1..], start + dimensions, dimensions)
  }

  /**
   * Every particle's velocity after updateVelocities(): row `n` accelerated
   * towards its own best and the best of particle `local[n]`, with the draws
   * from `start + 2 * (n * dimensions)` (AcceleratedSwarmRow). `bests` is the
   * whole list of personal-best rows, which the neighbourhood bests index.
   */
  ghost function AcceleratedSwarm(X: real, C1: real, C2: real, rand: nat -> real, velocities: seq<Position>,
                                  positions: seq<Position>, partBestPos: seq<Position>, local: seq<int>,
                                  bests: seq<Position>, start: nat, dimensions: nat): (r: seq<Position>)
    requires Rows(velocities, |velocities|, dimensions) && Rows(positions, |velocities|, dimensions)
    requires Rows(partBestPos, |velocities|, dimensions)
    requires Rows(bests, |bests|, dimensions)
    requires |local| == |velocities| && forall n :: 0 <= n < |local| ==> 0 <= local[n] < |bests|
    ensures Rows(r, |velocities|, dimensions)
    decreases |velocities|
  {
    if velocities == [] then []
    else
      [Accelerated(X, C1, C2, rand, velocities[0], positions[0], partBestPos[0], bests[local[0]], start)] +
      AcceleratedSwarm(X, C1, C2, rand, velocities[1..], positions[1..], partBestPos[1..], local[1..], bests,
                       start + 2 * dimensions, dimensions)
  }

  /** The fitness of every position, as the map at the start of step() computes it (pso.js:84). */
  function Evaluated(fitness: Fitness, positions: seq<Position>): (r: seq<real>)
    ensures |r| == |positions|
    decreases |positions|
  {
    if positions == [] then [] else [fitness(positions[0])] + Evaluated(fitness, positions[1..])
  }

  /** Every particle's personal-best fitness after the evaluation `actual` (pso.js:128-136). */
  function PersonalBestFits(fits: seq<real>, actual: seq<real>): (r: seq<real>)
    requires |actual| == |fits|
    ensures |r| == |fits|
    decreases |fits|
  {
    if fits == [] then [] else [PersonalBest(fits[0], actual[0])] + PersonalBestFits(fits[1..], actual[1..])
  }

  /** Every particle's personal-best position after the evaluation `actual` at `positions` (pso.js:128-136). */
  function PersonalBestRows(fits: seq<real>, actual: seq<real>, rows: seq<Position>, positions: seq<Position>,
                            dimensions: nat): (r: seq<Position>)
    requires |actual| == |fits|
    requires Rows(rows, |fits|, dimensions) && Rows(positions, |fits|, dimensions)
    ensures Rows(r, |fits|, dimensions)
    decreases |fits|
  {
    if fits == [] then []
    else
      [if actual[0] < fits[0] then positions[0] else rows[0]] +
      PersonalBestRows(fits[1..], actual[1..], rows[1..], positions[1..], dimensions)
  }

  /** The neighbourhood bests of particles `0 .. count - 1` (pso.js:137-149). */
  function LocalBestsUpTo(fits: seq<real>, edges: seq<seq<int>>, count: nat): (r: seq<int>)
    requires LinksIn(edges, |fits|) && count <= |fits|
    ensures |r| == count
    ensures forall n :: 0 <= n < count ==> 0 <= r[n] < |fits|
  {
    if count == 0 then []
    else LocalBestsUpTo(fits, edges, count - 1) + [LocalBestOf(fits, count - 1, edges[count - 1])]
  }

  /** Every particle's neighbourhood best (pso.js:137-149). */
  function LocalBests(fits: seq<real>, edges: seq<seq<int>>): (r: seq<int>)
    requires LinksIn(edges, |fits|)
    ensures |r| == |fits|
    ensures forall n :: 0 <= n < |fits| ==> 0 <= r[n] < |fits|
  {
    LocalBestsUpTo(fits, edges, |fits|)
  }

  /** The part of the engine that a step changes; `drawn` counts the draws of Math.random used so far. */
  datatype SwarmState = SwarmState(
    actualFitness: seq<real>,
    partBestFit: seq<real>,
    velocities: seq<Position>,
    positions: seq<Position>,
    partBestPos: seq<Position>,
    bestParticleInNeighs: seq<int>,
    bestParticle: nat,
    drawn: nat)

  /** The part of the engine that a step reads and never changes. */
  datatype Dynamics = Dynamics(
    size: nat,
    dimensions: nat,
    fitness: Fitness,
    C1: real,
    C2: real,
    X: real,
    noise: real,
    edges: seq<seq<int>>,
    rand: nat -> real)

  /** Every per-particle list has `size` entries and every row `dimensions` cells. */
  ghost predicate Shaped(s: SwarmState, size: nat, dimensions: nat) {
    |s.actualFitness| == size && |s.partBestFit| == size &&
    Rows(s.positions, size, dimensions) && Rows(s.partBestPos, size, dimensions) && Rows(s.velocities, size, dimensions)
  }

  /** `bestParticle` holds a lowest personal-best fitness of the swarm. */
  ghost predicate GlobalBestKept(s: SwarmState, size: nat)
    requires |s.partBestFit| == size
  {
    size > 0 ==>
      s.bestParticle < size &&
      forall m :: 0 <= m < size ==> s.partBestFit[s.bestParticle] <= s.partBestFit[m]
  }

  /**
   * What a step needs of the swarm: it is shaped, the links index it, the
   * global best indexes it and the neighbourhood bests are either not yet
   * recorded or recorded for every particle.
   */
  ghost predicate Ready(s: SwarmState, dyn: Dynamics) {
    Shaped(s, dyn.size, dyn.dimensions) && LinksIn(dyn.edges, dyn.size) &&
    (dyn.size > 0 ==> s.bestParticle < dyn.size) &&
    (s.bestParticleInNeighs == [] || |s.bestParticleInNeighs| == dyn.size)
  }

  /** Particle `n`'s recorded best fitness is the sentinel or the fitness at its recorded best position. */
  ghost predicate MeasuredBest(s: SwarmState, dyn: Dynamics, n: nat)
    requires n < |s.partBestFit| && n < |s.partBestPos|
  {
    s.partBestFit[n] == MaxValue || s.partBestFit[n] == dyn.fitness(s.partBestPos[n])
  }

  /**
   * The invariant between steps: the swarm is ready for a step, each personal
   * best fitness is the fitness of the personal best position (or still the
   * sentinel), no personal best is worse than the last evaluation,
   * `bestParticle` is a global best and, once recorded, each neighbourhood
   * best is the scan's result.
   */
  ghost predicate Valid(s: SwarmState, dyn: Dynamics) {
    Ready(s, dyn) &&
    (forall n :: 0 <= n < dyn.size ==> MeasuredBest(s, dyn, n)) &&
    (forall n :: 0 <= n < dyn.size ==> s.partBestFit[n] <= s.actualFitness[n]) &&
    GlobalBestKept(s, dyn.size) &&
    (s.bestParticleInNeighs == [] || s.bestParticleInNeighs == LocalBests(s.partBestFit, dyn.edges))
  }

  /** The first line of step() (pso.js:84): record the fitness of every current position. */
  function Evaluate(s: SwarmState, dyn: Dynamics): (r: SwarmState)
    requires Shaped(s, dyn.size, dyn.dimensions)
    ensures Shaped(r, dyn.size, dyn.dimensions)
  {
    s.(actualFitness := Evaluated(dyn.fitness, s.positions))
  }

  /** replaceParticlesBests() (pso.js:126-154) on the swarm `s`. */
  function ReplaceBests(s: SwarmState, dyn: Dynamics): (r: SwarmState)
    requires Shaped(s, dyn.size, dyn.dimensions) && LinksIn(dyn.edges, dyn.size)
    requires dyn.size > 0 ==> s.bestParticle < dyn.size
    ensures Shaped(r, dyn.size, dyn.dimensions)
    ensures |r.bestParticleInNeighs| == dyn.size
    ensures forall n :: 0 <= n < dyn.size ==> 0 <= r.bestParticleInNeighs[n] < dyn.size
  {
    var fits := PersonalBestFits(s.partBestFit, s.actualFitness);
    s.(partBestFit := fits,
       partBestPos := PersonalBestRows(s.partBestFit, s.actualFitness, s.partBestPos, s.positions, dyn.dimensions),
       bestParticleInNeighs := LocalBests(fits, dyn.edges),
       bestParticle := if dyn.size == 0 then s.bestParticle else GlobalBestOf(fits, s.bestParticle, dyn.size))
  }

  /** updateVelocities() (pso.js:115-124) on the swarm `s`: two draws per cell. */
  ghost function Accelerate(s: SwarmState, dyn: Dynamics): (r: SwarmState)
    requires Shaped(s, dyn.size, dyn.dimensions)
    requires |s.bestParticleInNeighs| == dyn.size
    requires forall n :: 0 <= n < dyn.size ==> 0 <= s.bestParticleInNeighs[n] < dyn.size
    ensures Shaped(r, dyn.size, dyn.dimensions)
  {
    s.(velocities := AcceleratedSwarm(dyn.X, dyn.C1, dyn.C2, dyn.rand, s.velocities, s.positions, s.partBestPos,
                                      s.bestParticleInNeighs, s.partBestPos, s.drawn, dyn.dimensions),
       drawn := s.drawn + 2 * (dyn.size * dyn.dimensions))
  }

  /** updatePositions() (pso.js:106-113) on the swarm `s`: one draw per cell. */
  ghost function Move(s: SwarmState, dyn: Dynamics): (r: SwarmState)
    requires Shaped(s, dyn.size, dyn.dimensions)
    ensures Shaped(r, dyn.size, dyn.dimensions)
  {
    s.(positions := MovedSwarm(dyn.noise, dyn.rand, s.positions, s.velocities, s.drawn, dyn.dimensions),
       drawn := s.drawn + dyn.size * dyn.dimensions)
  }

  /**
   * updateVelocities() writes only the velocities and updatePositions() only
   * the positions, each also using up its draws: fitness values, personal
   * bests and best particles are left as they were, and the shape is kept.
   */
  lemma PhasesWriteOwnLists(s: SwarmState, dyn: Dynamics)
    requires Shaped(s, dyn.size, dyn.dimensions)
    requires |s.bestParticleInNeighs| == dyn.size
    requires forall n :: 0 <= n < dyn.size ==> 0 <= s.bestParticleInNeighs[n] < dyn.size
    ensures var a := Accelerate(s, dyn);
      Shaped(a, dyn.size, dyn.dimensions) && a.(velocities := s.velocities, drawn := s.drawn) == s
    ensures var m := Move(s, dyn);
      Shaped(m, dyn.size, dyn.dimensions) && m.(positions := s.positions, drawn := s.drawn) == s
  {
  }

  /**
   * step() (pso.js:83-88): the four phases in the source's order. It keeps
   * every list's shape and uses three draws per coordinate: two for the
   * velocities, then one for the positions.
   */
  ghost function Step(s: SwarmState, dyn: Dynamics): (r: SwarmState)
    requires Ready(s, dyn)
    ensures Shaped(r, dyn.size, dyn.dimensions)
    ensures r.drawn == s.drawn + 3 * (dyn.size * dyn.dimensions)
  {
    Move(Accelerate(ReplaceBests(Evaluate(s, dyn), dyn), dyn), dyn)
  }

  /**
   * A step keeps the invariant: it replaces a personal best only by the
   * position just measured and its fitness, and only downwards, and the incremental global
   * best it computes is the lowest personal best of the swarm.
   */
  lemma StepKeepsValid(s: SwarmState, dyn: Dynamics)
    requires Valid(s, dyn)
    ensures Valid(Step(s, dyn), dyn)
  {
    var e := Evaluate(s, dyn);
    var b := ReplaceBests(e, dyn);
    if dyn.size > 0 {
      GlobalBestIsBest(b.partBestFit, e.bestParticle, dyn.size);
    }
    forall n | 0 <= n < dyn.size
      ensures b.partBestFit[n] <= b.actualFitness[n] && MeasuredBest(b, dyn, n)
    {
      BestsMeasured(s, dyn, n);
    }
  }

  /**
   * After the bests are replaced, particle `n`'s best fitness is no worse than
   * its fresh measurement and is still the fitness at its best position.
   */
  lemma BestsMeasured(s: SwarmState, dyn: Dynamics, n: nat)
    requires Valid(s, dyn) && n < dyn.size
    ensures var b := ReplaceBests(Evaluate(s, dyn), dyn);
      b.partBestFit[n] <= b.actualFitness[n] && MeasuredBest(b, dyn, n)
  {
    var e := Evaluate(s, dyn);
    assert MeasuredBest(s, dyn, n);
    PersonalBestFitsAt(e.partBestFit, e.actualFitness, n);
    PersonalBestRowsAt(e.partBestFit, e.actualFitness, e.partBestPos, e.positions, dyn.dimensions, n);
    EvaluatedAt(dyn.fitness, s.positions, n);
  }

  /**
   * What a step does with the fitness: it measures every particle at its
   * position before the step moved it, and no personal best rises, nor ends
   * above that measurement.
   */
  lemma StepMeasuresBeforeMoving(s: SwarmState, dyn: Dynamics)
    requires Valid(s, dyn)
    ensures var r := Step(s, dyn);
      r.actualFitness == Evaluated(dyn.fitness, s.positions) &&
      forall n :: 0 <= n < dyn.size ==>
        r.partBestFit[n] <= s.partBestFit[n] && r.partBestFit[n] <= r.actualFitness[n]
  {
    var r := Step(s, dyn);
    forall n | 0 <= n < dyn.size
      ensures r.partBestFit[n] <= s.partBestFit[n] && r.partBestFit[n] <= r.actualFitness[n]
    {
      PersonalBestFitsAt(s.partBestFit, r.actualFitness, n);
    }
  }

  /** `k` successive steps from `s`; each keeps the invariant (StepKeepsValid). */
  ghost function Steps(s: SwarmState, dyn: Dynamics, k: nat): (r: SwarmState)
    requires Valid(s, dyn)
    ensures Valid(r, dyn)
  {
    if k == 0 then s
    else
      var before := Steps(s, dyn, k - 1);
      StepKeepsValid(before, dyn);
      Step(before, dyn)
  }

  /**
   * The definition of `Steps` one unfolding at a time: zero steps leave the
   * swarm as it is, and step `k + 1` is one step after the first `k`, whose
   * result is valid and so ready for it.
   */
  lemma StepsNext(s: SwarmState, dyn: Dynamics, k: nat)
    requires Valid(s, dyn)
    ensures Steps(s, dyn, 0) == s
    ensures Valid(Steps(s, dyn, k), dyn) && Ready(Steps(s, dyn, k), dyn)
    ensures Steps(s, dyn, k + 1) == Step(Steps(s, dyn, k), dyn)
  {
  }

  /** However many steps are taken, no particle's personal best fitness rises. */
  lemma {:induction false} StepsNeverRaise(s: SwarmState, dyn: Dynamics, k: nat)
    requires Valid(s, dyn)
    ensures forall n :: 0 <= n < dyn.size ==> Steps(s, dyn, k).partBestFit[n] <= s.partBestFit[n]
  {
    hide Step, Steps, Valid, Ready, Shaped;
    if k == 0 {
      StepsNext(s, dyn, 0);
    } else {
      StepsNext(s, dyn, k - 1);
      StepsNeverRaise(s, dyn, k - 1);
      StepMeasuresBeforeMoving(Steps(s, dyn, k - 1), dyn);
    }
  }

  lemma {:induction false} MovedSwarmRow(noise: real, rand: nat -> real, positions: seq<Position>,
                                         velocities: seq<Position>, start: nat, dimensions: nat, n: nat)
    requires Rows(positions, |positions|, dimensions) && Rows(velocities, |positions|, dimensions)
    requires n < |positions|
    ensures MovedSwarm(noise, rand, positions, velocities, start, dimensions)[n] ==
            Moved(noise, rand, positions[n], velocities[n], start + n * dimensions)
    decreases n
  {
    if n > 0 {
      MovedSwarmRow(noise, rand, positions[1..], velocities[1..], start + dimensions, dimensions, n - 1);
      NextRow(n - 1, dimensions);
    }
  }

  lemma {:induction false} AcceleratedSwarmRow(X: real, C1: real, C2: real, rand: nat -> real,
                                               velocities: seq<Position>, positions: seq<Position>,
                                               partBestPos: seq<Position>, local: seq<int>, bests: seq<Position>,
                                               start: nat, dimensions: nat, n: nat)
    requires Rows(velocities, |velocities|, dimensions) && Rows(positions, |velocities|, dimensions)
    requires Rows(partBestPos, |velocities|, dimensions)
    requires Rows(bests, |bests|, dimensions)
    requires |local| == |velocities| && forall n :: 0 <= n < |local| ==> 0 <= local[n] < |bests|
    requires n < |velocities|
    ensures AcceleratedSwarm(X, C1, C2, rand, velocities, positions, partBestPos, local, bests, start, dimensions)[n] ==
            Accelerated(X, C1, C2, rand, velocities[n], positions[n], partBestPos[n], bests[local[n]],
                        start + 2 * (n * dimensions))
    decreases n
  {
    if n > 0 {
      AcceleratedSwarmRow(X, C1, C2, rand, velocities[1..], positions[1..], partBestPos[1..], local[1..], bests,
                          start + 2 * dimensions, dimensions, n - 1);
      NextRow(n - 1, dimensions);
    }
  }

  lemma {:induction false} EvaluatedAt(fitness: Fitness, positions: seq<Position>, n: nat)
    requires n < |positions|
    ensures Evaluated(fitness, positions)[n] == fitness(positions[n])
    decreases n
  {
    if n > 0 {
      EvaluatedAt(fitness, positions[1..], n - 1);
    }
  }

  lemma {:induction false} PersonalBestFitsAt(fits: seq<real>, actual: seq<real>, n: nat)
    requires |actual| == |fits| && n < |fits|
    ensures PersonalBestFits(fits, actual)[n] == PersonalBest(fits[n], actual[n])
    decreases n
  {
    if n > 0 {
      PersonalBestFitsAt(fits[1..], actual[1..], n - 1);
    }
  }

  lemma {:induction false} PersonalBestRowsAt(fits: seq<real>, actual: seq<real>, rows: seq<Position>,
                                              positions: seq<Position>, dimensions: nat, n: nat)
    requires |actual| == |fits|
    requires Rows(rows, |fits|, dimensions) && Rows(positions, |fits|, dimensions)
    requires n < |fits|
    ensures PersonalBestRows(fits, actual, rows, positions, dimensions)[n] ==
            if actual[n] < fits[n] then positions[n] else rows[n]
    decreases n
  {
    if n > 0 {
      PersonalBestRowsAt(fits[1..], actual[1..], rows[1..], positions[1..], dimensions, n - 1);
    }
  }

  lemma {:induction false} LocalBestsAt(fits: seq<real>, edges: seq<seq<int>>, count: nat, n: nat)
    requires LinksIn(edges, |fits|) && n < count <= |fits|
    ensures LocalBestsUpTo(fits, edges, count)[n] == LocalBestOf(fits, n, edges[n])
  {
    if n < count - 1 {
      LocalBestsAt(fits, edges, count - 1, n);
    }
  }

  lemma {:induction false} MovedAt(noise: real, rand: nat -> real, before: Position, velocity: Position,
                                   start: nat, d: nat)
    requires |velocity| == |before| && d < |before|
    ensures Moved(noise, rand, before, velocity, start)[d] == before[d] + velocity[d] + Rnd(rand, start + d) * noise
    decreases d
  {
    if d > 0 {
      MovedAt(noise, rand, before[1..], velocity[1..], start + 1, d - 1);
    }
  }

  lemma {:induction false} AcceleratedAt(X: real, C1: real, C2: real, rand: nat -> real, before: Position,
                                         position: Position, own: Position, local: Position, start: nat, d: nat)
    requires |position| == |before| && |own| == |before| && |local| == |before| && d < |before|
    ensures Accelerated(X, C1, C2, rand, before, position, own, local, start)[d] ==
            Constricted(X, C1, C2, before[d], position[d], own[d], local[d], rand(start + 2 * d), rand(start + 2 * d + 1))
    decreases d
  {
    if d > 0 {
      AcceleratedAt(X, C1, C2, rand, before[1..], position[1..], own[1..], local[1..], start + 2, d - 1);
    }
  }
}
