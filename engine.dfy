/**
 * The PSO engine of pso.js: its configuration, its swarm and the operations
 * that build and advance it. JavaScript arrays, which the source grows with
 * `push` and overwrites cell by cell, are sequence-valued fields that the
 * methods reassign. Math.random is an injected stream of draws, of which
 * `drawn` have been used.
 */
module Engine {
  import opened Wrappers
  import opened PsoConfig
  import opened Neighbourhood
  import opened Bests
  import opened Swarm

  /** JavaScript's `a[i] = v`: overwrite cell `i`, or append when `i` is the length. */
  function Store(a: seq<int>, i: nat, v: int): (r: seq<int>)
    requires i <= |a|
    ensures |r| == if i < |a| then |a| else |a| + 1
    ensures r[i] == v
    ensures forall j :: 0 <= j < |a| && j != i ==> r[j] == a[j]
  {
    if i < |a| then a[i := v] else a + [v]
  }

  /** `count` fitness values, each the sentinel Number.MAX_VALUE. */
  ghost predicate Sentinel(fits: seq<real>, count: nat) {
    |fits| == count && forall n :: 0 <= n < count ==> fits[n] == MaxValue
  }

  /** Steps allowed by a budget of `steps`: a negative budget allows none. */
  function Budget(steps: int): (n: nat) {
    if steps < 0 then 0 else steps
  }

  /** The draw `Math.floor(count * Math.random())` of pso.js:72, made with draw number `i`. */
  function LinkDraw(rand: nat -> real, count: nat, i: nat): (link: int)
    ensures count > 0 && 0.0 <= rand(i) < 1.0 ==> 0 <= link < count
  {
    var x := count as real * rand(i);
    if count > 0 && 0.0 <= rand(i) < 1.0 then LinkInRange(count, rand(i)); x.Floor else x.Floor
  }

  /**
   * The rejection loop of pso.js:71-73 for particle `n`, whose links so far
   * are `links`: while `link` is `n` or already a link, replace it by the
   * next draw. Draws are numbered from `start`, and `used` of at most `budget`
   * are spent. Returns the link it stops at and the draws spent by then; it
   * stops on a rejected link only when the budget is spent.
   */
  function Seek(rand: nat -> real, count: nat, n: int, links: seq<int>, start: nat, budget: nat, link: int,
                used: nat): (r: (int, nat))
    requires used <= budget
    ensures used <= r.1 <= budget
    ensures r.0 == n || r.0 in links ==> r.1 == budget
    decreases budget - used
  {
    if (link != n && link !in links) || used == budget then (link, used)
    else Seek(rand, count, n, links, start, budget, LinkDraw(rand, count, start + used), used + 1)
  }

  /** One turn of the rejection loop: draw again while the link is rejected and draws remain, else stop. */
  lemma SeekNext(rand: nat -> real, count: nat, n: int, links: seq<int>, start: nat, budget: nat, link: int,
                 used: nat)
    requires used <= budget
    ensures (link == n || link in links) && used < budget ==>
      Seek(rand, count, n, links, start, budget, link, used) ==
      Seek(rand, count, n, links, start, budget, LinkDraw(rand, count, start + used), used + 1)
    ensures !((link == n || link in links) && used < budget) ==>
      Seek(rand, count, n, links, start, budget, link, used) == (link, used)
  {
  }

  /** What a sampling loop produced: the items found, the draws spent and whether it found them all. */
  datatype Sample<T> = Sample(taken: seq<T>, used: nat, complete: bool)

  /**
   * The first `k` links of particle `n` (pso.js:69-75), drawn from draw number
   * `start` with at most `budget` draws. Sampling gives up only when the
   * budget is spent, and then fewer than `k` links were found.
   */
  function SampledLinks(rand: nat -> real, n: nat, count: nat, k: nat, start: nat, budget: nat): (s: Sample<int>)
    ensures s.used <= budget
    ensures s.complete ==> |s.taken| == k
    ensures !s.complete ==> s.used == budget && |s.taken| < k
  {
    if k == 0 then Sample([], 0, true)
    else
      var s := SampledLinks(rand, n, count, k - 1, start, budget);
      if !s.complete then s
      else
        var r := Seek(rand, count, n, s.taken, start, budget, n, s.used);
        if r.0 == n || r.0 in s.taken then Sample(s.taken, r.1, false)
        else Sample(s.taken + [r.0], r.1, true)
  }

  /** No links need no draws; link `k + 1` is sought after the first `k` were found. */
  lemma SampledLinksNext(rand: nat -> real, n: nat, count: nat, k: nat, start: nat, budget: nat)
    ensures SampledLinks(rand, n, count, 0, start, budget) == Sample([], 0, true)
    ensures var s := SampledLinks(rand, n, count, k, start, budget);
      s.complete ==>
        var r := Seek(rand, count, n, s.taken, start, budget, n, s.used);
        SampledLinks(rand, n, count, k + 1, start, budget) ==
          if r.0 == n || r.0 in s.taken then Sample(s.taken, r.1, false) else Sample(s.taken + [r.0], r.1, true)
  {
  }

  /** Once sampling has given up, asking for more links changes nothing. */
  lemma {:induction false} SampledLinksStop(rand: nat -> real, n: nat, count: nat, k: nat, k': nat, start: nat,
                                            budget: nat)
    requires k <= k' && !SampledLinks(rand, n, count, k, start, budget).complete
    ensures SampledLinks(rand, n, count, k', start, budget) == SampledLinks(rand, n, count, k, start, budget)
    decreases k'
  {
    if k' > k {
      SampledLinksStop(rand, n, count, k, k' - 1, start, budget);
    }
  }

  /**
   * The link lists of particles `0 .. m - 1` (pso.js:67-76), drawn from draw
   * number `start` with at most `budget` draws in all. Sampling gives up only
   * when the budget is spent; the lists found until then are kept.
   */
  function SampledEdges(rand: nat -> real, count: nat, degree: nat, m: nat, start: nat, budget: nat)
    : (s: Sample<seq<int>>)
    ensures s.used <= budget
    ensures s.complete ==> |s.taken| == m
    ensures !s.complete ==> s.used == budget && m > 0 && degree > 0
  {
    if m == 0 then Sample([], 0, true)
    else
      var s := SampledEdges(rand, count, degree, m - 1, start, budget);
      if !s.complete then s
      else
        var l := SampledLinks(rand, m - 1, count, degree, start + s.used, budget - s.used);
        Sample(if l.complete then s.taken + [l.taken] else s.taken, s.used + l.used, l.complete)
  }

  /** No particles need no draws; particle `m`'s links are sampled with the draws the first `m` left. */
  lemma SampledEdgesNext(rand: nat -> real, count: nat, degree: nat, m: nat, start: nat, budget: nat)
    ensures SampledEdges(rand, count, degree, 0, start, budget) == Sample([], 0, true)
    ensures var s := SampledEdges(rand, count, degree, m, start, budget);
      s.complete ==>
        var l := SampledLinks(rand, m, count, degree, start + s.used, budget - s.used);
        SampledEdges(rand, count, degree, m + 1, start, budget) ==
          Sample(if l.complete then s.taken + [l.taken] else s.taken, s.used + l.used, l.complete)
  {
    hide SampledLinks;
  }

  /** Once sampling has given up, asking for more particles' links changes nothing. */
  lemma {:induction false} SampledEdgesStop(rand: nat -> real, count: nat, degree: nat, m: nat, m': nat, start: nat,
                                            budget: nat)
    requires m <= m' && !SampledEdges(rand, count, degree, m, start, budget).complete
    ensures SampledEdges(rand, count, degree, m', start, budget) == SampledEdges(rand, count, degree, m, start, budget)
    decreases m'
  {
    if m' > m {
      SampledEdgesStop(rand, count, degree, m, m' - 1, start, budget);
    }
  }

  /** The caller's options object, which construction fills with the defaults it lacks. */
  class Options {
    var given: Overrides

    constructor (given: Overrides)
      ensures this.given == given
    {
      this.given := given;
    }
  }

  class PSO {
    // The configuration, copied from the filled options object.
    var size: nat
    var dimensions: nat
    var degree: nat
    var steps: int
    var fitness: Fitness
    var criteria: Criteria
    var C1: real
    var C2: real
    var X: real
    var noise: real
    var options: Options

    // The swarm.
    var actualFitness: seq<real>
    var partBestFit: seq<real>
    var velocities: seq<Position>
    var positions: seq<Position>
    var partBestPos: seq<Position>
    var edges: seq<seq<int>>
    var bestParticleInNeighs: seq<int>
    var bestParticle: nat
    var curStep: int

    /** Math.random's results, and how many of them have been used. */
    const rand: nat -> real
    var drawn: nat

    /**
     * Set when the edge sampling ran out of draws: the source would still be
     * looping and the constructor would never have returned.
     */
    var hung: bool

    ghost function Configuration(): (c: Config)
      reads this`size, this`dimensions, this`degree, this`steps, this`fitness, this`criteria,
            this`C1, this`C2, this`X, this`noise
    {
      Config(size, dimensions, degree, steps, fitness, criteria, C1, C2, X, noise)
    }

    /** The stored options object is complete and describes this configuration. */
    ghost predicate OptionsAgree()
      reads this`size, this`dimensions, this`degree, this`steps, this`fitness, this`criteria,
            this`C1, this`C2, this`X, this`noise, this`options, options`given
    {
      Complete(options.given) && Configuration() == ConfigOf(options.given)
    }

    /** The fields a step changes. */
    ghost function State(): SwarmState
      reads this`actualFitness, this`partBestFit, this`velocities, this`positions, this`partBestPos,
            this`bestParticleInNeighs, this`bestParticle, this`drawn
    {
      SwarmState(actualFitness, partBestFit, velocities, positions, partBestPos,
                 bestParticleInNeighs, bestParticle, drawn)
    }

    /** The fields a step reads and leaves alone. */
    ghost function Dynamics(): Swarm.Dynamics
      reads this`size, this`dimensions, this`fitness, this`C1, this`C2, this`X, this`noise, this`edges
    {
      Swarm.Dynamics(size, dimensions, fitness, C1, C2, X, noise, edges, rand)
    }

    /** The invariant that holds after construction and between steps. */
    ghost predicate Valid()
      reads this
    {
      Swarm.Valid(State(), Dynamics())
    }

    /**
     * Every particle has exactly `degree` distinct links to other particles.
     * Only initialize() writes these fields, so a step keeps this by its frame.
     */
    ghost predicate Linked()
      reads this`edges, this`size, this`degree
    {
      Neighbourhoods(edges, size, degree)
    }

    /** The lists initialize() fills are empty. */
    ghost predicate Empty()
      reads this`partBestFit, this`actualFitness, this`positions, this`partBestPos, this`velocities, this`edges
    {
      partBestFit == [] && actualFitness == [] && positions == [] && partBestPos == [] && velocities == [] && edges == []
    }

    /**
     * The links are the ones rejection sampling draws from draw number `start`
     * with at most `fuel` draws, `hung` says whether it gave up, and `drawn`
     * counts the draws it spent.
     */
    ghost predicate Sampled(start: nat, fuel: nat)
      reads this`edges, this`hung, this`drawn, this`size, this`degree
    {
      var s := SampledEdges(rand, size, degree, size, start, fuel);
      edges == s.taken && hung == !s.complete && drawn == start + s.used
    }

    /** The state initialize() leaves, having started at draw number `draw0`. */
    ghost predicate Initialized(draw0: nat)
      reads this`partBestFit, this`actualFitness, this`positions, this`partBestPos, this`velocities,
            this`size, this`dimensions
    {
      Sentinel(partBestFit, size) && Sentinel(actualFitness, size) &&
      DrawnSwarm(positions, partBestPos, velocities, size, draw0, dimensions)
    }

    /**
     * `count` freshly drawn particles, particle `n` from the draws starting at
     * `start + n * dimensions`, each personal best a copy of its position.
     */
    ghost predicate DrawnSwarm(ps: seq<Position>, pbs: seq<Position>, vs: seq<Position>, count: nat, start: nat,
                               dimensions: nat) {
      |ps| == count && |pbs| == count && |vs| == count &&
      forall n :: 0 <= n < count ==>
        pbs[n] == ps[n] && Drawn(ps[n], vs[n], start + n * dimensions, dimensions)
    }

    /** A freshly drawn particle (pso.js:61-63): coordinates `rnd()` of draws `start, start + 1, ...`, zero velocity. */
    ghost predicate Drawn(position: Position, velocity: Position, start: nat, dimensions: nat) {
      |position| == dimensions && |velocity| == dimensions &&
      forall d :: 0 <= d < dimensions ==> position[d] == Rnd(rand, start + d) && velocity[d] == 0.0
    }

    /** PSO(options) (pso.js:3-43); a missing options object is replaced by a fresh empty one. */
    constructor (opts: Options?, rand: nat -> real, fuel: nat)
      requires IsRandomStream(rand)
      modifies opts
      ensures this.rand == rand
      ensures opts != null ==> options == opts && options.given == Fill(old(opts.given))
      ensures opts == null ==> fresh(options) && options.given == Fill(NoOverrides)
      ensures OptionsAgree()
      ensures Initialized(0)
      ensures Sampled(size * dimensions, fuel)
      ensures hung ==> drawn == size * dimensions + fuel
      ensures bestParticleInNeighs == [] && bestParticle == 0 && curStep == 0
      ensures !hung ==> Valid() && Linked()
      ensures !hung ==> size == 0 || degree < size
      ensures size == 0 || degree == 0 ==> !hung
    {
      if opts == null {
        options := new Options(NoOverrides);
      } else {
        options := opts;
      }
      this.rand := rand;
      drawn := 0;
      new;
      Build(fuel);
    }

    /** reset(options) (pso.js:79-81): construction again, on the given or the stored options. */
    method Reset(opts: Options?, fuel: nat)
      requires IsRandomStream(rand)
      modifies this, opts, options
      ensures opts != null ==> options == opts && options.given == Fill(old(opts.given))
      ensures opts == null ==> options == old(options) && options.given == Fill(old(options.given))
      ensures opts == null && old(OptionsAgree()) ==> Configuration() == old(Configuration())
      ensures opts != null && opts != old(options) ==> old(options).given == old(options.given)
      ensures OptionsAgree()
      ensures Initialized(old(drawn))
      ensures Sampled(old(drawn) + size * dimensions, fuel)
      ensures bestParticleInNeighs == [] && bestParticle == 0 && curStep == 0
      ensures !hung ==> Valid() && Linked()
      ensures !hung ==> size == 0 || degree < size
      ensures size == 0 || degree == 0 ==> !hung
    {
      hide Initialized, Sampled, Valid, Linked, Swarm.Valid, LinksIn, SampledEdges, SampledLinks, Seek, LinkDraw, Fill;
      if opts != null {
        options := opts;
      }
      ghost var before := options.given;
      Build(fuel);
      if opts == null && old(OptionsAgree()) {
        FillComplete(before);
      }
    }

    /** The body of PSO(options) once `options` is an object (pso.js:24-42). */
    method Build(fuel: nat)
      requires IsRandomStream(rand)
      modifies this, options
      ensures options == old(options)
      ensures options.given == Fill(old(options.given))
      ensures OptionsAgree()
      ensures Initialized(old(drawn))
      ensures Sampled(old(drawn) + size * dimensions, fuel)
      ensures bestParticleInNeighs == [] && bestParticle == 0 && curStep == 0
      ensures !hung ==> Valid() && Linked()
      ensures !hung ==> size == 0 || degree < size
      ensures size == 0 || degree == 0 ==> !hung
    {
      options.given := Fill(options.given);
      Configure(ConfigOf(options.given));
      hide Fill, ConfigOf, Keeps, DefaultsWhereAbsent;
      assert OptionsAgree();
      hide OptionsAgree, Configuration, Initialized, Linked, Swarm.Valid, Sampled;
      Start(fuel);
    }

    /** The rest of PSO(options) (pso.js:33-42): empty the swarm's lists, then initialize(). */
    method Start(fuel: nat)
      requires IsRandomStream(rand)
      modifies this`actualFitness, this`partBestFit, this`velocities, this`positions, this`partBestPos,
               this`edges, this`bestParticleInNeighs, this`bestParticle, this`curStep, this`drawn, this`hung
      ensures Initialized(old(drawn))
      ensures Sampled(old(drawn) + size * dimensions, fuel)
      ensures bestParticleInNeighs == [] && bestParticle == 0 && curStep == 0
      ensures !hung ==> Valid() && Linked()
      ensures !hung ==> size == 0 || degree < size
      ensures size == 0 || degree == 0 ==> !hung
    {
      hide *;
      Clear();
      assert drawn == old(drawn);
      Initialize(fuel);
      if !hung {
        FreshIsValid(old(drawn));
      }
    }

    /** The empty swarm the constructor starts from (pso.js:33-41). */
    method Clear()
      modifies this`actualFitness, this`partBestFit, this`velocities, this`positions, this`partBestPos,
               this`edges, this`bestParticleInNeighs, this`bestParticle, this`curStep
      ensures Empty()
      ensures bestParticleInNeighs == [] && bestParticle == 0 && curStep == 0
    {
      actualFitness, partBestFit := [], [];
      velocities, positions, partBestPos := [], [], [];
      edges, bestParticleInNeighs := [], [];
      bestParticle, curStep := 0, 0;
    }

    /** A freshly initialized swarm with its bests not yet recorded satisfies the invariant between steps. */
    lemma FreshIsValid(draw0: nat)
      requires Initialized(draw0) && LinksIn(edges, size)
      requires bestParticleInNeighs == [] && bestParticle == 0
      ensures Valid()
    {
    }

    /** The copy `this[o] = options[o]` of pso.js:25-31: each option of a filled options object becomes a field. */
    method Configure(c: Config)
      modifies this`size, this`dimensions, this`degree, this`steps, this`fitness, this`criteria,
               this`C1, this`C2, this`X, this`noise
      ensures Configuration() == c
    {
      size, dimensions, degree, steps := c.size, c.dimensions, c.degree, c.steps;
      fitness, criteria := c.fitness, c.criteria;
      C1, C2, X, noise := c.C1, c.C2, c.X, c.noise;
    }

    /**
     * initialize() (pso.js:49-77). The rejection loop for each link draws
     * until it finds an index that is neither the particle nor already a link;
     * `fuel` bounds the draws it may take in all. The links are those
     * `SampledEdges` draws, and `hung` is set exactly when it gave up, which
     * happens only once all of `fuel` is spent.
     */
    method Initialize(fuel: nat)
      requires IsRandomStream(rand)
      requires Empty()
      modifies this`partBestFit, this`actualFitness, this`positions, this`partBestPos,
               this`velocities, this`edges, this`drawn, this`hung
      ensures Initialized(old(drawn))
      ensures Sampled(old(drawn) + size * dimensions, fuel)
      ensures hung ==> drawn == old(drawn) + size * dimensions + fuel
      ensures !hung ==> Linked() && LinksIn(edges, size)
      ensures !hung ==> size == 0 || degree < size
      ensures size == 0 || degree == 0 ==> !hung
    {
      hide Sentinel, DrawnSwarm, Neighbourhoods, LinksIn, SampledEdges, SampledLinks, Sampled;
      var bests, actual := Sentinels(size);
      partBestFit, actualFitness := bests, actual;
      // random particles
      var ps, pbs, vs := NewParticles(size, dimensions, drawn);
      positions, partBestPos, velocities := ps, pbs, vs;
      drawn := drawn + size * dimensions;
      LinkSwarm(fuel);
    }

    /**
     * The edge loop of initialize() (pso.js:67-76) on the engine's fields:
     * the links are those `SampledEdges` draws with at most `fuel` draws, and
     * `hung` is set exactly when it gave up.
     */
    method LinkSwarm(fuel: nat)
      requires IsRandomStream(rand)
      modifies this`edges, this`drawn, this`hung
      ensures Sampled(old(drawn), fuel)
      ensures hung ==> drawn == old(drawn) + fuel
      ensures !hung ==> Linked() && LinksIn(edges, size)
      ensures !hung ==> size == 0 || degree < size
      ensures size == 0 || degree == 0 ==> !hung
    {
      hide Neighbourhoods, LinksIn, SampledEdges, SampledLinks, Sampled;
      var es, used, complete := NewEdges(size, degree, drawn, fuel);
      edges, drawn, hung := es, drawn + used, !complete;
      SampledHere(old(drawn), fuel, used, complete);
    }

    /** Edges sampled from draw number `start` with at most `fuel` draws are recorded as such, and hang only when the draws ran out. */
    lemma SampledHere(start: nat, fuel: nat, used: nat, complete: bool)
      requires Sample(edges, used, complete) == SampledEdges(rand, size, degree, size, start, fuel)
      requires hung == !complete && drawn == start + used
      ensures Sampled(start, fuel)
      ensures hung ==> drawn == start + fuel
    {
    }

    /** The first loop of initialize() (pso.js:51-54): every fitness starts at Number.MAX_VALUE. */
    method Sentinels(count: nat) returns (bests: seq<real>, actual: seq<real>)
      ensures Sentinel(bests, count) && Sentinel(actual, count)
    {
      bests, actual := [], [];
      var i := 0;
      while i < count
        invariant 0 <= i <= count
        invariant |bests| == i && |actual| == i
        invariant forall j :: 0 <= j < i ==> bests[j] == MaxValue && actual[j] == MaxValue
      {
        bests := bests + [MaxValue];
        actual := actual + [MaxValue];
        i := i + 1;
      }
    }

    /** The particle loop of initialize() (pso.js:56-65), from draw number `start`, `dimensions` draws per particle. */
    method NewParticles(count: nat, dimensions: nat, start: nat) returns (ps: seq<Position>, pbs: seq<Position>, vs: seq<Position>)
      ensures DrawnSwarm(ps, pbs, vs, count, start, dimensions)
    {
      ps, pbs, vs := [], [], [];
      var n := 0;
      while n < count
        invariant 0 <= n <= count
        invariant |ps| == n && |pbs| == n && |vs| == n
        invariant forall m :: 0 <= m < n ==>
          pbs[m] == ps[m] && Drawn(ps[m], vs[m], start + m * dimensions, dimensions)
      {
        var position, personalBest, velocity := NewParticle(dimensions, start + n * dimensions);
        ps, pbs, vs := ps + [position], pbs + [personalBest], vs + [velocity];
        n := n + 1;
      }
    }

    /** One particle of initialize() (pso.js:57-64): a random position, its copy as personal best, zero velocity. */
    method NewParticle(dimensions: nat, start: nat) returns (position: Position, personalBest: Position, velocity: Position)
      ensures personalBest == position && Drawn(position, velocity, start, dimensions)
    {
      position, personalBest, velocity := [], [], [];
      var d := 0;
      while d < dimensions
        invariant 0 <= d <= dimensions
        invariant |position| == d && personalBest == position && |velocity| == d
        invariant forall d' :: 0 <= d' < d ==> position[d'] == Rnd(rand, start + d') && velocity[d'] == 0.0
      {
        position := position + [Rnd(rand, start + d)];
        personalBest := personalBest + [position[d]];
        velocity := velocity + [0.0];
        d := d + 1;
      }
    }

    /**
     * The edge loop of initialize() (pso.js:67-76), from draw number `start`
     * with at most `budget` draws: the sampling `SampledEdges` describes.
     */
    method NewEdges(count: nat, degree: nat, start: nat, budget: nat) returns (es: seq<seq<int>>, used: nat, complete: bool)
      requires IsRandomStream(rand)
      ensures Sample(es, used, complete) == SampledEdges(rand, count, degree, count, start, budget)
      ensures complete ==> Neighbourhoods(es, count, degree) && LinksIn(es, count)
      ensures complete && count > 0 ==> degree < count
    {
      hide SampledEdges, SampledLinks;
      SampledEdgesNext(rand, count, degree, 0, start, budget);
      es, used, complete := [], 0, true;
      var n := 0;
      while n < count
        invariant 0 <= n <= count && |es| == n
        invariant Sample(es, used, true) == SampledEdges(rand, count, degree, n, start, budget)
        invariant forall m :: 0 <= m < n ==> |es[m]| == degree && IsNeighbourhood(es[m], m, count)
      {
        SampledEdgesNext(rand, count, degree, n, start, budget);
        var links, taken, done := NewLinks(n, count, degree, start + used, budget - used);
        used := used + taken;
        if !done {
          complete := false;
          SampledEdgesStop(rand, count, degree, n + 1, count, start, budget);
          return;
        }
        es := es + [links];
        n := n + 1;
      }
      if count > 0 {
        NeighbourhoodBound(es[0], 0, count);
      }
    }

    /**
     * The links of particle `n` (pso.js:68-75): for each of the `degree` links,
     * draw `Math.floor(size * Math.random())` until it is neither `n` nor a link
     * already taken. At most `budget` draws are made, from draw number `start`:
     * the sampling `SampledLinks` describes, and every link found is valid.
     */
    method NewLinks(n: nat, count: nat, degree: nat, start: nat, budget: nat) returns (links: seq<int>, used: nat, complete: bool)
      requires IsRandomStream(rand) && n < count
      ensures Sample(links, used, complete) == SampledLinks(rand, n, count, degree, start, budget)
      ensures IsNeighbourhood(links, n, count)
    {
      hide SampledLinks, Seek;
      SampledLinksNext(rand, n, count, 0, start, budget);
      links, used, complete := [], 0, true;
      var e := 0;
      while e < degree
        invariant 0 <= e <= degree
        invariant |links| == e && IsNeighbourhood(links, n, count)
        invariant Sample(links, used, true) == SampledLinks(rand, n, count, e, start, budget)
      {
        ghost var used0 := used;
        var link := n;
        while (link == n || link in links) && used < budget
          invariant 0 <= link < count
          invariant used0 <= used <= budget
          invariant Seek(rand, count, n, links, start, budget, link, used) ==
                    Seek(rand, count, n, links, start, budget, n, used0)
        {
          SeekNext(rand, count, n, links, start, budget, link, used);
          LinkInRange(count, rand(start + used));
          link := LinkDraw(rand, count, start + used);
          used := used + 1;
        }
        SeekNext(rand, count, n, links, start, budget, link, used);
        SampledLinksNext(rand, n, count, e, start, budget);
        if link == n || link in links {
          complete := false;
          SampledLinksStop(rand, n, count, e + 1, degree, start, budget);
          return;
        }
        links := links + [link];
        e := e + 1;
      }
    }

    /**
     * result() (pso.js:102-104): the personal best of `bestParticle`; absent
     * (the source's `undefined`) when `bestParticle` indexes no particle.
     */
    function Result(): (r: Option<Position>)
      reads this`bestParticle, this`partBestPos
      ensures r.Some? <==> bestParticle < |partBestPos|
      ensures r.Some? ==> r.value == partBestPos[bestParticle]
    {
      if bestParticle < |partBestPos| then Some(partBestPos[bestParticle]) else None
    }

    /**
     * Between steps, the result of a non-empty swarm is the personal best
     * position with the lowest recorded fitness, and that fitness is the
     * fitness of the result (or still the sentinel, before any step).
     */
    lemma ResultIsBest()
      requires Valid() && size > 0
      ensures Result().Some? && |Result().value| == dimensions
      ensures forall m :: 0 <= m < size ==> partBestFit[bestParticle] <= partBestFit[m]
      ensures partBestFit[bestParticle] == MaxValue || partBestFit[bestParticle] == fitness(Result().value)
    {
      assert MeasuredBest(State(), Dynamics(), bestParticle);
    }

    /** The criterion holds of the personal best of particle `best` among the rows `bests`. */
    ghost predicate Succeeds(bests: seq<Position>, best: nat)
      reads this`criteria, this`fitness
    {
      best < |bests| && criteria(fitness, bests[best])
    }

    /** The criterion failed on each of the first `k` states of the run of steps from `start`. */
    ghost predicate FailedBefore(start: SwarmState, dyn: Swarm.Dynamics, k: nat)
      reads this`criteria, this`fitness
      requires Swarm.Valid(start, dyn)
    {
      forall j :: 0 <= j < k ==>
        var t := Steps(start, dyn, j); !Succeeds(t.partBestPos, t.bestParticle)
    }

    /** Before any state of a run, nothing has failed yet. */
    lemma FailedNone(start: SwarmState, dyn: Swarm.Dynamics)
      requires Swarm.Valid(start, dyn)
      ensures FailedBefore(start, dyn, 0)
    {
    }

    /** A run that failed on its first `k` states and fails on state `k` failed on its first `k + 1`. */
    lemma FailedNext(start: SwarmState, dyn: Swarm.Dynamics, k: nat)
      requires Swarm.Valid(start, dyn) && FailedBefore(start, dyn, k)
      requires var t := Steps(start, dyn, k); !Succeeds(t.partBestPos, t.bestParticle)
      ensures FailedBefore(start, dyn, k + 1)
    {
    }

    /**
     * isSuccessful() (pso.js:98-100): the criterion holds of the current
     * result; with the default criterion and fitness, the result's sum of
     * squares is at most 1.0e-2.
     */
    predicate IsSuccessful(): (b: bool)
      reads this`criteria, this`fitness, this`bestParticle, this`partBestPos
      requires Result().Some?
      ensures b == Succeeds(partBestPos, bestParticle)
      ensures criteria == DefaultCriteria && fitness == DefaultFitness ==>
        (b <==> SumOfSquares(partBestPos[bestParticle]) <= 0.01)
    {
      criteria(fitness, Result().value)
    }

    /**
     * step() (pso.js:83-88): evaluate every particle, then update the bests,
     * then the velocities, then the positions.
     */
    method Step()
      requires Ready(State(), Dynamics())
      modifies this`actualFitness, this`partBestFit, this`partBestPos, this`bestParticleInNeighs,
               this`bestParticle, this`velocities, this`positions, this`drawn
      ensures State() == Swarm.Step(old(State()), Dynamics())
    {
      // Each phase is related to its own definition by its own method's contract.
      hide ReplaceBests, Accelerate, Move, MovedSwarm, AcceleratedSwarm, PersonalBestFits, PersonalBestRows,
        LocalBests, GlobalBestOf, Evaluated;
      actualFitness := Evaluated(fitness, positions);
      ReplaceParticlesBests();
      UpdateVelocities();
      UpdatePositions();
    }

    /**
     * evolve() (pso.js:90-96): while the criterion fails and the post-incremented
     * counter was still below `steps`, take a step; then return result().
     * `calls` counts the steps taken; the criterion failed on every state a
     * step was taken from, so evolve() stops at the first success.
     */
    method Evolve() returns (r: Position, ghost calls: nat)
      requires Valid() && size > 0
      modifies this`actualFitness, this`partBestFit, this`partBestPos, this`bestParticleInNeighs,
               this`bestParticle, this`velocities, this`positions, this`drawn, this`curStep
      ensures Valid()
      ensures State() == Steps(old(State()), Dynamics(), calls)
      ensures Result() == Some(r)
      ensures calls <= Budget(steps)
      ensures (IsSuccessful() && curStep == calls) ||
              (!IsSuccessful() && calls == Budget(steps) && curStep == Budget(steps) + 1)
      ensures old(IsSuccessful()) || steps <= 0 ==> calls == 0
      ensures FailedBefore(old(State()), Dynamics(), calls)
    {
      // Each step is related to the definition of a step by Step's contract.
      hide Swarm.Step, Steps, Evaluate, ReplaceBests, Accelerate, Move, Swarm.Valid, Ready, Shaped, LinksIn, Rows, GlobalBestKept,
        LocalBests, Succeeds, SumOfSquares, DefaultCriteria, DefaultFitness, FailedBefore;
      ResultIsBest();
      StepsNext(State(), Dynamics(), 0);
      FailedNone(State(), Dynamics());
      curStep := 0;
      calls := 0;
      while true
        invariant State() == Steps(old(State()), Dynamics(), calls)
        invariant curStep == calls <= Budget(steps)
        invariant old(IsSuccessful()) ==> calls == 0
        invariant FailedBefore(old(State()), Dynamics(), calls)
        decreases Budget(steps) - calls
      {
        ResultIsBest();
        if IsSuccessful() {
          break;
        }
        var underBudget := curStep < steps;
        curStep := curStep + 1;
        if !underBudget {
          break;
        }
        StepsNext(old(State()), Dynamics(), calls);
        FailedNext(old(State()), Dynamics(), calls);
        Step();
        calls := calls + 1;
      }
      ResultIsBest();
      r := Result().value;
    }

    /**
     * replaceParticlesBests() (pso.js:126-154). First pass: keep each
     * particle's running minimum, copying its position only on a strict
     * improvement. Second pass: the neighbourhood best of each particle and the
     * incremental global best.
     */
    method ReplaceParticlesBests()
      requires Shaped(State(), size, dimensions) && LinksIn(edges, size)
      requires size > 0 ==> bestParticle < size
      requires bestParticleInNeighs == [] || |bestParticleInNeighs| == size
      modifies this`partBestFit, this`partBestPos, this`bestParticleInNeighs, this`bestParticle
      ensures State() == ReplaceBests(old(State()), Dynamics())
    {
      hide PersonalBestFits, PersonalBestRows, LocalBests, GlobalBestOf;
      var fits, rows := PersonalBests(partBestFit, partBestPos, actualFitness, positions);
      partBestFit, partBestPos := fits, rows;
      var local, best := NeighbourhoodBests(partBestFit, edges, bestParticleInNeighs, bestParticle);
      bestParticleInNeighs, bestParticle := local, best;
    }

    /** The first loop of replaceParticlesBests() (pso.js:128-136), on the swarm's lists. */
    method PersonalBests(fits: seq<real>, rows: seq<Position>, actual: seq<real>, positions: seq<Position>)
      returns (fits': seq<real>, rows': seq<Position>)
      requires |rows| == |fits| && |actual| == |fits| && |positions| == |fits|
      requires Rows(rows, |fits|, dimensions) && Rows(positions, |fits|, dimensions)
      ensures fits' == PersonalBestFits(fits, actual)
      ensures rows' == PersonalBestRows(fits, actual, rows, positions, dimensions)
    {
      fits', rows' := fits, rows;
      var n := 0;
      while n < |fits|
        invariant 0 <= n <= |fits| && |fits'| == |fits| && Rows(rows', |fits|, dimensions)
        invariant forall m :: 0 <= m < n ==>
          fits'[m] == PersonalBest(fits[m], actual[m]) &&
          rows'[m] == if actual[m] < fits[m] then positions[m] else rows[m]
        invariant forall m :: n <= m < |fits| ==> fits'[m] == fits[m] && rows'[m] == rows[m]
      {
        if actual[n] < fits'[n] {
          fits' := fits'[n := actual[n]];
          var row := CopyRow(rows'[n], positions[n]);
          rows' := rows'[n := row];
        }
        n := n + 1;
      }
      forall m | 0 <= m < |fits|
        ensures fits'[m] == PersonalBestFits(fits, actual)[m]
        ensures rows'[m] == PersonalBestRows(fits, actual, rows, positions, dimensions)[m]
      {
        PersonalBestFitsAt(fits, actual, m);
        PersonalBestRowsAt(fits, actual, rows, positions, dimensions, m);
      }
    }

    /** The copy loop of pso.js:132-134: the `dimensions` cells of `from` overwrite those of `row`. */
    method CopyRow(row: Position, from: Position) returns (row': Position)
      requires |row| == dimensions && |from| == dimensions
      ensures row' == from
    {
      row' := row;
      var d := 0;
      while d < dimensions
        invariant 0 <= d <= dimensions && |row'| == dimensions
        invariant forall d' :: 0 <= d' < d ==> row'[d'] == from[d']
      {
        row' := row'[d := from[d]];
        d := d + 1;
      }
    }

    /**
     * The second loop of replaceParticlesBests() (pso.js:137-153): each
     * particle's neighbourhood best, stored into `local` (which grows when it
     * was empty), and the global best carried over from `best`.
     */
    method NeighbourhoodBests(fits: seq<real>, edges: seq<seq<int>>, local: seq<int>, best: nat)
      returns (local': seq<int>, best': nat)
      requires LinksIn(edges, |fits|)
      requires local == [] || |local| == |fits|
      requires |fits| > 0 ==> best < |fits|
      ensures local' == LocalBests(fits, edges)
      ensures best' == if |fits| == 0 then best else GlobalBestOf(fits, best, |fits|)
    {
      hide LocalBestOf, LocalBestsUpTo;
      local', best' := local, best;
      var n := 0;
      while n < |fits|
        invariant 0 <= n <= |fits|
        invariant |local'| == if local == [] then n else |fits|
        invariant forall m :: 0 <= m < n ==> local'[m] == LocalBestOf(fits, m, edges[m])
        invariant best' == if |fits| == 0 then best else GlobalBestOf(fits, best, n)
      {
        var k := LocalBest(fits, n, edges[n]);
        local' := Store(local', n, k);
        // global best
        if fits[n] < fits[best'] {
          best' := n;
        }
        n := n + 1;
      }
      forall m | 0 <= m < |fits|
        ensures local'[m] == LocalBests(fits, edges)[m]
      {
        LocalBestsAt(fits, edges, |fits|, m);
      }
    }

    /** The scan of pso.js:140-148 over the links of particle `n`, starting from the particle itself. */
    method LocalBest(fits: seq<real>, n: nat, links: seq<int>) returns (k: int)
      requires n < |fits|
      requires forall i :: 0 <= i < |links| ==> 0 <= links[i] < |fits|
      ensures k == LocalBestOf(fits, n, links)
    {
      k := n;
      var bestLocalFitness := fits[n];
      var i := 0;
      while i < |links|
        invariant 0 <= i <= |links|
        invariant k == LocalBestOf(fits, n, links[..i])
        invariant bestLocalFitness == fits[k]
      {
        var e := links[i];
        assert links[..i + 1] == links[..i] + [e];
        if fits[e] < bestLocalFitness {
          bestLocalFitness := fits[e];
          k := e;
        }
        i := i + 1;
      }
      assert links[..|links|] == links;
    }

    /** updatePositions() (pso.js:106-113): each cell moves by its velocity plus scaled noise. */
    method UpdatePositions()
      requires Shaped(State(), size, dimensions)
      modifies this`positions, this`drawn
      ensures State() == Move(old(State()), Dynamics())
    {
      var rows := MovedRows(positions, velocities, drawn);
      positions, drawn := rows, drawn + size * dimensions;
    }

    /** The nested loops of updatePositions(), row by row from draw number `start`. */
    method MovedRows(positions: seq<Position>, velocities: seq<Position>, start: nat) returns (rows: seq<Position>)
      requires Rows(positions, |positions|, dimensions) && Rows(velocities, |positions|, dimensions)
      ensures rows == MovedSwarm(noise, rand, positions, velocities, start, dimensions)
    {
      hide Moved, MovedSwarm;
      rows := positions;
      var cursor := start;
      var n := 0;
      while n < |rows|
        invariant 0 <= n <= |rows| == |positions|
        invariant cursor == start + n * dimensions
        invariant forall m {:trigger rows[m]} :: 0 <= m < n ==>
          rows[m] == Moved(noise, rand, positions[m], velocities[m], start + m * dimensions)
        invariant forall m :: n <= m < |rows| ==> rows[m] == positions[m]
      {
        var row := MovedRow(rows[n], velocities[n], cursor);
        rows := rows[n := row];
        cursor := cursor + dimensions;
        NextRow(n, dimensions);
        n := n + 1;
      }
      ghost var target := MovedSwarm(noise, rand, positions, velocities, start, dimensions);
      forall m | 0 <= m < |rows|
        ensures rows[m] == target[m]
      {
        MovedSwarmRow(noise, rand, positions, velocities, start, dimensions, m);
      }
      assert rows == target;
    }

    /**
     * updateVelocities() (pso.js:115-124): each cell gets the constriction
     * update towards the particle's own best and its neighbourhood best, with
     * two fresh draws per cell.
     */
    method UpdateVelocities()
      requires Shaped(State(), size, dimensions)
      requires |bestParticleInNeighs| == size
      requires forall n :: 0 <= n < size ==> 0 <= bestParticleInNeighs[n] < size
      modifies this`velocities, this`drawn
      ensures State() == Accelerate(old(State()), Dynamics())
    {
      var rows := AcceleratedRows(velocities, positions, partBestPos, bestParticleInNeighs, drawn);
      velocities, drawn := rows, drawn + 2 * (size * dimensions);
    }

    /** The nested loops of updateVelocities(), row by row from draw number `start`. */
    method AcceleratedRows(velocities: seq<Position>, positions: seq<Position>, partBestPos: seq<Position>,
                           local: seq<int>, start: nat) returns (rows: seq<Position>)
      requires Rows(velocities, |velocities|, dimensions) && Rows(positions, |velocities|, dimensions)
      requires Rows(partBestPos, |velocities|, dimensions)
      requires |local| == |velocities| && forall n :: 0 <= n < |local| ==> 0 <= local[n] < |velocities|
      ensures rows == AcceleratedSwarm(X, C1, C2, rand, velocities, positions, partBestPos, local, partBestPos, start, dimensions)
    {
      hide Accelerated, AcceleratedSwarm;
      rows := velocities;
      var cursor := start;
      var n := 0;
      while n < |rows|
        invariant 0 <= n <= |rows| == |velocities|
        invariant cursor == start + 2 * (n * dimensions)
        invariant forall m {:trigger rows[m]} :: 0 <= m < n ==>
          rows[m] == Accelerated(X, C1, C2, rand, velocities[m], positions[m], partBestPos[m],
                                 partBestPos[local[m]], start + 2 * (m * dimensions))
        invariant forall m :: n <= m < |rows| ==> rows[m] == velocities[m]
      {
        var row := AcceleratedRow(rows[n], positions[n], partBestPos[n], partBestPos[local[n]], cursor);
        rows := rows[n := row];
        cursor := cursor + 2 * dimensions;
        NextRow(n, dimensions);
        n := n + 1;
      }
      ghost var target := AcceleratedSwarm(X, C1, C2, rand, velocities, positions, partBestPos, local, partBestPos, start, dimensions);
      forall m | 0 <= m < |rows|
        ensures rows[m] == target[m]
      {
        AcceleratedSwarmRow(X, C1, C2, rand, velocities, positions, partBestPos, local, partBestPos, start, dimensions, m);
      }
      assert rows == target;
    }

    /** The inner loop of updatePositions() for one particle: one draw per cell, from draw number `start`. */
    method MovedRow(position: Position, velocity: Position, start: nat) returns (row: Position)
      requires |velocity| == |position|
      ensures row == Moved(noise, rand, position, velocity, start)
    {
      row := position;
      var d := 0;
      while d < |row|
        invariant 0 <= d <= |row| == |position|
        invariant forall d' :: 0 <= d' < d ==>
          row[d'] == position[d'] + velocity[d'] + Rnd(rand, start + d') * noise
        invariant forall d' :: d <= d' < |row| ==> row[d'] == position[d']
      {
        row := row[d := row[d] + velocity[d]];
        var r := Rnd(rand, start + d);
        row := row[d := row[d] + r * noise];
        d := d + 1;
      }
      forall d' | 0 <= d' < |row|
        ensures row[d'] == Moved(noise, rand, position, velocity, start)[d']
      {
        MovedAt(noise, rand, position, velocity, start, d');
      }
    }

    /** The inner loop of updateVelocities() for one particle: two draws per cell, from draw number `start`. */
    method AcceleratedRow(velocity: Position, position: Position, own: Position, local: Position, start: nat)
      returns (row: Position)
      requires |position| == |velocity| && |own| == |velocity| && |local| == |velocity|
      ensures row == Accelerated(X, C1, C2, rand, velocity, position, own, local, start)
    {
      row := velocity;
      var d := 0;
      while d < |row|
        invariant 0 <= d <= |row| == |velocity|
        invariant forall d' :: 0 <= d' < d ==>
          row[d'] == Constricted(X, C1, C2, velocity[d'], position[d'], own[d'], local[d'],
                                 rand(start + 2 * d'), rand(start + 2 * d' + 1))
        invariant forall d' :: d <= d' < |row| ==> row[d'] == velocity[d']
      {
        var r1 := rand(start + 2 * d);
        var r2 := rand(start + 2 * d + 1);
        row := row[d := Constricted(X, C1, C2, row[d], position[d], own[d], local[d], r1, r2)];
        d := d + 1;
      }
      forall d' | 0 <= d' < |row|
        ensures row[d'] == Accelerated(X, C1, C2, rand, velocity, position, own, local, start)[d']
      {
        AcceleratedAt(X, C1, C2, rand, velocity, position, own, local, start, d');
      }
    }
  }
}
