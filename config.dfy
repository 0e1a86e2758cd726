/**
 * The engine's configuration: the table of defaults and the per-field merge
 * of a caller's options with it (pso.js:3-32).
 */
module PsoConfig {
  import opened Wrappers

  /** A point of the search space: one coordinate per dimension. */
  type Position = seq<real>

  /** The objective to minimise. */
  type Fitness = Position -> real

  /**
   * The stopping criterion. The source calls it with the engine as `this`;
   * the only part of the engine the default one uses is the fitness, so the
   * fitness is passed explicitly.
   */
  type Criteria = (Fitness, Position) -> bool

  /** Number.MAX_VALUE, (2 - 2^-52) * 2^1023, the "no best yet" sentinel. */
  const MaxValue: real := 179769313486231570814527423731704356798070567525844996598917476803157260780028538760589558632766878171540458953514382464234321326889464182768467546703537516986049910576551282076245490090389328944075868508455133942304583236903222948165808559332123348274797826204144723168738177180919299881250404026184124858368.0

  /** The sum of the squared coordinates; the default fitness without its square root. */
  function SumOfSquares(pos: Position): (r: real)
    ensures r >= 0.0
    ensures (forall d :: 0 <= d < |pos| ==> pos[d] == 0.0) ==> r == 0.0
  {
    if pos == [] then 0.0 else pos[0] * pos[0] + SumOfSquares(pos[1..])
  }

  function DefaultFitness(pos: Position): (r: real) {
    SumOfSquares(pos)
  }

  /** The default criterion: the engine's fitness of the position is at most 1.0e-2. */
  predicate DefaultCriteria(fitness: Fitness, pos: Position) {
    fitness(pos) <= 0.01
  }

  /** A complete configuration: the fields the engine copies onto itself. */
  datatype Config = Config(
    size: nat,
    dimensions: nat,
    degree: nat,
    steps: int,
    fitness: Fitness,
    criteria: Criteria,
    C1: real,
    C2: real,
    X: real,
    noise: real)

  /** The table of defaults (pso.js:4-23). */
  const Defaults: Config := Config(
    20, 2, 4, 10000,
    DefaultFitness, DefaultCriteria,
    2.05, 2.05, 0.729, 0.000000000001)

  /** The contents of a caller's options object: each property present or absent. */
  datatype Overrides = Overrides(
    size: Option<nat>,
    dimensions: Option<nat>,
    degree: Option<nat>,
    steps: Option<int>,
    fitness: Option<Fitness>,
    criteria: Option<Criteria>,
    C1: Option<real>,
    C2: Option<real>,
    X: Option<real>,
    noise: Option<real>)

  /** The empty options object `{}` the engine creates when the caller passes none. */
  const NoOverrides: Overrides :=
    Overrides(None, None, None, None, None, None, None, None, None, None)

  /** Every property is present. */
  predicate Complete(o: Overrides) {
    o.size.Some? && o.dimensions.Some? && o.degree.Some? && o.steps.Some? &&
    o.fitness.Some? && o.criteria.Some? &&
    o.C1.Some? && o.C2.Some? && o.X.Some? && o.noise.Some?
  }

  /** `f` keeps every property that `o` has. */
  ghost predicate Keeps(o: Overrides, f: Overrides) {
    (o.size.Some? ==> f.size == o.size) &&
    (o.dimensions.Some? ==> f.dimensions == o.dimensions) &&
    (o.degree.Some? ==> f.degree == o.degree) &&
    (o.steps.Some? ==> f.steps == o.steps) &&
    (o.fitness.Some? ==> f.fitness == o.fitness) &&
    (o.criteria.Some? ==> f.criteria == o.criteria) &&
    (o.C1.Some? ==> f.C1 == o.C1) &&
    (o.C2.Some? ==> f.C2 == o.C2) &&
    (o.X.Some? ==> f.X == o.X) &&
    (o.noise.Some? ==> f.noise == o.noise)
  }

  /** `f` holds the default for every property that `o` lacks. */
  ghost predicate DefaultsWhereAbsent(o: Overrides, f: Overrides) {
    (o.size.None? ==> f.size == Some(Defaults.size)) &&
    (o.dimensions.None? ==> f.dimensions == Some(Defaults.dimensions)) &&
    (o.degree.None? ==> f.degree == Some(Defaults.degree)) &&
    (o.steps.None? ==> f.steps == Some(Defaults.steps)) &&
    (o.fitness.None? ==> f.fitness == Some(Defaults.fitness)) &&
    (o.criteria.None? ==> f.criteria == Some(Defaults.criteria)) &&
    (o.C1.None? ==> f.C1 == Some(Defaults.C1)) &&
    (o.C2.None? ==> f.C2 == Some(Defaults.C2)) &&
    (o.X.None? ==> f.X == Some(Defaults.X)) &&
    (o.noise.None? ==> f.noise == Some(Defaults.noise))
  }

  /** One step of the merge loop: a present property is kept, an absent one gets the default. */
  function Merge<T>(given: Option<T>, fallback: T): (r: Option<T>)
    ensures r.Some?
    ensures given.Some? ==> r == given
    ensures given.None? ==> r == Some(fallback)
  {
    if given.Some? then given else Some(fallback)
  }

  /** The options object after the merge loop has written the defaults into it (pso.js:25-31). */
  function Fill(o: Overrides): (f: Overrides)
    ensures Complete(f)
    ensures Keeps(o, f)
    ensures DefaultsWhereAbsent(o, f)
  {
    Overrides(
      Merge(o.size, Defaults.size),
      Merge(o.dimensions, Defaults.dimensions),
      Merge(o.degree, Defaults.degree),
      Merge(o.steps, Defaults.steps),
      Merge(o.fitness, Defaults.fitness),
      Merge(o.criteria, Defaults.criteria),
      Merge(o.C1, Defaults.C1),
      Merge(o.C2, Defaults.C2),
      Merge(o.X, Defaults.X),
      Merge(o.noise, Defaults.noise))
  }

  /** The fields `this[o] = options[o]` copies from a filled options object. */
  function ConfigOf(o: Overrides): (c: Config)
    requires Complete(o)
  {
    Config(
      o.size.value, o.dimensions.value, o.degree.value, o.steps.value,
      o.fitness.value, o.criteria.value,
      o.C1.value, o.C2.value, o.X.value, o.noise.value)
  }

  /**
   * Each configuration field is the caller's value when the caller gave one
   * and the default otherwise.
   */
  lemma ConfigOfFill(o: Overrides)
    ensures ConfigOf(Fill(o)) == Config(
      o.size.GetOr(Defaults.size), o.dimensions.GetOr(Defaults.dimensions),
      o.degree.GetOr(Defaults.degree), o.steps.GetOr(Defaults.steps),
      o.fitness.GetOr(Defaults.fitness), o.criteria.GetOr(Defaults.criteria),
      o.C1.GetOr(Defaults.C1), o.C2.GetOr(Defaults.C2),
      o.X.GetOr(Defaults.X), o.noise.GetOr(Defaults.noise))
  {
  }

  /** A filled options object is left as it is by a second merge, so reset() rebuilds the same configuration. */
  lemma FillComplete(o: Overrides)
    requires Complete(o)
    ensures Fill(o) == o
  {
  }
}
