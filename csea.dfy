/**
 * Csea: the population operators of the Castle Siege evolutionary algorithm
 * and its main loop. Every random draw of a generation comes from a
 * GenerationDraws record of functions indexed by the position of the draw.
 */
module Csea {
  import opened Knights
  import opened Castles

  /** CSEAArgs, with the defaults of its constructor. */
  datatype CseaArgs = CseaArgs(
    populationSize: int,
    dimension: int,
    maxEvaluations: int := 1000,
    mutationRate: real := 0.005,
    sigma: real := 100.0,
    epsilon: real := 0.000001)

  /** CSEAResult: the best knight so far, its fitness and the two counters. */
  datatype CseaResult = CseaResult(bestKnight: Knight, fitness: real, generation: int, evaluations: int)

  /** The population together with the best-so-far record, as the operators pass them on. */
  datatype RunState = RunState(population: seq<Castle>, best: CseaResult)

  /** The rate generate_new_generation hands to Knight::mutate. */
  const ChallengerMutationRate: real := 0.005

  /**
   * The draws of one generation. For child k of the crossing: alpha(k, g, r)
   * for gene g of parents with range r, extra(k) from {0, 1}, index(k, s, d)
   * and delta(k, s) for mutation step s of a knight of dimension d. For
   * challenger k of the siege: target(k, n) over n castles and chance(k). For
   * alliance a: allianceAlpha(a, g, r). For the c-th castle created to refill
   * the population: newGene(c, g).
   */
  datatype GenerationDraws = GenerationDraws(
    alpha: (int, int, real) -> real,
    extra: int -> int,
    index: (int, int, int) -> int,
    delta: (int, int) -> real,
    target: (int, int) -> int,
    chance: int -> real,
    allianceAlpha: (int, int, real) -> real,
    newGene: (int, int) -> real)
  {
    /** Every draw lies in the interval the source draws it from. */
    ghost predicate Valid()
    {
      && (forall k, g, r :: r >= 0.0 ==> -0.5 * r <= alpha(k, g, r) <= 0.5 * r)
      && (forall k :: 0 <= extra(k) <= 1)
      && (forall k, s, d :: d > 0 ==> 0 <= index(k, s, d) < d)
      && (forall k, n :: n > 0 ==> 0 <= target(k, n) < n)
      && (forall k :: 0.0 <= chance(k) <= 1.0)
      && (forall a, g, r :: r >= 0.0 ==> -0.5 * r <= allianceAlpha(a, g, r) <= 0.5 * r)
      && (forall c, g :: -Bound <= newGene(c, g) <= Bound)
    }
  }

  /** Genes drawn uniformly from [-Bound, Bound], as the default Knight constructor draws them. */
  ghost predicate ValidGenes(genes: (int, int) -> real)
  {
    forall c, g :: -Bound <= genes(c, g) <= Bound
  }

  // ---------------------------------------------------------------------------
  // Population invariants
  // ---------------------------------------------------------------------------

  /** Every king has `dimension` genes. */
  predicate Uniform(population: seq<Castle>, dimension: nat)
  {
    forall i :: 0 <= i < |population| ==> |population[i].king.chromosome| == dimension
  }

  /** A castle whose fitness is the oracle's value of its king, which is in bounds. */
  predicate Evaluated(oracle: Oracle, castle: Castle)
  {
    InBounds(castle.king) && castle.fitness == oracle(castle.king.chromosome)
  }

  predicate AllEvaluated(oracle: Oracle, population: seq<Castle>)
  {
    forall i :: 0 <= i < |population| ==> Evaluated(oracle, population[i])
  }

  /** The best-so-far record names an in-bounds knight of the right size and its true fitness. */
  predicate Tracks(oracle: Oracle, best: CseaResult, dimension: nat)
  {
    && |best.bestKnight.chromosome| == dimension
    && InBounds(best.bestKnight)
    && best.fitness == oracle(best.bestKnight.chromosome)
  }

  // ---------------------------------------------------------------------------
  // The evaluation budget of one generation
  // ---------------------------------------------------------------------------

  /** C++ `int` division by 2, which truncates toward zero. */
  function Half(x: int): int
  {
    if x >= 0 then x / 2 else -((-x) / 2)
  }

  /**
   * get_evaluations_upper_bound: n(n-1)/2 challengers, n/2 alliances and as
   * many new castles, for n = args.population_size.
   */
  function EvaluationsUpperBound(args: CseaArgs): (bound: int)
    ensures args.populationSize >= 0 ==> bound >= 0
  {
    var n := args.populationSize;
    var fromCrossing := Half(n * (n - 1));
    var fromAlliances := Half(n);
    var fromNewCastles := fromAlliances;
    fromCrossing + fromAlliances + fromNewCastles
  }

  /** For a non-negative size the bound is the challenger count plus twice the halved size. */
  lemma EvaluationsUpperBoundValue(args: CseaArgs)
    requires args.populationSize >= 0
    ensures EvaluationsUpperBound(args) == |Pairs(args.populationSize)| + 2 * (args.populationSize / 2)
  {
    PairsLength(args.populationSize);
  }

  /** For 25 castles: 300 challengers, 12 alliances and 12 new castles. */
  lemma EvaluationsUpperBoundOf25()
    ensures EvaluationsUpperBound(CseaArgs(25, 10)) == 324
  {
  }

  /**
   * The bound is computed from population_size, but the population can grow
   * past it by one: the challengers of the grown population alone reach the
   * bound, and exceed it when the size is odd.
   */
  lemma GrownPopulationReachesBound(args: CseaArgs)
    requires args.populationSize >= 0
    ensures |Pairs(args.populationSize + 1)| >= EvaluationsUpperBound(args)
    ensures args.populationSize % 2 == 1 ==> |Pairs(args.populationSize + 1)| > EvaluationsUpperBound(args)
  {
    var n := args.populationSize;
    EvaluationsUpperBoundValue(args);
    PairsLength(n);
    PairsLength(n + 1);
    assert (n + 1) * n == n * (n - 1) + 2 * n;
  }

  // ---------------------------------------------------------------------------
  // Pairs of castles, in the order the crossing visits them
  // ---------------------------------------------------------------------------

  /** The pairs (i, j), i < j < n, that castle i leads. */
  function Row(i: nat, n: nat): (row: seq<(nat, nat)>)
    requires i < n
    ensures |row| == n - i - 1
    ensures forall t :: 0 <= t < |row| ==> row[t] == (i, i + 1 + t)
  {
    seq(n - i - 1, t requires 0 <= t < n - i - 1 => (i, i + 1 + t))
  }

  /** The pairs led by the castles below m, in ascending order. */
  function PairsBelow(n: nat, m: nat): (pairs: seq<(nat, nat)>)
    requires m <= n
    ensures forall q :: q in pairs ==> q.0 < m && q.0 < q.1 < n
  {
    if m == 0 then [] else PairsBelow(n, m - 1) + Row(m - 1, n)
  }

  /** Every pair (i, j) with i < j < n, in ascending lexicographic order. */
  function Pairs(n: nat): (pairs: seq<(nat, nat)>)
    ensures forall q :: q in pairs ==> q.0 < q.1 < n
  {
    PairsBelow(n, n)
  }

  lemma {:induction false} PairsBelowLength(n: nat, m: nat)
    requires m <= n
    ensures |PairsBelow(n, m)| * 2 == m * (2 * n - m - 1)
  {
    if m > 0 {
      PairsBelowLength(n, m - 1);
      assert |PairsBelow(n, m)| == |PairsBelow(n, m - 1)| + (n - m);
      assert (m - 1) * (2 * n - m) + 2 * (n - m) == m * (2 * n - m - 1);
    }
  }

  /** There are n(n-1)/2 pairs. */
  lemma PairsLength(n: nat)
    ensures |Pairs(n)| * 2 == n * (n - 1)
    ensures |Pairs(n)| == n * (n - 1) / 2
  {
    PairsBelowLength(n, n);
  }

  /** Every pair i < j < n is visited. */
  lemma {:induction false} PairsBelowComplete(n: nat, m: nat, i: nat, j: nat)
    requires m <= n
    requires i < m && i < j < n
    ensures (i, j) in PairsBelow(n, m)
  {
    if i == m - 1 {
      assert Row(m - 1, n)[j - i - 1] == (i, j);
    } else {
      PairsBelowComplete(n, m - 1, i, j);
    }
  }

  lemma PairsComplete(n: nat, i: nat, j: nat)
    requires i < j < n
    ensures (i, j) in Pairs(n)
  {
    PairsBelowComplete(n, n, i, j);
  }

  /** The first castles' pairs come first. */
  lemma {:induction false} PairsBelowPrefix(n: nat, m: nat, m': nat)
    requires m <= m' <= n
    ensures PairsBelow(n, m) <= PairsBelow(n, m')
  {
    if m < m' {
      PairsBelowPrefix(n, m, m' - 1);
    }
  }

  /** Pair number |PairsBelow(n, i)| + t is (i, i + 1 + t). */
  lemma PairsAt(n: nat, i: nat, t: nat)
    requires i < n && t < n - i - 1
    ensures |PairsBelow(n, i)| + t < |Pairs(n)|
    ensures Pairs(n)[|PairsBelow(n, i)| + t] == (i, i + 1 + t)
  {
    PairsBelowPrefix(n, i + 1, n);
    assert PairsBelow(n, i + 1)[|PairsBelow(n, i)| + t] == Row(i, n)[t];
  }

  predicate LexLess(p: (nat, nat), q: (nat, nat))
  {
    p.0 < q.0 || (p.0 == q.0 && p.1 < q.1)
  }

  lemma {:induction false} PairsBelowAscending(n: nat, m: nat)
    requires m <= n
    ensures forall a, b :: 0 <= a < b < |PairsBelow(n, m)| ==> LexLess(PairsBelow(n, m)[a], PairsBelow(n, m)[b])
  {
    if m > 0 {
      PairsBelowAscending(n, m - 1);
      var before := PairsBelow(n, m - 1);
      var row := Row(m - 1, n);
      assert PairsBelow(n, m) == before + row;
      forall a, b | 0 <= a < b < |before + row|
        ensures LexLess((before + row)[a], (before + row)[b])
      {
        if b >= |before| && a < |before| {
          assert before[a] in before;
        }
      }
    }
  }

  /** The pairs come in strictly ascending lexicographic order. */
  lemma PairsAscending(n: nat)
    ensures forall a, b :: 0 <= a < b < |Pairs(n)| ==> LexLess(Pairs(n)[a], Pairs(n)[b])
  {
    PairsBelowAscending(n, n);
  }

  // ---------------------------------------------------------------------------
  // Sorting by Castle::operator<
  // ---------------------------------------------------------------------------

  predicate Sorted(population: seq<Castle>)
  {
    forall i, j :: 0 <= i < j < |population| ==> !Less(population[j], population[i])
  }

  /** Insertion of a castle before the first one that is not below it. */
  function Insert(castle: Castle, sorted: seq<Castle>): (inserted: seq<Castle>)
    ensures multiset(inserted) == multiset(sorted) + multiset{castle}
    ensures |inserted| == |sorted| + 1
  {
    if |sorted| == 0 || !Less(sorted[0], castle) then [castle] + sorted
    else
      assert sorted == [sorted[0]] + sorted[1..];
      [sorted[0]] + Insert(castle, sorted[1..])
  }

  /** The result of std::sort with Castle::operator<; the order of ties is this model's choice. */
  function Sort(population: seq<Castle>): (sorted: seq<Castle>)
    ensures multiset(sorted) == multiset(population)
    ensures |sorted| == |population|
  {
    if |population| == 0 then []
    else
      assert population == [population[0]] + population[1..];
      Insert(population[0], Sort(population[1..]))
  }

  lemma {:induction false} InsertSorted(castle: Castle, sorted: seq<Castle>)
    requires Sorted(sorted)
    ensures Sorted(Insert(castle, sorted))
  {
    if |sorted| > 0 && Less(sorted[0], castle) {
      InsertSorted(castle, sorted[1..]);
      var rest := Insert(castle, sorted[1..]);
      forall k | 0 <= k < |rest|
        ensures !Less(rest[k], sorted[0])
      {
        assert rest[k] in multiset(rest);
        assert rest[k] in multiset(sorted[1..]) + multiset{castle};
        if rest[k] != castle {
          assert rest[k] in sorted[1..];
        }
      }
    }
  }

  lemma {:induction false} SortSorted(population: seq<Castle>)
    ensures Sorted(Sort(population))
  {
    if |population| > 0 {
      SortSorted(population[1..]);
      InsertSorted(population[0], Sort(population[1..]));
    }
  }

  /** After sorting, the first castle is minimal under Castle::operator<. */
  lemma SortFirstMinimal(population: seq<Castle>)
    requires |population| > 0
    ensures Sort(population)[0] in population
    ensures forall c :: c in population ==> !Less(c, Sort(population)[0])
  {
    var sorted := Sort(population);
    SortSorted(population);
    assert sorted[0] in multiset(population);
    forall c | c in population
      ensures !Less(c, sorted[0])
    {
      assert c in multiset(sorted);
      var k :| 0 <= k < |sorted| && sorted[k] == c;
    }
  }

  // ---------------------------------------------------------------------------
  // Initial population
  // ---------------------------------------------------------------------------

  /** The knight Knight(dimension) draws when its genes come from genes(c, ·). */
  function FreshKnight(dimension: nat, genes: (int, int) -> real, c: int): (knight: Knight)
    ensures |knight.chromosome| == dimension
  {
    Knight(seq(dimension, g => genes(c, g)))
  }

  /** A freshly drawn castle: a random knight and its evaluated fitness. */
  function FreshCastle(oracle: Oracle, dimension: nat, genes: (int, int) -> real, c: int): Castle
  {
    var knight := FreshKnight(dimension, genes, c);
    Castle(knight, oracle(knight.chromosome))
  }

  /** A fresh castle is evaluated, in bounds and has `dimension` genes. */
  lemma FreshCastleEvaluated(oracle: Oracle, dimension: nat, genes: (int, int) -> real, c: int)
    requires ValidGenes(genes)
    ensures Evaluated(oracle, FreshCastle(oracle, dimension, genes, c))
    ensures |FreshCastle(oracle, dimension, genes, c).king.chromosome| == dimension
    ensures FreshCastle(oracle, dimension, genes, c).warExhaustion == 0
  {
  }

  /** A random knight of `dimension` genes, evaluated; in bounds, so it never stops the run. */
  method NewCastle(oracle: Oracle, dimension: nat, genes: (int, int) -> real, c: int) returns (castle: Castle)
    requires ValidGenes(genes)
    ensures castle == FreshCastle(oracle, dimension, genes, c)
    ensures Evaluated(oracle, castle)
  {
    var knight := NewKnight(dimension, true, Bound, seq(dimension, g => genes(c, g)));
    var fitness := Fitness(oracle, knight);
    castle := Castle(knight, fitness.value);
  }

  /** n fresh castles, castle c drawn from genes(c, ·). */
  function FreshPopulation(oracle: Oracle, dimension: nat, genes: (int, int) -> real, n: nat): (population: seq<Castle>)
    ensures |population| == n
    ensures forall c :: 0 <= c < n ==> population[c] == FreshCastle(oracle, dimension, genes, c)
  {
    seq(n, c => FreshCastle(oracle, dimension, genes, c))
  }

  /** generate_initial_population: population_size fresh castles, castle c drawn from genes(c, ·). */
  method GenerateInitialPopulation(oracle: Oracle, populationSize: int, dimension: nat, genes: (int, int) -> real)
    returns (population: seq<Castle>)
    requires ValidGenes(genes)
    ensures population == FreshPopulation(oracle, dimension, genes, if populationSize < 0 then 0 else populationSize)
    ensures Uniform(population, dimension) && AllEvaluated(oracle, population)
  {
    population := [];
    var i := 0;
    while i < populationSize
      invariant 0 <= i && |population| == i
      invariant populationSize >= 0 ==> i <= populationSize
      invariant populationSize < 0 ==> i == 0
      invariant forall c :: 0 <= c < i ==> population[c] == FreshCastle(oracle, dimension, genes, c)
      invariant Uniform(population, dimension) && AllEvaluated(oracle, population)
    {
      var castle := NewCastle(oracle, dimension, genes, i);
      population := population + [castle];
      i := i + 1;
    }
    assert population == FreshPopulation(oracle, dimension, genes, i);
  }

  // ---------------------------------------------------------------------------
  // Challengers
  // ---------------------------------------------------------------------------

  /** The alpha draws of child k of the given parents. */
  function ChildAlphas(draws: GenerationDraws, k: int, parent1: Knight, parent2: Knight): (alphas: seq<real>)
    requires |parent1.chromosome| <= |parent2.chromosome|
    ensures |alphas| == |parent1.chromosome|
  {
    seq(|parent1.chromosome|, g requires 0 <= g < |parent1.chromosome| =>
      draws.alpha(k, g, Range(parent1.chromosome[g], parent2.chromosome[g])))
  }

  /** Valid draws give alphas in the interval blx_alpha draws them from. */
  lemma ChildAlphasValid(draws: GenerationDraws, k: int, parent1: Knight, parent2: Knight)
    requires |parent1.chromosome| <= |parent2.chromosome|
    requires draws.Valid()
    ensures ValidAlphas(parent1, parent2, ChildAlphas(draws, k, parent1, parent2))
  {
    var alphas := ChildAlphas(draws, k, parent1, parent2);
    forall g | 0 <= g < |alphas|
      ensures -0.5 * Range(parent1.chromosome[g], parent2.chromosome[g]) <= alphas[g]
              <= 0.5 * Range(parent1.chromosome[g], parent2.chromosome[g])
    {
      assert Range(parent1.chromosome[g], parent2.chromosome[g]) >= 0.0;
    }
  }

  /** The number of mutation steps of child k of dimension d. */
  function ChildSteps(draws: GenerationDraws, k: int, d: nat): nat
  {
    MutationSteps(d, ChallengerMutationRate, draws.extra(k))
  }

  function ChildIndices(draws: GenerationDraws, k: int, d: nat): (indices: seq<int>)
    requires draws.Valid()
    ensures |indices| == ChildSteps(draws, k, d)
    ensures forall s :: 0 <= s < |indices| ==> 0 <= indices[s] < d
  {
    if d == 0 then
      assert ChildSteps(draws, k, d) == 0;
      []
    else seq(ChildSteps(draws, k, d), s => draws.index(k, s, d))
  }

  function ChildDeltas(draws: GenerationDraws, k: int, d: nat): (deltas: seq<real>)
    ensures |deltas| == ChildSteps(draws, k, d)
  {
    seq(ChildSteps(draws, k, d), s => draws.delta(k, s))
  }

  /** Challenger k of a generation: the crossover of the pair's kings, then mutated at rate 0.005. */
  function Challenger(population: seq<Castle>, pair: (nat, nat), k: int, draws: GenerationDraws): (knight: Knight)
    requires pair.0 < |population| && pair.1 < |population|
    requires |population[pair.0].king.chromosome| <= |population[pair.1].king.chromosome|
    requires draws.Valid()
    ensures |knight.chromosome| == |population[pair.0].king.chromosome|
  {
    var parent1 := population[pair.0].king;
    var parent2 := population[pair.1].king;
    var child := Blx(parent1, parent2, ChildAlphas(draws, k, parent1, parent2));
    var d := |child.chromosome|;
    Knight(Mutated(child.chromosome, ChildIndices(draws, k, d), ChildDeltas(draws, k, d)))
  }

  /** The crossover of pair k before its mutation. */
  function Crossing(population: seq<Castle>, pair: (nat, nat), k: int, draws: GenerationDraws): Knight
    requires pair.0 < |population| && pair.1 < |population|
    requires |population[pair.0].king.chromosome| <= |population[pair.1].king.chromosome|
  {
    var parent1 := population[pair.0].king;
    var parent2 := population[pair.1].king;
    Blx(parent1, parent2, ChildAlphas(draws, k, parent1, parent2))
  }

  /** The crossing half of generate_new_generation: one child per pair i < j, in ascending order. */
  method CrossPairs(population: seq<Castle>, dimension: nat, draws: GenerationDraws)
    returns (children: seq<Knight>)
    requires Uniform(population, dimension)
    requires draws.Valid()
    ensures |children| == |Pairs(|population|)|
    ensures forall k :: 0 <= k < |children| ==> children[k] == Crossing(population, Pairs(|population|)[k], k, draws)
  {
    var n := |population|;
    children := [];
    var i := 0;
    while i < n
      invariant 0 <= i <= n
      invariant |children| == |PairsBelow(n, i)| <= |Pairs(n)|
      invariant forall k :: 0 <= k < |children| ==> children[k] == Crossing(population, Pairs(n)[k], k, draws)
    {
      var j := i + 1;
      while j < n
        invariant i + 1 <= j <= n
        invariant |children| == |PairsBelow(n, i)| + (j - i - 1) <= |Pairs(n)|
        invariant forall k :: 0 <= k < |children| ==> children[k] == Crossing(population, Pairs(n)[k], k, draws)
      {
        PairsAt(n, i, j - i - 1);
        ChildAlphasValid(draws, |children|, population[i].king, population[j].king);
        var child := Crossover(population[i], population[j], ChildAlphas(draws, |children|, population[i].king, population[j].king));
        children := children + [child];
        j := j + 1;
      }
      assert PairsBelow(n, i + 1) == PairsBelow(n, i) + Row(i, n);
      PairsBelowPrefix(n, i + 1, n);
      i := i + 1;
    }
  }

  /** The mutation of the k-th child, at rate 0.005 with the k-th draws. */
  method MutateChild(population: seq<Castle>, pair: (nat, nat), k: int, draws: GenerationDraws, child: Knight)
    returns (mutated: Knight)
    requires pair.0 < |population| && pair.1 < |population|
    requires |population[pair.0].king.chromosome| <= |population[pair.1].king.chromosome|
    requires draws.Valid()
    requires child == Crossing(population, pair, k, draws)
    ensures mutated == Challenger(population, pair, k, draws)
  {
    var d := |child.chromosome|;
    mutated := Mutate(child, ChallengerMutationRate, draws.extra(k), ChildIndices(draws, k, d), ChildDeltas(draws, k, d));
  }

  /** The challengers of a generation: challenger k comes from the k-th pair. */
  function Challengers(population: seq<Castle>, dimension: nat, draws: GenerationDraws): (knights: seq<Knight>)
    requires Uniform(population, dimension)
    requires draws.Valid()
    ensures |knights| == |Pairs(|population|)|
  {
    var pairs := Pairs(|population|);
    seq(|pairs|, k requires 0 <= k < |pairs| =>
      assert pairs[k] in pairs;
      Challenger(population, pairs[k], k, draws))
  }

  /**
   * generate_new_generation: the children of every pair, crossed population[i]
   * with population[j], then each mutated in place at rate 0.005.
   */
  method GenerateNewGeneration(population: seq<Castle>, dimension: nat, draws: GenerationDraws)
    returns (knights: seq<Knight>)
    requires Uniform(population, dimension)
    requires draws.Valid()
    ensures knights == Challengers(population, dimension, draws)
    ensures |knights| == |Pairs(|population|)|
    ensures forall k :: 0 <= k < |knights| ==> knights[k] == Challenger(population, Pairs(|population|)[k], k, draws)
    ensures forall k :: 0 <= k < |knights| ==> |knights[k].chromosome| == dimension
  {
    var newGeneration := CrossPairs(population, dimension, draws);
    var pairs := Pairs(|population|);
    for k := 0 to |newGeneration|
      invariant |newGeneration| == |pairs|
      invariant forall t :: 0 <= t < k ==> newGeneration[t] == Challenger(population, pairs[t], t, draws)
      invariant forall t :: k <= t < |newGeneration| ==> newGeneration[t] == Crossing(population, pairs[t], t, draws)
    {
      var mutated := MutateChild(population, pairs[k], k, draws, newGeneration[k]);
      newGeneration := newGeneration[k := mutated];
    }
    knights := newGeneration;
    assert knights == Challengers(population, dimension, draws);
  }

  /** A generation of n castles has n(n-1)/2 challengers. */
  lemma ChallengerCount(n: nat)
    ensures |Pairs(n)| == n * (n - 1) / 2
    ensures n >= 2 ==> |Pairs(n)| >= 1
  {
    PairsLength(n);
  }

  /**
   * Mutation never repairs a crossover that left the bounds unless it draws
   * the offending gene: an undrawn gene of the challenger is the crossover's.
   */
  lemma ChallengerUndrawnGene(population: seq<Castle>, pair: (nat, nat), k: int, draws: GenerationDraws, g: int)
    requires pair.0 < |population| && pair.1 < |population|
    requires |population[pair.0].king.chromosome| <= |population[pair.1].king.chromosome|
    requires draws.Valid()
    requires 0 <= g < |population[pair.0].king.chromosome|
    requires g !in ChildIndices(draws, k, |population[pair.0].king.chromosome|)
    ensures Challenger(population, pair, k, draws).chromosome[g] == Crossing(population, pair, k, draws).chromosome[g]
  {
    var child := Crossing(population, pair, k, draws);
    var d := |child.chromosome|;
    MutatedUntouched(child.chromosome, ChildIndices(draws, k, d), ChildDeltas(draws, k, d), g);
  }

  // ---------------------------------------------------------------------------
  // Siege
  // ---------------------------------------------------------------------------

  /**
   * Challenger k's turn in siege_castles: its evaluation (which stops the run
   * when it is out of bounds), one more evaluation counted, a siege of castle
   * target(k, n), and the best record replaced when the siege succeeded with a
   * fitness below the best one.
   */
  function SiegeStep(oracle: Oracle, sigmoid: real -> real, state: RunState, knight: Knight, k: int, draws: GenerationDraws)
    : (next: Outcome<RunState>)
    requires |state.population| > 0
    requires draws.Valid()
    ensures next.Ok? ==> |next.value.population| == |state.population|
  {
    match Evaluate(oracle, knight)
    case BoundsViolation => BoundsViolation
    case Ok(knightFitness) =>
      var castleIndex := draws.target(k, |state.population|);
      var (sieged, after) := SiegeResult(sigmoid, state.population[castleIndex], knight, knightFitness, draws.chance(k));
      var counted := state.best.(evaluations := state.best.evaluations + 1);
      var best := if sieged && knightFitness < counted.fitness
                  then counted.(bestKnight := knight, fitness := knightFitness)
                  else counted;
      Ok(RunState(state.population[castleIndex := after], best))
  }

  /** The challengers from number k on, each in turn. */
  function SiegeFrom(oracle: Oracle, sigmoid: real -> real, state: RunState, knights: seq<Knight>, k: nat, draws: GenerationDraws)
    : (final: Outcome<RunState>)
    requires |state.population| > 0
    requires draws.Valid()
    requires k <= |knights|
    ensures final.Ok? ==> |final.value.population| == |state.population|
    ensures final.Ok? ==> final.value.best.evaluations == state.best.evaluations + (|knights| - k)
    ensures final.Ok? ==> final.value.best.fitness <= state.best.fitness
    ensures final.Ok? ==> final.value.best.generation == state.best.generation
    decreases |knights| - k
  {
    if k == |knights| then Ok(state)
    else
      match SiegeStep(oracle, sigmoid, state, knights[k], k, draws)
      case BoundsViolation => BoundsViolation
      case Ok(next) => SiegeFrom(oracle, sigmoid, next, knights, k + 1, draws)
  }

  /**
   * siege_castles: every challenger in order is evaluated and sieges a drawn
   * castle; the population is updated in place and the best record kept.
   */
  method SiegeCastles(oracle: Oracle, sigmoid: real -> real, population: seq<Castle>, knights: seq<Knight>,
                      best: CseaResult, draws: GenerationDraws)
    returns (outcome: Outcome<RunState>)
    requires |population| > 0
    requires draws.Valid()
    ensures outcome == SiegeFrom(oracle, sigmoid, RunState(population, best), knights, 0, draws)
  {
    var castles := population;
    var record := best;
    for k := 0 to |knights|
      invariant |castles| == |population|
      invariant SiegeFrom(oracle, sigmoid, RunState(castles, record), knights, k, draws)
             == SiegeFrom(oracle, sigmoid, RunState(population, best), knights, 0, draws)
    {
      var knight := knights[k];
      var fitness := Fitness(oracle, knight);
      if fitness.BoundsViolation? {
        return BoundsViolation;
      }
      var knightFitness := fitness.value;
      record := record.(evaluations := record.evaluations + 1);
      var castleIndex := draws.target(k, |castles|);
      var sieged, after := Siege(sigmoid, castles[castleIndex], knight, knightFitness, draws.chance(k));
      castles := castles[castleIndex := after];
      if sieged && knightFitness < record.fitness {
        record := record.(bestKnight := knight, fitness := knightFitness);
      }
    }
    outcome := Ok(RunState(castles, record));
  }

  /** The sieges run to the end exactly when every challenger is in bounds. */
  lemma {:induction false} SiegeFromOkIff(oracle: Oracle, sigmoid: real -> real, state: RunState, knights: seq<Knight>,
                                          k: nat, draws: GenerationDraws)
    requires |state.population| > 0
    requires draws.Valid()
    requires k <= |knights|
    ensures SiegeFrom(oracle, sigmoid, state, knights, k, draws).Ok?
            <==> forall t :: k <= t < |knights| ==> InBounds(knights[t])
    decreases |knights| - k
  {
    if k < |knights| {
      var step := SiegeStep(oracle, sigmoid, state, knights[k], k, draws);
      if step.Ok? {
        SiegeFromOkIff(oracle, sigmoid, step.value, knights, k + 1, draws);
      }
    }
  }

  /** A castle that no challenger targets is left as it was. */
  lemma {:induction false} SiegeFromUntargeted(oracle: Oracle, sigmoid: real -> real, state: RunState, knights: seq<Knight>,
                                               k: nat, draws: GenerationDraws, x: int)
    requires |state.population| > 0
    requires draws.Valid()
    requires k <= |knights|
    requires 0 <= x < |state.population|
    requires forall t :: k <= t < |knights| ==> draws.target(t, |state.population|) != x
    requires SiegeFrom(oracle, sigmoid, state, knights, k, draws).Ok?
    ensures SiegeFrom(oracle, sigmoid, state, knights, k, draws).value.population[x] == state.population[x]
    decreases |knights| - k
  {
    if k < |knights| {
      var step := SiegeStep(oracle, sigmoid, state, knights[k], k, draws);
      SiegeFromUntargeted(oracle, sigmoid, step.value, knights, k + 1, draws, x);
    }
  }

  /**
   * The sieges keep every castle evaluated and of the same size, and the
   * best record naming a knight together with its true fitness.
   */
  lemma {:induction false} SiegeFromKeepsEvaluated(oracle: Oracle, sigmoid: real -> real, state: RunState, knights: seq<Knight>,
                                                   k: nat, draws: GenerationDraws, dimension: nat)
    requires |state.population| > 0
    requires draws.Valid()
    requires k <= |knights|
    requires forall t :: k <= t < |knights| ==> |knights[t].chromosome| == dimension
    requires Uniform(state.population, dimension) && AllEvaluated(oracle, state.population)
    requires Tracks(oracle, state.best, dimension)
    requires SiegeFrom(oracle, sigmoid, state, knights, k, draws).Ok?
    ensures var final := SiegeFrom(oracle, sigmoid, state, knights, k, draws).value;
      Uniform(final.population, dimension) && AllEvaluated(oracle, final.population)
      && Tracks(oracle, final.best, dimension)
    decreases |knights| - k
  {
    if k < |knights| {
      var next := SiegeStep(oracle, sigmoid, state, knights[k], k, draws).value;
      SiegeFromKeepsEvaluated(oracle, sigmoid, next, knights, k + 1, draws, dimension);
    }
  }

  /**
   * Whether the best record changes in a turn: only after a successful siege
   * by a challenger strictly better than the best fitness so far.
   */
  lemma SiegeStepBest(oracle: Oracle, sigmoid: real -> real, state: RunState, knight: Knight, k: int, draws: GenerationDraws)
    requires |state.population| > 0
    requires draws.Valid()
    requires SiegeStep(oracle, sigmoid, state, knight, k, draws).Ok?
    ensures var next := SiegeStep(oracle, sigmoid, state, knight, k, draws).value;
      var castleIndex := draws.target(k, |state.population|);
      var knightFitness := oracle(knight.chromosome);
      var sieged := SiegeResult(sigmoid, state.population[castleIndex], knight, knightFitness, draws.chance(k)).0;
      && next.population == state.population[castleIndex := SiegeResult(sigmoid, state.population[castleIndex], knight, knightFitness, draws.chance(k)).1]
      && (if sieged && knightFitness < state.best.fitness
          then next.best == state.best.(bestKnight := knight, fitness := knightFitness, evaluations := state.best.evaluations + 1)
          else next.best == state.best.(evaluations := state.best.evaluations + 1))
  {
  }

  // ---------------------------------------------------------------------------
  // Alliances
  // ---------------------------------------------------------------------------

  /** Where an entry of the new population comes from: a castle kept as it was, or alliance number a. */
  datatype Origin = Kept(index: int) | Merged(alliance: int)

  /** The alpha draws of alliance number a between the given kings. */
  function AllianceAlphas(draws: GenerationDraws, a: int, leader: Knight, partner: Knight): (alphas: seq<real>)
    requires |leader.chromosome| <= |partner.chromosome|
    ensures |alphas| == |leader.chromosome|
  {
    seq(|leader.chromosome|, g requires 0 <= g < |leader.chromosome| =>
      draws.allianceAlpha(a, g, Range(leader.chromosome[g], partner.chromosome[g])))
  }

  /** Castles x and y exist and can ally, x leading. */
  predicate Near(population: seq<Castle>, epsilon: real, x: int, y: int)
  {
    && 0 <= x < |population| && 0 <= y < |population|
    && |population[x].king.chromosome| <= |population[y].king.chromosome|
    && CanAlly(population[x], population[y], epsilon)
  }

  /** Alliance number a of castles pair.0 and pair.1 (a bounds violation for a pair that is not one). */
  function MergedCastle(oracle: Oracle, population: seq<Castle>, pair: (nat, nat), a: int, draws: GenerationDraws): Outcome<Castle>
  {
    if pair.0 < |population| && pair.1 < |population|
       && |population[pair.0].king.chromosome| <= |population[pair.1].king.chromosome|
    then
      var leader := population[pair.0];
      var partner := population[pair.1];
      Alliance(oracle, leader, partner, AllianceAlphas(draws, a, leader.king, partner.king))
    else BoundsViolation
  }

  /** The best record after an alliance: one more evaluation, and the alliance's king if its fitness is greater. */
  function Promote(best: CseaResult, castle: Castle): (promoted: CseaResult)
    ensures promoted.evaluations == best.evaluations + 1 && promoted.generation == best.generation
    ensures promoted.fitness >= best.fitness && promoted.fitness >= castle.fitness
    ensures (promoted.bestKnight == best.bestKnight && promoted.fitness == best.fitness)
            || (castle.fitness > best.fitness && promoted.bestKnight == castle.king && promoted.fitness == castle.fitness)
  {
    var counted := best.(evaluations := best.evaluations + 1);
    if castle.fitness > counted.fitness then counted.(bestKnight := castle.king, fitness := castle.fitness) else counted
  }

  /** How many flags are false. */
  function CountFalse(flags: seq<bool>): nat
  {
    if |flags| == 0 then 0
    else CountFalse(flags[..|flags| - 1]) + if flags[|flags| - 1] then 0 else 1
  }

  /** Castle x led or joined one of the alliances. */
  ghost predicate Partakes(pairs: seq<(nat, nat)>, x: int)
  {
    exists a :: 0 <= a < |pairs| && (pairs[a].0 == x || pairs[a].1 == x)
  }

  /**
   * The state of the form_alliances scan: the new population, the allied
   * flags and the best record, with the alliances formed so far (leader and
   * partner indices) and the origin of each new castle.
   */
  datatype Scan = Scan(newPopulation: seq<Castle>, allied: seq<bool>, best: CseaResult,
                       pairs: seq<(nat, nat)>, origins: seq<Origin>)

  /**
   * Every alliance joins a leader with a later castle it can ally with, and
   * was evaluated; alliances come in ascending (leader, partner) order; each
   * castle joins as a partner at most once, and a partner never leads.
   */
  ghost predicate PairsValid(oracle: Oracle, population: seq<Castle>, epsilon: real, draws: GenerationDraws,
                             pairs: seq<(nat, nat)>)
  {
    && (forall a :: 0 <= a < |pairs| ==>
          pairs[a].0 < pairs[a].1 && Near(population, epsilon, pairs[a].0, pairs[a].1)
          && MergedCastle(oracle, population, pairs[a], a, draws).Ok?)
    && (forall a, b :: 0 <= a < b < |pairs| ==> LexLess(pairs[a], pairs[b]))
    && (forall a, b :: 0 <= a < b < |pairs| ==> pairs[a].1 != pairs[b].1)
    && (forall a, b :: 0 <= a < |pairs| && 0 <= b < |pairs| ==> pairs[a].1 != pairs[b].0)
  }

  /** The flags mark exactly the castles that took part in an alliance. */
  ghost predicate FlagsMatch(n: nat, allied: seq<bool>, pairs: seq<(nat, nat)>)
  {
    && |allied| == n
    && (forall x :: 0 <= x < n ==> (allied[x] <==> Partakes(pairs, x)))
  }

  /**
   * Every new castle is an unallied old one or an alliance; kept castles are
   * in their old order, alliances in the order they were formed.
   */
  ghost predicate OriginsValid(oracle: Oracle, population: seq<Castle>, draws: GenerationDraws, st: Scan)
    requires |st.allied| == |population|
  {
    && |st.origins| == |st.newPopulation|
    && (forall k :: 0 <= k < |st.origins| && st.origins[k].Kept? ==>
          0 <= st.origins[k].index < |population| && !st.allied[st.origins[k].index]
          && st.newPopulation[k] == population[st.origins[k].index])
    && (forall k :: 0 <= k < |st.origins| && st.origins[k].Merged? ==>
          0 <= st.origins[k].alliance < |st.pairs|
          && MergedCastle(oracle, population, st.pairs[st.origins[k].alliance], st.origins[k].alliance, draws)
             == Ok(st.newPopulation[k]))
    && (forall k, l :: 0 <= k < l < |st.origins| && st.origins[k].Kept? && st.origins[l].Kept? ==>
          st.origins[k].index < st.origins[l].index)
    && (forall k, l :: 0 <= k < l < |st.origins| && st.origins[k].Merged? && st.origins[l].Merged? ==>
          st.origins[k].alliance < st.origins[l].alliance)
  }

  /**
   * One evaluation per alliance; the best fitness only grows, bounds every
   * alliance's fitness, and belongs to the old record or to an alliance.
   */
  ghost predicate BestValid(best0: CseaResult, st: Scan)
    requires |st.origins| == |st.newPopulation|
  {
    && st.best.evaluations == best0.evaluations + |st.pairs|
    && st.best.generation == best0.generation
    && best0.fitness <= st.best.fitness
    && (forall k :: 0 <= k < |st.origins| && st.origins[k].Merged? ==> st.newPopulation[k].fitness <= st.best.fitness)
    && ((st.best.bestKnight == best0.bestKnight && st.best.fitness == best0.fitness)
        || (exists k :: 0 <= k < |st.origins| && st.origins[k].Merged?
                        && st.newPopulation[k].king == st.best.bestKnight
                        && st.newPopulation[k].fitness == st.best.fitness))
  }

  /** What holds of the scan wherever it stands. */
  ghost predicate ScanCore(oracle: Oracle, population: seq<Castle>, epsilon: real, draws: GenerationDraws,
                           best0: CseaResult, st: Scan)
  {
    && PairsValid(oracle, population, epsilon, draws, st.pairs)
    && FlagsMatch(|population|, st.allied, st.pairs)
    && OriginsValid(oracle, population, draws, st)
    && BestValid(best0, st)
  }

  /** No two unallied castles, the first below i, could have allied. */
  ghost predicate Maximal(population: seq<Castle>, epsilon: real, allied: seq<bool>, i: int)
    requires |allied| == |population|
  {
    forall x, y {:trigger allied[x], allied[y]} ::
      0 <= x < i && x < y < |population| && !allied[x] && !allied[y] ==> !Near(population, epsilon, x, y)
  }

  /** Castle x joined no alliance as a partner. */
  ghost predicate Free(pairs: seq<(nat, nat)>, x: int)
  {
    forall a :: 0 <= a < |pairs| ==> pairs[a].1 != x
  }

  /** No leader before x took castle y as a partner. */
  ghost predicate Open(pairs: seq<(nat, nat)>, x: int, y: int)
  {
    forall a :: 0 <= a < |pairs| && pairs[a].0 < x ==> pairs[a].1 != y
  }

  /**
   * Leader x is finished: it allied with every later castle it can ally with
   * that no leader before it took.
   */
  ghost predicate LeaderComplete(population: seq<Castle>, epsilon: real, pairs: seq<(nat, nat)>, x: int)
  {
    forall y {:trigger Open(pairs, x, y)} :: x < y < |population| && Open(pairs, x, y) && Near(population, epsilon, x, y) ==> (x, y) in pairs
  }

  /**
   * The inner loop has no break: every castle below i that no one took as a
   * partner is a finished leader.
   */
  ghost predicate LeadersDone(population: seq<Castle>, epsilon: real, pairs: seq<(nat, nat)>, i: int)
  {
    forall x :: 0 <= x < i && Free(pairs, x) ==> LeaderComplete(population, epsilon, pairs, x)
  }

  /**
   * A kept castle x comes after the alliances led by castles below x and
   * before those led by castles above it.
   */
  ghost predicate Interleaved(st: Scan)
  {
    forall k, l {:trigger st.origins[k].index, st.origins[l].alliance} ::
      (0 <= k < |st.origins| && 0 <= l < |st.origins| && st.origins[k].Kept? && st.origins[l].Merged?
       && 0 <= st.origins[l].alliance < |st.pairs|)
      ==> (k < l <==> st.origins[k].index < st.pairs[st.origins[l].alliance].0)
  }

  /*
   * Contracts state OuterAt, InnerAt and AbortedAt as `... == true` wherever
   * they are only passed along: the verifier then checks each one as a single
   * fact rather than conjunct by conjunct.
   */

  /** The scan before leader i: castles below i are done. */
  ghost predicate OuterAt(oracle: Oracle, population: seq<Castle>, epsilon: real, draws: GenerationDraws,
                          best0: CseaResult, i: int, st: Scan)
  {
    && ScanCore(oracle, population, epsilon, draws, best0, st)
    && 0 <= i <= |population|
    && (forall a :: 0 <= a < |st.pairs| ==> st.pairs[a].0 < i)
    && Maximal(population, epsilon, st.allied, i)
    && |st.newPopulation| == CountFalse(st.allied[..i]) + |st.pairs|
    && (forall k :: 0 <= k < |st.origins| && st.origins[k].Kept? ==> st.origins[k].index < i)
    && (forall x :: 0 <= x < i && !st.allied[x] ==> Kept(x) in st.origins)
    && LeadersDone(population, epsilon, st.pairs, i)
    && Interleaved(st)
  }

  /** The scan of leader i before partner j. */
  ghost predicate InnerAt(oracle: Oracle, population: seq<Castle>, epsilon: real, draws: GenerationDraws,
                          best0: CseaResult, i: int, j: int, st: Scan)
  {
    && ScanCore(oracle, population, epsilon, draws, best0, st)
    && 0 <= i < j <= |population|
    && (forall a :: 0 <= a < |st.pairs| ==> st.pairs[a].0 <= i && st.pairs[a].1 != i)
    && (forall a :: 0 <= a < |st.pairs| && st.pairs[a].0 == i ==> st.pairs[a].1 < j)
    && Maximal(population, epsilon, st.allied, i)
    && (forall y {:trigger st.allied[y]} :: i < y < j && !st.allied[y] ==> !Near(population, epsilon, i, y))
    && |st.newPopulation| == CountFalse(st.allied[..i]) + |st.pairs|
    && (forall k :: 0 <= k < |st.origins| && st.origins[k].Kept? ==> st.origins[k].index < i)
    && (forall x :: 0 <= x < i && !st.allied[x] ==> Kept(x) in st.origins)
    && LeadersDone(population, epsilon, st.pairs, i)
    && Interleaved(st)
  }

  lemma CountFalseAppend(flags: seq<bool>, i: int)
    requires 0 <= i < |flags|
    ensures CountFalse(flags[..i + 1]) == CountFalse(flags[..i]) + if flags[i] then 0 else 1
  {
    assert flags[..i + 1][..i] == flags[..i];
  }

  /** A new alliance keeps the finished leaders finished. */
  lemma LeadersDoneGrows(population: seq<Castle>, epsilon: real, pairs: seq<(nat, nat)>, pair: (nat, nat), i: int)
    requires LeadersDone(population, epsilon, pairs, i)
    ensures LeadersDone(population, epsilon, pairs + [pair], i)
  {
    var pairs' := pairs + [pair];
    forall x | 0 <= x < i && Free(pairs', x)
      ensures LeaderComplete(population, epsilon, pairs', x)
    {
      forall a | 0 <= a < |pairs|
        ensures pairs[a].1 != x
      {
        assert pairs'[a] == pairs[a];
      }
      assert LeaderComplete(population, epsilon, pairs, x);
      forall y | x < y < |population| && Open(pairs', x, y) && Near(population, epsilon, x, y)
        ensures (x, y) in pairs'
      {
        forall a | 0 <= a < |pairs| && pairs[a].0 < x
          ensures pairs[a].1 != y
        {
          assert pairs'[a] == pairs[a];
        }
        assert Open(pairs, x, y);
        assert (x, y) in pairs;
      }
    }
  }

  /**
   * At the end of its scan leader i is finished: every later castle it can
   * ally with is allied, and as no leader before i took it, i did.
   */
  lemma LeaderDone(oracle: Oracle, population: seq<Castle>, epsilon: real, draws: GenerationDraws,
                   best0: CseaResult, i: nat, st: Scan)
    requires InnerAt(oracle, population, epsilon, draws, best0, i, |population|, st) == true
    ensures LeadersDone(population, epsilon, st.pairs, i + 1)
  {
    forall y | i < y < |population| && Open(st.pairs, i, y) && Near(population, epsilon, i, y)
      ensures (i, y) in st.pairs
    {
      assert Partakes(st.pairs, y);
      var a :| 0 <= a < |st.pairs| && (st.pairs[a].0 == y || st.pairs[a].1 == y);
      assert st.pairs[a] == (i, y);
    }
    assert LeaderComplete(population, epsilon, st.pairs, i);
  }

  /** A new alliance is placed after every kept castle, all of which are below its leader. */
  lemma MergeInterleaved(st: Scan, i: nat, j: nat, castle: Castle)
    requires i < |st.allied| && j < |st.allied|
    requires Interleaved(st)
    requires forall k :: 0 <= k < |st.origins| && st.origins[k].Merged? ==> 0 <= st.origins[k].alliance < |st.pairs|
    requires forall k :: 0 <= k < |st.origins| && st.origins[k].Kept? ==> st.origins[k].index < i
    ensures Interleaved(MergeScan(st, i, j, castle))
  {
    var st' := MergeScan(st, i, j, castle);
    var last := |st.origins|;
    forall k, l | 0 <= k < |st'.origins| && 0 <= l < |st'.origins| && st'.origins[k].Kept? && st'.origins[l].Merged?
                  && 0 <= st'.origins[l].alliance < |st'.pairs|
      ensures k < l <==> st'.origins[k].index < st'.pairs[st'.origins[l].alliance].0
    {
      assert k < last && st'.origins[k] == st.origins[k];
      if l == last {
        assert st'.pairs[|st.pairs|] == (i, j);
      } else {
        assert st'.origins[l] == st.origins[l];
        assert st'.pairs[st.origins[l].alliance] == st.pairs[st.origins[l].alliance];
      }
    }
  }

  /** A kept leader is placed after every alliance, none of which is led from above it. */
  lemma EndLeaderInterleaved(population: seq<Castle>, st: Scan, i: nat)
    requires i < |population| && i < |st.allied|
    requires Interleaved(st)
    requires forall a :: 0 <= a < |st.pairs| ==> st.pairs[a].0 <= i
    ensures Interleaved(EndLeaderScan(population, st, i))
  {
    var st' := EndLeaderScan(population, st, i);
    var last := |st.origins|;
    forall k, l | 0 <= k < |st'.origins| && 0 <= l < |st'.origins| && st'.origins[k].Kept? && st'.origins[l].Merged?
                  && 0 <= st'.origins[l].alliance < |st'.pairs|
      ensures k < l <==> st'.origins[k].index < st'.pairs[st'.origins[l].alliance].0
    {
      assert l < last && st'.origins[l] == st.origins[l];
      if k < last {
        assert st'.origins[k] == st.origins[k];
      }
    }
  }

  lemma ScanStart(oracle: Oracle, population: seq<Castle>, epsilon: real, draws: GenerationDraws, best0: CseaResult)
    ensures OuterAt(oracle, population, epsilon, draws, best0, 0, StartScan(population, best0))
  {
    var st := StartScan(population, best0);
    assert st.allied[..0] == [];
    forall x | 0 <= x < |population|
      ensures st.allied[x] <==> Partakes(st.pairs, x)
    {
    }
  }

  /** An allied leader is passed over. */
  lemma ScanSkipLeader(oracle: Oracle, population: seq<Castle>, epsilon: real, draws: GenerationDraws,
                       best0: CseaResult, i: int, st: Scan)
    requires OuterAt(oracle, population, epsilon, draws, best0, i, st) == true
    requires i < |population| && st.allied[i]
    ensures OuterAt(oracle, population, epsilon, draws, best0, i + 1, st)
  {
    CountFalseAppend(st.allied, i);
    assert !Free(st.pairs, i) by {
      assert Partakes(st.pairs, i);
      var a :| 0 <= a < |st.pairs| && (st.pairs[a].0 == i || st.pairs[a].1 == i);
      assert st.pairs[a].1 == i;
    }
  }

  /** An unallied leader starts its scan of the later castles. */
  lemma ScanStartLeader(oracle: Oracle, population: seq<Castle>, epsilon: real, draws: GenerationDraws,
                        best0: CseaResult, i: int, st: Scan)
    requires OuterAt(oracle, population, epsilon, draws, best0, i, st) == true
    requires i < |population| && !st.allied[i]
    ensures InnerAt(oracle, population, epsilon, draws, best0, i, i + 1, st)
  {
    forall a | 0 <= a < |st.pairs|
      ensures st.pairs[a].1 != i
    {
      if st.pairs[a].1 == i {
        assert Partakes(st.pairs, i);
      }
    }
  }

  /** A partner that is allied already, or that cannot ally, is passed over. */
  lemma ScanSkipPartner(oracle: Oracle, population: seq<Castle>, epsilon: real, draws: GenerationDraws,
                        best0: CseaResult, i: int, j: int, st: Scan)
    requires InnerAt(oracle, population, epsilon, draws, best0, i, j, st) == true
    requires j < |population|
    requires st.allied[j] || !Near(population, epsilon, i, j)
    ensures InnerAt(oracle, population, epsilon, draws, best0, i, j + 1, st) == true
  {
  }

  /** The scan after leader i allies with partner j into `castle`. */
  function MergeScan(st: Scan, i: nat, j: nat, castle: Castle): Scan
    requires i < |st.allied| && j < |st.allied|
  {
    Scan(st.newPopulation + [castle], st.allied[i := true][j := true], Promote(st.best, castle),
         st.pairs + [(i, j)], st.origins + [Merged(|st.pairs|)])
  }

  lemma MergePairsValid(oracle: Oracle, population: seq<Castle>, epsilon: real, draws: GenerationDraws,
                        pairs: seq<(nat, nat)>, i: nat, j: nat)
    requires PairsValid(oracle, population, epsilon, draws, pairs)
    requires forall a :: 0 <= a < |pairs| ==> pairs[a].0 <= i && pairs[a].1 != i
    requires forall a :: 0 <= a < |pairs| && pairs[a].0 == i ==> pairs[a].1 < j
    requires !Partakes(pairs, j)
    requires i < j && Near(population, epsilon, i, j)
    requires MergedCastle(oracle, population, (i, j), |pairs|, draws).Ok?
    ensures PairsValid(oracle, population, epsilon, draws, pairs + [(i, j)])
  {
    var pairs' := pairs + [(i, j)];
    var last := |pairs|;
    assert pairs'[last] == (i, j);
    forall a | 0 <= a < last
      ensures pairs'[a] == pairs[a]
    {
    }
    forall a | 0 <= a < |pairs'|
      ensures pairs'[a].0 < pairs'[a].1 && Near(population, epsilon, pairs'[a].0, pairs'[a].1)
      ensures MergedCastle(oracle, population, pairs'[a], a, draws).Ok?
    {
    }
    forall a, b | 0 <= a < b < |pairs'|
      ensures LexLess(pairs'[a], pairs'[b]) && pairs'[a].1 != pairs'[b].1
    {
      if b == last {
        assert pairs[a].0 <= i && (pairs[a].0 == i ==> pairs[a].1 < j);
        assert pairs[a].1 != j by {
          assert !(0 <= a < |pairs| && (pairs[a].0 == j || pairs[a].1 == j));
        }
      }
    }
    forall a, b | 0 <= a < |pairs'| && 0 <= b < |pairs'|
      ensures pairs'[a].1 != pairs'[b].0
    {
      if a == last && b < last {
        assert !(0 <= b < |pairs| && (pairs[b].0 == j || pairs[b].1 == j));
      }
    }
  }

  lemma MergeFlags(n: nat, allied: seq<bool>, pairs: seq<(nat, nat)>, i: nat, j: nat)
    requires FlagsMatch(n, allied, pairs)
    requires i < n && j < n
    ensures FlagsMatch(n, allied[i := true][j := true], pairs + [(i, j)])
  {
    var allied' := allied[i := true][j := true];
    var pairs' := pairs + [(i, j)];
    forall x | 0 <= x < n
      ensures allied'[x] <==> Partakes(pairs', x)
    {
      if Partakes(pairs, x) {
        var a :| 0 <= a < |pairs| && (pairs[a].0 == x || pairs[a].1 == x);
        assert pairs'[a] == pairs[a];
      }
      if x == i || x == j {
        assert pairs'[|pairs|] == (i, j);
      }
      if Partakes(pairs', x) && x != i && x != j {
        var a :| 0 <= a < |pairs'| && (pairs'[a].0 == x || pairs'[a].1 == x);
        assert a < |pairs| && pairs[a] == pairs'[a];
      }
    }
  }

  lemma MergeOrigins(oracle: Oracle, population: seq<Castle>, draws: GenerationDraws, st: Scan, i: nat, j: nat, castle: Castle)
    requires |st.allied| == |population| && i < |population| && j < |population| && i < j
    requires OriginsValid(oracle, population, draws, st)
    requires forall k :: 0 <= k < |st.origins| && st.origins[k].Kept? ==> st.origins[k].index < i
    requires MergedCastle(oracle, population, (i, j), |st.pairs|, draws) == Ok(castle)
    ensures OriginsValid(oracle, population, draws, MergeScan(st, i, j, castle))
  {
    var st' := MergeScan(st, i, j, castle);
    var last := |st.origins|;
    assert st'.origins[last] == Merged(|st.pairs|) && st'.newPopulation[last] == castle;
    assert st'.pairs[|st.pairs|] == (i, j);
  }

  lemma MergeBest(best0: CseaResult, st: Scan, i: nat, j: nat, castle: Castle)
    requires i < |st.allied| && j < |st.allied|
    requires |st.origins| == |st.newPopulation|
    requires BestValid(best0, st)
    ensures BestValid(best0, MergeScan(st, i, j, castle))
  {
    var st' := MergeScan(st, i, j, castle);
    var last := |st.origins|;
    assert st'.origins[last] == Merged(|st.pairs|) && st'.newPopulation[last] == castle;
    if !(st.best.bestKnight == best0.bestKnight && st.best.fitness == best0.fitness) {
      var k :| 0 <= k < |st.origins| && st.origins[k].Merged?
               && st.newPopulation[k].king == st.best.bestKnight && st.newPopulation[k].fitness == st.best.fitness;
      assert st'.origins[k] == st.origins[k] && st'.newPopulation[k] == st.newPopulation[k];
    }
  }

  /** The positional part of the scan invariant after a new alliance. */
  lemma MergePositions(population: seq<Castle>, epsilon: real, i: nat, j: nat, st: Scan, castle: Castle)
    requires |st.allied| == |population| && i < j < |population|
    requires forall a :: 0 <= a < |st.pairs| ==> st.pairs[a].0 <= i && st.pairs[a].1 != i
    requires forall a :: 0 <= a < |st.pairs| && st.pairs[a].0 == i ==> st.pairs[a].1 < j
    requires Maximal(population, epsilon, st.allied, i)
    requires forall y :: i < y < j && !st.allied[y] ==> !Near(population, epsilon, i, y)
    requires |st.newPopulation| == CountFalse(st.allied[..i]) + |st.pairs|
    requires forall k :: 0 <= k < |st.origins| && st.origins[k].Kept? ==> st.origins[k].index < i
    requires forall x :: 0 <= x < i && !st.allied[x] ==> Kept(x) in st.origins
    ensures var st' := MergeScan(st, i, j, castle);
      && (forall a :: 0 <= a < |st'.pairs| ==> st'.pairs[a].0 <= i && st'.pairs[a].1 != i)
      && (forall a :: 0 <= a < |st'.pairs| && st'.pairs[a].0 == i ==> st'.pairs[a].1 < j + 1)
      && Maximal(population, epsilon, st'.allied, i)
      && (forall y :: i < y < j + 1 && !st'.allied[y] ==> !Near(population, epsilon, i, y))
      && |st'.newPopulation| == CountFalse(st'.allied[..i]) + |st'.pairs|
      && (forall k :: 0 <= k < |st'.origins| && st'.origins[k].Kept? ==> st'.origins[k].index < i)
      && (forall x :: 0 <= x < i && !st'.allied[x] ==> Kept(x) in st'.origins)
  {
    var st' := MergeScan(st, i, j, castle);
    assert st'.allied[..i] == st.allied[..i];
    forall x | 0 <= x < i && !st'.allied[x]
      ensures Kept(x) in st'.origins
    {
      assert Kept(x) in st.origins;
    }
  }

  /** A new alliance keeps the scan's invariant. */
  lemma ScanMerge(oracle: Oracle, population: seq<Castle>, epsilon: real, draws: GenerationDraws,
                  best0: CseaResult, i: nat, j: nat, st: Scan, castle: Castle)
    requires InnerAt(oracle, population, epsilon, draws, best0, i, j, st) == true
    requires j < |population| && !st.allied[j] && Near(population, epsilon, i, j)
    requires MergedCastle(oracle, population, (i, j), |st.pairs|, draws) == Ok(castle)
    ensures InnerAt(oracle, population, epsilon, draws, best0, i, j + 1, MergeScan(st, i, j, castle))
  {
    MergePairsValid(oracle, population, epsilon, draws, st.pairs, i, j);
    MergeFlags(|population|, st.allied, st.pairs, i, j);
    MergeOrigins(oracle, population, draws, st, i, j, castle);
    MergeBest(best0, st, i, j, castle);
    MergePositions(population, epsilon, i, j, st, castle);
    LeadersDoneGrows(population, epsilon, st.pairs, (i, j), i);
    MergeInterleaved(st, i, j, castle);
  }

  /** The scan after leader i: kept when it allied with no one. */
  function EndLeaderScan(population: seq<Castle>, st: Scan, i: nat): Scan
    requires i < |population| && i < |st.allied|
  {
    if st.allied[i] then st
    else st.(newPopulation := st.newPopulation + [population[i]], origins := st.origins + [Kept(i)])
  }

  lemma EndLeaderOrigins(oracle: Oracle, population: seq<Castle>, draws: GenerationDraws, st: Scan, i: nat)
    requires i < |population| && |st.allied| == |population| && !st.allied[i]
    requires OriginsValid(oracle, population, draws, st)
    requires forall k :: 0 <= k < |st.origins| && st.origins[k].Kept? ==> st.origins[k].index < i
    ensures OriginsValid(oracle, population, draws, EndLeaderScan(population, st, i))
  {
    var st' := EndLeaderScan(population, st, i);
    var last := |st.origins|;
    assert st'.origins[last] == Kept(i) && st'.newPopulation[last] == population[i];
    forall k | 0 <= k < |st'.origins| && st'.origins[k].Merged?
      ensures 0 <= st'.origins[k].alliance < |st'.pairs|
      ensures MergedCastle(oracle, population, st'.pairs[st'.origins[k].alliance], st'.origins[k].alliance, draws)
              == Ok(st'.newPopulation[k])
    {
      assert k < last && st'.origins[k] == st.origins[k] && st'.newPopulation[k] == st.newPopulation[k];
    }
    forall k | 0 <= k < |st'.origins| && st'.origins[k].Kept?
      ensures 0 <= st'.origins[k].index < |population| && !st'.allied[st'.origins[k].index]
      ensures st'.newPopulation[k] == population[st'.origins[k].index]
    {
      if k < last {
        assert st'.origins[k] == st.origins[k] && st'.newPopulation[k] == st.newPopulation[k];
      }
    }
  }

  lemma EndLeaderBest(best0: CseaResult, population: seq<Castle>, st: Scan, i: nat)
    requires i < |population| && i < |st.allied| && !st.allied[i]
    requires |st.origins| == |st.newPopulation| && BestValid(best0, st)
    ensures BestValid(best0, EndLeaderScan(population, st, i))
  {
    var st' := EndLeaderScan(population, st, i);
    var last := |st.origins|;
    assert st'.origins[last] == Kept(i);
    forall k | 0 <= k < last
      ensures st'.origins[k] == st.origins[k] && st'.newPopulation[k] == st.newPopulation[k]
    {
    }
    if !(st.best.bestKnight == best0.bestKnight && st.best.fitness == best0.fitness) {
      var k :| 0 <= k < |st.origins| && st.origins[k].Merged?
               && st.newPopulation[k].king == st.best.bestKnight && st.newPopulation[k].fitness == st.best.fitness;
      assert st'.origins[k] == st.origins[k] && st'.newPopulation[k] == st.newPopulation[k];
    }
  }

  /** The end of the scan of an allied leader changes nothing. */
  lemma ScanEndAllied(oracle: Oracle, population: seq<Castle>, epsilon: real, draws: GenerationDraws,
                      best0: CseaResult, i: nat, st: Scan)
    requires InnerAt(oracle, population, epsilon, draws, best0, i, |population|, st) == true
    requires st.allied[i]
    ensures OuterAt(oracle, population, epsilon, draws, best0, i + 1, st)
  {
    CountFalseAppend(st.allied, i);
    LeaderDone(oracle, population, epsilon, draws, best0, i, st);
  }

  /** An unallied leader, at the end of its scan, is kept. */
  lemma ScanEndKept(oracle: Oracle, population: seq<Castle>, epsilon: real, draws: GenerationDraws,
                    best0: CseaResult, i: nat, st: Scan)
    requires InnerAt(oracle, population, epsilon, draws, best0, i, |population|, st) == true
    requires !st.allied[i]
    ensures OuterAt(oracle, population, epsilon, draws, best0, i + 1, EndLeaderScan(population, st, i))
  {
    var st' := EndLeaderScan(population, st, i);
    CountFalseAppend(st.allied, i);
    EndLeaderOrigins(oracle, population, draws, st, i);
    EndLeaderBest(best0, population, st, i);
    LeaderDone(oracle, population, epsilon, draws, best0, i, st);
    EndLeaderInterleaved(population, st, i);
    forall x | 0 <= x < i + 1 && !st'.allied[x]
      ensures Kept(x) in st'.origins
    {
      if x < i {
        assert Kept(x) in st.origins;
      } else {
        assert st'.origins[|st.origins|] == Kept(i);
      }
    }
  }

  lemma ScanEndLeader(oracle: Oracle, population: seq<Castle>, epsilon: real, draws: GenerationDraws,
                      best0: CseaResult, i: nat, st: Scan)
    requires InnerAt(oracle, population, epsilon, draws, best0, i, |population|, st) == true
    ensures OuterAt(oracle, population, epsilon, draws, best0, i + 1, EndLeaderScan(population, st, i)) == true
  {
    if st.allied[i] {
      ScanEndAllied(oracle, population, epsilon, draws, best0, i, st);
    } else {
      ScanEndKept(oracle, population, epsilon, draws, best0, i, st);
    }
  }

  /** Alliances and kept castles are evaluated, of the population's size, and so is the best record. */
  lemma ScanEvaluated(oracle: Oracle, population: seq<Castle>, epsilon: real, draws: GenerationDraws,
                      best0: CseaResult, st: Scan, dimension: nat)
    requires ScanCore(oracle, population, epsilon, draws, best0, st)
    requires Uniform(population, dimension) && AllEvaluated(oracle, population)
    requires Tracks(oracle, best0, dimension)
    ensures Uniform(st.newPopulation, dimension) && AllEvaluated(oracle, st.newPopulation)
    ensures Tracks(oracle, st.best, dimension)
  {
    forall k | 0 <= k < |st.newPopulation|
      ensures |st.newPopulation[k].king.chromosome| == dimension && Evaluated(oracle, st.newPopulation[k])
    {
      if st.origins[k].Merged? {
        var a := st.origins[k].alliance;
        var pair := st.pairs[a];
        var leader := population[pair.0];
        var partner := population[pair.1];
        assert Alliance(oracle, leader, partner, AllianceAlphas(draws, a, leader.king, partner.king)) == Ok(st.newPopulation[k]);
      }
    }
  }

  /**
   * How the alliance scan stops the run: its last alliance, formed by a leader
   * with a later castle it can ally with, has a king out of bounds; all
   * alliances before it were in order.
   */
  ghost predicate AbortedAt(oracle: Oracle, population: seq<Castle>, epsilon: real, draws: GenerationDraws,
                            pairs: seq<(nat, nat)>)
  {
    && |pairs| > 0
    && PairsValid(oracle, population, epsilon, draws, pairs[..|pairs| - 1])
    && var last := pairs[|pairs| - 1];
       last.0 < last.1 && Near(population, epsilon, last.0, last.1)
       && MergedCastle(oracle, population, last, |pairs| - 1, draws).BoundsViolation?
  }

  /**
   * How a scan ends: with its state, or stopped by an alliance whose king is
   * out of bounds; `pairs` then ends with that alliance.
   */
  datatype ScanEnd = Done(scan: Scan) | Stopped(pairs: seq<(nat, nat)>)

  /** The scan before its first leader: nothing allied, no alliance, the old best record. */
  function StartScan(population: seq<Castle>, best: CseaResult): Scan
  {
    Scan([], seq(|population|, _ => false), best, [], [])
  }

  /**
   * The inner loop of form_alliances for leader i from castle j on, then the
   * leader kept when it allied with no one. A castle j joins when it is not
   * allied yet and castle i can ally with it (castles of different sizes never
   * ally here).
   */
  function PartnersFrom(oracle: Oracle, population: seq<Castle>, epsilon: real, draws: GenerationDraws,
                        i: nat, j: nat, st: Scan): (end: ScanEnd)
    requires i < |population| && |st.allied| == |population|
    ensures end.Done? ==> |end.scan.allied| == |population|
    decreases |population| - j
  {
    if j >= |population| then Done(EndLeaderScan(population, st, i))
    else if !st.allied[j] && Near(population, epsilon, i, j) then
      match MergedCastle(oracle, population, (i, j), |st.pairs|, draws)
      case BoundsViolation => Stopped(st.pairs + [(i, j)])
      case Ok(castle) => PartnersFrom(oracle, population, epsilon, draws, i, j + 1, MergeScan(st, i, j, castle))
    else PartnersFrom(oracle, population, epsilon, draws, i, j + 1, st)
  }

  /** The outer loop of form_alliances from leader i on: allied leaders are passed over. */
  function LeadersFrom(oracle: Oracle, population: seq<Castle>, epsilon: real, draws: GenerationDraws,
                       i: nat, st: Scan): ScanEnd
    requires |st.allied| == |population|
    decreases |population| - i
  {
    if i >= |population| then Done(st)
    else if st.allied[i] then LeadersFrom(oracle, population, epsilon, draws, i + 1, st)
    else
      match PartnersFrom(oracle, population, epsilon, draws, i, i + 1, st)
      case Stopped(pairs) => Stopped(pairs)
      case Done(next) => LeadersFrom(oracle, population, epsilon, draws, i + 1, next)
  }

  /** form_alliances as a whole, with the alliances drawn from `draws`. */
  function Formed(oracle: Oracle, population: seq<Castle>, epsilon: real, draws: GenerationDraws, best: CseaResult): ScanEnd
  {
    LeadersFrom(oracle, population, epsilon, draws, 0, StartScan(population, best))
  }

  /**
   * The finished scan: the scan invariant with every castle done as a leader.
   * Each castle that joined no alliance as a partner allied with every later
   * castle it can ally with that no earlier leader took; the unallied castles
   * are kept, each one after the alliances led from below it and before those
   * led from above it.
   */
  ghost predicate AlliancesFormed(oracle: Oracle, population: seq<Castle>, epsilon: real, draws: GenerationDraws,
                                  best0: CseaResult, st: Scan)
  {
    && ScanCore(oracle, population, epsilon, draws, best0, st)
    && |st.allied| == |population|
    && |st.newPopulation| == CountFalse(st.allied) + |st.pairs|
    && Maximal(population, epsilon, st.allied, |population|)
    && (forall x :: 0 <= x < |population| && !st.allied[x] ==> Kept(x) in st.origins)
    && LeadersDone(population, epsilon, st.pairs, |population|)
    && Interleaved(st)
  }

  /** An alliance out of bounds stops the scan with every earlier alliance in order. */
  lemma PartnersStopped(oracle: Oracle, population: seq<Castle>, epsilon: real, draws: GenerationDraws,
                        best0: CseaResult, i: nat, j: nat, st: Scan)
    requires InnerAt(oracle, population, epsilon, draws, best0, i, j, st) == true
    requires j < |population| && Near(population, epsilon, i, j)
    requires MergedCastle(oracle, population, (i, j), |st.pairs|, draws).BoundsViolation?
    ensures AbortedAt(oracle, population, epsilon, draws, st.pairs + [(i, j)]) == true
  {
    var pairs := st.pairs + [(i, j)];
    assert pairs[..|pairs| - 1] == st.pairs;
  }

  /** One step of the inner loop, as the reference function takes it. */
  lemma PartnersStep(oracle: Oracle, population: seq<Castle>, epsilon: real, draws: GenerationDraws,
                     i: nat, j: nat, st: Scan)
    requires i < j < |population| && |st.allied| == |population|
    ensures var merged := MergedCastle(oracle, population, (i, j), |st.pairs|, draws);
      PartnersFrom(oracle, population, epsilon, draws, i, j, st)
      == if !st.allied[j] && Near(population, epsilon, i, j) then
           if merged.BoundsViolation? then Stopped(st.pairs + [(i, j)])
           else PartnersFrom(oracle, population, epsilon, draws, i, j + 1, MergeScan(st, i, j, merged.value))
         else PartnersFrom(oracle, population, epsilon, draws, i, j + 1, st)
  {
  }

  /** A partner that joins leader i takes the scan one step further towards the same end. */
  lemma PartnersMerged(oracle: Oracle, population: seq<Castle>, epsilon: real, draws: GenerationDraws,
                       best0: CseaResult, i: nat, j: nat, st: Scan, end: ScanEnd)
    requires InnerAt(oracle, population, epsilon, draws, best0, i, j, st) == true
    requires j < |population| && !st.allied[j] && Near(population, epsilon, i, j)
    requires MergedCastle(oracle, population, (i, j), |st.pairs|, draws).Ok?
    requires PartnersFrom(oracle, population, epsilon, draws, i, j, st) == end
    ensures var castle := MergedCastle(oracle, population, (i, j), |st.pairs|, draws).value;
      && InnerAt(oracle, population, epsilon, draws, best0, i, j + 1, MergeScan(st, i, j, castle)) == true
      && PartnersFrom(oracle, population, epsilon, draws, i, j + 1, MergeScan(st, i, j, castle)) == end
  {
    PartnersStep(oracle, population, epsilon, draws, i, j, st);
    ScanMerge(oracle, population, epsilon, draws, best0, i, j, st,
              MergedCastle(oracle, population, (i, j), |st.pairs|, draws).value);
  }

  /** A castle passed over by leader i takes the scan one step further towards the same end. */
  lemma PartnersSkipped(oracle: Oracle, population: seq<Castle>, epsilon: real, draws: GenerationDraws,
                        best0: CseaResult, i: nat, j: nat, st: Scan, end: ScanEnd)
    requires InnerAt(oracle, population, epsilon, draws, best0, i, j, st) == true
    requires j < |population| && (st.allied[j] || !Near(population, epsilon, i, j))
    requires PartnersFrom(oracle, population, epsilon, draws, i, j, st) == end
    ensures InnerAt(oracle, population, epsilon, draws, best0, i, j + 1, st) == true
    ensures PartnersFrom(oracle, population, epsilon, draws, i, j + 1, st) == end
  {
    PartnersStep(oracle, population, epsilon, draws, i, j, st);
    ScanSkipPartner(oracle, population, epsilon, draws, best0, i, j, st);
  }

  /**
   * One turn of the inner loop: it either stops at an alliance out of bounds,
   * with every earlier alliance in order, or keeps the scan invariant.
   */
  lemma PartnersAdvance(oracle: Oracle, population: seq<Castle>, epsilon: real, draws: GenerationDraws,
                        best0: CseaResult, i: nat, j: nat, st: Scan, end: ScanEnd) returns (next: Scan, stopped: bool)
    requires InnerAt(oracle, population, epsilon, draws, best0, i, j, st) == true
    requires j < |population|
    requires PartnersFrom(oracle, population, epsilon, draws, i, j, st) == end
    ensures stopped ==> end.Stopped? && AbortedAt(oracle, population, epsilon, draws, end.pairs) == true
    ensures !stopped ==> && InnerAt(oracle, population, epsilon, draws, best0, i, j + 1, next) == true
                         && PartnersFrom(oracle, population, epsilon, draws, i, j + 1, next) == end
  {
    if !st.allied[j] && Near(population, epsilon, i, j) {
      var merged := MergedCastle(oracle, population, (i, j), |st.pairs|, draws);
      if merged.BoundsViolation? {
        PartnersStep(oracle, population, epsilon, draws, i, j, st);
        PartnersStopped(oracle, population, epsilon, draws, best0, i, j, st);
        next, stopped := st, true;
      } else {
        PartnersMerged(oracle, population, epsilon, draws, best0, i, j, st, end);
        next, stopped := MergeScan(st, i, j, merged.value), false;
      }
    } else {
      PartnersSkipped(oracle, population, epsilon, draws, best0, i, j, st, end);
      next, stopped := st, false;
    }
  }

  /** An inner loop bound to finish takes one more turn without stopping. */
  lemma PartnersContinue(oracle: Oracle, population: seq<Castle>, epsilon: real, draws: GenerationDraws,
                         best0: CseaResult, i: nat, j: nat, st: Scan, final: Scan) returns (next: Scan)
    requires InnerAt(oracle, population, epsilon, draws, best0, i, j, st) == true
    requires j < |population|
    requires PartnersFrom(oracle, population, epsilon, draws, i, j, st) == Done(final)
    ensures InnerAt(oracle, population, epsilon, draws, best0, i, j + 1, next) == true
    ensures PartnersFrom(oracle, population, epsilon, draws, i, j + 1, next) == Done(final)
  {
    var stopped;
    next, stopped := PartnersAdvance(oracle, population, epsilon, draws, best0, i, j, st, Done(final));
  }

  /** Once the partners run out, the leader's turn restores the outer invariant. */
  lemma PartnersEnded(oracle: Oracle, population: seq<Castle>, epsilon: real, draws: GenerationDraws,
                      best0: CseaResult, i: nat, j: nat, st: Scan, final: Scan)
    requires InnerAt(oracle, population, epsilon, draws, best0, i, j, st) == true
    requires j >= |population|
    requires PartnersFrom(oracle, population, epsilon, draws, i, j, st) == Done(final)
    ensures OuterAt(oracle, population, epsilon, draws, best0, i + 1, final) == true
  {
    ScanEndLeader(oracle, population, epsilon, draws, best0, i, st);
  }

  /** The inner loop keeps the scan invariant to the end of the leader's turn. */
  lemma {:induction false} PartnersFromDone(oracle: Oracle, population: seq<Castle>, epsilon: real, draws: GenerationDraws,
                                            best0: CseaResult, i: nat, j: nat, st: Scan, final: Scan)
    requires InnerAt(oracle, population, epsilon, draws, best0, i, j, st) == true
    requires PartnersFrom(oracle, population, epsilon, draws, i, j, st) == Done(final)
    ensures OuterAt(oracle, population, epsilon, draws, best0, i + 1, final) == true
    decreases |population| - j
  {
    if j >= |population| {
      PartnersEnded(oracle, population, epsilon, draws, best0, i, j, st, final);
    } else {
      var next := PartnersContinue(oracle, population, epsilon, draws, best0, i, j, st, final);
      PartnersFromDone(oracle, population, epsilon, draws, best0, i, j + 1, next, final);
    }
  }

  /** The inner loop can stop only while partners remain. */
  lemma PartnersStopEarly(oracle: Oracle, population: seq<Castle>, epsilon: real, draws: GenerationDraws,
                          i: nat, j: nat, st: Scan, pairs: seq<(nat, nat)>)
    requires i < |population| && |st.allied| == |population|
    requires PartnersFrom(oracle, population, epsilon, draws, i, j, st) == Stopped(pairs)
    ensures j < |population|
  {
  }

  /** The inner loop stops only at an alliance out of bounds, with every earlier alliance in order. */
  lemma {:induction false} PartnersFromStopped(oracle: Oracle, population: seq<Castle>, epsilon: real, draws: GenerationDraws,
                                               best0: CseaResult, i: nat, j: nat, st: Scan, pairs: seq<(nat, nat)>)
    requires InnerAt(oracle, population, epsilon, draws, best0, i, j, st) == true
    requires PartnersFrom(oracle, population, epsilon, draws, i, j, st) == Stopped(pairs)
    ensures AbortedAt(oracle, population, epsilon, draws, pairs) == true
    decreases |population| - j
  {
    PartnersStopEarly(oracle, population, epsilon, draws, i, j, st, pairs);
    var next, stopped := PartnersAdvance(oracle, population, epsilon, draws, best0, i, j, st, Stopped(pairs));
    if !stopped {
      PartnersFromStopped(oracle, population, epsilon, draws, best0, i, j + 1, next, pairs);
    }
  }

  /** The outer loop keeps the scan invariant to its end. */
  lemma {:induction false} LeadersFromDone(oracle: Oracle, population: seq<Castle>, epsilon: real, draws: GenerationDraws,
                                           best0: CseaResult, i: nat, st: Scan, final: Scan)
    requires OuterAt(oracle, population, epsilon, draws, best0, i, st) == true
    requires LeadersFrom(oracle, population, epsilon, draws, i, st) == Done(final)
    ensures OuterAt(oracle, population, epsilon, draws, best0, |population|, final) == true
    decreases |population| - i
  {
    if i < |population| {
      if st.allied[i] {
        ScanSkipLeader(oracle, population, epsilon, draws, best0, i, st);
        LeadersFromDone(oracle, population, epsilon, draws, best0, i + 1, st, final);
      } else {
        ScanStartLeader(oracle, population, epsilon, draws, best0, i, st);
        var next := PartnersFrom(oracle, population, epsilon, draws, i, i + 1, st).scan;
        PartnersFromDone(oracle, population, epsilon, draws, best0, i, i + 1, st, next);
        LeadersFromDone(oracle, population, epsilon, draws, best0, i + 1, next, final);
      }
    }
  }

  /** The outer loop stops only at an alliance out of bounds, with every earlier alliance in order. */
  lemma {:induction false} LeadersFromStopped(oracle: Oracle, population: seq<Castle>, epsilon: real, draws: GenerationDraws,
                                              best0: CseaResult, i: nat, st: Scan, pairs: seq<(nat, nat)>)
    requires OuterAt(oracle, population, epsilon, draws, best0, i, st) == true
    requires LeadersFrom(oracle, population, epsilon, draws, i, st) == Stopped(pairs)
    ensures AbortedAt(oracle, population, epsilon, draws, pairs) == true
    decreases |population| - i
  {
    if i >= |population| {
      assert false;
    } else if st.allied[i] {
      ScanSkipLeader(oracle, population, epsilon, draws, best0, i, st);
      LeadersFromStopped(oracle, population, epsilon, draws, best0, i + 1, st, pairs);
    } else {
      ScanStartLeader(oracle, population, epsilon, draws, best0, i, st);
      match PartnersFrom(oracle, population, epsilon, draws, i, i + 1, st)
      case Stopped(_) =>
        PartnersFromStopped(oracle, population, epsilon, draws, best0, i, i + 1, st, pairs);
      case Done(next) =>
        PartnersFromDone(oracle, population, epsilon, draws, best0, i, i + 1, st, next);
        LeadersFromStopped(oracle, population, epsilon, draws, best0, i + 1, next, pairs);
    }
  }

  /** What the scan establishes once every leader is done. */
  lemma ScanFinish(oracle: Oracle, population: seq<Castle>, epsilon: real, draws: GenerationDraws,
                   best0: CseaResult, st: Scan)
    requires OuterAt(oracle, population, epsilon, draws, best0, |population|, st) == true
    ensures AlliancesFormed(oracle, population, epsilon, draws, best0, st)
  {
    assert st.allied[..|population|] == st.allied;
  }

  /**
   * form_alliances either forms its alliances, with every property of the
   * finished scan, or stops at an alliance out of bounds.
   */
  lemma FormedValid(oracle: Oracle, population: seq<Castle>, epsilon: real, draws: GenerationDraws, best0: CseaResult)
    ensures match Formed(oracle, population, epsilon, draws, best0)
      case Done(st) => AlliancesFormed(oracle, population, epsilon, draws, best0, st)
      case Stopped(pairs) => AbortedAt(oracle, population, epsilon, draws, pairs) == true
  {
    var start := StartScan(population, best0);
    ScanStart(oracle, population, epsilon, draws, best0);
    match LeadersFrom(oracle, population, epsilon, draws, 0, start)
    case Done(st) =>
      LeadersFromDone(oracle, population, epsilon, draws, best0, 0, start, st);
      ScanFinish(oracle, population, epsilon, draws, best0, st);
    case Stopped(pairs) =>
      LeadersFromStopped(oracle, population, epsilon, draws, best0, 0, start, pairs);
  }

  /**
   * Which castles ally, read off the finished scan: x leads y exactly when
   * x < y, nobody took x as a partner, no leader before x took y, and x can
   * ally with y.
   */
  lemma AlliedExactly(oracle: Oracle, population: seq<Castle>, epsilon: real, draws: GenerationDraws,
                      best0: CseaResult, st: Scan, x: nat, y: nat)
    requires AlliancesFormed(oracle, population, epsilon, draws, best0, st)
    ensures (x, y) in st.pairs <==>
      x < y < |population| && Free(st.pairs, x) && Open(st.pairs, x, y) && Near(population, epsilon, x, y)
  {
    if (x, y) in st.pairs {
      var a :| 0 <= a < |st.pairs| && st.pairs[a] == (x, y);
      forall b | 0 <= b < |st.pairs|
        ensures st.pairs[b].1 != x && (st.pairs[b].0 < x ==> st.pairs[b].1 != y)
      {
        if b < a {
          assert st.pairs[b].1 != st.pairs[a].1;
        } else if a < b {
          assert st.pairs[a].1 != st.pairs[b].1;
        }
      }
    }
    if x < y < |population| && Free(st.pairs, x) && Open(st.pairs, x, y) && Near(population, epsilon, x, y) {
      assert LeaderComplete(population, epsilon, st.pairs, x);
    }
  }

  /**
   * One step of the inner loop of form_alliances, leader i and castle j: when
   * j is not allied yet and castle i can ally with it, they form an alliance
   * (one evaluation), which joins the new population, marks both castles
   * allied and replaces the best record when its fitness is GREATER.
   * `aborted` reports an alliance whose king stopped the run.
   */
  method AllianceStep(oracle: Oracle, population: seq<Castle>, epsilon: real, draws: GenerationDraws,
                      ghost dimension: nat, i: nat, j: nat, newPopulation: seq<Castle>, allied: seq<bool>, best: CseaResult,
                      formed: nat, ghost pairs: seq<(nat, nat)>, ghost origins: seq<Origin>)
    returns (aborted: bool, newPopulation': seq<Castle>, allied': seq<bool>, best': CseaResult, formed': nat,
             ghost pairs': seq<(nat, nat)>, ghost origins': seq<Origin>)
    requires i < j < |population| && |allied| == |population| && Uniform(population, dimension)
    requires formed == |pairs|
    ensures !aborted ==> |allied'| == |population| && formed' == |pairs'|
    ensures !aborted ==>
      PartnersFrom(oracle, population, epsilon, draws, i, j + 1, Scan(newPopulation', allied', best', pairs', origins'))
      == PartnersFrom(oracle, population, epsilon, draws, i, j, Scan(newPopulation, allied, best, pairs, origins))
    ensures aborted ==>
      PartnersFrom(oracle, population, epsilon, draws, i, j, Scan(newPopulation, allied, best, pairs, origins)) == Stopped(pairs')
  {
    ghost var st := Scan(newPopulation, allied, best, pairs, origins);
    aborted := false;
    newPopulation', allied', best', formed', pairs', origins' := newPopulation, allied, best, formed, pairs, origins;
    if !allied[j] && CanAlly(population[i], population[j], epsilon) {
      var castle1 := population[i];
      var castle2 := population[j];
      var alliance := Alliance(oracle, castle1, castle2, AllianceAlphas(draws, formed, castle1.king, castle2.king));
      assert alliance == MergedCastle(oracle, population, (i, j), |pairs|, draws);
      if alliance.BoundsViolation? {
        pairs' := pairs + [(i, j)];
        aborted := true;
        return;
      }
      var newCastle := alliance.value;
      best' := best'.(evaluations := best'.evaluations + 1);
      newPopulation' := newPopulation' + [newCastle];
      allied' := allied'[i := true][j := true];
      if newCastle.fitness > best'.fitness {
        best' := best'.(bestKnight := newCastle.king, fitness := newCastle.fitness);
      }
      pairs' := pairs' + [(i, j)];
      origins' := origins' + [Merged(formed')];
      formed' := formed' + 1;
      assert Scan(newPopulation', allied', best', pairs', origins') == MergeScan(st, i, j, newCastle);
    }
  }

  /**
   * The turn of castle i in the outer loop of form_alliances: passed over
   * when it is allied already; otherwise AllianceStep for every later castle,
   * in order, and then castle i is kept if it allied with no one.
   */
  method LeaderTurn(oracle: Oracle, population: seq<Castle>, epsilon: real, draws: GenerationDraws,
                    ghost dimension: nat, i: nat, newPopulation: seq<Castle>, allied: seq<bool>, best: CseaResult, formed: nat,
                    ghost pairs: seq<(nat, nat)>, ghost origins: seq<Origin>)
    returns (aborted: bool, newPopulation': seq<Castle>, allied': seq<bool>, best': CseaResult, formed': nat,
             ghost pairs': seq<(nat, nat)>, ghost origins': seq<Origin>)
    requires i < |population| && |allied| == |population| && Uniform(population, dimension)
    requires formed == |pairs|
    ensures !aborted ==> |allied'| == |population| && formed' == |pairs'|
    ensures !aborted ==>
      LeadersFrom(oracle, population, epsilon, draws, i + 1, Scan(newPopulation', allied', best', pairs', origins'))
      == LeadersFrom(oracle, population, epsilon, draws, i, Scan(newPopulation, allied, best, pairs, origins))
    ensures aborted ==>
      LeadersFrom(oracle, population, epsilon, draws, i, Scan(newPopulation, allied, best, pairs, origins)) == Stopped(pairs')
  {
    ghost var st := Scan(newPopulation, allied, best, pairs, origins);
    aborted := false;
    newPopulation', allied', best', formed', pairs', origins' := newPopulation, allied, best, formed, pairs, origins;
    if allied[i] {
      return;
    }
    var j := i + 1;
    while j < |population|
      invariant i + 1 <= j <= |population|
      invariant |allied'| == |population| && formed' == |pairs'|
      invariant PartnersFrom(oracle, population, epsilon, draws, i, j, Scan(newPopulation', allied', best', pairs', origins'))
             == PartnersFrom(oracle, population, epsilon, draws, i, i + 1, st)
    {
      aborted, newPopulation', allied', best', formed', pairs', origins' :=
        AllianceStep(oracle, population, epsilon, draws, dimension, i, j, newPopulation', allied', best', formed', pairs', origins');
      if aborted {
        return;
      }
      j := j + 1;
    }
    ghost var ended := Scan(newPopulation', allied', best', pairs', origins');
    if !allied'[i] {
      newPopulation' := newPopulation' + [population[i]];
      origins' := origins' + [Kept(i)];
    }
    assert Scan(newPopulation', allied', best', pairs', origins') == EndLeaderScan(population, ended, i);
  }

  /** The outer loop of form_alliances: LeaderTurn for every castle, in order. */
  method ScanLeaders(oracle: Oracle, population: seq<Castle>, epsilon: real, draws: GenerationDraws, best0: CseaResult,
                     ghost dimension: nat)
    returns (aborted: bool, newPopulation: seq<Castle>, allied: seq<bool>, best: CseaResult,
             ghost pairs: seq<(nat, nat)>, ghost origins: seq<Origin>)
    requires Uniform(population, dimension)
    ensures !aborted ==> Formed(oracle, population, epsilon, draws, best0) == Done(Scan(newPopulation, allied, best, pairs, origins))
    ensures aborted ==> Formed(oracle, population, epsilon, draws, best0) == Stopped(pairs)
  {
    aborted := false;
    newPopulation, allied, best, pairs, origins := [], seq(|population|, _ => false), best0, [], [];
    var formed := 0;
    var i := 0;
    while i < |population|
      invariant 0 <= i <= |population|
      invariant |allied| == |population| && formed == |pairs|
      invariant LeadersFrom(oracle, population, epsilon, draws, i, Scan(newPopulation, allied, best, pairs, origins))
             == Formed(oracle, population, epsilon, draws, best0)
    {
      aborted, newPopulation, allied, best, formed, pairs, origins :=
        LeaderTurn(oracle, population, epsilon, draws, dimension, i, newPopulation, allied, best, formed, pairs, origins);
      if aborted {
        return;
      }
      i := i + 1;
    }
  }

  /**
   * form_alliances: every castle not yet allied leads a scan of the later
   * castles and allies with each unallied one it can ally with; the castles
   * left unallied are kept. `scan` is the whole scan: the allied flags, the
   * alliances (leader and partner, in order) and where each new castle comes
   * from.
   */
  method FormAlliances(oracle: Oracle, population: seq<Castle>, epsilon: real, best: CseaResult,
                       dimension: nat, draws: GenerationDraws)
    returns (outcome: Outcome<RunState>, ghost scan: ScanEnd)
    requires Uniform(population, dimension)
    ensures scan == Formed(oracle, population, epsilon, draws, best)
    ensures outcome.Ok? <==> scan.Done?
    ensures outcome.Ok? ==> outcome.value == RunState(scan.scan.newPopulation, scan.scan.best)
    ensures outcome.Ok? ==> AlliancesFormed(oracle, population, epsilon, draws, best, scan.scan)
    ensures outcome.Ok? ==> outcome.value.best.evaluations == best.evaluations + |scan.scan.pairs|
    ensures outcome.Ok? ==> outcome.value.best.generation == best.generation
    ensures outcome.Ok? && AllEvaluated(oracle, population) && Tracks(oracle, best, dimension) ==>
      Uniform(outcome.value.population, dimension) && AllEvaluated(oracle, outcome.value.population)
      && Tracks(oracle, outcome.value.best, dimension)
    ensures outcome.BoundsViolation? ==> AbortedAt(oracle, population, epsilon, draws, scan.pairs) == true
  {
    var aborted, newPopulation, allied, record;
    ghost var pairs, origins;
    aborted, newPopulation, allied, record, pairs, origins := ScanLeaders(oracle, population, epsilon, draws, best, dimension);
    FormedValid(oracle, population, epsilon, draws, best);
    if aborted {
      scan := Stopped(pairs);
      return BoundsViolation, scan;
    }
    scan := Done(Scan(newPopulation, allied, record, pairs, origins));
    outcome := Ok(RunState(newPopulation, record));
    if AllEvaluated(oracle, population) && Tracks(oracle, best, dimension) {
      ScanEvaluated(oracle, population, epsilon, draws, best, scan.scan, dimension);
    }
  }

  // ---------------------------------------------------------------------------
  // Refilling the population
  // ---------------------------------------------------------------------------

  /** Some castle's king is Knight-equal to `knight`. */
  predicate HasKing(population: seq<Castle>, knight: Knight)
  {
    exists c :: 0 <= c < |population| && |population[c].king.chromosome| <= |knight.chromosome|
                && Equal(population[c].king, knight)
  }

  /** The search of complete_population for a castle whose king equals the best knight. */
  method FindKing(population: seq<Castle>, knight: Knight, ghost dimension: nat) returns (found: bool)
    requires Uniform(population, dimension) && |knight.chromosome| == dimension
    ensures found <==> HasKing(population, knight)
  {
    found := false;
    var c := 0;
    while c < |population| && !found
      invariant 0 <= c <= |population|
      invariant found <==> exists d :: 0 <= d < c && Equal(population[d].king, knight)
    {
      if Equal(population[c].king, knight) {
        found := true;
      }
      c := c + 1;
    }
  }

  function MaxInt(a: int, b: int): int { if a < b then b else a }

  /** A prefix's king is still there once the population grows. */
  lemma HasKingGrows(population: seq<Castle>, grown: seq<Castle>, knight: Knight)
    requires |population| <= |grown| && grown[..|population|] == population
    requires HasKing(population, knight)
    ensures HasKing(grown, knight)
  {
    var c :| 0 <= c < |population| && |population[c].king.chromosome| <= |knight.chromosome|
             && Equal(population[c].king, knight);
    assert grown[c] == population[c];
  }

  /**
   * The population after the first half of complete_population: the best
   * knight is put back, as a castle with its fitness and exhaustion 0, when no
   * king equals it.
   */
  function Restored(population: seq<Castle>, best: CseaResult): seq<Castle>
  {
    if HasKing(population, best.bestKnight) then population
    else population + [Castle(best.bestKnight, best.fitness, 0)]
  }

  method RestoreBest(oracle: Oracle, population: seq<Castle>, best: CseaResult, dimension: nat)
    returns (restored: seq<Castle>)
    requires Uniform(population, dimension) && |best.bestKnight.chromosome| == dimension
    ensures restored == Restored(population, best)
    ensures HasKing(restored, best.bestKnight)
    ensures Uniform(restored, dimension)
    ensures AllEvaluated(oracle, population) && Tracks(oracle, best, dimension) ==> AllEvaluated(oracle, restored)
  {
    var foundBest := FindKing(population, best.bestKnight, dimension);
    restored := population;
    if !foundBest {
      restored := restored + [Castle(best.bestKnight, best.fitness)];
      EqualReflexive(best.bestKnight);
      assert restored[|population|].king == best.bestKnight;
    }
  }

  /**
   * The second half of complete_population: fresh castles are appended, the
   * c-th from genes(c, ·), one evaluation each, until there are `size`
   * castles.
   */
  method FillPopulation(oracle: Oracle, population: seq<Castle>, size: int, best: CseaResult,
                        dimension: nat, genes: (int, int) -> real)
    returns (completed: seq<Castle>, best': CseaResult)
    requires ValidGenes(genes)
    requires Uniform(population, dimension)
    ensures |completed| == MaxInt(|population|, size)
    ensures completed[..|population|] == population
    ensures forall c :: |population| <= c < |completed| ==>
      completed[c] == FreshCastle(oracle, dimension, genes, c - |population|)
    ensures best' == best.(evaluations := best.evaluations + (|completed| - |population|))
    ensures Uniform(completed, dimension)
    ensures AllEvaluated(oracle, population) ==> AllEvaluated(oracle, completed)
  {
    completed := population;
    best' := best;
    while |completed| < size
      invariant |population| <= |completed| <= MaxInt(|population|, size)
      invariant completed[..|population|] == population
      invariant forall c :: |population| <= c < |completed| ==>
        completed[c] == FreshCastle(oracle, dimension, genes, c - |population|)
      invariant best' == best.(evaluations := best.evaluations + (|completed| - |population|))
      invariant Uniform(completed, dimension)
      invariant AllEvaluated(oracle, population) ==> AllEvaluated(oracle, completed)
      decreases size - |completed|
    {
      var castle := NewCastle(oracle, dimension, genes, |completed| - |population|);
      best' := best'.(evaluations := best'.evaluations + 1);
      completed := completed + [castle];
    }
  }

  /**
   * The population complete_population leaves: the restored population, then
   * fresh castles, the c-th from genes(c, ·), up to `size` castles.
   */
  function Refilled(oracle: Oracle, population: seq<Castle>, size: int, best: CseaResult,
                    dimension: nat, genes: (int, int) -> real): seq<Castle>
  {
    var restored := Restored(population, best);
    restored + FreshPopulation(oracle, dimension, genes, MaxInt(|restored|, size) - |restored|)
  }

  /**
   * complete_population: the best knight is put back when no king equals it,
   * then fresh castles fill the population up to population_size. The best
   * record counts the fresh castles' evaluations and is otherwise unchanged.
   */
  method CompletePopulation(oracle: Oracle, population: seq<Castle>, args: CseaArgs, best: CseaResult,
                            dimension: nat, genes: (int, int) -> real)
    returns (completed: seq<Castle>, best': CseaResult)
    requires ValidGenes(genes)
    requires args.populationSize >= 0 && args.dimension == dimension
    requires Uniform(population, dimension) && |best.bestKnight.chromosome| == dimension
    ensures var restored := Restored(population, best);
      && |completed| == MaxInt(|restored|, args.populationSize)
      && completed[..|restored|] == restored
      && (forall c :: |restored| <= c < |completed| ==>
            completed[c] == FreshCastle(oracle, dimension, genes, c - |restored|))
      && best' == best.(evaluations := best.evaluations + (|completed| - |restored|))
    ensures completed == Refilled(oracle, population, args.populationSize, best, dimension, genes)
    ensures HasKing(completed, best.bestKnight)
    ensures Uniform(completed, dimension)
    ensures AllEvaluated(oracle, population) && Tracks(oracle, best, dimension) ==>
      AllEvaluated(oracle, completed) && Tracks(oracle, best', dimension)
  {
    var restored := RestoreBest(oracle, population, best, dimension);
    completed, best' := FillPopulation(oracle, restored, args.populationSize, best, dimension, genes);
    HasKingGrows(restored, completed, best.bestKnight);
    assert completed == completed[..|restored|] + completed[|restored|..];
  }

  // ---------------------------------------------------------------------------
  // The main loop
  // ---------------------------------------------------------------------------

  /** Sorting keeps every castle, so it keeps the population's invariants. */
  lemma SortKeepsEvaluated(oracle: Oracle, population: seq<Castle>, dimension: nat)
    requires Uniform(population, dimension) && AllEvaluated(oracle, population)
    ensures Uniform(Sort(population), dimension) && AllEvaluated(oracle, Sort(population))
  {
    var sorted := Sort(population);
    forall k | 0 <= k < |sorted|
      ensures |sorted[k].king.chromosome| == dimension && Evaluated(oracle, sorted[k])
    {
      assert sorted[k] in multiset(population);
    }
  }

  /**
   * The start of csea: population_size fresh castles, castle c drawn from
   * genes(c, ·), sorted by Castle::operator<; the first one starts the best
   * record, with population_size evaluations and generation 0.
   */
  function InitialState(oracle: Oracle, args: CseaArgs, dimension: nat, genes: (int, int) -> real): (state: RunState)
    requires args.populationSize >= 1
    ensures |state.population| == args.populationSize
  {
    var population := Sort(FreshPopulation(oracle, dimension, genes, args.populationSize));
    RunState(population, CseaResult(population[0].king, population[0].fitness, 0, args.populationSize))
  }

  /**
   * The start of csea, as InitialState says; the best record is a fresh
   * castle of least fitness.
   */
  method Initialize(oracle: Oracle, args: CseaArgs, dimension: nat, genes: (int, int) -> real)
    returns (population: seq<Castle>, result: CseaResult)
    requires args.populationSize >= 1 && args.dimension == dimension
    requires ValidGenes(genes)
    ensures RunState(population, result) == InitialState(oracle, args, dimension, genes)
    ensures |population| == args.populationSize
    ensures Uniform(population, dimension) && AllEvaluated(oracle, population)
    ensures Tracks(oracle, result, dimension)
    ensures result.generation == 0 && result.evaluations == args.populationSize
    ensures exists c :: 0 <= c < args.populationSize && result.bestKnight == FreshCastle(oracle, dimension, genes, c).king
    ensures forall c :: 0 <= c < args.populationSize ==> result.fitness <= FreshCastle(oracle, dimension, genes, c).fitness
  {
    var initial := GenerateInitialPopulation(oracle, args.populationSize, dimension, genes);
    population := Sort(initial);
    SortKeepsEvaluated(oracle, initial, dimension);
    SortFirstMinimal(initial);
    result := CseaResult(population[0].king, population[0].fitness, 0, args.populationSize);
    assert population[0] in initial;
    forall c | 0 <= c < args.populationSize
      ensures result.fitness <= FreshCastle(oracle, dimension, genes, c).fitness
    {
      assert initial[c] in initial;
    }
  }

  /**
   * One generation of csea's loop, with the draws of that generation:
   * challengers, sieges, alliances and refill; the generation counter goes up
   * by one. It stops with a bounds violation when a challenger or an alliance
   * is out of bounds.
   */
  function NextGeneration(oracle: Oracle, sigmoid: real -> real, args: CseaArgs, dimension: nat,
                          state: RunState, draws: GenerationDraws): Outcome<RunState>
    requires |state.population| > 0 && Uniform(state.population, dimension)
    requires draws.Valid()
  {
    match SiegeFrom(oracle, sigmoid, state, Challengers(state.population, dimension, draws), 0, draws)
    case BoundsViolation => BoundsViolation
    case Ok(sieged) => AfterAlliances(oracle, args, dimension, draws, Formed(oracle, sieged.population, args.epsilon, draws, sieged.best))
  }

  /**
   * The end of a generation once the alliance scan ends: stopped, or the new
   * population refilled, its fresh castles counted and the generation number
   * up by one.
   */
  function AfterAlliances(oracle: Oracle, args: CseaArgs, dimension: nat, draws: GenerationDraws, scan: ScanEnd)
    : Outcome<RunState>
  {
    match scan
    case Stopped(_) => BoundsViolation
    case Done(st) =>
      var completed := Refilled(oracle, st.newPopulation, args.populationSize, st.best, dimension, draws.newGene);
      var added := |completed| - |Restored(st.newPopulation, st.best)|;
      Ok(RunState(completed, st.best.(evaluations := st.best.evaluations + added, generation := st.best.generation + 1)))
  }

  /** A generation after its sieges. */
  lemma NextGenerationSieged(oracle: Oracle, sigmoid: real -> real, args: CseaArgs, dimension: nat,
                             state: RunState, draws: GenerationDraws, sieged: Outcome<RunState>)
    requires |state.population| > 0 && Uniform(state.population, dimension)
    requires draws.Valid()
    requires sieged == SiegeFrom(oracle, sigmoid, state, Challengers(state.population, dimension, draws), 0, draws)
    ensures NextGeneration(oracle, sigmoid, args, dimension, state, draws)
            == if sieged.BoundsViolation? then BoundsViolation
               else AfterAlliances(oracle, args, dimension, draws,
                                   Formed(oracle, sieged.value.population, args.epsilon, draws, sieged.value.best))
  {
  }

  /** A generation whose alliance scan ran to the end, given its refilled population and best record. */
  lemma AfterAlliancesDone(oracle: Oracle, args: CseaArgs, dimension: nat, draws: GenerationDraws, scan: ScanEnd,
                           completed: seq<Castle>, record: CseaResult)
    requires scan.Done?
    requires completed == Refilled(oracle, scan.scan.newPopulation, args.populationSize, scan.scan.best, dimension, draws.newGene)
    requires record == scan.scan.best.(evaluations := scan.scan.best.evaluations
                                                      + (|completed| - |Restored(scan.scan.newPopulation, scan.scan.best)|))
    ensures AfterAlliances(oracle, args, dimension, draws, scan) == Ok(RunState(completed, record.(generation := record.generation + 1)))
  {
  }

  /**
   * The counters of a generation: one evaluation per challenger, per alliance
   * and per fresh castle, and the generation number up by one.
   */
  lemma NextGenerationCounts(oracle: Oracle, sigmoid: real -> real, args: CseaArgs, dimension: nat,
                             state: RunState, draws: GenerationDraws)
    requires |state.population| > 0 && Uniform(state.population, dimension)
    requires draws.Valid()
    requires NextGeneration(oracle, sigmoid, args, dimension, state, draws).Ok?
    ensures var sieged := SiegeFrom(oracle, sigmoid, state, Challengers(state.population, dimension, draws), 0, draws);
      sieged.Ok? && Formed(oracle, sieged.value.population, args.epsilon, draws, sieged.value.best).Done?
      && var st := Formed(oracle, sieged.value.population, args.epsilon, draws, sieged.value.best).scan;
         var next := NextGeneration(oracle, sigmoid, args, dimension, state, draws).value;
         && next.best.evaluations
            == state.best.evaluations + |Pairs(|state.population|)| + |st.pairs|
               + (|next.population| - |Restored(st.newPopulation, st.best)|)
         && next.best.generation == state.best.generation + 1
  {
    var knights := Challengers(state.population, dimension, draws);
    var sieged := SiegeFrom(oracle, sigmoid, state, knights, 0, draws).value;
    FormedValid(oracle, sieged.population, args.epsilon, draws, sieged.best);
  }

  /**
   * Why a generation stops the run: a challenger out of bounds, or else the
   * alliance scan stopped by an alliance out of bounds.
   */
  lemma NextGenerationStops(oracle: Oracle, sigmoid: real -> real, args: CseaArgs, dimension: nat,
                            state: RunState, draws: GenerationDraws)
    requires |state.population| > 0 && Uniform(state.population, dimension)
    requires draws.Valid()
    ensures var knights := Challengers(state.population, dimension, draws);
      var sieged := SiegeFrom(oracle, sigmoid, state, knights, 0, draws);
      && (NextGeneration(oracle, sigmoid, args, dimension, state, draws).BoundsViolation?
          <==> (exists k :: 0 <= k < |knights| && !InBounds(knights[k]))
               || (sieged.Ok? && Formed(oracle, sieged.value.population, args.epsilon, draws, sieged.value.best).Stopped?))
      && (sieged.Ok? && Formed(oracle, sieged.value.population, args.epsilon, draws, sieged.value.best).Stopped? ==>
            AbortedAt(oracle, sieged.value.population, args.epsilon, draws,
                      Formed(oracle, sieged.value.population, args.epsilon, draws, sieged.value.best).pairs) == true)
  {
    var knights := Challengers(state.population, dimension, draws);
    SiegeFromOkIff(oracle, sigmoid, state, knights, 0, draws);
    var sieged := SiegeFrom(oracle, sigmoid, state, knights, 0, draws);
    if sieged.Ok? {
      FormedValid(oracle, sieged.value.population, args.epsilon, draws, sieged.value.best);
    }
  }

  /** One generation of csea's loop, as NextGeneration says. */
  method Generation(oracle: Oracle, sigmoid: real -> real, args: CseaArgs, dimension: nat,
                    population: seq<Castle>, result: CseaResult, draws: GenerationDraws)
    returns (outcome: Outcome<RunState>)
    requires args.populationSize >= 2 && args.dimension == dimension
    requires draws.Valid()
    requires |population| >= args.populationSize
    requires Uniform(population, dimension) && AllEvaluated(oracle, population)
    requires Tracks(oracle, result, dimension)
    ensures outcome == NextGeneration(oracle, sigmoid, args, dimension, RunState(population, result), draws)
    ensures outcome.Ok? ==> |outcome.value.population| >= args.populationSize
    ensures outcome.Ok? ==> Uniform(outcome.value.population, dimension) && AllEvaluated(oracle, outcome.value.population)
    ensures outcome.Ok? ==> Tracks(oracle, outcome.value.best, dimension)
    ensures outcome.Ok? ==> outcome.value.best.generation == result.generation + 1
    ensures outcome.Ok? ==> outcome.value.best.evaluations >= result.evaluations + |Pairs(|population|)| >= result.evaluations + 1
  {
    var knights := GenerateNewGeneration(population, dimension, draws);
    ChallengerCount(|population|);
    var sieged := SiegeCastles(oracle, sigmoid, population, knights, result, draws);
    NextGenerationSieged(oracle, sigmoid, args, dimension, RunState(population, result), draws, sieged);
    if sieged.BoundsViolation? {
      return BoundsViolation;
    }
    SiegeFromKeepsEvaluated(oracle, sigmoid, RunState(population, result), knights, 0, draws, dimension);
    var allied, scan := FormAlliances(oracle, sieged.value.population, args.epsilon, sieged.value.best, dimension, draws);
    ghost var next := NextGeneration(oracle, sigmoid, args, dimension, RunState(population, result), draws);
    assert next == AfterAlliances(oracle, args, dimension, draws, scan);
    if allied.BoundsViolation? {
      return BoundsViolation;
    }
    var completed, record := CompletePopulation(oracle, allied.value.population, args, allied.value.best, dimension, draws.newGene);
    outcome := Ok(RunState(completed, record.(generation := record.generation + 1)));
    AfterAlliancesDone(oracle, args, dimension, draws, scan, completed, record);
  }

  /** The loop condition of csea: one more generation stays within max_evaluations. */
  predicate Continues(args: CseaArgs, best: CseaResult)
  {
    best.evaluations + EvaluationsUpperBound(args) < args.maxEvaluations
  }

  /**
   * Generation g of a run: its state passed the loop condition and led to
   * the next state by NextGeneration with the draws of generation g.
   */
  ghost predicate Advances(oracle: Oracle, sigmoid: real -> real, args: CseaArgs, dimension: nat,
                           draws: int -> GenerationDraws, history: seq<RunState>, g: int)
    requires 0 <= g < |history| - 1
  {
    && |history[g].population| > 0 && Uniform(history[g].population, dimension) && draws(g).Valid()
    && Continues(args, history[g].best)
    && NextGeneration(oracle, sigmoid, args, dimension, history[g], draws(g)) == Ok(history[g + 1])
  }

  /** A run so far, one state per generation, each one reached from the one before. */
  ghost predicate Runs(oracle: Oracle, sigmoid: real -> real, args: CseaArgs, dimension: nat,
                       draws: int -> GenerationDraws, history: seq<RunState>)
  {
    forall g :: 0 <= g < |history| - 1 ==> Advances(oracle, sigmoid, args, dimension, draws, history, g)
  }

  /** A run grows by one generation. */
  lemma RunsGrow(oracle: Oracle, sigmoid: real -> real, args: CseaArgs, dimension: nat,
                 draws: int -> GenerationDraws, history: seq<RunState>, next: RunState)
    requires Runs(oracle, sigmoid, args, dimension, draws, history)
    requires |history| >= 1
    requires var last := history[|history| - 1];
      |last.population| > 0 && Uniform(last.population, dimension) && draws(|history| - 1).Valid()
      && Continues(args, last.best)
      && NextGeneration(oracle, sigmoid, args, dimension, last, draws(|history| - 1)) == Ok(next)
    ensures Runs(oracle, sigmoid, args, dimension, draws, history + [next])
  {
    var grown := history + [next];
    forall g | 0 <= g < |grown| - 1
      ensures Advances(oracle, sigmoid, args, dimension, draws, grown, g)
    {
      assert grown[g] == history[g];
      if g < |history| - 1 {
        assert Advances(oracle, sigmoid, args, dimension, draws, history, g);
        assert grown[g + 1] == history[g + 1];
      } else {
        assert grown[g + 1] == next;
      }
    }
  }

  /** A run whose last state passed the loop condition and whose next generation stopped it. */
  ghost predicate Halts(oracle: Oracle, sigmoid: real -> real, args: CseaArgs, dimension: nat,
                        draws: int -> GenerationDraws, history: seq<RunState>)
  {
    && |history| >= 1
    && var last := history[|history| - 1];
       && |last.population| > 0 && Uniform(last.population, dimension) && draws(|history| - 1).Valid()
       && Continues(args, last.best)
       && NextGeneration(oracle, sigmoid, args, dimension, last, draws(|history| - 1)) == BoundsViolation
  }

  /** One pass of csea's loop body: Generation, with the run so far extended by its state. */
  method Advance(oracle: Oracle, sigmoid: real -> real, args: CseaArgs, dimension: nat, draws: int -> GenerationDraws,
                 population: seq<Castle>, result: CseaResult, ghost history: seq<RunState>)
    returns (next: Outcome<RunState>, ghost history': seq<RunState>)
    requires args.populationSize >= 2 && args.dimension == dimension
    requires draws(result.generation).Valid()
    requires |population| >= args.populationSize
    requires Uniform(population, dimension) && AllEvaluated(oracle, population)
    requires Tracks(oracle, result, dimension)
    requires |history| >= 1 && history[|history| - 1] == RunState(population, result) && result.generation == |history| - 1
    requires Runs(oracle, sigmoid, args, dimension, draws, history) && Continues(args, result)
    ensures next.BoundsViolation? ==> history' == history && Halts(oracle, sigmoid, args, dimension, draws, history)
    ensures next.Ok? ==> history' == history + [next.value] && Runs(oracle, sigmoid, args, dimension, draws, history')
    ensures next.Ok? ==> |next.value.population| >= args.populationSize
    ensures next.Ok? ==> Uniform(next.value.population, dimension) && AllEvaluated(oracle, next.value.population)
    ensures next.Ok? ==> Tracks(oracle, next.value.best, dimension)
    ensures next.Ok? ==> next.value.best.generation == result.generation + 1
    ensures next.Ok? ==> next.value.best.evaluations >= result.evaluations + 1
  {
    next := Generation(oracle, sigmoid, args, dimension, population, result, draws(result.generation));
    history' := history;
    if next.Ok? {
      RunsGrow(oracle, sigmoid, args, dimension, draws, history, next.value);
      history' := history + [next.value];
    }
  }

  /**
   * csea: Initialize, then Generation while the evaluations so far plus the
   * bound of one generation stay below max_evaluations. Generation g takes
   * its draws from draws(g). `history` holds the state after each generation.
   */
  method Run(oracle: Oracle, sigmoid: real -> real, args: CseaArgs, dimension: nat, initialGenes: (int, int) -> real,
             draws: int -> GenerationDraws)
    returns (outcome: Outcome<CseaResult>, ghost history: seq<RunState>)
    requires args.populationSize >= 2
             || (args.populationSize == 1 && 1 + EvaluationsUpperBound(args) >= args.maxEvaluations)
    requires args.dimension == dimension
    requires ValidGenes(initialGenes)
    requires forall g :: draws(g).Valid()
    ensures |history| >= 1 && history[0] == InitialState(oracle, args, dimension, initialGenes)
    ensures Runs(oracle, sigmoid, args, dimension, draws, history)
    ensures forall g :: 0 <= g < |history| ==> history[g].best.generation == g
    ensures outcome.Ok? ==> outcome.value == history[|history| - 1].best && !Continues(args, outcome.value)
    ensures outcome.BoundsViolation? ==> Halts(oracle, sigmoid, args, dimension, draws, history)
    ensures outcome.Ok? ==> Tracks(oracle, outcome.value, dimension)
    ensures outcome.Ok? ==> 0 <= outcome.value.generation
                            && args.populationSize + outcome.value.generation <= outcome.value.evaluations
    ensures outcome.Ok? ==>
      (outcome.value.generation == 0 <==> args.populationSize + EvaluationsUpperBound(args) >= args.maxEvaluations)
    ensures outcome.Ok? && outcome.value.generation == 0 ==>
      && outcome.value.evaluations == args.populationSize
      && (exists c :: 0 <= c < args.populationSize
                      && outcome.value.bestKnight == FreshCastle(oracle, dimension, initialGenes, c).king)
      && (forall c :: 0 <= c < args.populationSize ==>
                      outcome.value.fitness <= FreshCastle(oracle, dimension, initialGenes, c).fitness)
  {
    var bound := EvaluationsUpperBound(args);
    var population, result := Initialize(oracle, args, dimension, initialGenes);
    history := [RunState(population, result)];
    while result.evaluations + bound < args.maxEvaluations
      invariant |history| >= 1 && history[0] == InitialState(oracle, args, dimension, initialGenes)
      invariant history[|history| - 1] == RunState(population, result)
      invariant Runs(oracle, sigmoid, args, dimension, draws, history)
      invariant forall g :: 0 <= g < |history| ==> history[g].best.generation == g
      invariant |population| >= args.populationSize
      invariant Uniform(population, dimension) && AllEvaluated(oracle, population)
      invariant Tracks(oracle, result, dimension)
      invariant 0 <= result.generation && args.populationSize + result.generation <= result.evaluations
      invariant result.generation == 0 ==>
        && result.evaluations == args.populationSize
        && (exists c :: 0 <= c < args.populationSize && result.bestKnight == FreshCastle(oracle, dimension, initialGenes, c).king)
        && (forall c :: 0 <= c < args.populationSize ==> result.fitness <= FreshCastle(oracle, dimension, initialGenes, c).fitness)
      invariant result.generation > 0 ==> args.populationSize + bound < args.maxEvaluations
      decreases args.maxEvaluations - result.evaluations
    {
      assert args.populationSize >= 2;
      assert result.generation == |history| - 1;
      var next;
      next, history := Advance(oracle, sigmoid, args, dimension, draws, population, result, history);
      if next.BoundsViolation? {
        return BoundsViolation, history;
      }
      population, result := next.value.population, next.value.best;
    }
    outcome := Ok(result);
  }
}
