/**
 * Knights: the candidate solutions of the Castle Siege optimizer. A knight is
 * a vector of real genes; it can be crossed with another knight (an
 * asymmetric BLX variant), mutated (Gaussian steps clamped to [-100, 100]) and
 * evaluated by the objective oracle, which aborts the run when a gene is out
 * of bounds.
 *
 * Random draws are explicit arguments, each with a `requires` saying which
 * interval the random source draws it from.
 */
module Knights {

  /** Genes are clamped to [-Bound, Bound] by mutation and checked by Fitness. */
  const Bound: real := 100.0

  /** numeric_limits<double>::epsilon() = 2^-52, the tolerance of knight equality. */
  const MachineEpsilon: real := 1.0 / 4503599627370496.0

  /** The objective function being minimised; the model never looks inside it. */
  type Oracle = seq<real> -> real

  /**
   * The result of an operation that evaluates knights: a value, or the fatal
   * bounds violation with which Knight::fitness stops the program.
   */
  datatype Outcome<T> = Ok(value: T) | BoundsViolation

  datatype Knight = Knight(chromosome: seq<real>)

  function Abs(x: real): real { if x < 0.0 then -x else x }

  function Min(a: real, b: real): real { if b < a then b else a }

  function Max(a: real, b: real): real { if a < b then b else a }

  /** Every gene lies in [-Bound, Bound]. */
  predicate InBounds(knight: Knight)
  {
    forall i :: 0 <= i < |knight.chromosome| ==> -Bound <= knight.chromosome[i] <= Bound
  }

  // ---------------------------------------------------------------------------
  // Comparisons. Both loops of the source run over the receiver's genes only,
  // so the other knight must be at least as long.
  // ---------------------------------------------------------------------------

  /** Knight::operator==: every gene pair differs by at most machine epsilon. */
  predicate Equal(a: Knight, b: Knight)
    requires |a.chromosome| <= |b.chromosome|
  {
    forall i :: 0 <= i < |a.chromosome| ==> Abs(a.chromosome[i] - b.chromosome[i]) <= MachineEpsilon
  }

  /** Knight::operator!=. */
  predicate NotEqual(a: Knight, b: Knight)
    requires |a.chromosome| <= |b.chromosome|
  {
    !Equal(a, b)
  }

  /** Knight::is_near: every gene pair differs by at most `epsilon`. */
  predicate IsNear(a: Knight, b: Knight, epsilon: real)
    requires |a.chromosome| <= |b.chromosome|
  {
    forall i :: 0 <= i < |a.chromosome| ==> Abs(a.chromosome[i] - b.chromosome[i]) <= epsilon
  }

  lemma EqualIsNearAtMachineEpsilon(a: Knight, b: Knight)
    requires |a.chromosome| <= |b.chromosome|
    ensures Equal(a, b) <==> IsNear(a, b, MachineEpsilon)
  {
  }

  /** Knights with the same genes are near at any non-negative tolerance. */
  lemma IsNearOfSameGenes(a: Knight, b: Knight, epsilon: real)
    requires a.chromosome == b.chromosome
    requires epsilon >= 0.0
    ensures IsNear(a, b, epsilon)
  {
  }

  lemma EqualReflexive(a: Knight)
    ensures Equal(a, a)
  {
    assert MachineEpsilon > 0.0;
    IsNearOfSameGenes(a, a, MachineEpsilon);
    EqualIsNearAtMachineEpsilon(a, a);
  }

  lemma EqualSymmetric(a: Knight, b: Knight)
    requires |a.chromosome| == |b.chromosome|
    ensures Equal(a, b) <==> Equal(b, a)
  {
  }

  /** Equality up to epsilon is not transitive: two steps of epsilon exceed it. */
  lemma EqualNotTransitive()
    ensures var a, b, c := Knight([0.0]), Knight([MachineEpsilon]), Knight([2.0 * MachineEpsilon]);
      Equal(a, b) && Equal(b, c) && !Equal(a, c)
  {
    var a, b, c := Knight([0.0]), Knight([MachineEpsilon]), Knight([2.0 * MachineEpsilon]);
    assert Abs(a.chromosome[0] - c.chromosome[0]) == 2.0 * MachineEpsilon > MachineEpsilon;
  }

  lemma IsNearSymmetric(a: Knight, b: Knight, epsilon: real)
    requires |a.chromosome| == |b.chromosome|
    ensures IsNear(a, b, epsilon) <==> IsNear(b, a, epsilon)
  {
  }

  lemma IsNearReflexive(a: Knight, epsilon: real)
    requires epsilon >= 0.0
    ensures IsNear(a, a, epsilon)
  {
    IsNearOfSameGenes(a, a, epsilon);
  }

  lemma IsNearMonotone(a: Knight, b: Knight, epsilon: real, wider: real)
    requires |a.chromosome| <= |b.chromosome|
    requires epsilon <= wider
    ensures IsNear(a, b, epsilon) ==> IsNear(a, b, wider)
  {
  }

  // ---------------------------------------------------------------------------
  // Construction
  // ---------------------------------------------------------------------------

  /**
   * Knight(dimension, randomize, radius): `dimension` zero genes, each then
   * replaced, when `randomize` holds, by a uniform draw from [-radius, radius].
   */
  method NewKnight(dimension: nat, randomize: bool, radius: real, draws: seq<real>) returns (knight: Knight)
    requires randomize ==> |draws| == dimension
    requires randomize ==> forall i :: 0 <= i < |draws| ==> -radius <= draws[i] <= radius
    ensures |knight.chromosome| == dimension
    ensures !randomize ==> forall i :: 0 <= i < dimension ==> knight.chromosome[i] == 0.0
    ensures randomize ==> knight.chromosome == draws
    ensures randomize ==> forall i :: 0 <= i < dimension ==> -radius <= knight.chromosome[i] <= radius
  {
    var chromosome := new real[dimension](_ => 0.0);
    if randomize {
      for i := 0 to dimension
        invariant chromosome[..i] == draws[..i]
      {
        chromosome[i] := draws[i];
      }
    }
    knight := Knight(chromosome[..]);
  }

  // ---------------------------------------------------------------------------
  // Crossover
  // ---------------------------------------------------------------------------

  /** The span of a gene pair; the BLX draw for that gene comes from [-range/2, range/2]. */
  function Range(x: real, y: real): real { Max(x, y) - Min(x, y) }

  /** Each alpha lies in the interval blx_alpha draws it from. */
  predicate ValidAlphas(parent1: Knight, parent2: Knight, alphas: seq<real>)
    requires |parent1.chromosome| <= |parent2.chromosome|
  {
    && |alphas| == |parent1.chromosome|
    && forall i :: 0 <= i < |alphas| ==>
         -0.5 * Range(parent1.chromosome[i], parent2.chromosome[i]) <= alphas[i]
         <= 0.5 * Range(parent1.chromosome[i], parent2.chromosome[i])
  }

  /** The child of blx_alpha: gene i is the smaller parent gene plus the draw alphas[i]. */
  function Blx(parent1: Knight, parent2: Knight, alphas: seq<real>): (child: Knight)
    requires |parent1.chromosome| <= |parent2.chromosome|
    requires |parent1.chromosome| <= |alphas|
    ensures |child.chromosome| == |parent1.chromosome|
  {
    Knight(seq(|parent1.chromosome|, i requires 0 <= i < |parent1.chromosome| =>
      Min(parent1.chromosome[i], parent2.chromosome[i]) + alphas[i]))
  }

  /** Knight::blx_alpha, filling the child's genes one index at a time. */
  method BlxAlpha(parent1: Knight, parent2: Knight, alphas: seq<real>) returns (child: Knight)
    requires |parent1.chromosome| <= |parent2.chromosome|
    requires ValidAlphas(parent1, parent2, alphas)
    ensures child == Blx(parent1, parent2, alphas)
    ensures |child.chromosome| == |parent1.chromosome|
    ensures forall i :: 0 <= i < |child.chromosome| ==>
      Min(parent1.chromosome[i], parent2.chromosome[i])
        - 0.5 * Range(parent1.chromosome[i], parent2.chromosome[i])
      <= child.chromosome[i]
      <= (parent1.chromosome[i] + parent2.chromosome[i]) / 2.0
  {
    var dimension := |parent1.chromosome|;
    var genes := new real[dimension](_ => 0.0);
    for i := 0 to dimension
      invariant forall k :: 0 <= k < i ==> genes[k] == Min(parent1.chromosome[k], parent2.chromosome[k]) + alphas[k]
    {
      var minVal := Min(parent1.chromosome[i], parent2.chromosome[i]);
      genes[i] := minVal + alphas[i];
    }
    child := Knight(genes[..]);
    BlxGeneInterval(parent1, parent2, alphas);
  }

  /** Knight::cross: blx_alpha with the receiver as first parent. */
  method Cross(knight: Knight, other: Knight, alphas: seq<real>) returns (child: Knight)
    requires |knight.chromosome| <= |other.chromosome|
    requires ValidAlphas(knight, other, alphas)
    ensures child == Blx(knight, other, alphas)
  {
    child := BlxAlpha(knight, other, alphas);
  }

  /**
   * The asymmetric interval: a child gene lies between half a span below the
   * smaller parent gene and the parents' midpoint.
   */
  lemma BlxGeneInterval(parent1: Knight, parent2: Knight, alphas: seq<real>)
    requires |parent1.chromosome| <= |parent2.chromosome|
    requires ValidAlphas(parent1, parent2, alphas)
    ensures forall i :: 0 <= i < |parent1.chromosome| ==>
      Min(parent1.chromosome[i], parent2.chromosome[i])
        - 0.5 * Range(parent1.chromosome[i], parent2.chromosome[i])
      <= Blx(parent1, parent2, alphas).chromosome[i]
      <= (parent1.chromosome[i] + parent2.chromosome[i]) / 2.0
  {
  }

  /** Crossing a knight with itself gives it back: every range is 0, so is every draw. */
  lemma BlxOfIdenticalParents(parent: Knight, alphas: seq<real>)
    requires ValidAlphas(parent, parent, alphas)
    ensures Blx(parent, parent, alphas) == parent
  {
  }

  /** No clamp follows crossover: parents -100 and 100 can give a child gene of -200. */
  lemma BlxMayLeaveBounds()
    ensures var p1, p2 := Knight([-Bound]), Knight([Bound]);
      InBounds(p1) && InBounds(p2) && ValidAlphas(p1, p2, [-Bound])
      && Blx(p1, p2, [-Bound]) == Knight([-2.0 * Bound])
      && !InBounds(Blx(p1, p2, [-Bound]))
  {
    var p1, p2 := Knight([-Bound]), Knight([Bound]);
    assert Range(p1.chromosome[0], p2.chromosome[0]) == 2.0 * Bound;
    assert Blx(p1, p2, [-Bound]).chromosome[0] == -2.0 * Bound;
    assert Blx(p1, p2, [-Bound]).chromosome == [-2.0 * Bound];
  }

  /** The child of in-bounds parents stays in bounds when no gene's lower end leaves them. */
  lemma BlxInBounds(parent1: Knight, parent2: Knight, alphas: seq<real>)
    requires |parent1.chromosome| <= |parent2.chromosome|
    requires ValidAlphas(parent1, parent2, alphas)
    requires InBounds(parent1) && InBounds(parent2)
    requires forall i :: 0 <= i < |parent1.chromosome| ==>
      Min(parent1.chromosome[i], parent2.chromosome[i])
        - 0.5 * Range(parent1.chromosome[i], parent2.chromosome[i]) >= -Bound
    ensures InBounds(Blx(parent1, parent2, alphas))
  {
    BlxGeneInterval(parent1, parent2, alphas);
  }

  /** Parents [0, 0] and [10, 10]: a draw of 0 lands on 0, a draw of 5 on 5. */
  lemma BlxExamples()
    ensures Blx(Knight([0.0, 0.0]), Knight([10.0, 10.0]), [0.0, 0.0]) == Knight([0.0, 0.0])
    ensures Blx(Knight([0.0, 0.0]), Knight([10.0, 10.0]), [5.0, 5.0]) == Knight([5.0, 5.0])
    ensures ValidAlphas(Knight([0.0, 0.0]), Knight([10.0, 10.0]), [5.0, 5.0])
  {
    var p1, p2 := Knight([0.0, 0.0]), Knight([10.0, 10.0]);
    assert Range(0.0, 10.0) == 10.0;
    var low := Blx(p1, p2, [0.0, 0.0]);
    assert low.chromosome[0] == 0.0 && low.chromosome[1] == 0.0;
    assert low.chromosome == [0.0, 0.0];
    var mid := Blx(p1, p2, [5.0, 5.0]);
    assert mid.chromosome[0] == 5.0 && mid.chromosome[1] == 5.0;
    assert mid.chromosome == [5.0, 5.0];
  }

  // ---------------------------------------------------------------------------
  // Mutation
  // ---------------------------------------------------------------------------

  /** static_cast<int> of a double: truncation toward zero. */
  function Trunc(x: real): int
  {
    if x >= 0.0 then x.Floor else -((-x).Floor)
  }

  /** Clamping of a mutated gene into [-Bound, Bound]. */
  function Clamp(x: real): real
  {
    if x < -Bound then -Bound else if x > Bound then Bound else x
  }

  /**
   * How many mutation steps gaussian_mutation takes for `dimension` genes,
   * `mutationRate` and the integer draw `extra` from {0, 1}: the truncated
   * product, plus one when the draw is below the product's fractional part.
   */
  function MutationSteps(dimension: nat, mutationRate: real, extra: int): nat
  {
    var product := dimension as real * mutationRate;
    var fixedMutations := Trunc(product);
    var optionalMutation := product - fixedMutations as real;
    var count := fixedMutations + if (extra as real) < optionalMutation then 1 else 0;
    if count < 0 then 0 else count
  }

  /** The step count, for a count computed as gaussian_mutation computes it. */
  lemma MutationStepsUnfold(dimension: nat, mutationRate: real, extra: int, count: int)
    requires var product := dimension as real * mutationRate;
      count == Trunc(product) + if (extra as real) < product - Trunc(product) as real then 1 else 0
    ensures MutationSteps(dimension, mutationRate, extra) == if count < 0 then 0 else count
  {
  }

  /**
   * The genes after the given mutation steps, in order: step s adds deltas[s]
   * to gene indices[s] and clamps the sum.
   */
  function Mutated(genes: seq<real>, indices: seq<int>, deltas: seq<real>): (mutated: seq<real>)
    requires |indices| == |deltas|
    requires forall s :: 0 <= s < |indices| ==> 0 <= indices[s] < |genes|
    ensures |mutated| == |genes|
    decreases |indices|
  {
    if |indices| == 0 then genes
    else
      var last := |indices| - 1;
      var before := Mutated(genes, indices[..last], deltas[..last]);
      before[indices[last] := Clamp(before[indices[last]] + deltas[last])]
  }

  /**
   * Knight::gaussian_mutation on the chromosome in place. `extra` is the
   * integer draw from {0, 1}; indices[s] is the uniform index drawn at step s
   * (with replacement) and deltas[s] the Gaussian perturbation drawn with it.
   */
  method GaussianMutation(chromosome: array<real>, mutationRate: real, extra: int,
                          indices: seq<int>, deltas: seq<real>)
    requires 0 <= extra <= 1
    requires |indices| == |deltas| == MutationSteps(chromosome.Length, mutationRate, extra)
    requires forall s :: 0 <= s < |indices| ==> 0 <= indices[s] < chromosome.Length
    modifies chromosome
    ensures chromosome[..] == Mutated(old(chromosome[..]), indices, deltas)
  {
    var dimension := chromosome.Length;
    var product := dimension as real * mutationRate;
    var fixedMutations := Trunc(product);
    var optionalMutation := product - fixedMutations as real;
    fixedMutations := fixedMutations + if (extra as real) < optionalMutation then 1 else 0;
    MutationStepsUnfold(dimension, mutationRate, extra, fixedMutations);

    var i := 0;
    while i < fixedMutations
      invariant 0 <= i <= |indices|
      invariant chromosome[..] == Mutated(old(chromosome[..]), indices[..i], deltas[..i])
    {
      ghost var before := chromosome[..];
      var index := indices[i];
      chromosome[index] := chromosome[index] + deltas[i];
      if chromosome[index] < -Bound {
        chromosome[index] := -Bound;
      } else if chromosome[index] > Bound {
        chromosome[index] := Bound;
      }
      assert chromosome[..] == before[index := Clamp(before[index] + deltas[i])];
      assert indices[..i + 1][..i] == indices[..i];
      assert deltas[..i + 1][..i] == deltas[..i];
      i := i + 1;
    }
    assert indices[..i] == indices;
    assert deltas[..i] == deltas;
  }

  /** Knight::mutate: gaussian_mutation with standard deviation 100.0. */
  method Mutate(knight: Knight, mutationRate: real, extra: int, indices: seq<int>, deltas: seq<real>)
    returns (mutated: Knight)
    requires 0 <= extra <= 1
    requires |indices| == |deltas| == MutationSteps(|knight.chromosome|, mutationRate, extra)
    requires forall s :: 0 <= s < |indices| ==> 0 <= indices[s] < |knight.chromosome|
    ensures mutated.chromosome == Mutated(knight.chromosome, indices, deltas)
  {
    var chromosome := new real[|knight.chromosome|](i requires 0 <= i < |knight.chromosome| => knight.chromosome[i]);
    assert chromosome[..] == knight.chromosome;
    GaussianMutation(chromosome, mutationRate, extra, indices, deltas);
    mutated := Knight(chromosome[..]);
  }

  /**
   * For a non-negative rate the step count is the floor of d·r, plus one
   * exactly when the {0, 1} draw is 0 and d·r has a positive fractional part.
   */
  lemma MutationStepsCount(dimension: nat, mutationRate: real, extra: int)
    requires mutationRate >= 0.0
    requires 0 <= extra <= 1
    ensures var product := dimension as real * mutationRate;
      MutationSteps(dimension, mutationRate, extra)
        == product.Floor + if extra == 0 && product > product.Floor as real then 1 else 0
  {
    var product := dimension as real * mutationRate;
    assert product >= 0.0;
    assert Trunc(product) == product.Floor;
  }

  /** A gene that no step draws keeps its value. */
  lemma {:induction false} MutatedUntouched(genes: seq<real>, indices: seq<int>, deltas: seq<real>, i: int)
    requires |indices| == |deltas|
    requires forall s :: 0 <= s < |indices| ==> 0 <= indices[s] < |genes|
    requires 0 <= i < |genes|
    requires i !in indices
    ensures Mutated(genes, indices, deltas)[i] == genes[i]
    decreases |indices|
  {
    if |indices| > 0 {
      var last := |indices| - 1;
      assert i !in indices[..last];
      MutatedUntouched(genes, indices[..last], deltas[..last], i);
    }
  }

  /** A gene that some step draws ends up in [-Bound, Bound], whatever it was before. */
  lemma {:induction false} MutatedDrawnInBounds(genes: seq<real>, indices: seq<int>, deltas: seq<real>, i: int)
    requires |indices| == |deltas|
    requires forall s :: 0 <= s < |indices| ==> 0 <= indices[s] < |genes|
    requires i in indices
    ensures 0 <= i < |genes|
    ensures -Bound <= Mutated(genes, indices, deltas)[i] <= Bound
    decreases |indices|
  {
    var last := |indices| - 1;
    if indices[last] != i {
      assert i in indices[..last] by {
        var s :| 0 <= s < |indices| && indices[s] == i;
        assert s < last && indices[..last][s] == i;
      }
      MutatedDrawnInBounds(genes, indices[..last], deltas[..last], i);
    }
  }

  /** Mutation keeps a knight that is in bounds in bounds. */
  lemma MutatedKeepsBounds(genes: seq<real>, indices: seq<int>, deltas: seq<real>)
    requires |indices| == |deltas|
    requires forall s :: 0 <= s < |indices| ==> 0 <= indices[s] < |genes|
    requires InBounds(Knight(genes))
    ensures InBounds(Knight(Mutated(genes, indices, deltas)))
  {
    forall i | 0 <= i < |genes|
      ensures -Bound <= Mutated(genes, indices, deltas)[i] <= Bound
    {
      if i in indices {
        MutatedDrawnInBounds(genes, indices, deltas, i);
      } else {
        MutatedUntouched(genes, indices, deltas, i);
      }
    }
  }

  // ---------------------------------------------------------------------------
  // Fitness
  // ---------------------------------------------------------------------------

  /** Knight::fitness as a value: the oracle's value, or a bounds violation. */
  function Evaluate(oracle: Oracle, knight: Knight): Outcome<real>
  {
    if InBounds(knight) then Ok(oracle(knight.chromosome)) else BoundsViolation
  }

  /**
   * Knight::fitness: calls the oracle, then finds the largest gene magnitude
   * and stops the run when it exceeds Bound.
   */
  method Fitness(oracle: Oracle, knight: Knight) returns (fitness: Outcome<real>)
    ensures fitness.Ok? <==> InBounds(knight)
    ensures fitness.Ok? ==> fitness.value == oracle(knight.chromosome)
    ensures fitness == Evaluate(oracle, knight)
  {
    var value := oracle(knight.chromosome);
    var distance := 0.0;
    for i := 0 to |knight.chromosome|
      invariant distance <= Bound <==> forall k :: 0 <= k < i ==> -Bound <= knight.chromosome[k] <= Bound
    {
      distance := Max(distance, Abs(knight.chromosome[i]));
    }
    if distance > Bound {
      fitness := BoundsViolation;
    } else {
      fitness := Ok(value);
    }
  }
}
