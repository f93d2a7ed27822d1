/**
 * Castles: the slots of the population. A castle holds its owner (the king),
 * the king's fitness and a war-exhaustion counter. A challenger knight may
 * take a castle by siege; two castles with near kings may merge into an
 * alliance.
 */
module Castles {
  import opened Knights

  /** The values of an `unsigned int`. */
  newtype uint32 = x: int | 0 <= x < 0x1_0000_0000

  const MaxUint32: uint32 := 0xFFFF_FFFF

  /**
   * Castle(knight, fitness, war_exhaustion = 0). The source's accessors
   * get_king and get_fitness are the fields `king` and `fitness`, and its copy
   * constructor and assignment are value copies.
   */
  datatype Castle = Castle(king: Knight, fitness: real, warExhaustion: uint32 := 0)

  /** `war_exhaustion++` on an unsigned int: wraps to 0 after 2^32 - 1. */
  function Increment(e: uint32): uint32
  {
    if e == MaxUint32 then 0 else e + 1
  }

  /**
   * Castle::sigmoid, 1 / (1 + e^-x), is abstract here; on the non-negative
   * exhaustion counter it lies in [1/2, 1).
   */
  ghost predicate ValidSigmoid(sigmoid: real -> real)
  {
    forall x: real :: x >= 0.0 ==> 0.5 <= sigmoid(x) < 1.0
  }

  // ---------------------------------------------------------------------------
  // Comparisons
  // ---------------------------------------------------------------------------

  /** Castle::operator<: lexicographic on (fitness, war_exhaustion). */
  predicate Less(a: Castle, b: Castle)
  {
    a.fitness < b.fitness || (a.fitness == b.fitness && a.warExhaustion < b.warExhaustion)
  }

  /** Castle::operator==: Knight-equal kings, equal fitness and equal exhaustion. */
  predicate Same(a: Castle, b: Castle)
    requires |a.king.chromosome| <= |b.king.chromosome|
  {
    Equal(a.king, b.king) && a.fitness == b.fitness && a.warExhaustion == b.warExhaustion
  }

  lemma LessIrreflexive(a: Castle)
    ensures !Less(a, a)
  {
  }

  lemma LessTransitive(a: Castle, b: Castle, c: Castle)
    requires Less(a, b) && Less(b, c)
    ensures Less(a, c)
  {
  }

  /** Two castles are unordered by Less exactly when their sort keys agree. */
  lemma LessUnorderedIffSameKey(a: Castle, b: Castle)
    ensures (!Less(a, b) && !Less(b, a)) <==> (a.fitness == b.fitness && a.warExhaustion == b.warExhaustion)
  {
  }

  /** Castles equal under == are unordered under <. */
  lemma SameIsUnordered(a: Castle, b: Castle)
    requires |a.king.chromosome| <= |b.king.chromosome|
    requires Same(a, b)
    ensures !Less(a, b) && !Less(b, a)
  {
  }

  // ---------------------------------------------------------------------------
  // Crossover and alliances
  // ---------------------------------------------------------------------------

  /** Castle::crossover: the crossover of this castle's king with the other's. */
  method Crossover(castle: Castle, other: Castle, alphas: seq<real>) returns (child: Knight)
    requires |castle.king.chromosome| <= |other.king.chromosome|
    requires ValidAlphas(castle.king, other.king, alphas)
    ensures child == Blx(castle.king, other.king, alphas)
  {
    child := Cross(castle.king, other.king, alphas);
  }

  /** Castle::can_ally: the kings are near at tolerance `epsilon`. */
  predicate CanAlly(castle: Castle, other: Castle, epsilon: real)
    requires |castle.king.chromosome| <= |other.king.chromosome|
  {
    IsNear(castle.king, other.king, epsilon)
  }

  lemma CanAllySymmetric(a: Castle, b: Castle, epsilon: real)
    requires |a.king.chromosome| == |b.king.chromosome|
    ensures CanAlly(a, b, epsilon) <==> CanAlly(b, a, epsilon)
  {
    IsNearSymmetric(a.king, b.king, epsilon);
  }

  function MinExhaustion(a: uint32, b: uint32): uint32 { if b < a then b else a }

  /**
   * Castle::alliance: a new castle whose king is the crossover of the two
   * kings (this castle's first), evaluated once by the oracle, with the smaller
   * of the two exhaustion counters. The evaluation stops the run when the new
   * king is out of bounds.
   */
  function Alliance(oracle: Oracle, castle: Castle, other: Castle, alphas: seq<real>): (allied: Outcome<Castle>)
    requires |castle.king.chromosome| <= |other.king.chromosome|
    requires |castle.king.chromosome| <= |alphas|
    ensures allied.Ok? <==> InBounds(Blx(castle.king, other.king, alphas))
    ensures allied.Ok? ==> allied.value.king == Blx(castle.king, other.king, alphas)
    ensures allied.Ok? ==> allied.value.fitness == oracle(allied.value.king.chromosome)
    ensures allied.Ok? ==>
      && allied.value.warExhaustion <= castle.warExhaustion
      && allied.value.warExhaustion <= other.warExhaustion
      && (allied.value.warExhaustion == castle.warExhaustion || allied.value.warExhaustion == other.warExhaustion)
  {
    var newKing := Blx(castle.king, other.king, alphas);
    match Evaluate(oracle, newKing)
    case Ok(newFitness) => Ok(Castle(newKing, newFitness, MinExhaustion(castle.warExhaustion, other.warExhaustion)))
    case BoundsViolation => BoundsViolation
  }

  // ---------------------------------------------------------------------------
  // Siege
  // ---------------------------------------------------------------------------

  /**
   * The siege strength sigmoid(e) · knightFitness / fitness exceeds the draw
   * p. A zero fitness makes the IEEE quotient +infinity when the numerator is
   * positive and NaN when it is zero (negative otherwise gives -infinity); only
   * the first compares above p.
   */
  predicate Overwhelms(sigmoid: real -> real, warExhaustion: uint32, knightFitness: real, fitness: real, p: real)
  {
    var strength := sigmoid(warExhaustion as real) * knightFitness;
    if fitness != 0.0 then p < strength / fitness else strength > 0.0
  }

  /** The outcome of a siege as a value: whether it succeeded, and the castle after it. */
  function SiegeResult(sigmoid: real -> real, castle: Castle, knight: Knight, knightFitness: real, p: real): (bool, Castle)
  {
    if knightFitness < castle.fitness || Overwhelms(sigmoid, castle.warExhaustion, knightFitness, castle.fitness, p)
    then (true, Castle(knight, knightFitness, 0))
    else (false, castle.(warExhaustion := Increment(castle.warExhaustion)))
  }

  /**
   * Castle::siege. A strictly better challenger always takes the castle;
   * otherwise it takes it when the draw p from [0, 1] falls below the siege
   * strength. A taken castle gets the challenger as king, its fitness and
   * exhaustion 0; a defended one keeps its king and fitness and its exhaustion
   * goes up by one.
   */
  method Siege(sigmoid: real -> real, castle: Castle, knight: Knight, knightFitness: real, p: real)
    returns (sieged: bool, after: Castle)
    requires 0.0 <= p <= 1.0
    ensures (sieged, after) == SiegeResult(sigmoid, castle, knight, knightFitness, p)
    ensures knightFitness < castle.fitness ==> sieged
    ensures sieged <==> knightFitness < castle.fitness
                        || Overwhelms(sigmoid, castle.warExhaustion, knightFitness, castle.fitness, p)
    ensures sieged ==> after == Castle(knight, knightFitness, 0)
    ensures !sieged ==> after == castle.(warExhaustion := Increment(castle.warExhaustion))
  {
    after := castle;
    if knightFitness < after.fitness {
      after := after.(king := knight, fitness := knightFitness, warExhaustion := 0);
      return true, after;
    }

    if Overwhelms(sigmoid, after.warExhaustion, knightFitness, after.fitness, p) {
      after := after.(king := knight, fitness := knightFitness, warExhaustion := 0);
      return true, after;
    }

    after := after.(warExhaustion := Increment(after.warExhaustion));
    sieged := false;
  }

  lemma QuotientAtLeast(a: real, b: real, k: real)
    requires b > 0.0 && a >= k * b
    ensures a / b >= k
  {
    var q := a / b;
    assert q * b == a;
    if q < k {
      assert (k - q) * b > 0.0;
    }
  }

  lemma QuotientScales(s: real, a: real, b: real)
    requires b != 0.0
    ensures (s * a) / b == s * (a / b)
  {
    assert (a / b) * b == a;
    assert s * (a / b) * b == s * a;
  }

  /** A failed siege raises the exhaustion by exactly one, short of the wrap-around. */
  lemma FailedSiegeAddsOne(sigmoid: real -> real, castle: Castle, knight: Knight, knightFitness: real, p: real)
    requires castle.warExhaustion < MaxUint32
    requires !SiegeResult(sigmoid, castle, knight, knightFitness, p).0
    ensures var after := SiegeResult(sigmoid, castle, knight, knightFitness, p).1;
      after.king == castle.king && after.fitness == castle.fitness
      && after.warExhaustion as int == castle.warExhaustion as int + 1
  {
  }

  /**
   * The unusual direction of the contest: a challenger that is no better than
   * the king of a castle with positive fitness still wins whenever the draw is
   * below 1/2, because the strength is at least sigmoid(0) = 1/2 times a ratio
   * of at least 1.
   */
  lemma WorseChallengerWinsOnLowDraw(sigmoid: real -> real, castle: Castle, knight: Knight, knightFitness: real, p: real)
    requires ValidSigmoid(sigmoid)
    requires 0.0 < castle.fitness <= knightFitness
    requires 0.0 <= p < 0.5
    ensures SiegeResult(sigmoid, castle, knight, knightFitness, p).0
  {
    var s := sigmoid(castle.warExhaustion as real);
    assert 0.5 <= s;
    var ratio := knightFitness / castle.fitness;
    QuotientAtLeast(knightFitness, castle.fitness, 1.0);
    assert s * ratio >= 0.5 * ratio >= 0.5;
    QuotientScales(s, knightFitness, castle.fitness);
    assert p < (s * knightFitness) / castle.fitness;
    assert Overwhelms(sigmoid, castle.warExhaustion, knightFitness, castle.fitness, p);
  }

  /** A challenger at least twice as bad as a positive king still always wins below p = 1. */
  lemma MuchWorseChallengerAlwaysWins(sigmoid: real -> real, castle: Castle, knight: Knight, knightFitness: real, p: real)
    requires ValidSigmoid(sigmoid)
    requires 0.0 < castle.fitness && 2.0 * castle.fitness <= knightFitness
    requires 0.0 <= p < 1.0
    ensures SiegeResult(sigmoid, castle, knight, knightFitness, p).0
  {
    var s := sigmoid(castle.warExhaustion as real);
    assert 0.5 <= s;
    var ratio := knightFitness / castle.fitness;
    QuotientAtLeast(knightFitness, castle.fitness, 2.0);
    assert s * ratio >= 0.5 * ratio >= 1.0;
    QuotientScales(s, knightFitness, castle.fitness);
    assert p < (s * knightFitness) / castle.fitness;
    assert Overwhelms(sigmoid, castle.warExhaustion, knightFitness, castle.fitness, p);
  }
}
