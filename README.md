# Castle Siege evolutionary algorithm — a verified model

The Castle Siege Evolutionary Algorithm (CSEA) minimises a black-box objective over vectors of
real genes in [-100, 100]. Its population is a list of **castles**. Each castle holds:
- a **king**, a knight, which is one candidate vector;
- the king's **fitness**;
- a **war-exhaustion** counter.

Each generation runs four steps:
1. It crosses every pair of castles (i, j) with i < j, in ascending order, using an asymmetric
   BLX crossover, and mutates each child. These children are the **challengers**.
2. Each challenger lays **siege** to a random castle. It takes the castle when it is strictly
   better. Otherwise it takes it when a draw falls below the siege strength
   sigmoid(exhaustion) · challenger fitness / castle fitness. A defended castle's exhaustion goes
   up by one.
3. It **forms alliances**: a scan in which each castle not yet allied merges with every later
   unallied castle whose king is near its own. The merged castle's king is the crossover of the
   two kings.
4. It **completes the population**: the best knight is put back if no king equals it, and fresh
   random castles fill the population up to its nominal size.

The main loop repeats generations while the evaluations so far, plus a per-generation bound,
stay below the budget. Throughout, it keeps a best-so-far record with two counters, the
generation and the evaluations.

The model has three modules, one per file:
- `knight.dfy` (`Knights`): the knight. It covers equality, nearness, crossover, mutation and
  evaluation.
- `castle.dfy` (`Castles`): the castle. It covers ordering, equality, siege, alliance and
  crossover.
- `csea.dfy` (`Csea`): the population operators and the main loop.

Knights and castles are values in the source: it copies them by copy constructor and
assignment, and keeps them in vectors by value. So they are datatypes here.

The source's loops are methods with loop invariants:
- the knight constructor;
- the BLX crossover;
- the in-place Gaussian mutation, on an `array<real>`;
- the bounds check of `Knight::fitness`;
- all population operators and the main loop.

`Castle::siege` has no loop. It is a method because it changes the castle, and it returns the
new castle.

Each method is proved against a function that specifies it. Examples:
- `Blx` and `Mutated` for the knight;
- `SiegeResult` for the castle;
- `FreshPopulation`, `Challengers`, `SiegeFrom`, `Formed` and `Refilled` for the population
  operators;
- `InitialState` and `NextGeneration` for the main loop.

The properties the source promises are then proved about those functions. `Run` also returns,
as a ghost value, the whole run as a history of states. Each state is the `NextGeneration` of
the one before.

Three inputs are parameters rather than code:
- **The objective function** (`cec17_fitness`) is an `Oracle`, `seq<real> -> real`. Nothing is
  assumed about it.
- **The sigmoid** is a `real -> real` parameter. Where a lemma needs it, the parameter is
  assumed to lie in [1/2, 1) on non-negative inputs (`ValidSigmoid`).
- **Every random draw** is an argument: a sequence, or a function indexed by the draw's
  position. The interval the source draws it from is a precondition: see `GenerationDraws.Valid`
  and `ValidGenes`.

`Knight::fitness` ends the program with `exit(1)` when a gene is outside [-100, 100]. Here that
is an error outcome, `Outcome.BoundsViolation`, which every operation that evaluates a knight
passes on. A precondition would not do: the crossover can produce such a knight, so no caller
could discharge it.

## Model

| member | source | states |
|---|---|---|
| Knights.EqualIsNearAtMachineEpsilon | inc/knight.h:70-80 | Knight `==` holds exactly when every gene pair differs by at most machine epsilon (2^-52), i.e. it is `is_near` at that tolerance |
| Knights.EqualReflexive | inc/knight.h:70-80 | every knight is `==` to itself |
| Knights.EqualSymmetric | inc/knight.h:70-80 | for knights of equal length, `a == b` exactly when `b == a` |
| Knights.EqualNotTransitive | inc/knight.h:70-80 | `==` is not transitive: 0 == ε and ε == 2ε, but 0 != 2ε |
| Knights.IsNearOfSameGenes | inc/knight.h:89-96 | knights with identical genes are near at any non-negative tolerance |
| Knights.IsNearSymmetric | inc/knight.h:89-96 | for knights of equal length, `is_near` is symmetric |
| Knights.IsNearReflexive | inc/knight.h:89-96 | a knight is near itself at any non-negative tolerance |
| Knights.IsNearMonotone | inc/knight.h:89-96 | near at a tolerance implies near at every wider tolerance |
| Knights.NewKnight | src/knight.cpp:12-19 | the new knight has `dimension` genes; all are 0 without randomisation, otherwise they are the draws, each in [-radius, radius] |
| Knights.BlxAlpha | src/knight.cpp:21-31 | the child is the BLX child (`Blx`): as long as parent1, and gene i lies in [min − range/2, (min + max)/2] |
| Knights.Cross | inc/knight.h:110 | `cross` is `blx_alpha` with this knight as parent1 |
| Knights.BlxGeneInterval | src/knight.cpp:25-31 | every child gene lies in [min − range/2, (min + max)/2] of the parents' genes, which is asymmetric about the parents |
| Knights.BlxOfIdenticalParents | src/knight.cpp:28-30 | crossing a knight with itself returns it unchanged (range 0 forces alpha 0) |
| Knights.BlxMayLeaveBounds | src/knight.cpp:26-30 | crossover does not clamp: parents −100 and 100 with alpha −100 give the gene −200, outside the bounds |
| Knights.BlxInBounds | src/knight.cpp:26-30 | the child is in bounds when both parents are and min − range/2 ≥ −100 at every gene |
| Knights.BlxExamples | src/knight.cpp:25-31 | two worked crossovers of (0, 0) with (10, 10), at alpha 0 and at alpha 5 |
| Knights.MutationStepsCount | src/knight.cpp:40-42 | for r ≥ 0 and a draw in {0, 1}, the step count is ⌊d·r⌋ plus one exactly when the draw is 0 and d·r has a fractional part |
| Knights.GaussianMutation | src/knight.cpp:36-58 | the array, updated in place, becomes `Mutated` of its old contents: each drawn index gets its delta added and is then clamped to [−100, 100] |
| Knights.Mutate | inc/knight.h:117-119 | `mutate` is `gaussian_mutation` on a copy of the genes, and the result is `Mutated` of them |
| Knights.MutatedUntouched | src/knight.cpp:46-56 | a gene whose index is never drawn keeps its value |
| Knights.MutatedDrawnInBounds | src/knight.cpp:52-56 | a gene whose index is drawn ends up in [−100, 100] |
| Knights.MutatedKeepsBounds | src/knight.cpp:49-56 | a knight in bounds stays in bounds after mutation |
| Knights.Fitness | inc/knight.h:125-143 | the evaluation succeeds exactly when every gene is in [−100, 100], and then returns the oracle's value; otherwise it is the bounds violation |
| Castles.LessIrreflexive | inc/castle.h:73-76 | `<` is irreflexive |
| Castles.LessTransitive | inc/castle.h:73-76 | `<` is transitive |
| Castles.LessUnorderedIffSameKey | inc/castle.h:73-76 | two castles are unordered by `<` exactly when fitness and exhaustion agree (lexicographic order) |
| Castles.SameIsUnordered | inc/castle.h:63-66 | castles equal under `==` (Knight-equal kings, equal fitness, equal exhaustion) are unordered by `<` |
| Castles.Crossover | inc/castle.h:95 | the crossover of two castles is the crossover of their kings, this castle's first |
| Castles.CanAllySymmetric | src/castle.cpp:36-39 | `can_ally` is `is_near` of the kings, so it is symmetric |
| Castles.Alliance | src/castle.cpp:41-47 | the alliance succeeds exactly when the crossed king is in bounds; its king is that crossover, its fitness is the oracle's value of it, and its exhaustion is the smaller of the two |
| Castles.Siege | src/castle.cpp:10-34 | a strictly better challenger always wins; otherwise it wins exactly when p < sigmoid(e)·knight fitness / fitness. A win installs the challenger with exhaustion 0; a defence keeps king and fitness and increments the 32-bit exhaustion |
| Castles.FailedSiegeAddsOne | src/castle.cpp:31-33 | a failed siege leaves king and fitness unchanged and raises exhaustion by exactly one, short of wrap-around |
| Castles.WorseChallengerWinsOnLowDraw | src/castle.cpp:20-23 | with a positive castle fitness and the sigmoid in [1/2, 1), a challenger that is no better still wins whenever p < 1/2 |
| Castles.MuchWorseChallengerAlwaysWins | src/castle.cpp:20-23 | a challenger at least twice as bad as a positive king wins for every p < 1 |
| Csea.EvaluationsUpperBound | src/csea.cpp:155-162 | for a non-negative population size, the per-generation bound is non-negative |
| Csea.EvaluationsUpperBoundValue | src/csea.cpp:155-162 | the bound is the number of challengers n(n−1)/2 plus twice ⌊n/2⌋ |
| Csea.EvaluationsUpperBoundOf25 | src/csea.cpp:155-162 | for population size 25 the bound is 300 + 12 + 12 = 324 |
| Csea.GrownPopulationReachesBound | src/csea.cpp:21 | once the population has grown to n + 1 castles, its challengers alone meet the bound for n, and exceed it when n is odd |
| Csea.PairsLength | src/csea.cpp:57-62 | there are exactly n(n−1)/2 pairs |
| Csea.PairsComplete | src/csea.cpp:57-62 | every pair i < j < n is crossed |
| Csea.PairsAscending | src/csea.cpp:57-62 | the pairs come in strictly ascending lexicographic order |
| Csea.PairsAt | src/csea.cpp:57-62 | pair (i, j) sits at position |pairs below row i| + (j − i − 1) |
| Csea.SortSorted | src/csea.cpp:16 | the sort is ordered by Castle `<` |
| Csea.SortFirstMinimal | src/csea.cpp:16-17 | the first castle after sorting is one of the population, and no castle is `<` it |
| Csea.SortKeepsEvaluated | src/csea.cpp:16 | sorting keeps every castle, so every king keeps its length and its true, in-bounds fitness |
| Csea.FreshCastleEvaluated | src/csea.cpp:45-47 | a fresh castle has `dimension` in-bounds genes, its oracle fitness and exhaustion 0 |
| Csea.NewCastle | src/csea.cpp:45-47 | a fresh knight, evaluated once, becomes a castle with its fitness |
| Csea.GenerateInitialPopulation | src/csea.cpp:42-50 | the population is `FreshPopulation`: population_size castles (none for a negative size), castle c the c-th fresh castle |
| Csea.ChildAlphasValid | src/knight.cpp:28-29 | every alpha of a challenger's crossover is drawn from [−range/2, range/2] |
| Csea.CrossPairs | src/csea.cpp:57-62 | one child per pair, in ascending pair order; child k is the crossover of pair k |
| Csea.MutateChild | src/csea.cpp:65-67 | each child is mutated at rate 0.005 with its own draws, which gives the challenger |
| Csea.GenerateNewGeneration | src/csea.cpp:52-70 | the knights are `Challengers`: exactly n(n−1)/2 of them, knight k the mutated crossover of the k-th pair, with the population's dimension |
| Csea.ChallengerCount | src/csea.cpp:57-62 | a generation of n castles has n(n−1)/2 challengers, at least one when n ≥ 2 |
| Csea.ChallengerUndrawnGene | src/csea.cpp:65-67 | a challenger gene that mutation did not draw is the crossover's gene |
| Csea.SiegeStep | src/csea.cpp:74-88 | one siege keeps the population's length |
| Csea.SiegeFrom | src/csea.cpp:74-88 | the sieges keep the length, add one evaluation per challenger, never raise the best fitness and keep the generation |
| Csea.SiegeCastles | src/csea.cpp:72-89 | the loop computes `SiegeFrom` from the first challenger |
| Csea.SiegeFromOkIff | src/csea.cpp:75 | the sieges stop the run exactly when some challenger is out of bounds |
| Csea.SiegeFromUntargeted | src/csea.cpp:78-80 | a castle that no challenger targets is unchanged |
| Csea.SiegeFromKeepsEvaluated | src/csea.cpp:74-88 | every castle, and the best record, keep their length and their true, in-bounds fitness |
| Csea.SiegeStepBest | src/csea.cpp:75-87 | only the targeted castle changes, to the siege's result; the best is replaced exactly when the siege succeeded with a strictly smaller fitness; one evaluation |
| Csea.Promote | src/csea.cpp:110-118 | one evaluation; the record's fitness becomes the larger of the two and its knight the alliance's exactly when that fitness is strictly greater |
| Csea.ScanStart | src/csea.cpp:93-95 | the empty scan with no flags set satisfies the outer invariant at leader 0 |
| Csea.ScanSkipLeader | src/csea.cpp:96-97 | an allied leader is skipped without breaking the outer invariant |
| Csea.ScanStartLeader | src/csea.cpp:99-101 | an unallied leader starts its inner scan at i + 1 |
| Csea.ScanSkipPartner | src/csea.cpp:102-103 | skipping an allied or non-near partner keeps the inner invariant |
| Csea.MergePairsValid | src/csea.cpp:107-113 | a new alliance keeps the alliances ascending, with each partner joining once and never leading |
| Csea.MergeFlags | src/csea.cpp:112-113 | after setting both flags, they mark exactly the castles that took part in an alliance |
| Csea.MergeOrigins | src/csea.cpp:109-111 | the merged castle joins the new population as the newest alliance |
| Csea.MergeBest | src/csea.cpp:110-118 | the best record keeps one evaluation per alliance and a fitness that bounds every alliance's |
| Csea.MergePositions | src/csea.cpp:101-119 | a merge keeps the scan's position facts: the size equation and the kept castles' order |
| Csea.ScanMerge | src/csea.cpp:107-119 | a merge of leader i with near, unallied j keeps the inner invariant |
| Csea.EndLeaderOrigins | src/csea.cpp:121-124 | an unallied leader is kept, after all earlier kept castles |
| Csea.EndLeaderBest | src/csea.cpp:121-124 | keeping a castle does not disturb the best record |
| Csea.ScanEndAllied | src/csea.cpp:101-124 | after its inner scan, an allied leader leaves the outer invariant at i + 1 |
| Csea.ScanEndKept | src/csea.cpp:121-124 | after its inner scan, an unallied leader is kept and the outer invariant holds at i + 1 |
| Csea.ScanEndLeader | src/csea.cpp:101-124 | the end of every leader's turn re-establishes the outer invariant |
| Csea.ScanEvaluated | src/csea.cpp:91-128 | every new castle, and the best record, have their true, in-bounds fitness |
| Csea.AllianceStep | src/csea.cpp:102-119 | one partner step moves the reference inner scan `PartnersFrom` on by one castle, or returns the stop it reaches at an out-of-bounds alliance |
| Csea.LeaderTurn | src/csea.cpp:96-124 | one leader's turn moves the reference outer scan `LeadersFrom` on by one leader, or returns the stop it reaches at an out-of-bounds alliance |
| Csea.ScanFinish | src/csea.cpp:91-128 | the finished scan: size equation, no two unallied castles could have allied, and every unallied castle is kept |
| Csea.ScanLeaders | src/csea.cpp:93-125 | the two loops compute `Formed`: its finished scan, or the alliances up to the one out of bounds |
| Csea.LeadersDoneGrows | src/csea.cpp:101-119 | a later alliance leaves every finished leader finished |
| Csea.LeaderDone | src/csea.cpp:101-120 | after its inner loop, which has no break, leader i has allied with every later near castle that no earlier leader took |
| Csea.MergeInterleaved | src/csea.cpp:109-111 | a new alliance is placed after every kept castle, all of which lie below its leader |
| Csea.EndLeaderInterleaved | src/csea.cpp:121-124 | a kept leader is placed after every alliance, none of which is led from above it |
| Csea.PartnersStopped | src/csea.cpp:107-109 | an out-of-bounds alliance stops the scan, with every earlier alliance in order |
| Csea.PartnersAdvance | src/csea.cpp:101-120 | one turn of the inner loop either stops at an out-of-bounds alliance or keeps the inner invariant on the way to the same end |
| Csea.PartnersEnded | src/csea.cpp:120-124 | once the partners run out, the leader's turn restores the outer invariant at i + 1 |
| Csea.PartnersFromDone | src/csea.cpp:101-124 | an inner loop that runs to its end leaves the outer invariant at i + 1 |
| Csea.PartnersFromStopped | src/csea.cpp:101-120 | an inner loop stops only at an out-of-bounds alliance, with every earlier alliance in order |
| Csea.LeadersFromDone | src/csea.cpp:95-125 | an outer loop that runs to its end leaves the outer invariant at the population's end |
| Csea.LeadersFromStopped | src/csea.cpp:95-125 | an outer loop stops only at an out-of-bounds alliance, with every earlier alliance in order |
| Csea.FormedValid | src/csea.cpp:91-128 | `Formed` either finishes with every property listed for `Csea.FormAlliances` below, or stops at an out-of-bounds alliance with every earlier one in order |
| Csea.AlliedExactly | src/csea.cpp:95-120 | in a finished scan, (x, y) is an alliance exactly when x < y, x joined no alliance as a partner, no leader before x took y, and the kings are near |
| Csea.FormAlliances | src/csea.cpp:91-128 | See the bullets after this table. |
| Csea.HasKingGrows | src/csea.cpp:142-152 | a king that is present stays present as the population grows |
| Csea.FindKing | src/csea.cpp:133-139 | the search finds a castle exactly when some king is Knight-equal to the best knight |
| Csea.RestoreBest | src/csea.cpp:133-144 | the best knight is appended, with its fitness and exhaustion 0, exactly when no king equals it; afterwards a king equals it |
| Csea.FillPopulation | src/csea.cpp:147-152 | fresh castles are appended until the population reaches the size: one evaluation each, the old castles untouched |
| Csea.CompletePopulation | src/csea.cpp:130-153 | See the bullets after this table. |
| Csea.Initialize | src/csea.cpp:14-18 | the population and the record are `InitialState`: the fresh castles sorted, the record taken from the first, generation 0 and population_size evaluations; the best is one of the fresh kings and no fresh castle is fitter |
| Csea.NextGenerationCounts | src/csea.cpp:24-36 | a generation that succeeds adds exactly one evaluation per challenger, per alliance and per fresh castle, and one generation |
| Csea.NextGenerationStops | src/csea.cpp:25-34 | a generation stops exactly when a challenger is out of bounds or the alliances stop, and then at an out-of-bounds alliance |
| Csea.Generation | src/csea.cpp:24-36 | See the bullets after this table. |
| Csea.RunsGrow | src/csea.cpp:23-37 | a run extended by one more generation, taken while the loop guard holds, is still a run |
| Csea.Advance | src/csea.cpp:23-37 | one turn of the loop extends the run by the next generation, or ends it where that generation stops |
| Csea.Run | src/csea.cpp:13-40 | See the bullets after this table. |

Csea.FormAlliances (src/csea.cpp:91-128):
- Its result is `Formed`, which follows the two loops castle by castle. It stops exactly at
  the first alliance out of bounds.
- The alliances pair each leader with a later, near castle, in ascending order.
- Each castle joins as a partner at most once. A partner never leads.
- A leader may lead several alliances.
- The flags mark exactly the participants.
- The new population has one entry per unallied castle plus one per alliance. Kept castles
  stay in their original order.
- The record gains one evaluation per alliance. Its fitness only grows, bounds every
  alliance's fitness, and is the old record's or an alliance's.
- No two unallied castles could have allied.
- The inner loop has no break. Every castle that joined no alliance as a partner allied with
  every later near castle that no earlier leader took.
- A kept castle comes after the alliances led from below it and before those led from above it.

Csea.CompletePopulation (src/csea.cpp:130-153):
- The result is `Refilled`, that is the restored population filled with fresh castles up to max(size after the
  restore, population_size).
- The best knight is present afterwards.
- Restoring it costs nothing. Each fresh castle costs one evaluation.

Csea.Generation (src/csea.cpp:24-36):
- Its outcome is `NextGeneration`: the sieges (`SiegeFrom`) of the challengers
  (`Challengers`), then the alliances (`Formed`), then the refill (`Refilled`), and one more
  generation.
- It stops exactly where the sieges or the alliances stop (`Csea.NextGenerationStops`).
- Evaluations go up by one per challenger, per alliance and per fresh castle
  (`Csea.NextGenerationCounts`).
- On success, at least population_size evaluated castles remain and the record is true.
- The generation count goes up by exactly one.
- Evaluations go up by at least the number of challengers.

Csea.Run (src/csea.cpp:13-40):
- The ghost history starts at `InitialState`. Each later state is the `NextGeneration` of the
  one before, taken while the loop guard held. State g is at generation g.
- On success, the result is the last state's record.
- On a bounds violation, the last state passed the loop guard and its generation stops.
- On success, the loop guard has failed: evaluations + bound ≥ max_evaluations.
- The record is a true, in-bounds knight.
- Evaluations are at least population_size + generation.
- No generation ran exactly when population_size + bound ≥ max_evaluations. In that case the
  result is the sorted initial best with population_size evaluations.

## Left out

- `main.cpp` is not part of this model. It holds the sweep over functions and dimensions, the
  seeding, `cec17_init` and the console output.
- `cec17_fitness` is an uninterpreted `Oracle` parameter. Only the number and order of its calls
  are modelled, through the evaluation counters.
- The random source (`random.hpp`, `normal_distribution`) is not part of this model. Draws are
  arguments with their intervals as preconditions, and the Gaussian deltas are arbitrary reals.
- The order in which the single random generator hands out draws is not modelled. Each draw is
  indexed by its position (child k, step s, siege k, alliance a, new castle c), which is
  equivalent once the draws are arbitrary.
- Floating point is modelled with exact `real` arithmetic:
  - the sigmoid's `exp` is abstract, bounded only where a lemma needs it;
  - rounding, NaN and infinities are not modelled;
  - except in `Castles.Overwhelms`, where a zero castle fitness is given its IEEE quotient:
    +infinity wins, NaN and −infinity lose.
- `Castles.Siege`: the draw p is taken for every challenger, while the source draws it only
  after the strict-improvement test fails. This matters only for the draw order, which is not
  modelled.
- The `int` counters `evaluations` and `generation`, and the `int` arithmetic of the
  evaluation bound, are unbounded integers. Their overflow is not modelled. `war_exhaustion` is
  a 32-bit unsigned counter with explicit wrap-around.
- `Knights.Fitness`: the `cout` report before `exit(1)` is left out. The exit is the
  `BoundsViolation` outcome, not a precondition, because crossover can produce out-of-bounds
  knights.
- `Csea.Run`: it requires population_size ≥ 2, or population_size 1 with a budget that
  runs no generation.
  - With 0, the source reads `population[0]` of an empty vector.
  - With 1 and a larger budget, a generation makes no evaluation and the loop never ends.
- `Csea.Run`: it states each generation's counters (through `NextGeneration` and
  `Csea.NextGenerationCounts`) and the loop guard, not a global
  `evaluations ≤ max_evaluations`. That bound does not hold: `Csea.RestoreBest` can grow the
  population past population_size, and `Csea.GrownPopulationReachesBound` shows the fixed
  bound is then exceeded.
- `Csea.Initialize`: it requires population_size ≥ 1, because the source reads
  `population[0]` after the sort.
- `Csea.CompletePopulation`: it requires population_size ≥ 0. With a negative size, the
  source's comparison of `size()` with an `int` converts the size to unsigned, and the fill
  loop does not terminate.
- `std::sort` is an insertion sort proved ordered, a permutation, and minimal at the head. The
  order among castles with equal keys, which `std::sort` leaves unspecified, is not modelled.
- `args.mutation_rate` and `args.sigma` are fields of `CseaArgs` that nothing reads, as in the
  source. The challengers are mutated at rate 0.005, and the Gaussian width of 100 only shapes
  the deltas.
- In-place updates are modelled as values:
  - `siege_castles` updates `population[castle_index]` in place; here the operators take the
    population as a `seq` value and return the new one. No two names alias a castle in the
    source, so nothing is lost but the in-place form.
  - Copy construction, assignment and the accessors `get_king`/`get_fitness` are datatype
    copies and fields.
- `form_alliances`, `complete_population`, `generate_new_generation` and `csea` are each split
  into several methods, one loop or phase each:
  - `ScanLeaders`/`LeaderTurn`/`AllianceStep`;
  - `RestoreBest`/`FindKing`/`FillPopulation`;
  - `CrossPairs`/`MutateChild`;
  - `Initialize`/`Generation`/`Advance`/`Run`.
  The composition follows the source's statement order.
