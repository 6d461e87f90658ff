/**
 * The interference-aware fitness of a test ordering
 * (`interference_aware_fitness` in `scripts/run_qpso.py`).
 *
 * Tests are "observed" in order. Each test's magnitude is reduced by half of
 * the interference penalty from the tests observed before it (their original
 * magnitudes, weighted by how in-phase they are), clamped at 0, and weighted
 * by its position `(n - rank) / n`. `math.cos` is a parameter `cos`; a lemma
 * that needs a property of the cosine says so in its requires.
 */
module InterferenceFitness {
  import opened Reals
  import opened Amplitudes
  import opened Permutation

  /** The damping constant applied to the accumulated penalty. */
  const Damping: real := 0.5

  /** A collapsed test: its original magnitude and its phase. */
  type Observation = (real, real)

  function Observe(test: TcaRecord): Observation {
    (test.magnitude, test.phase)
  }

  /** Every magnitude in the collapsed history is non-negative. */
  predicate NonNegativeHistory(covered: seq<Observation>) {
    forall j :: 0 <= j < |covered| ==> covered[j].0 >= 0.0
  }

  /** Every test case has a non-negative magnitude. */
  predicate NonNegativeMagnitudes(testCases: seq<TcaRecord>) {
    forall j :: 0 <= j < |testCases| ==> testCases[j].magnitude >= 0.0
  }

  /** `max(0, cos(|Δθ|))`: 0 for phases 90 degrees or more apart. */
  function Similarity(cos: real -> real, phase: real, covPhase: real): (s: real)
    ensures s >= 0.0
  {
    Max(0.0, cos(Abs(phase - covPhase)))
  }

  /** The interference penalty a test at `phase` receives from the history `covered`. */
  function Penalty(cos: real -> real, phase: real, covered: seq<Observation>): (p: real)
    ensures NonNegativeHistory(covered) ==> p >= 0.0
  {
    if covered == [] then 0.0
    else
      var last := covered[|covered| - 1];
      Penalty(cos, phase, covered[..|covered| - 1]) + Similarity(cos, phase, last.1) * last.0
  }

  /** The penalty over one more entry of the history. */
  lemma PenaltyStep(cos: real -> real, phase: real, covered: seq<Observation>, j: nat)
    requires j < |covered|
    ensures Penalty(cos, phase, covered[..j + 1])
         == Penalty(cos, phase, covered[..j]) + Similarity(cos, phase, covered[j].1) * covered[j].0
  {
    var prefix := covered[..j + 1];
    assert prefix[..j] == covered[..j];
  }

  /**
   * The effective magnitude of a test: never negative, 0 for a non-positive
   * magnitude, and at most the magnitude when no earlier magnitude is negative.
   */
  function EffectiveMagnitude(cos: real -> real, mag: real, phase: real, covered: seq<Observation>): (e: real)
    ensures e >= 0.0
    ensures mag <= 0.0 ==> e == 0.0
    ensures mag >= 0.0 && NonNegativeHistory(covered) ==> e <= mag
  {
    var penalty := if mag > 0.0 then Penalty(cos, phase, covered) else 0.0;
    Max(0.0, mag - penalty * Damping)
  }

  /** The position weight `(n - rank) / n`: 1 at rank 0, never below `1 / n`. */
  function PositionWeight(n: nat, rank: nat): (w: real)
    requires rank < n
    ensures 1.0 / n as real <= w <= 1.0
    ensures rank == 0 ==> w == 1.0
  {
    var d := n as real;
    var w := (n - rank) as real / d;
    assert w * d == (n - rank) as real;
    ProductBounds(w, d);
    w
  }

  /** For a positive divisor `d` and `w * d` in `[1, d]`, `w` lies in `[1 / d, 1]`. */
  lemma ProductBounds(w: real, d: real)
    requires d >= 1.0 && 1.0 <= w * d <= d
    ensures 1.0 / d <= w <= 1.0
  {
    assert (w - 1.0) * d <= 0.0;
    assert (w - 1.0 / d) * d >= 0.0;
  }

  /** A non-negative value scaled by a factor in `[0, 1]` stays in `[0, value]`. */
  function Weigh(e: real, w: real): (c: real)
    requires e >= 0.0 && 0.0 <= w <= 1.0
    ensures 0.0 <= c <= e
  {
    assert e * (1.0 - w) >= 0.0;
    e * w
  }

  /** Earlier ranks weigh strictly more. */
  lemma PositionWeightDecreasing(n: nat, r1: nat, r2: nat)
    requires r1 < r2 < n
    ensures PositionWeight(n, r1) > PositionWeight(n, r2)
  {
    var d := n as real;
    assert (n - r1) as real > (n - r2) as real;
    assert (n - r1) as real / d - (n - r2) as real / d == (r2 - r1) as real / d;
  }

  /** What a test adds to the total at `rank` of `n`, given the history before it. */
  function Contribution(cos: real -> real, test: TcaRecord, covered: seq<Observation>, n: nat, rank: nat): (c: real)
    requires rank < n
    ensures c >= 0.0
    ensures test.magnitude <= 0.0 ==> c == 0.0
    ensures test.magnitude >= 0.0 && NonNegativeHistory(covered) ==> c <= test.magnitude
  {
    var e := EffectiveMagnitude(cos, test.magnitude, test.phase, covered);
    Weigh(e, PositionWeight(n, rank))
  }

  /**
   * The total the ranks from `rank` on add, when `covered` is the history the
   * tests before `rank` left: the sequential simulation of the loop.
   */
  function FitnessFrom(cos: real -> real, perm: seq<nat>, testCases: seq<TcaRecord>, rank: nat, covered: seq<Observation>): (r: real)
    requires rank <= |perm| && InRange(perm, |testCases|)
    ensures r >= 0.0
    decreases |perm| - rank
  {
    if rank == |perm| then 0.0
    else
      var test := testCases[perm[rank]];
      Contribution(cos, test, covered, |perm|, rank)
        + FitnessFrom(cos, perm, testCases, rank + 1, covered + [Observe(test)])
  }

  /** One step of the simulation: the test at `rank`, then the ranks after it. */
  lemma FitnessFromStep(cos: real -> real, perm: seq<nat>, testCases: seq<TcaRecord>, rank: nat, covered: seq<Observation>,
                        e: real, w: real)
    requires rank < |perm| && InRange(perm, |testCases|)
    requires e == EffectiveMagnitude(cos, testCases[perm[rank]].magnitude, testCases[perm[rank]].phase, covered)
    requires w == PositionWeight(|perm|, rank)
    ensures FitnessFrom(cos, perm, testCases, rank, covered)
         == e * w + FitnessFrom(cos, perm, testCases, rank + 1, covered + [Observe(testCases[perm[rank]])])
  {
    var test := testCases[perm[rank]];
    assert Contribution(cos, test, covered, |perm|, rank) == e * w;
  }

  /** The fitness of an ordering: all ranks, from an empty history; never negative. */
  function Fitness(cos: real -> real, perm: seq<nat>, testCases: seq<TcaRecord>): (r: real)
    requires InRange(perm, |testCases|)
    ensures r >= 0.0
  {
    FitnessFrom(cos, perm, testCases, 0, [])
  }

  /** The sum of the magnitudes of the tests an index sequence names. */
  function IndexedMagnitudes(testCases: seq<TcaRecord>, s: seq<nat>): real
    requires InRange(s, |testCases|)
  {
    if s == [] then 0.0 else testCases[s[0]].magnitude + IndexedMagnitudes(testCases, s[1..])
  }

  /** The sum of the magnitudes of the first `k` test cases. */
  function TotalMagnitude(testCases: seq<TcaRecord>, k: nat): real
    requires k <= |testCases|
  {
    if k == 0 then 0.0 else TotalMagnitude(testCases, k - 1) + testCases[k - 1].magnitude
  }

  /**
   * With non-negative magnitudes, the ranks from `rank` on add at most the
   * magnitudes of the tests at those ranks.
   */
  lemma {:induction false} FitnessFromAtMostMagnitudes(cos: real -> real, perm: seq<nat>, testCases: seq<TcaRecord>, rank: nat, covered: seq<Observation>)
    requires rank <= |perm| && InRange(perm, |testCases|)
    requires NonNegativeMagnitudes(testCases) && NonNegativeHistory(covered)
    ensures FitnessFrom(cos, perm, testCases, rank, covered) <= IndexedMagnitudes(testCases, perm[rank..])
    decreases |perm| - rank
  {
    if rank < |perm| {
      var test := testCases[perm[rank]];
      var next := covered + [Observe(test)];
      assert NonNegativeHistory(next);
      FitnessFromAtMostMagnitudes(cos, perm, testCases, rank + 1, next);
      assert perm[rank..][1..] == perm[rank + 1..];
    }
  }

  lemma {:induction false} IndexedMagnitudesAppend(testCases: seq<TcaRecord>, a: seq<nat>, b: seq<nat>)
    requires InRange(a, |testCases|) && InRange(b, |testCases|)
    ensures InRange(a + b, |testCases|)
    ensures IndexedMagnitudes(testCases, a + b) == IndexedMagnitudes(testCases, a) + IndexedMagnitudes(testCases, b)
  {
    if a != [] {
      assert (a + b)[1..] == a[1..] + b;
      IndexedMagnitudesAppend(testCases, a[1..], b);
    } else {
      assert a + b == b;
    }
  }

  /** Removing the entry at `p` removes its magnitude from the sum. */
  lemma IndexedMagnitudesRemove(testCases: seq<TcaRecord>, s: seq<nat>, p: nat)
    requires InRange(s, |testCases|) && p < |s|
    ensures InRange(s[..p] + s[p + 1..], |testCases|)
    ensures multiset(s[..p] + s[p + 1..]) == multiset(s) - multiset{s[p]}
    ensures IndexedMagnitudes(testCases, s)
         == IndexedMagnitudes(testCases, s[..p] + s[p + 1..]) + testCases[s[p]].magnitude
  {
    var left, right := s[..p], s[p + 1..];
    var mid := s[p..];
    assert s == left + mid;
    assert mid == [s[p]] + right;
    assert mid[1..] == right;
    RemovedElements(s, p, |testCases|);
    IndexedMagnitudesAppend(testCases, left, mid);
    IndexedMagnitudesAppend(testCases, left, right);
  }

  /** Dropping position `p` drops one copy of `s[p]` and keeps the indices in range. */
  lemma RemovedElements(s: seq<nat>, p: nat, n: nat)
    requires InRange(s, n) && p < |s|
    ensures InRange(s[..p] + s[p + 1..], n)
    ensures multiset(s[..p] + s[p + 1..]) == multiset(s) - multiset{s[p]}
  {
    var left, right := s[..p], s[p + 1..];
    var mid := s[p..];
    assert s == left + mid;
    assert mid == [s[p]] + right;
    assert multiset(s) == multiset(left) + multiset(mid);
    assert multiset(mid) == multiset{s[p]} + multiset(right);
    assert multiset(left + right) == multiset(left) + multiset(right);
  }


  /** Summing the magnitudes in any order of the first `k` indices gives the same total. */
  lemma {:induction false} IndexedMagnitudesOfPermutation(testCases: seq<TcaRecord>, s: seq<nat>, k: nat)
    requires k <= |testCases| && |s| == k
    requires forall j: nat :: multiset(s)[j] == if j < k then 1 else 0
    ensures InRange(s, |testCases|)
    ensures IndexedMagnitudes(testCases, s) == TotalMagnitude(testCases, k)
  {
    forall a | 0 <= a < |s| ensures s[a] < k {
      assert s[a] in multiset(s);
    }
    if k > 0 {
      var last: nat := k - 1;
      assert last in multiset(s);
      var p :| 0 <= p < |s| && s[p] == last;
      IndexedMagnitudesRemove(testCases, s, p);
      var t: seq<nat> := s[..p] + s[p + 1..];
      forall j: nat ensures multiset(t)[j] == if j < last then 1 else 0 {
        assert multiset(t)[j] == multiset(s)[j] - (if j == last then 1 else 0);
      }
      IndexedMagnitudesOfPermutation(testCases, t, last);
    }
  }

  /**
   * With non-negative magnitudes, the fitness of any ordering of all the test
   * cases is at most the sum of their magnitudes.
   */
  lemma FitnessAtMostTotalMagnitude(cos: real -> real, perm: seq<nat>, testCases: seq<TcaRecord>)
    requires IsIndexPermutation(perm, |testCases|)
    requires NonNegativeMagnitudes(testCases)
    ensures Fitness(cos, perm, testCases) <= TotalMagnitude(testCases, |testCases|)
  {
    forall j: nat ensures multiset(perm)[j] == if j < |testCases| then 1 else 0 {
      if j >= |testCases| {
        assert j !in perm;
      }
    }
    FitnessFromAtMostMagnitudes(cos, perm, testCases, 0, []);
    assert perm[0..] == perm;
    IndexedMagnitudesOfPermutation(testCases, perm, |testCases|);
  }

  /**
   * A test with a non-positive magnitude skips the penalty and adds nothing to
   * the total, and its original magnitude still enters the history.
   */
  lemma NonPositiveMagnitudeSkipped(cos: real -> real, perm: seq<nat>, testCases: seq<TcaRecord>, rank: nat, covered: seq<Observation>)
    requires rank < |perm| && InRange(perm, |testCases|)
    requires testCases[perm[rank]].magnitude <= 0.0
    ensures FitnessFrom(cos, perm, testCases, rank, covered)
         == FitnessFrom(cos, perm, testCases, rank + 1,
                        covered + [(testCases[perm[rank]].magnitude, testCases[perm[rank]].phase)])
  {
  }

  /** An ordering of one test scores its magnitude (0 when that is negative). */
  lemma SingleTest(cos: real -> real, testCases: seq<TcaRecord>, i: nat)
    requires i < |testCases|
    ensures Fitness(cos, [i], testCases) == Max(0.0, testCases[i].magnitude)
    ensures testCases[i].magnitude >= 0.0 ==> Fitness(cos, [i], testCases) == testCases[i].magnitude
  {
    var test := testCases[i];
    assert EffectiveMagnitude(cos, test.magnitude, test.phase, []) == Max(0.0, test.magnitude);
    assert PositionWeight(1, 0) == 1.0;
    assert FitnessFrom(cos, [i], testCases, 1, [] + [Observe(test)]) == 0.0;
    assert FitnessFrom(cos, [i], testCases, 0, []) == Contribution(cos, test, [], 1, 0) + 0.0;
  }

  /**
   * Two tests of magnitude 1 and equal phase score 1·1 + 0.5·0.5 = 1.25 in
   * either order, given `cos(0) = 1`.
   */
  lemma TwoInPhase(cos: real -> real, testCases: seq<TcaRecord>, a: nat, b: nat)
    requires a < |testCases| && b < |testCases|
    requires cos(0.0) == 1.0
    requires testCases[a].magnitude == 1.0 && testCases[b].magnitude == 1.0
    requires testCases[a].phase == testCases[b].phase
    ensures Fitness(cos, [a, b], testCases) == 1.25
    ensures Fitness(cos, [b, a], testCases) == 1.25
  {
    TwoTests(cos, testCases, a, b);
    TwoTests(cos, testCases, b, a);
  }

  /**
   * Two tests of magnitude 1 whose phases are 90 degrees or more apart
   * (`cos(|Δθ|) <= 0`) do not interfere: 1·1 + 1·0.5 = 1.5 in either order.
   */
  lemma TwoOutOfPhase(cos: real -> real, testCases: seq<TcaRecord>, a: nat, b: nat)
    requires a < |testCases| && b < |testCases|
    requires cos(Abs(testCases[a].phase - testCases[b].phase)) <= 0.0
    requires testCases[a].magnitude == 1.0 && testCases[b].magnitude == 1.0
    ensures Fitness(cos, [a, b], testCases) == 1.5
    ensures Fitness(cos, [b, a], testCases) == 1.5
  {
    assert Abs(testCases[b].phase - testCases[a].phase) == Abs(testCases[a].phase - testCases[b].phase);
    TwoTests(cos, testCases, a, b);
    TwoTests(cos, testCases, b, a);
  }

  /**
   * The fitness of any two-test ordering, written out: the first rank counts
   * its magnitude in full (0 if negative), the second is damped by its
   * similarity to the first times the first's raw magnitude, then halved.
   */
  lemma TwoTests(cos: real -> real, testCases: seq<TcaRecord>, a: nat, b: nat)
    requires a < |testCases| && b < |testCases|
    ensures Fitness(cos, [a, b], testCases)
         == Max(0.0, testCases[a].magnitude)
            + Max(0.0, testCases[b].magnitude
                       - (if testCases[b].magnitude > 0.0
                          then Similarity(cos, testCases[b].phase, testCases[a].phase) * testCases[a].magnitude
                          else 0.0) * Damping) * 0.5
  {
    var perm := [a, b];
    var ta := testCases[a];
    var h1 := [Observe(ta)];
    SecondOfTwo(cos, testCases, a, b);
    assert [] + [Observe(ta)] == h1;
    assert EffectiveMagnitude(cos, ta.magnitude, ta.phase, []) == Max(0.0, ta.magnitude);
    assert PositionWeight(2, 0) == 1.0;
    assert FitnessFrom(cos, perm, testCases, 0, []) == Contribution(cos, ta, [], 2, 0) + FitnessFrom(cos, perm, testCases, 1, h1);
  }

  /** The second rank of a two-test ordering, after the first test entered the history. */
  lemma SecondOfTwo(cos: real -> real, testCases: seq<TcaRecord>, a: nat, b: nat)
    requires a < |testCases| && b < |testCases|
    ensures FitnessFrom(cos, [a, b], testCases, 1, [Observe(testCases[a])])
         == Max(0.0, testCases[b].magnitude
                     - (if testCases[b].magnitude > 0.0
                        then Similarity(cos, testCases[b].phase, testCases[a].phase) * testCases[a].magnitude
                        else 0.0) * Damping) * 0.5
  {
    var perm := [a, b];
    var ta, tb := testCases[a], testCases[b];
    var h1 := [Observe(ta)];
    assert h1[..0] == [];
    assert Penalty(cos, tb.phase, h1) == 0.0 + Similarity(cos, tb.phase, ta.phase) * ta.magnitude;
    assert PositionWeight(2, 1) == 0.5;
    assert FitnessFrom(cos, perm, testCases, 2, h1 + [Observe(tb)]) == 0.0;
    assert FitnessFrom(cos, perm, testCases, 1, h1) == Contribution(cos, tb, h1, 2, 1) + 0.0;
  }

  /**
   * The inner loop of `interference_aware_fitness`: the penalty a test at
   * `phase` accumulates over the collapsed history, equal to `Penalty`.
   */
  method InterferencePenalty(cos: real -> real, phase: real, coveredPhases: seq<Observation>)
    returns (interferencePenalty: real)
    ensures interferencePenalty == Penalty(cos, phase, coveredPhases)
    ensures NonNegativeHistory(coveredPhases) ==> interferencePenalty >= 0.0
  {
    interferencePenalty := 0.0;
    var j := 0;
    while j < |coveredPhases|
      invariant 0 <= j <= |coveredPhases|
      invariant interferencePenalty == Penalty(cos, phase, coveredPhases[..j])
    {
      var covMag, covPhase := coveredPhases[j].0, coveredPhases[j].1;
      var deltaTheta := Abs(phase - covPhase);
      var similarity := Max(0.0, cos(deltaTheta));
      PenaltyStep(cos, phase, coveredPhases, j);
      interferencePenalty := interferencePenalty + similarity * covMag;
      j := j + 1;
    }
    assert coveredPhases[..j] == coveredPhases;
  }

  /**
   * `interference_aware_fitness`: the loop over ranks with its running total
   * and growing history, equal to `Fitness`.
   */
  method InterferenceAwareFitness(cos: real -> real, permutationIndices: seq<nat>, testCases: seq<TcaRecord>)
    returns (totalFitness: real)
    requires InRange(permutationIndices, |testCases|)
    ensures totalFitness == Fitness(cos, permutationIndices, testCases)
    ensures totalFitness >= 0.0
  {
    totalFitness := 0.0;
    var coveredPhases: seq<Observation> := [];
    var n := |permutationIndices|;
    var rank := 0;
    while rank < n
      invariant 0 <= rank <= n
      invariant totalFitness + FitnessFrom(cos, permutationIndices, testCases, rank, coveredPhases)
             == Fitness(cos, permutationIndices, testCases)
    {
      var test := testCases[permutationIndices[rank]];
      var mag := test.magnitude;
      var phase := test.phase;
      var interferencePenalty := 0.0;
      if mag > 0.0 {
        interferencePenalty := InterferencePenalty(cos, phase, coveredPhases);
      }
      var effectiveMag := Max(0.0, mag - interferencePenalty * Damping);
      var positionWeight := (n - rank) as real / n as real;
      assert effectiveMag == EffectiveMagnitude(cos, mag, phase, coveredPhases);
      assert positionWeight == PositionWeight(n, rank);
      FitnessFromStep(cos, permutationIndices, testCases, rank, coveredPhases, effectiveMag, positionWeight);
      totalFitness := totalFitness + effectiveMag * positionWeight;
      coveredPhases := coveredPhases + [(mag, phase)];
      rank := rank + 1;
    }
  }
}
