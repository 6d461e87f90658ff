# TCP-AW: interference-aware test prioritisation, modelled in Dafny

TCP-AW orders regression tests with a quantum-inspired particle swarm.
`scripts/calculate_amplitudes.py` turns per-test metrics from a language model
into "amplitude" records: a magnitude that blends relevance and complexity, and
a phase taken from an md5 hash of a change-nature label. `scripts/run_qpso.py`
scores an ordering of those records with an interference-aware fitness. That
fitness gives early ranks more weight, and it penalises a test whose phase is
close to the phases of the tests run before it. The script then searches for a
good ordering with quantum-behaved particle swarm optimisation (QPSO). Each
particle is a real vector, and its ordering is the vector's argsort.

The project has six modules:

- `Wrappers` (`wrappers.dfy`): an `Option` type, used for missing JSON keys.
- `Reals` (`reals.dfy`): `Max`, `Min`, `Abs` and `Clip` on reals.
- `Amplitudes` (`amplitudes.dfy`): `calculate_phase` and the record loop of
  `main` in `calculate_amplitudes.py`. That covers the magnitude blend, the
  defaults for missing keys and the four-decimal rounding of the output.
- `Permutation` (`permutation.dfy`): `get_permutation`, which is `np.argsort`,
  as a stable index insertion sort. It is proved to give a permutation of the
  indices that orders the values. It is also the only such permutation that
  breaks ties by index.
- `InterferenceFitness` (`fitness.dfy`): `interference_aware_fitness`.
  - The specification function `FitnessFrom` simulates the loop forwards, from
    a given rank to the last. The collapsed history of the earlier ranks is an
    accumulating parameter that grows by one entry per rank. `Fitness` starts
    it at rank 0 with an empty history.
  - The methods `InterferencePenalty` and `InterferenceAwareFitness` are the
    two loops of the source. Each is proved equal to its specification.
- `Qpso` (`qpso.dfy`): the class `QPSO`, as the class `Optimizer`.
  - The fields are `X` and `Pbest` (`array2`), `PbestFitness` and `Gbest`
    (`array`), and `GbestFitness`.
  - The methods update these fields in place, as `optimize` does.
  - `Tracking` is the best-tracking invariant. It says three things:
    - every stored fitness is the fitness of its stored position;
    - the global best fitness is the largest personal best fitness;
    - the global best copies the personal best it came from.
  - After the constructor, `optimize` establishes `Tracking` and keeps it.
  - The swarm is also described on values: a `Swarm` holds one `Particle`
    per row, plus the global `Best`. `Turn` is one particle's move, evaluation
    and best update. `RoundFrom` runs the turns of a round in order.
    `RoundsFrom` runs the rounds, each with `mbest` from `MeanOfBests`.
    `ScoreFrom` is the initial evaluation, and `Run` is the two together.
  - `State()` reads the arrays as a `Swarm`. Each method is proved to turn
    the old `State()` into exactly the swarm its pure counterpart computes:
    `Step` gives `Turn`, `Round` gives `RoundFrom`, `MainLoop` gives
    `RoundsFrom`, `EvaluateInitial` gives `ScoreFrom`, and `Optimize` gives
    `Run`.

Parameters stand in for what the model cannot compute:

- `math.cos` is the parameter `cos`, `np.log` is `ln`, and the md5 digest read
  as an integer is `md5`.
- Every random draw is a parameter: the initial `np.random.uniform` matrix is
  `init`, and the per-particle `phi`, `u` and sign draws are `ParticleDraw`
  values.
- The constants match the source: population 20, 50 iterations, alpha 0.5,
  damping 0.5, fusion weights 0.7 and 0.3, 360 phase buckets, and sign
  threshold 0.2.

## Model

| member | source | states |
|---|---|---|
| Reals.Clip | scripts/run_qpso.py:116 | `np.clip`: the result lies in `[lo, hi]` and is `x` itself when `x` already does |
| Amplitudes.LowerChar | scripts/calculate_amplitudes.py:10 | ASCII upper-case letters map to lower case and every other character is kept |
| Amplitudes.Lower | scripts/calculate_amplitudes.py:10 | ASCII lower-casing keeps the length and lower-cases every position |
| Amplitudes.IsNoneLabel | scripts/calculate_amplitudes.py:10 | a label counts as "none" exactly when it is empty, or has four characters that lower-case to n, o, n, e; so "None", "NONE" and "none" all count |
| Amplitudes.HashBucket | scripts/calculate_amplitudes.py:14-18 | the bucket `hash_int % 360` is below 360 and differs from the hash by a multiple of 360 |
| Amplitudes.CalculatePhase | scripts/calculate_amplitudes.py:5-19 | an empty or "none" label (any case) gives phase 0; any other label gives phase `bucket · π/180`; the phase is in `[0, 359·π/180]`, so below 2π |
| Amplitudes.PhaseConsistent | scripts/calculate_amplitudes.py:8-11 | equal labels, or two "none" labels, get the same phase |
| Amplitudes.Magnitude | scripts/calculate_amplitudes.py:36-39 | the blend `0.7·relevance + 0.3·complexity` lies between the two scores, and in `[0, 1]` when both are |
| Amplitudes.Round4 | scripts/calculate_amplitudes.py:47-48 | the rounded value is a whole number of ten-thousandths, within half of one of the input, and stays in `[0, 1]` for inputs in `[0, 1]` |
| Amplitudes.Round4Idempotent | scripts/calculate_amplitudes.py:47-48 | rounding a rounded value changes nothing |
| Amplitudes.Round4Phase | scripts/calculate_amplitudes.py:48 | a phase of at most 359° stays in `[0, 2π)` after rounding |
| Amplitudes.BuildRecord | scripts/calculate_amplitudes.py:31-50 | id and change nature are copied; a missing score reads as 0.0, so the magnitude is the other score's weighted share (0 when both are missing); a missing label gives phase 0; scores in `[0, 1]` give a magnitude in `[0, 1]`; the phase is in `[0, 2π)` |
| Amplitudes.EmptyMetricsDefaults | scripts/calculate_amplitudes.py:32-34 | an entry with no keys becomes `(id, 0.0, 0.0, "")` |
| Amplitudes.BuildAmplitudes | scripts/calculate_amplitudes.py:29-50 | the loop emits exactly one record per entry, in order, each the record `BuildRecord` describes |
| Permutation.Insert | scripts/run_qpso.py:78-81 | inserting an index adds one entry, and only that entry, to the multiset of the sorted prefix |
| Permutation.SortPrefix | scripts/run_qpso.py:78-81 | sorting the first `k` indices gives each of `0..k-1` exactly once, ordered by value and then by index |
| Permutation.ArgSort | scripts/run_qpso.py:78-81 | `np.argsort` gives a permutation of `0..n-1` along which the values never decrease, with ties by index |
| Permutation.LexOrderedPermutationUnique | scripts/run_qpso.py:78-81 | any permutation ordered by value and then by index is `ArgSort`'s result, so the encoding is determined by the position vector |
| InterferenceFitness.Similarity | scripts/run_qpso.py:40-42 | similarity `max(0, cos(abs(Δθ)))` is never negative |
| InterferenceFitness.Penalty | scripts/run_qpso.py:36-45 | the penalty sums similarity × covered magnitude over the history; it is non-negative when every covered magnitude is |
| InterferenceFitness.PenaltyStep | scripts/run_qpso.py:38-45 | each pass of the inner loop adds exactly one history entry's term to the penalty |
| InterferenceFitness.EffectiveMagnitude | scripts/run_qpso.py:47-48 | the effective magnitude is never negative, is 0 for a non-positive magnitude, and never exceeds the magnitude when the history is non-negative |
| InterferenceFitness.PositionWeight | scripts/run_qpso.py:50-51 | the weight `(n - rank)/n` is 1 at rank 0 and lies in `[1/n, 1]` |
| InterferenceFitness.PositionWeightDecreasing | scripts/run_qpso.py:25-26 | an earlier rank weighs strictly more than a later one |
| InterferenceFitness.Contribution | scripts/run_qpso.py:47-53 | one rank adds a non-negative amount, nothing for a non-positive magnitude, and at most its magnitude |
| InterferenceFitness.FitnessFrom | scripts/run_qpso.py:29-56 | the ranks from `rank` on, each adding its `Contribution` and then entering the history, add a non-negative amount whatever the history |
| InterferenceFitness.Fitness | scripts/run_qpso.py:15-58 | every ordering has non-negative fitness |
| InterferenceFitness.FitnessFromAtMostMagnitudes | scripts/run_qpso.py:29-56 | the ranks from `rank` on add at most the magnitudes of their tests |
| InterferenceFitness.IndexedMagnitudesOfPermutation | scripts/run_qpso.py:29-30 | summing the magnitudes in any order of the indices gives the same total |
| InterferenceFitness.FitnessAtMostTotalMagnitude | scripts/run_qpso.py:15-58 | with non-negative magnitudes, no ordering scores more than the sum of all magnitudes |
| InterferenceFitness.NonPositiveMagnitudeSkipped | scripts/run_qpso.py:36-56 | a test with magnitude ≤ 0 adds nothing, but its raw magnitude and phase still enter the history |
| InterferenceFitness.SingleTest | scripts/run_qpso.py:15-58 | a one-test ordering scores `max(0, magnitude)` |
| InterferenceFitness.TwoTests | scripts/run_qpso.py:29-56 | the fitness of any two-test ordering, written out. The first rank counts `max(0, magnitude)`. The second is damped by its similarity to the first times the first's raw magnitude (no damping if its own magnitude is not positive), clamped at 0 and then halved |
| InterferenceFitness.TwoInPhase | scripts/run_qpso.py:18-20 | two unit tests with equal phase interfere destructively: 1.25 in either order |
| InterferenceFitness.TwoOutOfPhase | scripts/run_qpso.py:41-42 | two unit tests at least 90° apart do not interfere: 1.5 in either order |
| InterferenceFitness.InterferencePenalty | scripts/run_qpso.py:36-45 | the inner loop computes exactly `Penalty`, which is non-negative for a non-negative history |
| InterferenceFitness.InterferenceAwareFitness | scripts/run_qpso.py:15-58 | the loop computes exactly `Fitness` of the ordering, which is non-negative |
| Qpso.Sign | scripts/run_qpso.py:112 | each sign is +1 or -1 |
| Qpso.Attractor | scripts/run_qpso.py:103 | the local attractor sits at fraction `phi` of the way from the global best to the personal best |
| Qpso.AttractorBetween | scripts/run_qpso.py:103 | for `phi` in `[0, 1]` the local attractor lies between the personal and the global best |
| Qpso.NewComponent | scripts/run_qpso.py:103-116 | a moved component always lies in `[0, dim]` |
| Qpso.AtMeanBestMovesToAttractor | scripts/run_qpso.py:108-113 | a particle at the mean best has length 0, so it moves to its clipped attractor whatever the sign and `u` |
| Qpso.NewPosition | scripts/run_qpso.py:101-116 | the moved position has `dim` components, all in `[0, dim]` |
| Qpso.ColumnSum | scripts/run_qpso.py:97 | the sum of one component over the personal bests is non-negative when the components are |
| Qpso.ColumnSumBounds | scripts/run_qpso.py:97 | a column sum of entries in `[0, dim]` lies in `[0, m·dim]` |
| Qpso.MeanOfBests | scripts/run_qpso.py:97 | `np.mean(Pbest, axis=0)`: one mean per component, each times the population size being the column sum |
| Qpso.MeanOfBestsInBox | scripts/run_qpso.py:97 | when every personal best lies in `[0, dim]`, so does their mean |
| Qpso.Turn | scripts/run_qpso.py:101-128 | a particle moves to `NewPosition` of its old position, its personal best and the current global best. Its personal best fitness becomes the larger of the old one and the new score, and its personal best position changes only on a strict improvement. The global best is either kept or becomes the new position with its score, and never decreases. Once the personal best is at most the global best, the new global best fitness is the larger of the old one and the new score |
| Qpso.RoundFromMonotone | scripts/run_qpso.py:99-128 | the rest of a round leaves earlier particles alone and lowers no personal best fitness and not the global best fitness |
| Qpso.RoundsFromMonotone | scripts/run_qpso.py:94-128 | over the remaining rounds no personal best fitness and not the global best fitness decreases |
| Qpso.ScoreFromSpec | scripts/run_qpso.py:84-92 | the initial evaluation keeps positions and personal best positions, and sets each personal best fitness to the fitness of the position, at most the global best fitness. The global best fitness never decreases, and the global best is the old one or one of the scored positions with its fitness |
| Qpso.RunImproves | scripts/run_qpso.py:83-128 | after a whole run every personal best fitness, and the global best fitness, is at least the fitness of that particle's initial position, and the global best fitness is at least its start |
| Qpso.CopyRow | scripts/run_qpso.py:92 | `X[i].copy()`: a fresh array holding exactly row `i` |
| Qpso.Optimizer.constructor | scripts/run_qpso.py:61-76 | positions are the initial draw, personal bests are a copy of them with fitness 0, and the global best is all zeros with fitness -1 |
| Qpso.Optimizer.Evaluate | scripts/run_qpso.py:119-120 | encode, then score: the result is the objective of the position, and non-negative |
| Qpso.Optimizer.ScoreInitial | scripts/run_qpso.py:86-92 | a particle's fitness becomes its personal best fitness, and it replaces the global best only when strictly better; the swarm advances by exactly one step of `ScoreFrom` |
| Qpso.Optimizer.EvaluateInitial | scripts/run_qpso.py:84-92 | every personal best fitness is that particle's fitness and at most the global best fitness, which never decreases. When it changed, it comes from the first best particle, and the global best copies that particle. From the constructor's state this establishes `Tracking`. The new `State()` is exactly `ScoreFrom` of the old one |
| Qpso.Optimizer.MeanBest | scripts/run_qpso.py:97 | `mbest` is exactly `MeanOfBests` of the personal bests, and lies in `[0, dim]` |
| Qpso.Optimizer.Move | scripts/run_qpso.py:101-116 | particle `i`'s row becomes `NewPosition` of its old row, its personal best and the current global best; other rows are unchanged |
| Qpso.Optimizer.SetPersonalBest | scripts/run_qpso.py:124 | row `i` of the personal bests becomes the position; other rows are unchanged |
| Qpso.Optimizer.UpdateBests | scripts/run_qpso.py:122-128 | only a strict improvement replaces the personal best, and only then can a strict improvement replace the global best. Nothing else changes, and `Tracking` is preserved |
| Qpso.Optimizer.Step | scripts/run_qpso.py:101-128 | particle `i` and the global best become exactly `Turn` of what they were; no other particle changes, and `Tracking` is preserved |
| Qpso.Optimizer.Round | scripts/run_qpso.py:99-128 | the new `State()` is exactly `RoundFrom` of the old one: every particle in order takes its `Turn`, seeing the global best the ones before it left. No personal best fitness and not the global best fitness decreases, and `Tracking` is preserved |
| Qpso.Optimizer.Iterate | scripts/run_qpso.py:94-128 | the new `State()` is exactly `RoundFrom` of the old one, with `mbest` the `MeanOfBests` of the personal bests as they stand; so it advances `RoundsFrom` by one round |
| Qpso.Optimizer.MainLoop | scripts/run_qpso.py:94-128 | the new `State()` is exactly `RoundsFrom` of the old one over all `MaxIterations` rounds. No personal best fitness and not the global best fitness decreases, and `Tracking` is preserved |
| Qpso.Optimizer.Optimize | scripts/run_qpso.py:83-130 | the new `State()` is exactly `Run` of the old one: the initial evaluation, then every round. It returns the argsort of the global best, a permutation of all test indices. The global best fitness never decreases. From the constructor's state it ends in `Tracking`, and no personal best fitness is below its start |
| Qpso.Optimizer.ReportedOrderIsBest | scripts/run_qpso.py:130 | under `Tracking`, the returned ordering scores exactly the global best fitness, and no personal best scores more |

## Left out

- File and console I/O are not modelled: `load_amplitudes`, `generate_report`,
  `main` in `run_qpso.py`, and the JSON reading and writing in
  `calculate_amplitudes.py`.
  - The record loop takes the parsed entries as a sequence of pairs, in dictionary iteration order.
  - `scripts/prompt_gemini.py` and `.github/workflows/setup.py` are not part of this model.
- Randomness is not drawn inside the model: `np.random.uniform` and `np.random.rand` become explicit parameters, so no distribution is modelled.
- `math.cos`, `np.log` and md5 are uninterpreted parameters. No property of
  cosine is assumed except where a lemma states it as a precondition
  (`TwoInPhase` assumes `cos(0) = 1`).
- Floating point is modelled as exact real arithmetic: rounding in sums, `inf` and `NaN` are left out.
  - `np.log(1/u)` for a draw `u = 0` would be `inf`, so `DrawFits` requires every `u > 0`.
- `Round4` resolves exact ties upward. Python formats the exact binary value, so its ties can go either way; the model does not fix that direction.
- `Lower` folds only ASCII letters, so it differs from `str.lower` on non-ASCII text (which can also change length there). The "none" test loses nothing by this: no non-ASCII character lower-cases to `n`, `o` or `e`, so only ASCII labels can lower-case to "none".
- `ArgSort`: `np.argsort`'s default sort is not stable, so the model resolves the order of equal position values by index. numpy does not fix the order of such ties.
- JSON values of the wrong type are not modelled: a non-numeric relevance, or a non-string label. A key that is present holds a value of the declared type.
- `InterferenceAwareFitness` requires every index to name a test case. An out-of-range index raises `IndexError` in Python, and every caller passes an argsort.
- `Optimize` states best tracking only from the constructor's state (`Pristine`). A second call re-scores the current positions into
  `PbestFitness` without copying them into `Pbest`, so stored fitness and stored position can then disagree.
