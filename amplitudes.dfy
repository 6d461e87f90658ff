/**
 * The producer of the optimiser's input (`scripts/calculate_amplitudes.py`):
 * per-test metrics from the language model become amplitude records, a
 * magnitude blended from relevance and complexity and a phase derived from a
 * hash of the change-nature label.
 *
 * md5 of the label (read as a hexadecimal integer) is an uninterpreted
 * parameter `md5: string -> nat`; `str.lower` is ASCII lower-casing.
 */
module Amplitudes {
  import opened Wrappers
  import opened Reals

  /** `math.pi` as a positive real constant. */
  const Pi: real := 3.141592653589793

  /** The fusion weights of relevance (external risk) and complexity (internal risk). */
  const RelevanceWeight: real := 0.7
  const ComplexityWeight: real := 0.3

  /** Bucket count of the phase hash: one bucket per degree. */
  const Degrees: nat := 360

  /** One entry of the model's output: the keys a test's metrics object may hold. */
  datatype Metrics = Metrics(relevance: Option<real>, complexity: Option<real>, changeNature: Option<string>)

  /** One amplitude record, as written to `tca.json` and read back by the optimiser. */
  datatype TcaRecord = TcaRecord(testId: string, magnitude: real, phase: real, originalSemantics: string)

  function LowerChar(c: char): (d: char)
    ensures 'A' <= c <= 'Z' ==> 'a' <= d <= 'z' && d as int - c as int == 32
    ensures !('A' <= c <= 'Z') ==> d == c
  {
    if 'A' <= c <= 'Z' then (c as int + 32) as char else c
  }

  /** `str.lower`, restricted to ASCII letters. */
  function Lower(s: string): (r: string)
    ensures |r| == |s|
    ensures forall i :: 0 <= i < |s| ==> r[i] == LowerChar(s[i])
  {
    if s == [] then [] else [LowerChar(s[0])] + Lower(s[1..])
  }

  /** The labels `calculate_phase` maps straight to 0: empty, or "none" in any case. */
  function IsNoneLabel(s: string): (r: bool)
    ensures r <==> s == [] || (|s| == 4 && LowerChar(s[0]) == 'n' && LowerChar(s[1]) == 'o'
                                         && LowerChar(s[2]) == 'n' && LowerChar(s[3]) == 'e')
  {
    s == [] || Lower(s) == "none"
  }

  /** The degree bucket `hash_int % 360` of a label. */
  function HashBucket(md5: string -> nat, s: string): (k: nat)
    ensures k < Degrees
    ensures exists q: nat :: md5(s) == q * Degrees + k
  {
    var k := md5(s) % Degrees;
    assert md5(s) == (md5(s) / Degrees) * Degrees + k;
    k
  }

  /**
   * `calculate_phase`: 0 for a "none" label; otherwise the label's degree
   * bucket converted to radians, so a phase in `[0, 2π)`.
   */
  function CalculatePhase(md5: string -> nat, changeNature: string): (phase: real)
    ensures IsNoneLabel(changeNature) ==> phase == 0.0
    ensures !IsNoneLabel(changeNature) ==> phase * 180.0 / Pi == HashBucket(md5, changeNature) as real
    ensures 0.0 <= phase <= 359.0 * (Pi / 180.0) < 2.0 * Pi
  {
    if IsNoneLabel(changeNature) then 0.0
    else HashBucket(md5, changeNature) as real * (Pi / 180.0)
  }

  /** The same label always gets the same phase, whatever its case when it reads "none". */
  lemma PhaseConsistent(md5: string -> nat, a: string, b: string)
    requires a == b || (IsNoneLabel(a) && IsNoneLabel(b))
    ensures CalculatePhase(md5, a) == CalculatePhase(md5, b)
  {
  }

  /**
   * The magnitude `relevance * 0.7 + complexity * 0.3`: a weighted mean, so
   * it lies between the two inputs, and in `[0, 1]` when both do.
   */
  function Magnitude(relevance: real, complexity: real): (m: real)
    ensures Min(relevance, complexity) <= m <= Max(relevance, complexity)
    ensures 0.0 <= relevance <= 1.0 && 0.0 <= complexity <= 1.0 ==> 0.0 <= m <= 1.0
  {
    relevance * RelevanceWeight + complexity * ComplexityWeight
  }

  /** Units per 1 in the fourth decimal place, the precision of the written record. */
  const Decimals4: real := 10000.0

  /**
   * `float(f"{x:.4f}")`: `x` rounded to four decimals, a whole number of
   * ten-thousandths within half of one of `x` (ties upward).
   */
  function Round4(x: real): (r: real)
    ensures (r * Decimals4).Floor as real == r * Decimals4
    ensures x * Decimals4 - 0.5 < r * Decimals4 <= x * Decimals4 + 0.5
    ensures x >= 0.0 ==> r >= 0.0
    ensures x <= 1.0 ==> r <= 1.0
  {
    (x * Decimals4 + 0.5).Floor as real / Decimals4
  }

  /** Rounding an already rounded value changes nothing. */
  lemma Round4Idempotent(x: real)
    ensures Round4(Round4(x)) == Round4(x)
  {
    var f := (x * Decimals4 + 0.5).Floor;
    var r := Round4(x);
    assert r * Decimals4 == f as real;
    assert (r * Decimals4 + 0.5).Floor == f;
  }

  /** The largest phase, 359 degrees, stays below 2π after rounding. */
  lemma Round4Phase(phase: real)
    requires 0.0 <= phase <= 359.0 * (Pi / 180.0)
    ensures 0.0 <= Round4(phase) < 2.0 * Pi
  {
  }

  /** A score the model may leave out, and otherwise gives in `[0, 1]`. */
  predicate UnitOrMissing(score: Option<real>) {
    score.Some? ==> 0.0 <= score.value <= 1.0
  }

  /**
   * The record `main` builds for one entry: missing relevance and complexity
   * read as 0.0, a missing change nature as "" (so phase 0); magnitude and
   * phase are written rounded to four decimals.
   */
  function BuildRecord(md5: string -> nat, testId: string, metrics: Metrics): (rec: TcaRecord)
    ensures rec.testId == testId
    ensures rec.originalSemantics == metrics.changeNature.GetOr("")
    ensures metrics.changeNature.None? ==> rec.phase == 0.0
    ensures metrics.relevance.None? && metrics.complexity.None? ==> rec.magnitude == 0.0
    ensures metrics.relevance.None? ==> rec.magnitude == Round4(metrics.complexity.GetOr(0.0) * ComplexityWeight)
    ensures metrics.complexity.None? ==> rec.magnitude == Round4(metrics.relevance.GetOr(0.0) * RelevanceWeight)
    ensures UnitOrMissing(metrics.relevance) && UnitOrMissing(metrics.complexity) ==> 0.0 <= rec.magnitude <= 1.0
    ensures 0.0 <= rec.phase < 2.0 * Pi
  {
    var changeNature := metrics.changeNature.GetOr("");
    var relevance, complexity := metrics.relevance.GetOr(0.0), metrics.complexity.GetOr(0.0);
    var magnitude := Magnitude(relevance, complexity);
    var phase := CalculatePhase(md5, changeNature);
    Round4Phase(phase);
    TcaRecord(testId, Round4(magnitude), Round4(phase), changeNature)
  }

  /** An entry with no metrics at all gets magnitude 0, phase 0 and empty semantics. */
  lemma EmptyMetricsDefaults(md5: string -> nat, testId: string)
    ensures BuildRecord(md5, testId, Metrics(None, None, None)) == TcaRecord(testId, 0.0, 0.0, "")
  {
  }

  /**
   * The loop of `main` over `llm_data.items()`: one record per entry, in
   * iteration order, id and change nature copied unchanged.
   */
  method BuildAmplitudes(md5: string -> nat, llmData: seq<(string, Metrics)>) returns (tcaData: seq<TcaRecord>)
    ensures |tcaData| == |llmData|
    ensures forall i :: 0 <= i < |llmData| ==> tcaData[i] == BuildRecord(md5, llmData[i].0, llmData[i].1)
  {
    tcaData := [];
    var i := 0;
    while i < |llmData|
      invariant 0 <= i <= |llmData|
      invariant |tcaData| == i
      invariant forall j :: 0 <= j < i ==> tcaData[j] == BuildRecord(md5, llmData[j].0, llmData[j].1)
    {
      var (testId, metrics) := llmData[i];
      var relevance := metrics.relevance.GetOr(0.0);
      var complexity := metrics.complexity.GetOr(0.0);
      var changeNature := metrics.changeNature.GetOr("");
      var magnitude := relevance * RelevanceWeight + complexity * ComplexityWeight;
      var phase := CalculatePhase(md5, changeNature);
      tcaData := tcaData + [TcaRecord(testId, Round4(magnitude), Round4(phase), changeNature)];
      i := i + 1;
    }
  }
}
