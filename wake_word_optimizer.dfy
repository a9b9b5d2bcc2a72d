/** wake_word_optimizer.py: the grid of wake-word configurations, the score
    of a configuration, the counting loop of one timed test and the search
    for the best score. The clock, the microphone and the console are
    parameters: a test is given the answers of the recognizer it made, one
    per attempt, and the time those attempts took. */
module WakeWordOptimizer {
  import opened Strings

  /** A value of the wake-word configuration dict. */
  datatype Value = IntValue(i: int) | RealValue(r: real) | BoolValue(b: bool) | TextValue(s: string) | TextsValue(ss: seq<string>)

  type WakeConfig = map<string, Value>

  const EnergyThresholds: seq<int> := [200, 300, 400, 500]
  const WakeTimeouts: seq<int> := [2, 3, 4, 5]
  const Sensitivities: seq<real> := [0.6, 0.7, 0.8, 0.9]

  /** A copy of the wake config with the three tuned keys overridden. */
  function Tuned(wake: WakeConfig, energy: int, timeout: int, sensitivity: real): WakeConfig {
    wake["energy_threshold" := IntValue(energy)]["timeout" := IntValue(timeout)]["sensitivity" := RealValue(sensitivity)]
  }

  /** `generate_test_configs`: the product of thresholds, timeouts and
      sensitivities, threshold outermost and sensitivity innermost. */
  function GenerateTestConfigs(wake: WakeConfig): (r: seq<WakeConfig>)
    ensures |r| == |EnergyThresholds| * |WakeTimeouts| * |Sensitivities| == 64
  {
    seq(64, k requires 0 <= k < 64 => Tuned(wake, EnergyThresholds[k / 16], WakeTimeouts[k / 4 % 4], Sensitivities[k % 4]))
  }

  /** Position 16e + 4t + s splits back into e, t and s. */
  lemma ProductIndex(e: int, t: int, s: int)
    requires 0 <= e < 4 && 0 <= t < 4 && 0 <= s < 4
    ensures (16 * e + 4 * t + s) / 16 == e && (16 * e + 4 * t + s) / 4 % 4 == t && (16 * e + 4 * t + s) % 4 == s
  {
    assert 16 * e + 4 * t + s == 4 * (4 * e + t) + s;
    assert (16 * e + 4 * t + s) / 4 == 4 * e + t;
  }

  /** The configs come in product order: threshold e, timeout t and
      sensitivity s sit at position 16e + 4t + s. */
  lemma ProductOrder(wake: WakeConfig, e: int, t: int, s: int)
    requires 0 <= e < 4 && 0 <= t < 4 && 0 <= s < 4
    ensures GenerateTestConfigs(wake)[16 * e + 4 * t + s] ==
      Tuned(wake, EnergyThresholds[e], WakeTimeouts[t], Sensitivities[s])
  {
    ProductIndex(e, t, s);
  }

  /** Every generated config keeps the other keys of the wake config as
      they are, and has exactly its keys plus the three tuned ones. */
  lemma OtherKeysUnchanged(wake: WakeConfig, e: int, t: int, s: int, key: string)
    requires 0 <= e < 4 && 0 <= t < 4 && 0 <= s < 4
    requires key != "energy_threshold" && key != "timeout" && key != "sensitivity"
    ensures key in GenerateTestConfigs(wake)[16 * e + 4 * t + s] <==> key in wake
    ensures key in wake ==> GenerateTestConfigs(wake)[16 * e + 4 * t + s][key] == wake[key]
  {
    ProductOrder(wake, e, t, s);
  }

  /** `max(0, (5 - t) / 5) * 30`: the response-time part of the score. */
  function ResponseTimeScore(avgResponseTime: real): (r: real)
    ensures 0.0 <= r
    ensures avgResponseTime >= 5.0 ==> r == 0.0
    ensures 0.0 <= avgResponseTime ==> r <= 30.0
  {
    (if (5.0 - avgResponseTime) / 5.0 > 0.0 then (5.0 - avgResponseTime) / 5.0 else 0.0) * 30.0
  }

  /** `_calculate_score`: 40 per unit of detection rate, minus 30 per unit
      of false-positive rate, plus the response part, clamped to [0, 100]. */
  function CalculateScore(detectionRate: real, falsePositiveRate: real, avgResponseTime: real): (r: real)
    ensures 0.0 <= r <= 100.0
  {
    var total := detectionRate * 40.0 - falsePositiveRate * 30.0 + ResponseTimeScore(avgResponseTime);
    if 100.0 < total then 100.0 else if total < 0.0 then 0.0 else total
  }

  /** A better detection rate never lowers the score, a higher
      false-positive rate never raises it. */
  lemma ScoreMonotone(d1: real, d2: real, f1: real, f2: real, t: real)
    requires d1 <= d2 && f2 <= f1
    ensures CalculateScore(d1, f1, t) <= CalculateScore(d2, f2, t)
  {
  }

  /** Within the unclamped range the score is the weighted sum. */
  lemma ScoreUnclamped(d: real, f: real, t: real)
    requires 0.0 <= d * 40.0 - f * 30.0 + ResponseTimeScore(t) <= 100.0
    ensures CalculateScore(d, f, t) == d * 40.0 - f * 30.0 + ResponseTimeScore(t)
  {
  }

  /** The device words a valid command must mention. */
  const DeviceWords: seq<string> := ["灯", "空调", "电视", "风扇", "窗帘"]

  /** An answer of `listen_with_wake_word` counted as a detection. */
  predicate IsDetection(result: Option<string>) {
    Truthy(result) && ContainsAny(Lower(result.value), DeviceWords)
  }

  /** An answer counted as a false positive. */
  predicate IsFalsePositive(result: Option<string>) {
    Truthy(result) && !ContainsAny(Lower(result.value), DeviceWords)
  }

  function Detections(results: seq<Option<string>>): (r: nat)
    ensures r <= |results|
  {
    if results == [] then 0
    else Detections(results[..|results| - 1]) + (if IsDetection(results[|results| - 1]) then 1 else 0)
  }

  function FalsePositives(results: seq<Option<string>>): (r: nat)
    ensures r <= |results|
  {
    if results == [] then 0
    else FalsePositives(results[..|results| - 1]) + (if IsFalsePositive(results[|results| - 1]) then 1 else 0)
  }

  /** No attempt counts as both a detection and a false positive. */
  lemma {:induction false} CountsWithinAttempts(results: seq<Option<string>>)
    ensures Detections(results) + FalsePositives(results) <= |results|
    decreases |results|
  {
    if results != [] {
      CountsWithinAttempts(results[..|results| - 1]);
    }
  }

  /** `x / max(1, n)`. */
  function Rate(x: nat, n: nat): (r: real)
    ensures x <= n ==> 0.0 <= r <= 1.0
    ensures n == 0 ==> r == x as real
  {
    var d := if n < 1 then 1 else n;
    QuotientBounds(x as real, d as real);
    x as real / d as real
  }

  /** A count over a positive divisor is non-negative, and at most 1 when it
      does not exceed the divisor. */
  lemma QuotientBounds(x: real, d: real)
    requires 0.0 <= x && 1.0 <= d
    ensures 0.0 <= x / d
    ensures x <= d ==> x / d <= 1.0
  {
    var q := x / d;
    assert q * d == x;
  }

  /** The record `test_config` returns. */
  datatype TestResult = TestResult(
    config: WakeConfig,
    testAttempts: nat,
    successfulDetections: nat,
    falsePositives: nat,
    detectionRate: real,
    falsePositiveRate: real,
    avgResponseTime: real,
    score: real,
    testDuration: real)

  /** `test_config`: `results` holds one answer per attempt the clock let
      through, `totalTime` the time they took; `recognizerFails` is the
      recognizer's constructor raising, which gives None. */
  method TestConfig(config: WakeConfig, results: seq<Option<string>>, totalTime: real, recognizerFails: bool)
    returns (r: Option<TestResult>)
    ensures recognizerFails <==> r.None?
    ensures r.Some? ==>
      var t := r.value;
      t.config == config && t.testAttempts == |results| &&
      t.successfulDetections == Detections(results) && t.falsePositives == FalsePositives(results) &&
      t.successfulDetections + t.falsePositives <= t.testAttempts &&
      t.detectionRate == Rate(t.successfulDetections, t.testAttempts) &&
      t.falsePositiveRate == Rate(t.falsePositives, t.testAttempts) &&
      0.0 <= t.detectionRate <= 1.0 && 0.0 <= t.falsePositiveRate <= 1.0 &&
      t.avgResponseTime == totalTime / (if |results| < 1 then 1 else |results|) as real &&
      t.score == CalculateScore(t.detectionRate, t.falsePositiveRate, t.avgResponseTime) &&
      t.testDuration == totalTime
  {
    if recognizerFails {
      return None;
    }
    var testAttempts: nat := 0;
    var successfulDetections: nat := 0;
    var falsePositives: nat := 0;
    while testAttempts < |results|
      invariant testAttempts <= |results|
      invariant successfulDetections == Detections(results[..testAttempts])
      invariant falsePositives == FalsePositives(results[..testAttempts])
    {
      var result := results[testAttempts];
      testAttempts := testAttempts + 1;
      assert results[..testAttempts][..testAttempts - 1] == results[..testAttempts - 1];
      if Truthy(result) {
        if ContainsAny(Lower(result.value), DeviceWords) {
          successfulDetections := successfulDetections + 1;
        } else {
          falsePositives := falsePositives + 1;
        }
      }
    }
    assert results[..testAttempts] == results;
    CountsWithinAttempts(results);
    var detectionRate := Rate(successfulDetections, testAttempts);
    var falsePositiveRate := Rate(falsePositives, testAttempts);
    var avgResponseTime := totalTime / (if testAttempts < 1 then 1 else testAttempts) as real;
    var score := CalculateScore(detectionRate, falsePositiveRate, avgResponseTime);
    r := Some(TestResult(config, testAttempts, successfulDetections, falsePositives,
                         detectionRate, falsePositiveRate, avgResponseTime, score, totalTime));
  }

  /** The answers that let the optimisation start, after `lower().strip()`. */
  const Accepted: seq<string> := ["y", "yes", "是", ""]

  /** The results kept by `run_optimization`: those `test_config` returned. */
  function Kept(tested: seq<Option<TestResult>>): seq<TestResult> {
    if tested == [] then []
    else Kept(tested[..|tested| - 1]) + (if tested[|tested| - 1].Some? then [tested[|tested| - 1].value] else [])
  }

  /** `tested[i]` is what `test_config` returned for `batch[i]`: a result
      carries the config it was run with. */
  predicate TestsOf(tested: seq<Option<TestResult>>, batch: seq<WakeConfig>) {
    |tested| == |batch| && forall i :: 0 <= i < |tested| && tested[i].Some? ==> tested[i].value.config == batch[i]
  }

  /** Every kept result was run with a config of the batch. */
  lemma {:induction false} KeptFrom(tested: seq<Option<TestResult>>, batch: seq<WakeConfig>)
    requires TestsOf(tested, batch)
    ensures forall r :: r in Kept(tested) ==> r.config in batch
    decreases |tested|
  {
    if tested != [] {
      var n := |tested| - 1;
      KeptFrom(tested[..n], batch[..n]);
      forall r | r in Kept(tested) ensures r.config in batch {
        if r in Kept(tested[..n]) {
          assert r.config in batch[..n];
        } else {
          assert r == tested[n].value;
          assert batch[n] in batch;
        }
      }
    }
  }

  /** The best score and best result after the given results, starting from
      the current ones: replaced only on a strictly greater score. */
  function Best(score: real, best: Option<TestResult>, results: seq<TestResult>): (r: (real, Option<TestResult>))
    ensures score <= r.0
    ensures forall i :: 0 <= i < |results| ==> results[i].score <= r.0
    ensures r.0 == score ==> r.1 == best
    ensures r.0 != score ==> r.1.Some? && r.1.value in results && r.1.value.score == r.0
  {
    if results == [] then (score, best)
    else
      var prev := Best(score, best, results[..|results| - 1]);
      var last := results[|results| - 1];
      if last.score > prev.0 then (last.score, Some(last)) else prev
  }

  /** The object of class WakeWordOptimizer. */
  class Optimizer {
    var testResults: seq<TestResult>
    var bestConfig: Option<TestResult>
    var bestScore: real

    constructor ()
      ensures testResults == [] && bestConfig == None && bestScore == 0.0
    {
      testResults := [];
      bestConfig := None;
      bestScore := 0.0;
    }

    /** `run_optimization`: `answer` is what the user typed and `tested[i]`
        is what `test_config` returned for config i of the batch (the first
        `configs_per_batch` configs, as a Python slice). Unless the answer
        accepts, nothing changes. */
    method RunOptimization(wake: WakeConfig, configsPerBatch: int, answer: string, tested: seq<Option<TestResult>>)
      requires |tested| == PySliceEnd(configsPerBatch, 64)
      requires TestsOf(tested, GenerateTestConfigs(wake)[..|tested|])
      modifies this
      ensures !Accepts(answer) ==>
        testResults == old(testResults) && bestConfig == old(bestConfig) && bestScore == old(bestScore)
      ensures Accepts(answer) ==>
        testResults == old(testResults) + Kept(tested) &&
        (bestScore, bestConfig) == Best(old(bestScore), old(bestConfig), Kept(tested))
      ensures old(bestScore) <= bestScore
      ensures forall r :: r in Kept(tested) ==> r.config in GenerateTestConfigs(wake)[..PySliceEnd(configsPerBatch, 64)]
      ensures bestConfig != old(bestConfig) ==>
        bestConfig.Some? && bestConfig.value.config in GenerateTestConfigs(wake)[..PySliceEnd(configsPerBatch, 64)]
    {
      var configs := GenerateTestConfigs(wake);
      KeptFrom(tested, configs[..|tested|]);
      var response := Strip(Lower(answer));
      if response !in Accepted {
        return;
      }
      var batch := configs[..PySliceEnd(configsPerBatch, |configs|)];
      RecordBatch(batch, tested);
    }

    /** The loop of `run_optimization` over the batch. */
    method RecordBatch(batch: seq<WakeConfig>, tested: seq<Option<TestResult>>)
      requires TestsOf(tested, batch)
      modifies this
      ensures testResults == old(testResults) + Kept(tested)
      ensures (bestScore, bestConfig) == Best(old(bestScore), old(bestConfig), Kept(tested))
      ensures forall r :: r in Kept(tested) ==> r.config in batch
      ensures bestConfig != old(bestConfig) ==> bestConfig.Some? && bestConfig.value.config in batch
    {
      KeptFrom(tested, batch);
      for i := 0 to |batch|
        invariant testResults == old(testResults) + Kept(tested[..i])
        invariant (bestScore, bestConfig) == Best(old(bestScore), old(bestConfig), Kept(tested[..i]))
      {
        var result := tested[i];
        ghost var kept := Kept(tested[..i]);
        assert tested[..i + 1][..i] == tested[..i];
        if result.Some? {
          testResults := testResults + [result.value];
          assert Kept(tested[..i + 1]) == kept + [result.value];
          assert (kept + [result.value])[..|kept|] == kept;
          if result.value.score > bestScore {
            bestScore := result.value.score;
            bestConfig := Some(result.value);
          }
        } else {
          assert Kept(tested[..i + 1]) == kept;
        }
      }
      assert tested[..|batch|] == tested;
    }
  }

  /** The answer, after `lower().strip()`, lets the optimisation start. */
  predicate Accepts(answer: string) {
    Strip(Lower(answer)) in Accepted
  }

  function SumScores(results: seq<TestResult>): real {
    if results == [] then 0.0 else SumScores(results[..|results| - 1]) + results[|results| - 1].score
  }

  /** The `summary` part of `export_results`. */
  datatype Summary = Summary(totalConfigsTested: nat, bestScore: real, avgScore: real)

  function ExportSummary(results: seq<TestResult>, bestScore: real): (r: Summary)
    ensures r.totalConfigsTested == |results| && r.bestScore == bestScore
    ensures results == [] ==> r.avgScore == 0.0
  {
    Summary(|results|, bestScore, if results != [] then SumScores(results) / |results| as real else 0.0)
  }

  /** Scores in [0, 100] sum to at most 100 per result. */
  lemma {:induction false} SumScoresBounds(results: seq<TestResult>)
    requires forall i :: 0 <= i < |results| ==> 0.0 <= results[i].score <= 100.0
    ensures 0.0 <= SumScores(results) <= 100.0 * |results| as real
    decreases |results|
  {
    if results != [] {
      SumScoresBounds(results[..|results| - 1]);
    }
  }

  /** The average of scores from `_calculate_score` lies in [0, 100]. */
  lemma AverageInRange(results: seq<TestResult>, bestScore: real)
    requires forall i :: 0 <= i < |results| ==> 0.0 <= results[i].score <= 100.0
    ensures 0.0 <= ExportSummary(results, bestScore).avgScore <= 100.0
  {
    if results != [] {
      SumScoresBounds(results);
      var n := |results| as real;
      assert SumScores(results) / n <= 100.0 * n / n;
    }
  }
}
