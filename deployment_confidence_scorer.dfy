/**
 * The deployment confidence scorer: six factors in [0, 1] (safety gates,
 * canary health, blast radius, deployment history, change complexity, test
 * coverage) are weighted into a score out of 100, which decides between
 * automatic promotion, manual review and rollback.
 *
 * Dictionaries keep their insertion order as sequences of key/value pairs;
 * floating-point arithmetic is modelled with exact reals.
 */
module DeploymentConfidenceScorer {
  import opened Wrappers

  datatype DeploymentDecision = AutoPromote | ManualReview | Rollback

  datatype ConfidenceFactors = ConfidenceFactors(
    safetyScore: real,
    canaryHealth: real,
    blastRadius: real,
    historicalSuccess: real,
    changeComplexity: real,
    testCoverage: real)

  /** The value stored under one key of `safety_result['results']`. */
  datatype CheckEntry =
    | CheckDict(passed: Option<bool>, coverage: Option<real>)
    | NotADict

  datatype SafetyResult = SafetyResult(
    passed: bool,
    results: seq<(string, CheckEntry)>,
    patchesApplied: int)

  datatype CanaryResult = CanaryResult(passed: bool, passedGates: int, totalGates: int)

  datatype ScoreError = WeightsDoNotSumToOne(total: real) | MissingWeight(key: string) | TestsEntryNotADict

  // ---------------------------------------------------------------- weights

  function WeightSum(weights: seq<(string, real)>): real
  {
    if weights == [] then 0.0 else WeightSum(weights[..|weights| - 1]) + weights[|weights| - 1].1
  }

  /** `d.get(key)` on a dictionary given in insertion order. */
  function Lookup<V>(entries: seq<(string, V)>, key: string): (r: Option<V>)
    ensures r.Some? ==> exists i | 0 <= i < |entries| :: entries[i] == (key, r.value)
    ensures r.None? <==> forall i | 0 <= i < |entries| :: entries[i].0 != key
  {
    if entries == [] then None
    else if entries[0].0 == key then Some(entries[0].1)
    else
      var r := Lookup(entries[1..], key);
      assert forall i | 0 <= i < |entries[1..]| :: entries[1..][i] == entries[i + 1];
      r
  }

  const FactorKeys: seq<string> :=
    ["safety_score", "canary_health", "blast_radius", "historical_success", "change_complexity", "test_coverage"]

  /** Safety gates weigh most, then canary health. */
  const DefaultWeights: seq<(string, real)> :=
    [("safety_score", 0.30), ("canary_health", 0.25), ("blast_radius", 0.15),
     ("historical_success", 0.10), ("change_complexity", 0.10), ("test_coverage", 0.10)]

  datatype Scorer = Scorer(thresholdAuto: real, thresholdManual: real, weights: seq<(string, real)>)

  predicate WeightsSumToOne(weights: seq<(string, real)>)
  {
    -0.01 <= WeightSum(weights) - 1.0 <= 0.01
  }

  /** The constructor: missing or empty weights take the defaults; a total more than 0.01 away from 1 is refused. */
  function NewScorer(thresholdAuto: real, thresholdManual: real, weights: Option<seq<(string, real)>>)
    : (r: Result<Scorer, ScoreError>)
    ensures r.Ok? <==> WeightsSumToOne(if weights.Some? && weights.value != [] then weights.value else DefaultWeights)
    ensures r.Ok? ==> r.value.thresholdAuto == thresholdAuto && r.value.thresholdManual == thresholdManual
    ensures r.Ok? && (weights.None? || weights == Some([])) ==> r.value.weights == DefaultWeights
    ensures r.Ok? && weights.Some? && weights.value != [] ==> r.value.weights == weights.value
    ensures r.Err? ==> r.error.WeightsDoNotSumToOne?
  {
    var chosen := if weights.Some? && weights.value != [] then weights.value else DefaultWeights;
    var total := WeightSum(chosen);
    if total - 1.0 > 0.01 || 1.0 - total > 0.01 then Err(WeightsDoNotSumToOne(total))
    else Ok(Scorer(thresholdAuto, thresholdManual, chosen))
  }

  /** The default scorer (thresholds 80 and 60) is accepted. */
  lemma DefaultScorerAccepted()
    ensures NewScorer(80.0, 60.0, None) == Ok(Scorer(80.0, 60.0, DefaultWeights))
  {
    var w := DefaultWeights;
    assert WeightSum(w[..1]) == 0.30 by { assert w[..1][..0] == []; }
    assert WeightSum(w[..2]) == 0.55 by { assert w[..2][..1] == w[..1]; }
    assert WeightSum(w[..3]) == 0.70 by { assert w[..3][..2] == w[..2]; }
    assert WeightSum(w[..4]) == 0.80 by { assert w[..4][..3] == w[..3]; }
    assert WeightSum(w[..5]) == 0.90 by { assert w[..5][..4] == w[..4]; }
    assert w[..6][..5] == w[..5] && w[..6] == w;
  }

  // ---------------------------------------------------------------- factors

  function CountedChecks(results: seq<(string, CheckEntry)>): (n: nat)
    ensures n <= |results|
  {
    if results == [] then 0
    else
      var e := results[|results| - 1].1;
      CountedChecks(results[..|results| - 1]) + (if e.CheckDict? && e.passed.Some? then 1 else 0)
  }

  function PassedChecks(results: seq<(string, CheckEntry)>): (n: nat)
    ensures n <= CountedChecks(results)
  {
    if results == [] then 0
    else
      var e := results[|results| - 1].1;
      PassedChecks(results[..|results| - 1]) + (if e.CheckDict? && e.passed == Some(true) then 1 else 0)
  }

  lemma DivAtMostOne(a: real, t: real)
    requires 0.0 <= a <= t && t > 0.0
    ensures 0.0 <= a / t <= 1.0
    ensures a == t ==> a / t == 1.0
  {
    assert t / t - a / t == (t - a) / t;
    assert a / t == a * (1.0 / t);
  }

  /** `_calculate_safety_score`: 0 when the gates failed, 0.5 when no check reports, else the passed share. */
  function SafetyScore(s: SafetyResult): (r: real)
    ensures 0.0 <= r <= 1.0
    ensures !s.passed ==> r == 0.0
    ensures s.passed && CountedChecks(s.results) == 0 ==> r == 0.5
    ensures s.passed && CountedChecks(s.results) > 0
            ==> r == PassedChecks(s.results) as real / CountedChecks(s.results) as real
    ensures s.passed && 0 < CountedChecks(s.results) == PassedChecks(s.results) ==> r == 1.0
  {
    if !s.passed then 0.0
    else if CountedChecks(s.results) == 0 then 0.5
    else
      var passed, counted := PassedChecks(s.results) as real, CountedChecks(s.results) as real;
      DivAtMostOne(passed, counted);
      passed / counted
  }

  method CalculateSafetyScore(s: SafetyResult) returns (score: real)
    ensures score == SafetyScore(s)
  {
    if !s.passed {
      return 0.0;
    }
    var passedChecks, totalChecks := 0, 0;
    var i := 0;
    while i < |s.results|
      invariant 0 <= i <= |s.results|
      invariant totalChecks == CountedChecks(s.results[..i]) && passedChecks == PassedChecks(s.results[..i])
    {
      assert s.results[..i + 1][..i] == s.results[..i];
      var entry := s.results[i].1;
      if entry.CheckDict? && entry.passed.Some? {
        totalChecks := totalChecks + 1;
        if entry.passed.value {
          passedChecks := passedChecks + 1;
        }
      }
      i := i + 1;
    }
    assert s.results[..i] == s.results;
    if totalChecks == 0 {
      return 0.5;
    }
    score := passedChecks as real / totalChecks as real;
  }

  /** `_calculate_canary_health`, with no canary data counted healthy. */
  function CanaryHealth(canary: Option<CanaryResult>): (r: real)
    ensures canary.None? ==> r == 1.0
    ensures canary.Some? && !canary.value.passed ==> r == 0.0
    ensures canary.Some? && canary.value.passed && 0 <= canary.value.passedGates <= canary.value.totalGates
            ==> 0.0 <= r <= 1.0
    ensures canary.Some? && canary.value.passed && canary.value.totalGates > 0
            ==> r == canary.value.passedGates as real / canary.value.totalGates as real
    ensures canary.Some? && canary.value.passed && canary.value.totalGates <= 0 ==> r == 0.5
  {
    if canary.None? then 1.0
    else if !canary.value.passed then 0.0
    else if canary.value.totalGates > 0 then
      var c := canary.value;
      assert 0 <= c.passedGates <= c.totalGates ==> 0.0 <= c.passedGates as real / c.totalGates as real <= 1.0 by {
        if 0 <= c.passedGates <= c.totalGates { DivAtMostOne(c.passedGates as real, c.totalGates as real); }
      }
      c.passedGates as real / c.totalGates as real
    else 0.5
  }

  const ServiceBlast: map<string, real> :=
    map["payment-service" := 0.9, "auth-service" := 0.9, "user-service" := 0.8, "order-service" := 0.7,
        "notification-service" := 0.5, "analytics-service" := 0.3, "logging-service" := 0.2]

  /** `_calculate_blast_radius`: one minus the service's criticality (0.5 when unlisted). */
  function BlastRadius(serviceName: string): (r: real)
    ensures 0.1 <= r <= 0.8
    ensures serviceName !in ServiceBlast ==> r == 0.5
    ensures serviceName in ServiceBlast ==> r == 1.0 - ServiceBlast[serviceName]
  {
    1.0 - (if serviceName in ServiceBlast then ServiceBlast[serviceName] else 0.5)
  }

  function CountSuccesses(history: seq<bool>): (n: nat)
    ensures n <= |history|
  {
    if history == [] then 0 else CountSuccesses(history[..|history| - 1]) + (if history[|history| - 1] then 1 else 0)
  }

  /** `history[-10:]`. */
  function LastTen(history: seq<bool>): (r: seq<bool>)
    ensures |r| == if |history| < 10 then |history| else 10
    ensures r == history[|history| - |r|..]
  {
    if |history| <= 10 then history else history[|history| - 10..]
  }

  /** `_calculate_historical_success`: 0.7 without history, else the success share of the last ten deployments. */
  function HistoricalSuccess(history: seq<bool>): (r: real)
    ensures 0.0 <= r <= 1.0
    ensures history == [] ==> r == 0.7
    ensures history != [] ==> r == CountSuccesses(LastTen(history)) as real / |LastTen(history)| as real
  {
    if history == [] then 0.7
    else
      var recent := LastTen(history);
      DivAtMostOne(CountSuccesses(recent) as real, |recent| as real);
      CountSuccesses(recent) as real / |recent| as real
  }

  /** Deployments older than the last ten do not count. */
  lemma OnlyLastTenCount(older: seq<bool>, recent: seq<bool>)
    requires |recent| >= 10
    ensures HistoricalSuccess(older + recent) == HistoricalSuccess(recent)
  {
    assert LastTen(older + recent) == LastTen(recent);
  }

  /** `_calculate_change_complexity`: 1 with no patches, falling by 0.1 per patch to 0 at ten. */
  function ChangeComplexity(patchesApplied: int): (r: real)
    ensures patchesApplied == 0 ==> r == 1.0
    ensures patchesApplied >= 10 ==> r == 0.0
    ensures 0 < patchesApplied < 10 ==> r == 1.0 - patchesApplied as real / 10.0 && 0.0 < r < 1.0
    ensures patchesApplied < 0 ==> r > 1.0
  {
    if patchesApplied == 0 then 1.0
    else
      var complexity := if patchesApplied as real / 10.0 < 1.0 then patchesApplied as real / 10.0 else 1.0;
      1.0 - complexity
  }

  /** More patches never mean a better complexity factor. */
  lemma ChangeComplexityAntitone(p: int, q: int)
    requires 0 < p <= q
    ensures ChangeComplexity(q) <= ChangeComplexity(p)
  {
  }

  /** The `tests` entry is a dictionary whose `coverage` is `c`. */
  predicate ReportsCoverage(results: seq<(string, CheckEntry)>, c: real)
  {
    var tests := Lookup(results, "tests");
    tests.Some? && tests.value.CheckDict? && tests.value.coverage == Some(c)
  }

  predicate InUnit(x: real)
  {
    0.0 <= x <= 1.0
  }

  /** `_extract_test_coverage`: the `tests` entry's coverage, read as a percentage when above 1. */
  function TestCoverage(results: seq<(string, CheckEntry)>): (r: Result<real, ScoreError>)
    ensures Lookup(results, "tests").None? ==> r == Ok(0.0)
    ensures r.Err? <==> Lookup(results, "tests") == Some(NotADict)
    ensures forall c | ReportsCoverage(results, c) && 0.0 <= c <= 100.0 :: r.Ok? && InUnit(r.value)
    ensures forall c | ReportsCoverage(results, c) :: r == Ok(if c > 1.0 then c / 100.0 else c)
    ensures (var tests := Lookup(results, "tests"); tests.Some? && tests.value.CheckDict? && tests.value.coverage.None?)
            ==> r == Ok(0.0)
  {
    var tests := Lookup(results, "tests");
    if tests.None? then Ok(0.0)
    else if tests.value.NotADict? then Err(TestsEntryNotADict)
    else
      var c := tests.value.coverage.GetOr(0.0);
      Ok(if c > 1.0 then c / 100.0 else c)
  }

  /**
   * `_extract_factors`: the six factors, each from its own calculation; only a
   * `tests` entry that is not a dictionary makes the extraction fail.
   */
  function ExtractFactors(s: SafetyResult, canary: Option<CanaryResult>, serviceName: string, history: seq<bool>)
    : (r: Result<ConfidenceFactors, ScoreError>)
    ensures r.Err? <==> Lookup(s.results, "tests") == Some(NotADict)
    ensures r.Ok? ==> InUnit(r.value.safetyScore) && InUnit(r.value.historicalSuccess)
                      && 0.1 <= r.value.blastRadius <= 0.8
    ensures r.Ok? ==> r.value.safetyScore == SafetyScore(s) && r.value.canaryHealth == CanaryHealth(canary)
                      && r.value.blastRadius == BlastRadius(serviceName) && r.value.historicalSuccess == HistoricalSuccess(history)
                      && r.value.changeComplexity == ChangeComplexity(s.patchesApplied)
                      && Ok(r.value.testCoverage) == TestCoverage(s.results)
    ensures r.Ok? && !s.passed ==> r.value.safetyScore == 0.0
    ensures r.Ok? && canary.Some? && !canary.value.passed ==> r.value.canaryHealth == 0.0
  {
    match TestCoverage(s.results)
    case Err(e) => Err(e)
    case Ok(coverage) =>
      Ok(ConfidenceFactors(SafetyScore(s), CanaryHealth(canary), BlastRadius(serviceName), HistoricalSuccess(history),
                           ChangeComplexity(s.patchesApplied), coverage))
  }

  // ------------------------------------------------------ score and decision

  /** `_calculate_weighted_score`: a missing weight is a KeyError. */
  function WeightedScore(weights: seq<(string, real)>, f: ConfidenceFactors): (r: Result<real, ScoreError>)
    ensures r.Err? <==> exists k | 0 <= k < |FactorKeys| :: Lookup(weights, FactorKeys[k]).None?
  {
    var safety := Lookup(weights, "safety_score");
    var canary := Lookup(weights, "canary_health");
    var blast := Lookup(weights, "blast_radius");
    var history := Lookup(weights, "historical_success");
    var complexity := Lookup(weights, "change_complexity");
    var coverage := Lookup(weights, "test_coverage");
    assert FactorKeys[0] == "safety_score" && FactorKeys[1] == "canary_health" && FactorKeys[2] == "blast_radius";
    assert FactorKeys[3] == "historical_success" && FactorKeys[4] == "change_complexity";
    assert FactorKeys[5] == "test_coverage" && |FactorKeys| == 6;
    if safety.None? then Err(MissingWeight("safety_score"))
    else if canary.None? then Err(MissingWeight("canary_health"))
    else if blast.None? then Err(MissingWeight("blast_radius"))
    else if history.None? then Err(MissingWeight("historical_success"))
    else if complexity.None? then Err(MissingWeight("change_complexity"))
    else if coverage.None? then Err(MissingWeight("test_coverage"))
    else
      Ok((f.safetyScore * safety.value + f.canaryHealth * canary.value + f.blastRadius * blast.value
          + f.historicalSuccess * history.value + f.changeComplexity * complexity.value
          + f.testCoverage * coverage.value) * 100.0)
  }

  /** With the default weights, factors in [0, 1] give a score in [0, 100]. */
  lemma DefaultScoreInRange(f: ConfidenceFactors)
    requires InUnit(f.safetyScore) && InUnit(f.canaryHealth) && InUnit(f.blastRadius)
    requires InUnit(f.historicalSuccess) && InUnit(f.changeComplexity) && InUnit(f.testCoverage)
    ensures WeightedScore(DefaultWeights, f).Ok?
    ensures 0.0 <= WeightedScore(DefaultWeights, f).value <= 100.0
  {
    DefaultWeightsLookup();
  }

  /** The weights of the first three factors in the default table. */
  lemma DefaultLeadingWeights()
    ensures Lookup(DefaultWeights, "safety_score") == Some(0.30)
    ensures Lookup(DefaultWeights, "canary_health") == Some(0.25)
    ensures Lookup(DefaultWeights, "blast_radius") == Some(0.15)
  {
  }

  /** The weights of the fourth and fifth factors in the default table. */
  lemma DefaultTrailingWeights()
    ensures Lookup(DefaultWeights, "historical_success") == Some(0.10)
    ensures Lookup(DefaultWeights, "change_complexity") == Some(0.10)
  {
  }

  /** The weight of the last factor in the default table. */
  lemma DefaultCoverageWeight()
    ensures Lookup(DefaultWeights, "test_coverage") == Some(0.10)
  {
  }

  lemma DefaultWeightsLookup()
    ensures Lookup(DefaultWeights, "safety_score") == Some(0.30)
    ensures Lookup(DefaultWeights, "canary_health") == Some(0.25)
    ensures Lookup(DefaultWeights, "blast_radius") == Some(0.15)
    ensures Lookup(DefaultWeights, "historical_success") == Some(0.10)
    ensures Lookup(DefaultWeights, "change_complexity") == Some(0.10)
    ensures Lookup(DefaultWeights, "test_coverage") == Some(0.10)
  {
    DefaultLeadingWeights();
    DefaultTrailingWeights();
    DefaultCoverageWeight();
  }

  /** `_make_decision`. */
  function MakeDecision(scorer: Scorer, score: real): (d: DeploymentDecision)
    ensures d == AutoPromote <==> score >= scorer.thresholdAuto
    ensures d == ManualReview <==> scorer.thresholdManual <= score < scorer.thresholdAuto
    ensures d == Rollback <==> score < scorer.thresholdManual && score < scorer.thresholdAuto
  {
    if score >= scorer.thresholdAuto then AutoPromote
    else if score >= scorer.thresholdManual then ManualReview
    else Rollback
  }

  function DecisionRank(d: DeploymentDecision): nat
  {
    match d
    case Rollback => 0
    case ManualReview => 1
    case AutoPromote => 2
  }

  /** A higher score never leads to a more cautious decision. */
  lemma DecisionMonotone(scorer: Scorer, a: real, b: real)
    requires a <= b
    ensures DecisionRank(MakeDecision(scorer, a)) <= DecisionRank(MakeDecision(scorer, b))
  {
  }

  datatype DeploymentConfidence = DeploymentConfidence(
    overallScore: real,
    decision: DeploymentDecision,
    factors: ConfidenceFactors,
    thresholdAuto: real,
    thresholdManual: real)

  /** `calculate_confidence`: factors, weighted score, decision. */
  method CalculateConfidence(scorer: Scorer, s: SafetyResult, canary: Option<CanaryResult>, serviceName: string,
                             history: seq<bool>) returns (r: Result<DeploymentConfidence, ScoreError>)
    ensures ExtractFactors(s, canary, serviceName, history).Err? ==> r == Err(ExtractFactors(s, canary, serviceName, history).error)
    ensures r.Ok? ==> ExtractFactors(s, canary, serviceName, history) == Ok(r.value.factors)
                      && WeightedScore(scorer.weights, r.value.factors) == Ok(r.value.overallScore)
                      && r.value.decision == MakeDecision(scorer, r.value.overallScore)
                      && r.value.thresholdAuto == scorer.thresholdAuto && r.value.thresholdManual == scorer.thresholdManual
    ensures r.Err? ==> ExtractFactors(s, canary, serviceName, history).Err?
                       || WeightedScore(scorer.weights, ExtractFactors(s, canary, serviceName, history).value).Err?
  {
    var safety := CalculateSafetyScore(s);
    var coverage := TestCoverage(s.results);
    if coverage.Err? {
      return Err(coverage.error);
    }
    var factors := ConfidenceFactors(safety, CanaryHealth(canary), BlastRadius(serviceName), HistoricalSuccess(history),
                                     ChangeComplexity(s.patchesApplied), coverage.value);
    var score := WeightedScore(scorer.weights, factors);
    if score.Err? {
      return Err(score.error);
    }
    r := Ok(DeploymentConfidence(score.value, MakeDecision(scorer, score.value), factors,
                                 scorer.thresholdAuto, scorer.thresholdManual));
  }

  /** A failed safety gate caps the default-weighted score at 70: never promoted under the default thresholds. */
  lemma FailedGatesCapDefaultScore(f: ConfidenceFactors)
    requires f.safetyScore == 0.0
    requires InUnit(f.canaryHealth) && InUnit(f.blastRadius)
    requires InUnit(f.historicalSuccess) && InUnit(f.changeComplexity) && InUnit(f.testCoverage)
    ensures WeightedScore(DefaultWeights, f).Ok? && WeightedScore(DefaultWeights, f).value <= 70.0
    ensures MakeDecision(Scorer(80.0, 60.0, DefaultWeights), WeightedScore(DefaultWeights, f).value) != AutoPromote
  {
    DefaultScoreInRange(f);
  }
}
