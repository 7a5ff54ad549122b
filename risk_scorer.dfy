/**
 * The risk-weighted gate: risk = service criticality × change size × error
 * severity, scaled to 0..100, bucketed against three thresholds, and turned
 * into a deployment recommendation.
 *
 * The step results (patches, tests, lint, static analysis, build) arrive as
 * records whose fields are None where the source's dictionary lacks the key.
 */
module RiskScorer {
  import opened Wrappers
  import Strings

  datatype RiskLevel = Low | Medium | High | Critical

  datatype ServiceCriticality = CriticalService | HighService | MediumService | LowService | DevService
  {
    function Value(): (v: nat)
      ensures 1 <= v <= 5
    {
      match this
      case CriticalService => 5
      case HighService => 4
      case MediumService => 3
      case LowService => 2
      case DevService => 1
    }
  }

  datatype ChangeSize = Tiny | Small | MediumChange | Large | Huge
  {
    function Value(): (v: nat)
      ensures 1 <= v <= 5
    {
      match this
      case Tiny => 1
      case Small => 2
      case MediumChange => 3
      case Large => 4
      case Huge => 5
    }
  }

  datatype PatchStat = PatchStat(linesAdded: Option<int>, linesRemoved: Option<int>)

  datatype TestResult = TestResult(testsFailed: Option<int>, testsRun: Option<int>, coveragePercentage: Option<real>)

  datatype AnalysisResult = AnalysisResult(securityScanPassed: Option<bool>, critical: Option<int>, high: Option<int>)

  datatype LintResult = LintResult(errors: Option<int>)

  datatype BuildResult = BuildResult(passed: Option<bool>)

  datatype RiskConfig = RiskConfig(
    serviceCriticality: map<string, ServiceCriticality>,
    lowRiskThreshold: real,
    mediumRiskThreshold: real,
    highRiskThreshold: real)

  /** The built-in criticality table and thresholds. */
  function DefaultRiskConfig(): RiskConfig
  {
    RiskConfig(
      map["payment-service" := CriticalService, "auth-service" := CriticalService, "api-gateway" := CriticalService,
          "user-service" := HighService, "notification-service" := MediumService, "analytics-service" := LowService],
      20.0, 50.0, 75.0)
  }

  // ------------------------------------------------------------ criticality

  predicate MentionsAny(name: string, keywords: seq<string>)
  {
    exists k :: 0 <= k < |keywords| && Strings.Contains(Strings.Lower(name), keywords[k])
  }

  /** `_get_service_criticality`: the table first, then keywords in the name, then MEDIUM. */
  function ServiceCriticalityOf(config: RiskConfig, serviceName: string): (c: ServiceCriticality)
    ensures serviceName in config.serviceCriticality ==> c == config.serviceCriticality[serviceName]
    ensures serviceName !in config.serviceCriticality && MentionsAny(serviceName, ["payment", "auth", "security"])
            ==> c == CriticalService
    ensures serviceName !in config.serviceCriticality ==> c != DevService
  {
    if serviceName in config.serviceCriticality then config.serviceCriticality[serviceName]
    else if MentionsAny(serviceName, ["payment", "auth", "security"]) then CriticalService
    else if MentionsAny(serviceName, ["api", "gateway", "user"]) then HighService
    else if MentionsAny(serviceName, ["notification", "email", "worker"]) then MediumService
    else if MentionsAny(serviceName, ["analytics", "logging", "metrics"]) then LowService
    else MediumService
  }

  // ------------------------------------------------------------ change size

  /** The lines added plus removed over the first `n` patches. */
  function LinesBelow(patches: seq<PatchStat>, n: nat): int
    requires n <= |patches|
  {
    if n == 0 then 0 else LinesBelow(patches, n - 1) + patches[n - 1].linesAdded.GetOr(0) + patches[n - 1].linesRemoved.GetOr(0)
  }

  function LinesChanged(patchResults: Option<seq<PatchStat>>): int
  {
    var patches := patchResults.GetOr([]);
    LinesBelow(patches, |patches|)
  }

  /** Patch records report counts, so the total is never negative. */
  lemma {:induction false} LinesBelowNonNegative(patches: seq<PatchStat>, n: nat)
    requires n <= |patches|
    requires forall k :: 0 <= k < |patches| ==> patches[k].linesAdded.GetOr(0) >= 0 && patches[k].linesRemoved.GetOr(0) >= 0
    ensures LinesBelow(patches, n) >= 0
  {
    if n > 0 {
      LinesBelowNonNegative(patches, n - 1);
    }
  }

  /** Patch totals add up over a split of the patch list. */
  lemma {:induction false} LinesBelowConcat(a: seq<PatchStat>, b: seq<PatchStat>, n: nat)
    requires n <= |b|
    ensures LinesBelow(a + b, |a| + n) == LinesBelow(a, |a|) + LinesBelow(b, n)
  {
    if n == 0 {
      LinesBelowPrefix(a, b, |a|);
    } else {
      LinesBelowConcat(a, b, n - 1);
      assert (a + b)[|a| + n - 1] == b[n - 1];
    }
  }

  lemma {:induction false} LinesBelowPrefix(a: seq<PatchStat>, b: seq<PatchStat>, n: nat)
    requires n <= |a|
    ensures LinesBelow(a + b, n) == LinesBelow(a, n)
  {
    if n > 0 {
      LinesBelowPrefix(a, b, n - 1);
      assert (a + b)[n - 1] == a[n - 1];
    }
  }

  /** `_count_lines_changed`. */
  method CountLinesChanged(patchResults: Option<seq<PatchStat>>) returns (total: int)
    ensures total == LinesChanged(patchResults)
  {
    var patches := patchResults.GetOr([]);
    total := 0;
    var i := 0;
    while i < |patches|
      invariant 0 <= i <= |patches|
      invariant total == LinesBelow(patches, i)
    {
      total := total + patches[i].linesAdded.GetOr(0);
      total := total + patches[i].linesRemoved.GetOr(0);
      i := i + 1;
    }
  }

  /** `_calculate_change_size`. */
  function ChangeSizeFor(totalLines: int): (c: ChangeSize)
    ensures c == Tiny <==> totalLines <= 10
    ensures c == Small <==> 10 < totalLines <= 50
    ensures c == MediumChange <==> 50 < totalLines <= 200
    ensures c == Large <==> 200 < totalLines <= 500
    ensures c == Huge <==> 500 < totalLines
  {
    if totalLines <= 10 then Tiny
    else if totalLines <= 50 then Small
    else if totalLines <= 200 then MediumChange
    else if totalLines <= 500 then Large
    else Huge
  }

  /** More changed lines never give a smaller change size. */
  lemma ChangeSizeMonotone(a: int, b: int)
    requires a <= b
    ensures ChangeSizeFor(a).Value() <= ChangeSizeFor(b).Value()
  {
  }

  // --------------------------------------------------------- error severity

  function MinReal(a: real, b: real): (m: real)
    ensures m <= a && m <= b && (m == a || m == b)
  {
    if a <= b then a else b
  }

  function BuildFailed(build: Option<BuildResult>): bool
  {
    build.Some? && !build.value.passed.GetOr(true)
  }

  /** The failed-test share (up to 4 points for counts that are not negative) and the coverage shortfall below 80%. */
  function TestPoints(test: TestResult): real
  {
    var failed := test.testsFailed.GetOr(0);
    var run := test.testsRun.GetOr(1);
    var coverage := test.coveragePercentage.GetOr(100.0);
    (if run > 0 then (failed as real / run as real) * 4.0 else 0.0)
    + (if coverage < 80.0 then (80.0 - coverage) / 20.0 else 0.0)
  }

  /** 5 points for a failed security scan, half a point per critical and a quarter per high finding, at most 3. */
  function AnalysisPoints(analysis: AnalysisResult): real
  {
    (if !analysis.securityScanPassed.GetOr(true) then 5.0 else 0.0)
    + MinReal(analysis.critical.GetOr(0) as real * 0.5 + analysis.high.GetOr(0) as real * 0.25, 3.0)
  }

  /** A tenth of a point per lint error, at most 1. */
  function LintPoints(lint: LintResult): real
  {
    MinReal(lint.errors.GetOr(0) as real * 0.1, 1.0)
  }

  /** The severity `_calculate_error_severity` arrives at: 10 for a failed build, otherwise the capped sum of the points. */
  function ErrorSeverity(test: Option<TestResult>, lint: Option<LintResult>, analysis: Option<AnalysisResult>,
                         build: Option<BuildResult>): real
  {
    if BuildFailed(build) then 10.0
    else
      MinReal((if test.Some? then TestPoints(test.value) else 0.0)
              + (if analysis.Some? then AnalysisPoints(analysis.value) else 0.0)
              + (if lint.Some? then LintPoints(lint.value) else 0.0), 10.0)
  }

  /** Counts that are not negative, as the step results report them. */
  predicate CountsNonNegative(test: Option<TestResult>, lint: Option<LintResult>, analysis: Option<AnalysisResult>)
  {
    (test.Some? ==> test.value.testsFailed.GetOr(0) >= 0)
    && (lint.Some? ==> lint.value.errors.GetOr(0) >= 0)
    && (analysis.Some? ==> analysis.value.critical.GetOr(0) >= 0 && analysis.value.high.GetOr(0) >= 0)
  }

  /** The severity lies in [0, 10], and a failed build gives the maximum. */
  lemma ErrorSeverityBounds(test: Option<TestResult>, lint: Option<LintResult>, analysis: Option<AnalysisResult>,
                            build: Option<BuildResult>)
    requires CountsNonNegative(test, lint, analysis)
    ensures 0.0 <= ErrorSeverity(test, lint, analysis, build) <= 10.0
    ensures BuildFailed(build) ==> ErrorSeverity(test, lint, analysis, build) == 10.0
  {
    if test.Some? {
      var t := test.value;
      var run := t.testsRun.GetOr(1);
      if run > 0 {
        var failed := t.testsFailed.GetOr(0);
        assert failed as real / run as real >= 0.0;
      }
    }
  }

  /** `_calculate_error_severity`, accumulating the points step by step. */
  method CalculateErrorSeverity(test: Option<TestResult>, lint: Option<LintResult>, analysis: Option<AnalysisResult>,
                                build: Option<BuildResult>)
    returns (severity: real)
    ensures severity == ErrorSeverity(test, lint, analysis, build)
    ensures severity <= 10.0
  {
    severity := 0.0;
    if build.Some? && !build.value.passed.GetOr(true) {
      return 10.0;
    }
    if test.Some? {
      var t := test.value;
      var failed := t.testsFailed.GetOr(0);
      var run := t.testsRun.GetOr(1);
      if run > 0 {
        var failureRate := failed as real / run as real;
        severity := severity + failureRate * 4.0;
      }
      var coverage := t.coveragePercentage.GetOr(100.0);
      if coverage < 80.0 {
        severity := severity + (80.0 - coverage) / 20.0;
      }
    }
    ghost var fromTests := severity;
    assert fromTests == if test.Some? then TestPoints(test.value) else 0.0;
    if analysis.Some? {
      var a := analysis.value;
      if !a.securityScanPassed.GetOr(true) {
        severity := severity + 5.0;
      }
      severity := severity + MinReal(a.critical.GetOr(0) as real * 0.5 + a.high.GetOr(0) as real * 0.25, 3.0);
    }
    ghost var fromAnalysis := severity - fromTests;
    assert fromAnalysis == if analysis.Some? then AnalysisPoints(analysis.value) else 0.0;
    if lint.Some? {
      severity := severity + MinReal(lint.value.errors.GetOr(0) as real * 0.1, 1.0);
    }
    assert severity - fromTests - fromAnalysis == if lint.Some? then LintPoints(lint.value) else 0.0;
    severity := MinReal(severity, 10.0);
  }

  // ------------------------------------------------------------- risk level

  /** The composite score: criticality × size × severity as a share of 5 × 5 × 10, in percent. */
  function RiskScoreOf(criticality: ServiceCriticality, size: ChangeSize, severity: real): real
  {
    ((criticality.Value() * size.Value()) as real * severity / 250.0) * 100.0
  }

  /** A severity in [0, 10] gives a score in [0, 100]. */
  lemma RiskScoreBounds(criticality: ServiceCriticality, size: ChangeSize, severity: real)
    requires 0.0 <= severity <= 10.0
    ensures 0.0 <= RiskScoreOf(criticality, size, severity) <= 100.0
  {
    var p := criticality.Value() * size.Value();
    assert 1 <= p <= 25 by {
      assert criticality.Value() <= 5 && size.Value() <= 5;
      assert p <= 5 * size.Value() <= 25;
    }
    assert p as real * severity <= 25.0 * 10.0;
  }

  /** The level by the strict comparisons against the thresholds, low first. */
  function RiskLevelFor(config: RiskConfig, score: real): (level: RiskLevel)
    ensures level == Low <==> score < config.lowRiskThreshold
    ensures level == Medium <==> config.lowRiskThreshold <= score < config.mediumRiskThreshold
    ensures level == High <==> config.lowRiskThreshold <= score && config.mediumRiskThreshold <= score < config.highRiskThreshold
    ensures level == Critical <==>
      config.lowRiskThreshold <= score && config.mediumRiskThreshold <= score && config.highRiskThreshold <= score
  {
    if score < config.lowRiskThreshold then Low
    else if score < config.mediumRiskThreshold then Medium
    else if score < config.highRiskThreshold then High
    else Critical
  }

  function LevelRank(level: RiskLevel): nat
  {
    match level
    case Low => 0
    case Medium => 1
    case High => 2
    case Critical => 3
  }

  /** A higher score never gives a lower level. */
  lemma RiskLevelMonotone(config: RiskConfig, a: real, b: real)
    requires a <= b
    ensures LevelRank(RiskLevelFor(config, a)) <= LevelRank(RiskLevelFor(config, b))
  {
  }

  // --------------------------------------------------------- recommendation

  datatype Action = Deploy | Canary | ManualReview

  datatype Reason =
    | CriticalServiceHighRisk | SecurityScanFailed | TestFailuresOnCriticalService
    | LowRisk | MediumRisk | HighRisk | CriticalRisk
  {
    function Text(): string
    {
      match this
      case CriticalServiceHighRisk => "Critical service with high risk requires manual approval"
      case SecurityScanFailed => "Security scan failed - manual review required"
      case TestFailuresOnCriticalService => "Test failures on critical service require review"
      case LowRisk => "Low risk - safe for automatic deployment"
      case MediumRisk => "Medium risk - deploy via canary rollout"
      case HighRisk => "High risk - requires manual approval"
      case CriticalRisk => "Critical risk - must not auto-deploy"
    }
  }

  /** `_get_recommendation`. */
  function Recommend(risk: RiskLevel, criticality: ServiceCriticality, test: Option<TestResult>, analysis: Option<AnalysisResult>)
    : (r: (Action, Reason))
    ensures criticality == CriticalService && (risk == High || risk == Critical) ==> r == (ManualReview, CriticalServiceHighRisk)
    ensures analysis.Some? && !analysis.value.securityScanPassed.GetOr(true) ==> r.0 == ManualReview
    ensures r.0 == Deploy <==> r.1 == LowRisk
    ensures r.0 == Canary <==> r.1 == MediumRisk
    ensures (risk == High || risk == Critical) ==> r.0 == ManualReview
    ensures !(criticality == CriticalService && (risk == High || risk == Critical))
            && !(analysis.Some? && !analysis.value.securityScanPassed.GetOr(true))
            && test.Some? && test.value.testsFailed.GetOr(0) > 0
            && (criticality == CriticalService || criticality == HighService)
            ==> r == (ManualReview, TestFailuresOnCriticalService)
    ensures !(analysis.Some? && !analysis.value.securityScanPassed.GetOr(true))
            && !(test.Some? && test.value.testsFailed.GetOr(0) > 0
                 && (criticality == CriticalService || criticality == HighService))
            ==> r.0 == (if risk == Low then Deploy else if risk == Medium then Canary else ManualReview)
    ensures r.0 == Deploy ==> risk == Low
    ensures r.0 == Canary ==> risk == Medium
  {
    if criticality == CriticalService && risk in [High, Critical] then (ManualReview, CriticalServiceHighRisk)
    else if analysis.Some? && !analysis.value.securityScanPassed.GetOr(true) then (ManualReview, SecurityScanFailed)
    else if test.Some? && test.value.testsFailed.GetOr(0) > 0 && criticality in [CriticalService, HighService] then
      (ManualReview, TestFailuresOnCriticalService)
    else match risk
      case Low => (Deploy, LowRisk)
      case Medium => (Canary, MediumRisk)
      case High => (ManualReview, HighRisk)
      case Critical => (ManualReview, CriticalRisk)
  }

  /**
   * With nothing wrong in the results, missing or present, the action follows
   * the level alone, and the reason is the level's own unless a critical
   * service at high risk asks for review first.
   */
  lemma CleanResultsFollowTheLevel(risk: RiskLevel, criticality: ServiceCriticality,
                                   test: Option<TestResult>, analysis: Option<AnalysisResult>)
    requires test.None? || test.value.testsFailed.GetOr(0) <= 0
    requires analysis.None? || analysis.value.securityScanPassed.GetOr(true)
    ensures Recommend(risk, criticality, test, analysis).0
            == (if risk == Low then Deploy else if risk == Medium then Canary else ManualReview)
    ensures risk == Low ==> Recommend(risk, criticality, test, analysis) == (Deploy, LowRisk)
    ensures risk == Medium ==> Recommend(risk, criticality, test, analysis) == (Canary, MediumRisk)
  {
  }

  datatype RiskScore = RiskScore(
    overallRisk: RiskLevel,
    riskScore: real,
    serviceCriticality: ServiceCriticality,
    changeSize: ChangeSize,
    errorSeverity: real,
    recommendation: Action,
    reasoning: Reason,
    linesChanged: int)

  /** `calculate_risk`. */
  method CalculateRisk(config: RiskConfig, serviceName: string, patchResults: Option<seq<PatchStat>>, test: Option<TestResult>,
                       lint: Option<LintResult>, analysis: Option<AnalysisResult>, build: Option<BuildResult>)
    returns (r: RiskScore)
    ensures r.serviceCriticality == ServiceCriticalityOf(config, serviceName)
    ensures r.linesChanged == LinesChanged(patchResults)
    ensures r.changeSize == ChangeSizeFor(LinesChanged(patchResults))
    ensures r.errorSeverity == ErrorSeverity(test, lint, analysis, build)
    ensures r.riskScore == RiskScoreOf(r.serviceCriticality, r.changeSize, r.errorSeverity)
    ensures r.overallRisk == RiskLevelFor(config, r.riskScore)
    ensures (r.recommendation, r.reasoning) == Recommend(r.overallRisk, r.serviceCriticality, test, analysis)
  {
    var criticality := ServiceCriticalityOf(config, serviceName);
    var lines := CountLinesChanged(patchResults);
    var size := ChangeSizeFor(lines);
    var severity := CalculateErrorSeverity(test, lint, analysis, build);
    var score := RiskScoreOf(criticality, size, severity);
    var level := RiskLevelFor(config, score);
    var (action, reason) := Recommend(level, criticality, test, analysis);
    r := RiskScore(level, score, criticality, size, severity, action, reason, lines);
  }

  /** A failed build on a critical service scores 20 points per change-size step, so never LOW under the built-in thresholds. */
  lemma FailedBuildOnCriticalService(size: ChangeSize)
    ensures RiskScoreOf(CriticalService, size, 10.0) == 20.0 * size.Value() as real
    ensures RiskLevelFor(DefaultRiskConfig(), RiskScoreOf(CriticalService, size, 10.0)) != Low
  {
  }
}
