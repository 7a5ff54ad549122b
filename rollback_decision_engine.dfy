/**
 * The rollback decision engine: after a deployment's verification it scores
 * how badly the new version degraded (severity 0..100), checks guardrails
 * that say whether rolling back would help at all (a sick previous version,
 * an infrastructure-wide incident, both versions worse than baseline), and
 * picks a strategy and an urgency.
 *
 * The verification result, the previous version's health and the alerts
 * arrive as records; a missing dictionary key is the source's default value,
 * an absent or empty alert list is the empty sequence.
 */
module RollbackDecisionEngine {
  import opened Wrappers
  import Strings

  datatype RollbackUrgency = Immediate | High | Medium | Low | NoUrgency

  datatype RollbackStrategy = Instant | Gradual | Partial | NoRollback | Escalate

  /** A comparison's verdict; anything other than DEGRADED is treated alike. */
  datatype Verdict = Degraded | Improved | Unchanged

  datatype MetricComparison = MetricComparison(
    metricName: string,
    improvementPct: real,
    verdict: Verdict,
    baselineValue: real,
    treatmentValue: real)

  datatype AlertSeverity = CriticalAlert | WarningAlert | OtherSeverity

  datatype Alert = Alert(severity: AlertSeverity, isInfrastructure: bool, message: string)

  /** Health of the version a rollback would return to (a non-empty dictionary). */
  datatype Health = Health(errorRate: real, p99Latency: real)

  /** A status text other than the three the engine tests for. */
  type OtherStatusName = s: string | s != "PASSED" && s != "PARTIALLY_RESOLVED" && s != "FAILED" witness "UNKNOWN"

  /** The verification status; any other text (UNKNOWN when absent) is `OtherStatus`. */
  datatype Status = Passed | PartiallyResolved | Failed | OtherStatus(name: OtherStatusName)

  datatype VerificationResult = VerificationResult(
    status: Status,
    confidenceScore: Option<real>,
    treatmentGroupSizePct: Option<real>,
    metricComparisons: seq<MetricComparison>)

  datatype RollbackConfig = RollbackConfig(
    criticalErrorRate: real,
    highErrorRate: real,
    criticalLatencyMultiplier: real,
    highLatencyMultiplier: real,
    criticalBlastRadius: real,
    highBlastRadius: real,
    serviceCriticality: map<string, real>)

  /** The engine's defaults when the configuration dictionary is empty. */
  function DefaultRollbackConfig(): RollbackConfig
  {
    RollbackConfig(5.0, 2.0, 2.0, 1.5, 10.0, 5.0,
      map["payment" := 0.95, "auth" := 0.95, "user" := 0.80, "order" := 0.75,
          "search" := 0.60, "recommendation" := 0.50, "analytics" := 0.30])
  }

  // --------------------------------------------------------------- severity

  datatype MetricKind = ErrorRateMetric | LatencyMetric | OtherMetric

  /** The exact name `error_rate` first, then any name containing `latency`. */
  function KindOf(metricName: string): MetricKind
  {
    if metricName == "error_rate" then ErrorRateMetric
    else if Strings.Contains(metricName, "latency") then LatencyMetric
    else OtherMetric
  }

  /** Severity points one comparison contributes; only DEGRADED verdicts count. */
  function ComparisonPoints(config: RollbackConfig, comp: MetricComparison): (p: real)
    ensures p >= 0.0
    ensures comp.verdict != Degraded ==> p == 0.0
    ensures comp.verdict == Degraded ==> 5.0 <= p <= 40.0
  {
    if comp.verdict != Degraded then 0.0
    else match KindOf(comp.metricName)
      case ErrorRateMetric =>
        if comp.improvementPct < -config.criticalErrorRate then 40.0
        else if comp.improvementPct < -config.highErrorRate then 25.0
        else 10.0
      case LatencyMetric =>
        if comp.improvementPct < -100.0 then 30.0
        else if comp.improvementPct < -50.0 then 15.0
        else 5.0
      case OtherMetric => 5.0
  }

  /** Points summed over the comparisons, the last one added last. */
  function Points(config: RollbackConfig, comps: seq<MetricComparison>): (p: real)
    ensures p >= 0.0
  {
    if comps == [] then 0.0
    else Points(config, comps[..|comps| - 1]) + ComparisonPoints(config, comps[|comps| - 1])
  }

  function CountSeverity(alerts: seq<Alert>, severity: AlertSeverity): (n: nat)
    ensures n <= |alerts|
  {
    if alerts == [] then 0
    else CountSeverity(alerts[..|alerts| - 1], severity) + (if alerts[|alerts| - 1].severity == severity then 1 else 0)
  }

  /** 15 per critical alert, 5 per warning alert. */
  function AlertPoints(alerts: seq<Alert>): real
  {
    (CountSeverity(alerts, CriticalAlert) * 15) as real + (CountSeverity(alerts, WarningAlert) * 5) as real
  }

  /** `_calculate_severity`: degradation and alert points, capped at 100. */
  function Severity(config: RollbackConfig, comps: seq<MetricComparison>, alerts: seq<Alert>): real
  {
    var raw := Points(config, comps) + AlertPoints(alerts);
    if raw < 100.0 then raw else 100.0
  }

  method CalculateSeverity(config: RollbackConfig, comps: seq<MetricComparison>, alerts: seq<Alert>)
    returns (severity: real)
    ensures severity == Severity(config, comps, alerts)
    ensures 0.0 <= severity <= 100.0
  {
    severity := 0.0;
    var i := 0;
    while i < |comps|
      invariant 0 <= i <= |comps|
      invariant severity == Points(config, comps[..i])
    {
      assert comps[..i + 1][..i] == comps[..i];
      severity := severity + ComparisonPoints(config, comps[i]);
      i := i + 1;
    }
    assert comps[..i] == comps;
    if alerts != [] {
      severity := severity + AlertPoints(alerts);
    }
    if severity > 100.0 {
      severity := 100.0;
    }
  }

  lemma {:induction false} CountSeverityAppend(alerts: seq<Alert>, a: Alert, severity: AlertSeverity)
    ensures CountSeverity(alerts + [a], severity) == CountSeverity(alerts, severity) + (if a.severity == severity then 1 else 0)
  {
    assert (alerts + [a])[..|alerts|] == alerts;
  }

  /** A further alert never lowers the severity. */
  lemma AlertNeverLowersSeverity(config: RollbackConfig, comps: seq<MetricComparison>, alerts: seq<Alert>, a: Alert)
    ensures Severity(config, comps, alerts) <= Severity(config, comps, alerts + [a])
    ensures a.severity == CriticalAlert && Severity(config, comps, alerts) < 85.0
            ==> Severity(config, comps, alerts + [a]) == Severity(config, comps, alerts) + 15.0
  {
    CountSeverityAppend(alerts, a, CriticalAlert);
    CountSeverityAppend(alerts, a, WarningAlert);
  }

  /** A further comparison never lowers the severity. */
  lemma ComparisonNeverLowersSeverity(config: RollbackConfig, comps: seq<MetricComparison>, alerts: seq<Alert>, c: MetricComparison)
    ensures Severity(config, comps, alerts) <= Severity(config, comps + [c], alerts)
  {
    assert (comps + [c])[..|comps|] == comps;
  }

  // ------------------------------------------------------------ criticality

  /** `_get_service_criticality`: the lower-cased name before the first '-', default 0.5. */
  function BaseName(serviceName: string): string
  {
    Strings.Lower(Strings.FirstField(serviceName, '-'))
  }

  /**
   * `_get_service_criticality`: a configured criticality or the default 0.5,
   * so it stays in [0, 1] when the table does.
   */
  function ServiceCriticality(config: RollbackConfig, serviceName: string): (r: real)
    ensures r == 0.5 || r in config.serviceCriticality.Values
    ensures BaseName(serviceName) !in config.serviceCriticality ==> r == 0.5
    ensures (forall k | k in config.serviceCriticality :: 0.0 <= config.serviceCriticality[k] <= 1.0) ==> 0.0 <= r <= 1.0
  {
    var base := BaseName(serviceName);
    if base in config.serviceCriticality then config.serviceCriticality[base] else 0.5
  }

  lemma {:induction false} FirstFieldOfJoin(base: string, suffix: string)
    requires '-' !in base
    ensures Strings.FirstField(base + "-" + suffix, '-') == base
  {
    if base != [] {
      assert (base + "-" + suffix)[1..] == base[1..] + "-" + suffix;
      FirstFieldOfJoin(base[1..], suffix);
    }
  }

  lemma {:induction false} FirstFieldOfLower(s: string)
    ensures Strings.FirstField(Strings.Lower(s), '-') == Strings.Lower(Strings.FirstField(s, '-'))
  {
    if s != [] {
      assert Strings.Lower(s)[1..] == Strings.Lower(s[1..]);
      FirstFieldOfLower(s[1..]);
    }
  }

  lemma {:induction false} LowerIdempotent(s: string)
    ensures Strings.Lower(Strings.Lower(s)) == Strings.Lower(s)
  {
    if s != [] {
      assert Strings.Lower(s)[1..] == Strings.Lower(s[1..]);
      LowerIdempotent(s[1..]);
    }
  }

  /** Only the part before the first '-' matters: `payment-api` rates like `payment`. */
  lemma CriticalityIgnoresSuffix(config: RollbackConfig, base: string, suffix: string)
    requires '-' !in base
    ensures ServiceCriticality(config, base + "-" + suffix) == ServiceCriticality(config, base)
  {
    FirstFieldOfJoin(base, suffix);
    FirstFieldNoSeparator(base);
  }

  lemma {:induction false} FirstFieldNoSeparator(s: string)
    requires '-' !in s
    ensures Strings.FirstField(s, '-') == s
  {
    if s != [] { FirstFieldNoSeparator(s[1..]); }
  }

  /** The lookup is case-insensitive. */
  lemma CriticalityIgnoresCase(config: RollbackConfig, serviceName: string)
    ensures ServiceCriticality(config, Strings.Lower(serviceName)) == ServiceCriticality(config, serviceName)
  {
    FirstFieldOfLower(serviceName);
    LowerIdempotent(Strings.FirstField(serviceName, '-'));
  }

  /** With the default table every criticality lies in [0.3, 0.95]. */
  lemma DefaultCriticalityRange(serviceName: string)
    ensures 0.3 <= ServiceCriticality(DefaultRollbackConfig(), serviceName) <= 0.95
  {
  }

  // ------------------------------------------------------------- guardrails

  /** A guardrail message; the numbers it prints are kept, their formatting is not. */
  datatype Guardrail =
    | PreviousHighErrorRate(rate: real)
    | PreviousHighLatency(latencyMs: real)
    | InfrastructureIssues(count: nat)
    | BothVersionsDegraded
    | ExternalDependencyIssues(count: nat)
  {
    /** The guardrails that make rollback unsafe; the other two only warn. */
    predicate Blocks()
    {
      PreviousHighErrorRate? || InfrastructureIssues? || BothVersionsDegraded?
    }
  }

  /** The treatment is more than 20% worse than a positive baseline. */
  predicate WorseThanBaseline(comp: MetricComparison)
  {
    comp.baselineValue > 0.0
    && ((comp.treatmentValue - comp.baselineValue) / comp.baselineValue) * 100.0 > 20.0
  }

  function DegradedCount(comps: seq<MetricComparison>): (n: nat)
    ensures n <= |comps|
  {
    if comps == [] then 0
    else DegradedCount(comps[..|comps| - 1]) + (if WorseThanBaseline(comps[|comps| - 1]) then 1 else 0)
  }

  /** `count >= len / 2` with Python's true division. */
  predicate BothVersionsWorse(comps: seq<MetricComparison>)
  {
    DegradedCount(comps) as real >= (|comps| as real) / 2.0
  }

  predicate MentionsExternal(a: Alert)
  {
    Strings.Contains(Strings.Lower(a.message), "external") || Strings.Contains(Strings.Lower(a.message), "downstream")
  }

  function InfrastructureCount(alerts: seq<Alert>): (n: nat)
    ensures n <= |alerts|
  {
    if alerts == [] then 0
    else InfrastructureCount(alerts[..|alerts| - 1]) + (if alerts[|alerts| - 1].isInfrastructure then 1 else 0)
  }

  function ExternalCount(alerts: seq<Alert>): (n: nat)
    ensures n <= |alerts|
  {
    if alerts == [] then 0
    else ExternalCount(alerts[..|alerts| - 1]) + (if MentionsExternal(alerts[|alerts| - 1]) then 1 else 0)
  }

  predicate PreviousVersionSick(config: RollbackConfig, previous: Option<Health>)
  {
    previous.Some? && previous.value.errorRate > config.highErrorRate
  }

  /** The guardrails about the previous version's health. */
  function PreviousGuardrails(config: RollbackConfig, previous: Option<Health>): seq<Guardrail>
  {
    (if PreviousVersionSick(config, previous) then [PreviousHighErrorRate(previous.value.errorRate)] else [])
    + (if previous.Some? && previous.value.p99Latency > 2000.0 then [PreviousHighLatency(previous.value.p99Latency)] else [])
  }

  /** The guardrail list `_check_guardrails` builds, in its order. */
  function Guardrails(config: RollbackConfig, comps: seq<MetricComparison>, previous: Option<Health>, alerts: seq<Alert>)
    : seq<Guardrail>
  {
    PreviousGuardrails(config, previous)
    + (if InfrastructureCount(alerts) > 0 then [InfrastructureIssues(InfrastructureCount(alerts))] else [])
    + (if BothVersionsWorse(comps) then [BothVersionsDegraded] else [])
    + (if ExternalCount(alerts) > 0 then [ExternalDependencyIssues(ExternalCount(alerts))] else [])
  }

  /** `safe_to_rollback`: no sick previous version, no infrastructure alert, not both versions worse. */
  predicate SafeToRollback(config: RollbackConfig, comps: seq<MetricComparison>, previous: Option<Health>, alerts: seq<Alert>)
  {
    !PreviousVersionSick(config, previous) && InfrastructureCount(alerts) == 0 && !BothVersionsWorse(comps)
  }

  /** The loop counting the comparisons worse than their baseline. */
  method CountDegraded(comps: seq<MetricComparison>) returns (degraded: nat)
    ensures degraded == DegradedCount(comps)
  {
    degraded := 0;
    var i := 0;
    while i < |comps|
      invariant 0 <= i <= |comps|
      invariant degraded == DegradedCount(comps[..i])
    {
      assert comps[..i + 1][..i] == comps[..i];
      if WorseThanBaseline(comps[i]) {
        degraded := degraded + 1;
      }
      i := i + 1;
    }
    assert comps[..i] == comps;
  }

  method CheckGuardrails(config: RollbackConfig, comps: seq<MetricComparison>, previous: Option<Health>, alerts: seq<Alert>)
    returns (guardrails: seq<Guardrail>, safe: bool)
    ensures guardrails == Guardrails(config, comps, previous, alerts)
    ensures safe == SafeToRollback(config, comps, previous, alerts)
  {
    guardrails := [];
    safe := true;
    if previous.Some? {
      if previous.value.errorRate > config.highErrorRate {
        guardrails := guardrails + [PreviousHighErrorRate(previous.value.errorRate)];
        safe := false;
      }
      if previous.value.p99Latency > 2000.0 {
        guardrails := guardrails + [PreviousHighLatency(previous.value.p99Latency)];
      }
    }
    assert guardrails == PreviousGuardrails(config, previous);
    ghost var prefix := guardrails;
    var infra := 0;
    if alerts != [] {
      infra := InfrastructureCount(alerts);
      if infra > 0 {
        guardrails := guardrails + [InfrastructureIssues(infra)];
        safe := false;
      }
    }
    assert infra == InfrastructureCount(alerts);
    prefix := guardrails;
    var degraded := CountDegraded(comps);
    if degraded as real >= (|comps| as real) / 2.0 {
      guardrails := guardrails + [BothVersionsDegraded];
      safe := false;
    }
    assert guardrails == prefix + (if BothVersionsWorse(comps) then [BothVersionsDegraded] else []);
    if alerts != [] {
      var external := ExternalCount(alerts);
      if external > 0 {
        guardrails := guardrails + [ExternalDependencyIssues(external)];
      }
    }
  }

  /** The safe flag agrees with the list: unsafe exactly when a blocking guardrail was reported. */
  lemma SafeIffNoBlockingGuardrail(config: RollbackConfig, comps: seq<MetricComparison>, previous: Option<Health>, alerts: seq<Alert>)
    ensures SafeToRollback(config, comps, previous, alerts)
            <==> forall g | g in Guardrails(config, comps, previous, alerts) :: !g.Blocks()
  {
    var gs := Guardrails(config, comps, previous, alerts);
    if !SafeToRollback(config, comps, previous, alerts) {
      if PreviousVersionSick(config, previous) {
        assert gs[0] == PreviousHighErrorRate(previous.value.errorRate);
        assert gs[0] in gs && gs[0].Blocks();
      } else if InfrastructureCount(alerts) > 0 {
        assert InfrastructureIssues(InfrastructureCount(alerts)) in gs;
      } else {
        assert BothVersionsDegraded in gs;
      }
    }
  }

  /** With no metric comparisons `0 >= 0` holds, so the both-versions guardrail always fires. */
  lemma NoComparisonsTriggerBothVersions(config: RollbackConfig, previous: Option<Health>, alerts: seq<Alert>)
    ensures BothVersionsDegraded in Guardrails(config, [], previous, alerts)
    ensures !SafeToRollback(config, [], previous, alerts)
  {
  }

  lemma {:induction false} InfrastructureCountPositive(alerts: seq<Alert>, k: nat)
    requires k < |alerts| && alerts[k].isInfrastructure
    ensures InfrastructureCount(alerts) > 0
  {
    if k < |alerts| - 1 {
      InfrastructureCountPositive(alerts[..|alerts| - 1], k);
    }
  }

  // --------------------------------------------------------------- decision

  datatype PrimaryReason =
    | VerificationPassed
    | PreviousVersionUnhealthy
    | PartialMinor
    | PartialSignificant
    | VerificationFailed
    | RollbackAsPrecaution(status: Status)

  datatype RollbackDecision = RollbackDecision(
    shouldRollback: bool,
    strategy: RollbackStrategy,
    urgency: RollbackUrgency,
    confidence: real,
    primaryReason: PrimaryReason,
    guardrailsTriggered: seq<Guardrail>,
    safeToRollback: bool,
    severityScore: real,
    blastRadiusPct: real,
    serviceCriticality: real)

  /** `_create_rollback_decision`: a rollback, its confidence 70 adjusted by severity and safety. */
  function CreateRollbackDecision(strategy: RollbackStrategy, urgency: RollbackUrgency, reason: PrimaryReason,
                                  severity: real, blast: real, criticality: real,
                                  guardrails: seq<Guardrail>, safe: bool): (d: RollbackDecision)
    ensures d.shouldRollback
    ensures 0.0 <= d.confidence <= 100.0
    ensures safe ==> 80.0 <= d.confidence
    ensures !safe ==> d.confidence <= 70.0
    ensures severity > 70.0 && safe ==> d.confidence == 100.0
    ensures severity <= 50.0 ==> d.confidence == (if safe then 80.0 else 50.0)
    ensures d.strategy == strategy && d.urgency == urgency && d.primaryReason == reason
    ensures d.guardrailsTriggered == guardrails && d.safeToRollback == safe
    ensures d.severityScore == severity && d.blastRadiusPct == blast && d.serviceCriticality == criticality
  {
    var bySeverity := if severity > 70.0 then 90.0 else if severity > 50.0 then 80.0 else 70.0;
    var bySafety := if safe then bySeverity + 10.0 else bySeverity - 20.0;
    var confidence := if bySafety < 0.0 then 0.0 else if bySafety > 100.0 then 100.0 else bySafety;
    RollbackDecision(true, strategy, urgency, confidence, reason, guardrails, safe, severity, blast, criticality)
  }

  /** Strategy and urgency of a failed verification, by severity, criticality and blast radius. */
  function FailedPlan(config: RollbackConfig, severity: real, blast: real, criticality: real)
    : (RollbackStrategy, RollbackUrgency)
  {
    if severity >= 70.0 || (criticality >= 0.9 && severity >= 50.0) then (Instant, Immediate)
    else if severity >= 50.0 || blast >= config.criticalBlastRadius then (Instant, High)
    else if severity >= 30.0 then (Gradual, Medium)
    else (Gradual, Low)
  }

  /** `_evaluate_decision`. */
  function EvaluateDecision(config: RollbackConfig, result: VerificationResult, severity: real, blast: real,
                            criticality: real, guardrails: seq<Guardrail>, safe: bool): (d: RollbackDecision)
    ensures result.status == Passed
            ==> !d.shouldRollback && d.strategy == NoRollback && d.urgency == NoUrgency
                && d.confidence == result.confidenceScore.GetOr(90.0)
    ensures result.status != Passed && !safe
            ==> !d.shouldRollback && d.strategy == Escalate && d.urgency == High && d.confidence == 85.0
    ensures result.status == PartiallyResolved && safe
            ==> (d.shouldRollback <==> severity >= 30.0)
                && d.strategy == (if severity < 30.0 then NoRollback else Partial)
                && d.urgency == (if severity < 30.0 then Low else Medium)
    ensures result.status == Failed && safe
            ==> d.shouldRollback && (d.strategy, d.urgency) == FailedPlan(config, severity, blast, criticality)
    ensures result.status.OtherStatus? && safe ==> d.shouldRollback && d.strategy == Gradual && d.urgency == Medium
    ensures d.guardrailsTriggered == guardrails && d.severityScore == severity
    ensures d.blastRadiusPct == blast && d.serviceCriticality == criticality
    ensures d.shouldRollback ==> 80.0 <= d.confidence <= 100.0
  {
    if result.status == Passed then
      RollbackDecision(false, NoRollback, NoUrgency, result.confidenceScore.GetOr(90.0), VerificationPassed,
                       guardrails, safe, severity, blast, criticality)
    else if !safe then
      RollbackDecision(false, Escalate, High, 85.0, PreviousVersionUnhealthy, guardrails, false, severity, blast, criticality)
    else match result.status
      case PartiallyResolved =>
        if severity < 30.0 then
          RollbackDecision(false, NoRollback, Low, 65.0, PartialMinor, guardrails, safe, severity, blast, criticality)
        else
          CreateRollbackDecision(Partial, Medium, PartialSignificant, severity, blast, criticality, guardrails, safe)
      case Failed =>
        var plan := FailedPlan(config, severity, blast, criticality);
        CreateRollbackDecision(plan.0, plan.1, VerificationFailed, severity, blast, criticality, guardrails, safe)
      case OtherStatus(_) =>
        CreateRollbackDecision(Gradual, Medium, RollbackAsPrecaution(result.status), severity, blast, criticality,
                               guardrails, safe)
  }

  function UrgencyRank(u: RollbackUrgency): nat
  {
    match u
    case NoUrgency => 0
    case Low => 1
    case Medium => 2
    case High => 3
    case Immediate => 4
  }

  /** For a failed verification, more severity never means less urgency. */
  lemma FailedUrgencyMonotone(config: RollbackConfig, s1: real, s2: real, blast: real, criticality: real)
    requires s1 <= s2
    ensures UrgencyRank(FailedPlan(config, s1, blast, criticality).1) <= UrgencyRank(FailedPlan(config, s2, blast, criticality).1)
  {
  }

  /** A rollback happens exactly when verification did not pass, rollback is safe, and the case is not minor. */
  lemma RollbackOnlyWhenSafe(config: RollbackConfig, result: VerificationResult, severity: real, blast: real,
                             criticality: real, guardrails: seq<Guardrail>, safe: bool)
    ensures EvaluateDecision(config, result, severity, blast, criticality, guardrails, safe).shouldRollback
            <==> result.status != Passed && safe && !(result.status == PartiallyResolved && severity < 30.0)
  {
  }

  // -------------------------------------------------------- make_decision

  /** `_calculate_blast_radius`: the treatment group's share, 100% when unknown. */
  function BlastRadius(result: VerificationResult): (r: real)
    ensures result.treatmentGroupSizePct.Some? ==> r == result.treatmentGroupSizePct.value
    ensures result.treatmentGroupSizePct.None? ==> r == 100.0 && r >= DefaultRollbackConfig().criticalBlastRadius
  {
    result.treatmentGroupSizePct.GetOr(100.0)
  }

  /** With no treatment share reported the whole fleet counts, so a failed verification rolls back at once. */
  lemma UnreportedShareRollsBackInstantly(result: VerificationResult, severity: real, criticality: real)
    requires result.treatmentGroupSizePct.None?
    ensures FailedPlan(DefaultRollbackConfig(), severity, BlastRadius(result), criticality).0 == Instant
    ensures FailedPlan(DefaultRollbackConfig(), severity, BlastRadius(result), criticality).1 in {Immediate, High}
  {
  }

  /** The whole of `make_decision`, as a function of its inputs. */
  function Decide(config: RollbackConfig, result: VerificationResult, serviceName: string,
                  previous: Option<Health>, alerts: seq<Alert>): RollbackDecision
  {
    var comps := result.metricComparisons;
    EvaluateDecision(config, result, Severity(config, comps, alerts), BlastRadius(result),
                     ServiceCriticality(config, serviceName), Guardrails(config, comps, previous, alerts),
                     SafeToRollback(config, comps, previous, alerts))
  }

  method MakeDecision(config: RollbackConfig, result: VerificationResult, serviceName: string,
                      previous: Option<Health>, alerts: seq<Alert>) returns (d: RollbackDecision)
    ensures d == Decide(config, result, serviceName, previous, alerts)
    ensures 0.0 <= d.severityScore <= 100.0
  {
    var severity := CalculateSeverity(config, result.metricComparisons, alerts);
    var blast := BlastRadius(result);
    var criticality := ServiceCriticality(config, serviceName);
    var guardrails, safe := CheckGuardrails(config, result.metricComparisons, previous, alerts);
    d := EvaluateDecision(config, result, severity, blast, criticality, guardrails, safe);
  }

  /** An infrastructure alert always stops an automatic rollback; a non-passing result escalates. */
  lemma InfrastructureAlertPreventsRollback(config: RollbackConfig, result: VerificationResult, serviceName: string,
                                            previous: Option<Health>, alerts: seq<Alert>, k: nat)
    requires k < |alerts| && alerts[k].isInfrastructure
    ensures !Decide(config, result, serviceName, previous, alerts).shouldRollback
    ensures result.status != Passed ==> Decide(config, result, serviceName, previous, alerts).strategy == Escalate
  {
    InfrastructureCountPositive(alerts, k);
  }

  /** A non-passing result without metric comparisons escalates instead of rolling back. */
  lemma NoComparisonsEscalate(config: RollbackConfig, result: VerificationResult, serviceName: string,
                              previous: Option<Health>, alerts: seq<Alert>)
    requires result.metricComparisons == [] && result.status != Passed
    ensures Decide(config, result, serviceName, previous, alerts).strategy == Escalate
    ensures !Decide(config, result, serviceName, previous, alerts).shouldRollback
  {
    NoComparisonsTriggerBothVersions(config, previous, alerts);
  }
}
