/**
 * The incident resolution validator: after a fix is verified it decides
 * whether the original incident is actually gone, from a handful of
 * resolution criteria, whether the original symptom is still visible, and
 * whether alerts are still firing.
 *
 * Inputs arrive as records; a missing dictionary key is its default value
 * (an empty symptom, an `unknown` incident type, a score of 0), and an
 * absent or empty alert list is the empty sequence.
 */
module IncidentResolutionValidator {
  import opened Wrappers
  import Strings

  datatype ResolutionStatus = FullyResolved | PartiallyResolved | NotResolved | Inconclusive

  datatype CriterionKind = ErrorRateImproved | LatencyImproved | ThroughputMaintained | MetricsStable | VerificationConfidenceHigh
  {
    function Name(): string
    {
      match this
      case ErrorRateImproved => "Error Rate Improved"
      case LatencyImproved => "Latency Improved"
      case ThroughputMaintained => "Throughput Maintained"
      case MetricsStable => "Metrics Stable"
      case VerificationConfidenceHigh => "Verification Confidence High"
    }

    /** The value at or above which the criterion is met. */
    function Target(): real
    {
      match this
      case ErrorRateImproved => 10.0
      case LatencyImproved => 5.0
      case ThroughputMaintained => -5.0
      case MetricsStable => 70.0
      case VerificationConfidenceHigh => 70.0
    }

    /** The first three are required, the last two optional. */
    predicate Required()
    {
      ErrorRateImproved? || LatencyImproved? || ThroughputMaintained?
    }
  }

  /** A resolution criterion; its explanatory text is not kept. */
  datatype Criterion = Criterion(
    kind: CriterionKind,
    required: bool,
    actualValue: real,
    expectedValue: real,
    threshold: real,
    isMet: bool)

  datatype Comparison = Comparison(metricName: string, improvementPct: real, degraded: bool)

  datatype Verification = Verification(
    metricComparisons: seq<Comparison>,
    stabilityScore: real,
    confidenceScore: real)

  datatype Incident = Incident(incidentId: string, incidentType: string, symptom: string, relatedAlerts: nat)

  datatype Alert = Alert(message: string)

  // --------------------------------------------------------------- criteria

  /** `next(c for c in comps if p(c), None)`: the first comparison satisfying `p`. */
  function FirstWhere(comps: seq<Comparison>, p: Comparison -> bool): (r: Option<Comparison>)
    ensures r.Some? ==> r.value in comps && p(r.value)
    ensures r.None? <==> forall i | 0 <= i < |comps| :: !p(comps[i])
  {
    if comps == [] then None
    else if p(comps[0]) then Some(comps[0])
    else FirstWhere(comps[1..], p)
  }

  /** The comparison found is the first one satisfying `p`: none before it does. */
  lemma {:induction false} FirstWhereIsFirst(comps: seq<Comparison>, p: Comparison -> bool)
    ensures FirstWhere(comps, p).Some? ==>
              exists i | 0 <= i < |comps| :: comps[i] == FirstWhere(comps, p).value && forall j | 0 <= j < i :: !p(comps[j])
  {
    if comps != [] && !p(comps[0]) {
      var r := FirstWhere(comps[1..], p);
      FirstWhereIsFirst(comps[1..], p);
      if r.Some? {
        var i :| 0 <= i < |comps[1..]| && comps[1..][i] == r.value && forall j | 0 <= j < i :: !p(comps[1..][j]);
        assert comps[i + 1] == r.value;
        forall j | 0 <= j < i + 1 ensures !p(comps[j]) {
          if j > 0 { assert comps[j] == comps[1..][j - 1]; }
        }
      }
    } else if comps != [] {
      assert comps[0] == FirstWhere(comps, p).value;
    }
  }

  predicate IsErrorRate(c: Comparison) { c.metricName == "error_rate" }
  predicate IsLatency(c: Comparison) { Strings.Contains(c.metricName, "latency") }
  predicate IsThroughput(c: Comparison) { c.metricName == "throughput" }

  function Met(kind: CriterionKind, value: real): Criterion
  {
    var expected := match kind
      case ErrorRateImproved => 10.0
      case LatencyImproved => 5.0
      case ThroughputMaintained => 0.0
      case MetricsStable => 70.0
      case VerificationConfidenceHigh => 70.0;
    var threshold := match kind
      case ErrorRateImproved => 5.0
      case LatencyImproved => 2.0
      case ThroughputMaintained => 5.0
      case MetricsStable => 10.0
      case VerificationConfidenceHigh => 10.0;
    Criterion(kind, kind.Required(), value, expected, threshold, value >= kind.Target())
  }

  /** The criterion of `kind` built from the comparison found, if one was. */
  function CriterionFrom(found: Option<Comparison>, kind: CriterionKind): (r: seq<Criterion>)
    ensures |r| <= 1
    ensures found.Some? <==> r != []
    ensures forall i | 0 <= i < |r| :: r[i] == Met(kind, found.value.improvementPct)
    ensures kind.Required() ==> RequiredMetrics(r)
  {
    if found.Some? then [Met(kind, found.value.improvementPct)] else []
  }

  /** The metric criteria, all required: error rate, latency (for latency incidents), throughput. */
  function RequiredCriteria(incident: Incident, comps: seq<Comparison>): (r: seq<Criterion>)
    ensures |r| <= 3
    ensures forall i | 0 <= i < |r| :: r[i].required && r[i].kind.Required()
    ensures forall i | 0 <= i < |r| :: r[i].isMet == (r[i].actualValue >= r[i].kind.Target())
  {
    var errorRate := CriterionFrom(FirstWhere(comps, IsErrorRate), ErrorRateImproved);
    var latency :=
      if Strings.Contains(Strings.Lower(incident.incidentType), "latency")
      then CriterionFrom(FirstWhere(comps, IsLatency), LatencyImproved) else [];
    var throughput := CriterionFrom(FirstWhere(comps, IsThroughput), ThroughputMaintained);
    RequiredMetricsConcat(errorRate, latency);
    RequiredMetricsConcat(errorRate + latency, throughput);
    errorRate + latency + throughput
  }

  /** Every criterion is a required metric one, met exactly when its value reaches the kind's target. */
  predicate RequiredMetrics(cs: seq<Criterion>)
  {
    forall i | 0 <= i < |cs| :: cs[i].required && cs[i].kind.Required() && cs[i].isMet == (cs[i].actualValue >= cs[i].kind.Target())
  }

  lemma RequiredMetricsConcat(a: seq<Criterion>, b: seq<Criterion>)
    requires RequiredMetrics(a) && RequiredMetrics(b)
    ensures RequiredMetrics(a + b)
  {
    assert forall i | |a| <= i < |a + b| :: (a + b)[i] == b[i - |a|];
  }

  /** `_build_resolution_criteria`: up to three required metric criteria, then two optional scores. */
  function BuildCriteria(incident: Incident, v: Verification): (r: seq<Criterion>)
    ensures 2 <= |r| <= 5
    ensures forall i | 0 <= i < |r| :: r[i].isMet == (r[i].actualValue >= r[i].kind.Target())
    ensures forall i | 0 <= i < |r| :: r[i].required == r[i].kind.Required()
    ensures forall i | 0 <= i < |r| :: r[i].required <==> i < |r| - 2
    ensures r[|r| - 2] == Met(MetricsStable, v.stabilityScore)
    ensures r[|r| - 1] == Met(VerificationConfidenceHigh, v.confidenceScore)
  {
    RequiredCriteria(incident, v.metricComparisons)
    + [Met(MetricsStable, v.stabilityScore), Met(VerificationConfidenceHigh, v.confidenceScore)]
  }

  /** The error-rate criterion is built exactly when some comparison is named `error_rate`. */
  lemma ErrorRateCriterionIff(incident: Incident, v: Verification)
    ensures (exists i | 0 <= i < |BuildCriteria(incident, v)| :: BuildCriteria(incident, v)[i].kind == ErrorRateImproved)
            <==> exists i | 0 <= i < |v.metricComparisons| :: v.metricComparisons[i].metricName == "error_rate"
  {
    var r := BuildCriteria(incident, v);
    var comps := v.metricComparisons;
    var errorRate := FirstWhere(comps, IsErrorRate);
    if errorRate.Some? {
      assert r[0].kind == ErrorRateImproved;
    } else {
      forall i | 0 <= i < |r| ensures r[i].kind != ErrorRateImproved {}
    }
  }

  // --------------------------------------------------------------- counting

  function CountMet(cs: seq<Criterion>): (n: nat)
    ensures n <= |cs|
  {
    if cs == [] then 0 else CountMet(cs[..|cs| - 1]) + (if cs[|cs| - 1].isMet then 1 else 0)
  }

  function CountRequired(cs: seq<Criterion>): (n: nat)
    ensures n <= |cs|
  {
    if cs == [] then 0 else CountRequired(cs[..|cs| - 1]) + (if cs[|cs| - 1].required then 1 else 0)
  }

  function CountRequiredMet(cs: seq<Criterion>): (n: nat)
    ensures n <= CountRequired(cs) && n <= CountMet(cs)
  {
    if cs == [] then 0
    else CountRequiredMet(cs[..|cs| - 1]) + (if cs[|cs| - 1].required && cs[|cs| - 1].isMet then 1 else 0)
  }

  /** The counting loop of `validate_resolution`. */
  method CountCriteria(criteria: seq<Criterion>) returns (criteriaMet: nat, requiredMet: nat, requiredTotal: nat)
    ensures criteriaMet == CountMet(criteria) && requiredMet == CountRequiredMet(criteria)
    ensures requiredTotal == CountRequired(criteria)
    ensures requiredMet <= requiredTotal <= |criteria| && requiredMet <= criteriaMet <= |criteria|
  {
    criteriaMet, requiredMet, requiredTotal := 0, 0, 0;
    var i := 0;
    while i < |criteria|
      invariant 0 <= i <= |criteria|
      invariant criteriaMet == CountMet(criteria[..i]) && requiredMet == CountRequiredMet(criteria[..i])
      invariant requiredTotal == CountRequired(criteria[..i])
    {
      assert criteria[..i + 1][..i] == criteria[..i];
      if criteria[i].isMet {
        criteriaMet := criteriaMet + 1;
        if criteria[i].required {
          requiredMet := requiredMet + 1;
        }
      }
      if criteria[i].required {
        requiredTotal := requiredTotal + 1;
      }
      i := i + 1;
    }
    assert criteria[..i] == criteria;
  }

  predicate RequiredUnmet(c: Criterion)
  {
    c.required && !c.isMet
  }

  /** Every required criterion is met exactly when the two counts agree. */
  lemma {:induction false} AllRequiredMetIff(cs: seq<Criterion>)
    ensures CountRequiredMet(cs) == CountRequired(cs) <==> forall i | 0 <= i < |cs| :: !RequiredUnmet(cs[i])
  {
    if cs != [] {
      var init := cs[..|cs| - 1];
      AllRequiredMetIff(init);
      assert forall i | 0 <= i < |init| :: init[i] == cs[i];
      if CountRequiredMet(cs) == CountRequired(cs) {
        assert CountRequiredMet(init) == CountRequired(init);
      }
    }
  }

  // ------------------------------------------------------------- confidence

  lemma DivMonotone(a: real, b: real, t: real)
    requires t > 0.0 && a <= b
    ensures a / t <= b / t
  {
    assert b / t - a / t == (b - a) / t;
  }

  /** The share of criteria met; 0 when there are no criteria. */
  function CriteriaRatio(met: nat, total: nat): (ratio: real)
    ensures total == 0 ==> ratio == 0.0
    ensures met <= total ==> 0.0 <= ratio <= 1.0
    ensures 0 < total == met ==> ratio == 1.0
  {
    if total == 0 then 0.0
    else
      DivMonotone(0.0, met as real, total as real);
      if met <= total then
        DivMonotone(met as real, total as real, total as real);
        met as real / total as real
      else met as real / total as real
  }

  /** A larger share of a fixed total is a larger ratio. */
  lemma RatioMonotone(m1: nat, m2: nat, total: nat)
    requires m1 <= m2
    ensures CriteriaRatio(m1, total) <= CriteriaRatio(m2, total)
  {
    if total > 0 {
      DivMonotone(m1 as real, m2 as real, total as real);
    }
  }

  /** The score for a criteria ratio: 50 for the ratio, +30/-20 for the symptom, +20/-10 for alerts, clamped. */
  function ConfidenceFromRatio(ratio: real, symptomPresent: bool, alertsCleared: bool): (c: real)
    ensures 0.0 <= c <= 100.0
    ensures 0.0 <= ratio <= 1.0 && symptomPresent ==> c <= 50.0
    ensures ratio <= 1.0 && !alertsCleared ==> c <= 70.0
    ensures 0.0 <= ratio && !symptomPresent && alertsCleared ==> 50.0 <= c
    ensures ratio == 1.0 && !symptomPresent && alertsCleared ==> c == 100.0
  {
    var bySymptom := if !symptomPresent then ratio * 50.0 + 30.0 else ratio * 50.0 - 20.0;
    var byAlerts := if alertsCleared then bySymptom + 20.0 else bySymptom - 10.0;
    if byAlerts < 0.0 then 0.0 else if byAlerts > 100.0 then 100.0 else byAlerts
  }

  /** `_calculate_resolution_confidence`. */
  function ResolutionConfidence(criteriaMet: nat, criteriaTotal: nat, symptomPresent: bool, alertsCleared: bool)
    : (c: real)
    ensures 0.0 <= c <= 100.0
    ensures criteriaMet <= criteriaTotal && symptomPresent ==> c <= 50.0
    ensures criteriaMet <= criteriaTotal && !alertsCleared ==> c <= 70.0
    ensures criteriaMet <= criteriaTotal && !symptomPresent && alertsCleared ==> 50.0 <= c
    ensures 0 < criteriaTotal == criteriaMet && !symptomPresent && alertsCleared ==> c == 100.0
  {
    ConfidenceFromRatio(CriteriaRatio(criteriaMet, criteriaTotal), symptomPresent, alertsCleared)
  }

  /** Meeting more criteria never lowers the confidence. */
  lemma ConfidenceMonotone(m1: nat, m2: nat, total: nat, symptomPresent: bool, alertsCleared: bool)
    requires m1 <= m2
    ensures ResolutionConfidence(m1, total, symptomPresent, alertsCleared)
            <= ResolutionConfidence(m2, total, symptomPresent, alertsCleared)
  {
    RatioMonotone(m1, m2, total);
  }

  // ----------------------------------------------------------------- status

  /** `_determine_resolution_status`. */
  function DetermineStatus(minConfidence: real, requiredMet: nat, requiredTotal: nat, symptomPresent: bool,
                           confidence: real): (s: ResolutionStatus)
    ensures symptomPresent <==> s == NotResolved
    ensures !symptomPresent && requiredMet < requiredTotal ==> s == PartiallyResolved
    ensures !symptomPresent && requiredMet >= requiredTotal
            ==> s == (if confidence >= minConfidence then FullyResolved
                      else if confidence >= 60.0 then PartiallyResolved
                      else Inconclusive)
  {
    if symptomPresent then NotResolved
    else if requiredTotal > 0 && requiredMet < requiredTotal then PartiallyResolved
    else if confidence >= minConfidence then FullyResolved
    else if confidence >= 60.0 then PartiallyResolved
    else Inconclusive
  }

  // ---------------------------------------------------------------- symptom

  predicate AlertMentions(a: Alert, symptom: string)
  {
    Strings.Contains(Strings.Lower(a.message), Strings.Lower(symptom))
  }

  /** The symptom persists when an alert mentions it or some metric is still DEGRADED. */
  predicate SymptomPresent(symptom: string, comps: seq<Comparison>, alerts: seq<Alert>)
  {
    (exists i | 0 <= i < |alerts| :: AlertMentions(alerts[i], symptom))
    || (exists i | 0 <= i < |comps| :: comps[i].degraded)
  }

  /** `_check_symptom_present`: the alerts first, then the comparisons, stopping at the first hit. */
  method CheckSymptomPresent(symptom: string, comps: seq<Comparison>, alerts: seq<Alert>) returns (present: bool)
    ensures present == SymptomPresent(symptom, comps, alerts)
  {
    var i := 0;
    while i < |alerts|
      invariant 0 <= i <= |alerts|
      invariant forall k | 0 <= k < i :: !AlertMentions(alerts[k], symptom)
    {
      if AlertMentions(alerts[i], symptom) {
        return true;
      }
      i := i + 1;
    }
    var j := 0;
    while j < |comps|
      invariant 0 <= j <= |comps|
      invariant forall k | 0 <= k < j :: !comps[k].degraded
    {
      if comps[j].degraded {
        return true;
      }
      j := j + 1;
    }
    return false;
  }

  /** With no symptom recorded the empty text occurs in every message, so any alert counts. */
  lemma EmptySymptomMatchesAnyAlert(comps: seq<Comparison>, alerts: seq<Alert>)
    requires alerts != []
    ensures SymptomPresent("", comps, alerts)
  {
    assert Strings.OccursAt(Strings.Lower(alerts[0].message), Strings.Lower(""), 0);
  }

  // -------------------------------------------------------------- follow-up

  datatype FollowUpReason =
    | IncidentNotResolved
    | IncidentPartiallyResolved
    | SymptomStillPresent
    | AlertsStillActive(count: nat)
    | RequiredCriterionNotMet(kind: CriterionKind)

  function UnmetReasons(criteria: seq<Criterion>): (r: seq<FollowUpReason>)
    ensures |r| <= |criteria|
    ensures r == [] <==> forall i | 0 <= i < |criteria| :: !RequiredUnmet(criteria[i])
  {
    if criteria == [] then []
    else
      var last := criteria[|criteria| - 1];
      var init := criteria[..|criteria| - 1];
      assert forall i | 0 <= i < |init| :: init[i] == criteria[i];
      UnmetReasons(init) + (if RequiredUnmet(last) then [RequiredCriterionNotMet(last.kind)] else [])
  }

  /** The reasons that do not depend on the criteria, in the order they are reported. */
  function FollowUpHead(status: ResolutionStatus, symptomPresent: bool, alertCount: nat): (r: seq<FollowUpReason>)
    ensures r == [] <==> !(status == NotResolved || status == PartiallyResolved || symptomPresent || alertCount > 0)
  {
    (if status == NotResolved then [IncidentNotResolved] else [])
    + (if status == PartiallyResolved then [IncidentPartiallyResolved] else [])
    + (if symptomPresent then [SymptomStillPresent] else [])
    + (if alertCount > 0 then [AlertsStillActive(alertCount)] else [])
  }

  function FollowUpReasons(status: ResolutionStatus, criteria: seq<Criterion>, symptomPresent: bool, alertCount: nat)
    : seq<FollowUpReason>
  {
    FollowUpHead(status, symptomPresent, alertCount) + UnmetReasons(criteria)
  }

  /** The loop over the criteria in `_check_follow_up_needed`. */
  method CollectUnmet(criteria: seq<Criterion>) returns (unmet: seq<FollowUpReason>)
    ensures unmet == UnmetReasons(criteria)
  {
    unmet := [];
    var i := 0;
    while i < |criteria|
      invariant 0 <= i <= |criteria|
      invariant unmet == UnmetReasons(criteria[..i])
    {
      assert criteria[..i + 1][..i] == criteria[..i];
      if criteria[i].required && !criteria[i].isMet {
        unmet := unmet + [RequiredCriterionNotMet(criteria[i].kind)];
      }
      i := i + 1;
    }
    assert criteria[..i] == criteria;
  }

  /** `_check_follow_up_needed`. */
  method CheckFollowUpNeeded(status: ResolutionStatus, criteria: seq<Criterion>, symptomPresent: bool, alertCount: nat)
    returns (requiresFollowUp: bool, reasons: seq<FollowUpReason>)
    ensures reasons == FollowUpReasons(status, criteria, symptomPresent, alertCount)
    ensures requiresFollowUp <==> reasons != []
    ensures requiresFollowUp
            <==> status == NotResolved || status == PartiallyResolved || symptomPresent || alertCount > 0
                 || exists i | 0 <= i < |criteria| :: RequiredUnmet(criteria[i])
  {
    requiresFollowUp := false;
    var head := [];
    if status == NotResolved {
      requiresFollowUp := true;
      head := head + [IncidentNotResolved];
    }
    if status == PartiallyResolved {
      requiresFollowUp := true;
      head := head + [IncidentPartiallyResolved];
    }
    if symptomPresent {
      requiresFollowUp := true;
      head := head + [SymptomStillPresent];
    }
    if alertCount > 0 {
      requiresFollowUp := true;
      head := head + [AlertsStillActive(alertCount)];
    }
    assert head == FollowUpHead(status, symptomPresent, alertCount);
    var unmet := CollectUnmet(criteria);
    if unmet != [] {
      requiresFollowUp := true;
    }
    reasons := head + unmet;
  }

  // ----------------------------------------------------- validate_resolution

  /** The validation outcome; summaries and the timestamp are not kept. */
  datatype ResolutionResult = ResolutionResult(
    status: ResolutionStatus,
    incidentId: string,
    criteriaMet: nat,
    criteriaTotal: nat,
    criteria: seq<Criterion>,
    resolutionConfidence: real,
    originalSymptom: string,
    symptomStillPresent: bool,
    originalAlertsCount: nat,
    currentAlertsCount: nat,
    alertsCleared: bool,
    requiresFollowUp: bool,
    followUpReasons: seq<FollowUpReason>)

  /** `validate_resolution`, with `min_resolution_confidence` (80 by default) as a parameter. */
  method ValidateResolution(minConfidence: real, incident: Incident, v: Verification, alerts: seq<Alert>)
    returns (r: ResolutionResult)
    ensures r.criteria == BuildCriteria(incident, v) && r.criteriaTotal == |r.criteria|
    ensures r.criteriaMet == CountMet(r.criteria) && r.criteriaMet <= r.criteriaTotal
    ensures r.symptomStillPresent == SymptomPresent(incident.symptom, v.metricComparisons, alerts)
    ensures r.currentAlertsCount == |alerts| && (r.alertsCleared <==> alerts == [])
    ensures r.originalAlertsCount == incident.relatedAlerts
    ensures r.resolutionConfidence
            == ResolutionConfidence(r.criteriaMet, r.criteriaTotal, r.symptomStillPresent, r.alertsCleared)
    ensures r.status == DetermineStatus(minConfidence, CountRequiredMet(r.criteria), CountRequired(r.criteria),
                                        r.symptomStillPresent, r.resolutionConfidence)
    ensures r.followUpReasons == FollowUpReasons(r.status, r.criteria, r.symptomStillPresent, |alerts|)
    ensures r.requiresFollowUp <==> r.followUpReasons != []
  {
    var criteria := BuildCriteria(incident, v);
    var present := CheckSymptomPresent(incident.symptom, v.metricComparisons, alerts);
    var cleared := |alerts| == 0;
    var met, requiredMet, requiredTotal := CountCriteria(criteria);
    var confidence := ResolutionConfidence(met, |criteria|, present, cleared);
    var status := DetermineStatus(minConfidence, requiredMet, requiredTotal, present, confidence);
    var followUp, reasons := CheckFollowUpNeeded(status, criteria, present, |alerts|);
    r := ResolutionResult(status, incident.incidentId, met, |criteria|, criteria, confidence, incident.symptom,
                          present, incident.relatedAlerts, |alerts|, cleared, followUp, reasons);
  }

  /**
   * Under a minimum confidence above 70 a fully resolved incident needs no
   * follow-up: with alerts still firing the confidence cannot pass 70.
   */
  lemma FullyResolvedNeedsNoFollowUp(minConfidence: real, criteria: seq<Criterion>, symptomPresent: bool, alerts: nat)
    requires minConfidence > 70.0
    requires DetermineStatus(minConfidence, CountRequiredMet(criteria), CountRequired(criteria), symptomPresent,
                             ResolutionConfidence(CountMet(criteria), |criteria|, symptomPresent, alerts == 0))
             == FullyResolved
    ensures FollowUpReasons(FullyResolved, criteria, symptomPresent, alerts) == []
  {
    var confidence := ResolutionConfidence(CountMet(criteria), |criteria|, symptomPresent, alerts == 0);
    assert confidence >= minConfidence;
    assert alerts == 0;
    assert CountRequiredMet(criteria) == CountRequired(criteria);
    AllRequiredMetIff(criteria);
  }
}
