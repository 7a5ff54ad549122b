/**
 * The decision justification logger: every automated decision is built up in
 * a decision context (inputs, factors, constraints, alternatives, the
 * decision itself with its confidence) and kept by a logger, in memory and as
 * one JSON line per decision in a log file.
 *
 * Records are objects: the logger keeps references to them, so a change made
 * through a context after saving (an outcome filled in later) is visible in
 * what the logger returns. Clocks are parameters; the JSON text of a line and
 * the lock around the list are not modelled, and the file is a count of the
 * lines written.
 */
module DecisionJustificationLogger {
  import opened Wrappers
  import Strings

  datatype DecisionType =
    | IncidentDetection | RcaAnalysis | FixGeneration | SafetyGate | Deployment
    | RollbackDecision | Verification | Concurrency | HumanEscalation
  {
    function Value(): string
    {
      match this
      case IncidentDetection => "incident_detection"
      case RcaAnalysis => "rca_analysis"
      case FixGeneration => "fix_generation"
      case SafetyGate => "safety_gate"
      case Deployment => "deployment"
      case RollbackDecision => "rollback"
      case Verification => "verification"
      case Concurrency => "concurrency"
      case HumanEscalation => "human_escalation"
    }
  }

  datatype ConfidenceLevel = VeryHigh | High | Medium | Low | VeryLow

  /** `ConfidenceLevel.from_score`: buckets at 0.9, 0.8, 0.6 and 0.4. */
  function FromScore(score: real): (level: ConfidenceLevel)
    ensures level == VeryHigh <==> score >= 0.9
    ensures level == High <==> 0.8 <= score < 0.9
    ensures level == Medium <==> 0.6 <= score < 0.8
    ensures level == Low <==> 0.4 <= score < 0.6
    ensures level == VeryLow <==> score < 0.4
  {
    if score >= 0.9 then VeryHigh
    else if score >= 0.8 then High
    else if score >= 0.6 then Medium
    else if score >= 0.4 then Low
    else VeryLow
  }

  function LevelRank(level: ConfidenceLevel): nat
  {
    match level
    case VeryLow => 0
    case Low => 1
    case Medium => 2
    case High => 3
    case VeryHigh => 4
  }

  /** A higher score never gives a lower confidence level. */
  lemma FromScoreMonotone(a: real, b: real)
    requires a <= b
    ensures LevelRank(FromScore(a)) <= LevelRank(FromScore(b))
  {
  }

  /** An input, its value as `str(value)` renders it. */
  datatype DecisionInput = DecisionInput(name: string, value: string, explanation: string, source: Option<string>)

  datatype DecisionFactor = DecisionFactor(name: string, value: string, weight: real, explanation: string)

  datatype DecisionConstraint = DecisionConstraint(name: string, satisfied: bool, explanation: string, blocking: bool)

  datatype AlternativeOption = AlternativeOption(
    option: string, score: real, pros: seq<string>, cons: seq<string>, rejectedReason: Option<string>)

  /** The fields of a decision record that change after it is made, taken together. */
  datatype RecordFields = RecordFields(
    incidentId: Option<string>,
    serviceName: Option<string>,
    inputs: seq<DecisionInput>,
    factors: seq<DecisionFactor>,
    constraints: seq<DecisionConstraint>,
    decision: Option<string>,
    reasoning: Option<string>,
    confidence: Option<real>,
    confidenceLevel: Option<ConfidenceLevel>,
    alternatives: seq<AlternativeOption>,
    outcome: Option<string>,
    outcomeTimestamp: Option<real>,
    wasCorrect: Option<bool>,
    durationMs: Option<real>,
    decisionMaker: string,
    humanOverride: bool)

  /** The complete record of one decision. */
  class DecisionRecord {
    const decisionId: string
    const decisionType: DecisionType
    const timestamp: real
    var incidentId: Option<string>
    var serviceName: Option<string>
    var inputs: seq<DecisionInput>
    var factors: seq<DecisionFactor>
    var constraints: seq<DecisionConstraint>
    var decision: Option<string>
    var reasoning: Option<string>
    var confidence: Option<real>
    var confidenceLevel: Option<ConfidenceLevel>
    var alternatives: seq<AlternativeOption>
    var outcome: Option<string>
    var outcomeTimestamp: Option<real>
    var wasCorrect: Option<bool>
    var durationMs: Option<real>
    var decisionMaker: string
    var humanOverride: bool

    /** The mutable fields, so that a method can say it changed one field and no other. */
    function Fields(): RecordFields
      reads this
    {
      RecordFields(incidentId, serviceName, inputs, factors, constraints, decision, reasoning, confidence,
                   confidenceLevel, alternatives, outcome, outcomeTimestamp, wasCorrect, durationMs,
                   decisionMaker, humanOverride)
    }

    /** A fresh record: nothing decided yet, made by the autonomous system. */
    constructor(decisionId: string, decisionType: DecisionType, timestamp: real)
      ensures this.decisionId == decisionId && this.decisionType == decisionType && this.timestamp == timestamp
      ensures incidentId.None? && serviceName.None?
      ensures inputs == [] && factors == [] && constraints == [] && alternatives == []
      ensures decision.None? && reasoning.None? && confidence.None? && confidenceLevel.None?
      ensures outcome.None? && outcomeTimestamp.None? && wasCorrect.None? && durationMs.None?
      ensures decisionMaker == "autonomous_system" && !humanOverride
    {
      this.decisionId := decisionId;
      this.decisionType := decisionType;
      this.timestamp := timestamp;
      incidentId, serviceName := None, None;
      inputs, factors, constraints, alternatives := [], [], [], [];
      decision, reasoning, confidence, confidenceLevel := None, None, None, None;
      outcome, outcomeTimestamp, wasCorrect, durationMs := None, None, None, None;
      decisionMaker := "autonomous_system";
      humanOverride := false;
    }
  }

  /** The text `human_override` appends to the reasoning. */
  function OverrideNote(byUser: string, reason: string): string
  {
    "\n\n[HUMAN OVERRIDE by " + byUser + "]: " + reason
  }

  /** Builds one decision record; leaving the context saves it. */
  class DecisionContext {
    const decisionId: string
    const decisionType: DecisionType
    const logger: DecisionLogger
    const record: DecisionRecord
    const startTime: real

    constructor(decisionId: string, decisionType: DecisionType, logger: DecisionLogger, now: real)
      ensures this.decisionId == decisionId && this.decisionType == decisionType && this.logger == logger
      ensures startTime == now && fresh(record)
      ensures record.decisionId == decisionId && record.decisionType == decisionType && record.timestamp == now
      ensures record.incidentId.None? && record.decision.None? && record.reasoning.None?
      ensures record.decisionMaker == "autonomous_system" && !record.humanOverride
    {
      this.decisionId := decisionId;
      this.decisionType := decisionType;
      this.logger := logger;
      record := new DecisionRecord(decisionId, decisionType, now);
      startTime := now;
    }

    /** `set_context`: an empty or missing value leaves the field as it was. */
    method SetContext(incidentId: Option<string>, serviceName: Option<string>)
      modifies record
      ensures record.incidentId == if incidentId.Some? && incidentId.value != [] then incidentId else old(record.incidentId)
      ensures record.serviceName == if serviceName.Some? && serviceName.value != [] then serviceName else old(record.serviceName)
      ensures record.Fields() == old(record.Fields()).(incidentId := record.incidentId, serviceName := record.serviceName)
    {
      if incidentId.Some? && incidentId.value != [] {
        record.incidentId := incidentId;
      }
      if serviceName.Some? && serviceName.value != [] {
        record.serviceName := serviceName;
      }
    }

    method AddInput(name: string, value: string, explanation: string, source: Option<string>)
      modifies record
      ensures record.inputs == old(record.inputs) + [DecisionInput(name, value, explanation, source)]
      ensures record.Fields() == old(record.Fields()).(inputs := record.inputs)
    {
      record.inputs := record.inputs + [DecisionInput(name, value, explanation, source)];
    }

    method AddFactor(name: string, value: string, weight: real, explanation: string)
      modifies record
      ensures record.factors == old(record.factors) + [DecisionFactor(name, value, weight, explanation)]
      ensures record.Fields() == old(record.Fields()).(factors := record.factors)
    {
      record.factors := record.factors + [DecisionFactor(name, value, weight, explanation)];
    }

    method AddConstraint(name: string, satisfied: bool, explanation: string, blocking: bool)
      modifies record
      ensures record.constraints == old(record.constraints) + [DecisionConstraint(name, satisfied, explanation, blocking)]
      ensures record.Fields() == old(record.Fields()).(constraints := record.constraints)
    {
      record.constraints := record.constraints + [DecisionConstraint(name, satisfied, explanation, blocking)];
    }

    method AddAlternative(option: string, score: real, pros: seq<string>, cons: seq<string>, rejectedReason: Option<string>)
      modifies record
      ensures record.alternatives == old(record.alternatives) + [AlternativeOption(option, score, pros, cons, rejectedReason)]
      ensures record.Fields() == old(record.Fields()).(alternatives := record.alternatives)
    {
      record.alternatives := record.alternatives + [AlternativeOption(option, score, pros, cons, rejectedReason)];
    }

    /** `record_decision`: the decision, its reasoning and confidence, the level derived from it, and the time taken. */
    method RecordDecision(decision: string, reasoning: string, confidence: real, now: real)
      modifies record
      ensures record.decision == Some(decision) && record.reasoning == Some(reasoning)
      ensures record.confidence == Some(confidence) && record.confidenceLevel == Some(FromScore(confidence))
      ensures record.durationMs == Some((now - startTime) * 1000.0)
      ensures record.Fields() == old(record.Fields()).(decision := record.decision, reasoning := record.reasoning,
                                                        confidence := record.confidence,
                                                        confidenceLevel := record.confidenceLevel,
                                                        durationMs := record.durationMs)
    {
      record.decision := Some(decision);
      record.reasoning := Some(reasoning);
      record.confidence := Some(confidence);
      record.confidenceLevel := Some(FromScore(confidence));
      record.durationMs := Some((now - startTime) * 1000.0);
    }

    /** `set_outcome`, filled in after the decision took effect. */
    method SetOutcome(outcome: string, wasCorrect: bool, now: real)
      modifies record
      ensures record.outcome == Some(outcome) && record.wasCorrect == Some(wasCorrect)
      ensures record.outcomeTimestamp == Some(now)
      ensures record.Fields() == old(record.Fields()).(outcome := record.outcome, wasCorrect := record.wasCorrect,
                                                        outcomeTimestamp := record.outcomeTimestamp)
    {
      record.outcome := Some(outcome);
      record.outcomeTimestamp := Some(now);
      record.wasCorrect := Some(wasCorrect);
    }

    /**
     * `human_override` as written: the flag and the decision maker are set
     * first, then appending the note to a reasoning that is still None raises
     * TypeError (`raised`), leaving the reasoning None.
     */
    method HumanOverrideAsWritten(byUser: string, reason: string) returns (raised: bool)
      modifies record
      ensures record.humanOverride && record.decisionMaker == "human:" + byUser
      ensures raised <==> old(record.reasoning).None?
      ensures record.reasoning == if raised then None else Some(old(record.reasoning).value + OverrideNote(byUser, reason))
      ensures record.Fields() == old(record.Fields()).(humanOverride := true, decisionMaker := record.decisionMaker,
                                                        reasoning := record.reasoning)
    {
      record.humanOverride := true;
      record.decisionMaker := "human:" + byUser;
      if record.reasoning.None? {
        return true;
      }
      record.reasoning := Some(record.reasoning.value + OverrideNote(byUser, reason));
      raised := false;
    }

    /** `human_override`: the flag, `human:<user>` as decision maker, and the note after any reasoning. */
    method HumanOverride(byUser: string, reason: string)
      modifies record
      ensures record.humanOverride && record.decisionMaker == "human:" + byUser
      ensures record.reasoning == Some(old(record.reasoning).GetOr("") + OverrideNote(byUser, reason))
      ensures old(record.reasoning).Some? ==> Strings.StartsWith(record.reasoning.value, old(record.reasoning).value)
      ensures record.Fields() == old(record.Fields()).(humanOverride := true, decisionMaker := record.decisionMaker,
                                                        reasoning := record.reasoning)
    {
      record.humanOverride := true;
      record.decisionMaker := "human:" + byUser;
      var before := record.reasoning.GetOr("");
      record.reasoning := Some(before + OverrideNote(byUser, reason));
      assert record.reasoning.value[..|before|] == before;
    }

    /** `__exit__`: hands the record to the logger. */
    method Exit(writeOk: bool)
      modifies logger
      ensures logger.decisions == old(logger.decisions) + [record]
      ensures logger.linesWritten == old(logger.linesWritten) + (if writeOk then 1 else 0)
    {
      logger.SaveDecision(record, writeOk);
    }
  }

  predicate MatchesType(r: DecisionRecord, decisionType: Option<DecisionType>)
  {
    decisionType.None? || r.decisionType == decisionType.value
  }

  /** An empty incident id filters nothing. */
  predicate MatchesIncident(r: DecisionRecord, incidentId: Option<string>)
    reads r
  {
    incidentId.None? || incidentId.value == [] || r.incidentId == incidentId
  }

  function OfType(records: seq<DecisionRecord>, decisionType: Option<DecisionType>): (r: seq<DecisionRecord>)
    ensures |r| <= |records|
    ensures forall x | x in r :: x in records
  {
    if records == [] then []
    else
      var last := records[|records| - 1];
      OfType(records[..|records| - 1], decisionType) + (if MatchesType(last, decisionType) then [last] else [])
  }

  function OfIncident(records: seq<DecisionRecord>, incidentId: Option<string>): (r: seq<DecisionRecord>)
    reads set x | x in records
    ensures |r| <= |records|
  {
    if records == [] then []
    else
      var last := records[|records| - 1];
      OfIncident(records[..|records| - 1], incidentId) + (if MatchesIncident(last, incidentId) then [last] else [])
  }

  /** The records passing both filters, in their original order. */
  function Matching(records: seq<DecisionRecord>, decisionType: Option<DecisionType>, incidentId: Option<string>)
    : (r: seq<DecisionRecord>)
    reads set x | x in records
    ensures |r| <= |records|
  {
    if records == [] then []
    else
      var last := records[|records| - 1];
      Matching(records[..|records| - 1], decisionType, incidentId)
      + (if MatchesType(last, decisionType) && MatchesIncident(last, incidentId) then [last] else [])
  }

  lemma {:induction false} OfTypeMembers(records: seq<DecisionRecord>, decisionType: Option<DecisionType>)
    ensures forall x :: x in OfType(records, decisionType) <==> x in records && MatchesType(x, decisionType)
  {
    if records != [] {
      OfTypeMembers(records[..|records| - 1], decisionType);
      assert records == records[..|records| - 1] + [records[|records| - 1]];
    }
  }

  /** Filtering by type and then by incident is the one combined filter. */
  lemma {:induction false} TwoPassIsMatching(records: seq<DecisionRecord>, decisionType: Option<DecisionType>,
                                               incidentId: Option<string>)
    ensures OfIncident(OfType(records, decisionType), incidentId) == Matching(records, decisionType, incidentId)
  {
    if records != [] {
      var init := records[..|records| - 1];
      var last := records[|records| - 1];
      TwoPassIsMatching(init, decisionType, incidentId);
      var typed := OfType(init, decisionType);
      if MatchesType(last, decisionType) {
        assert OfType(records, decisionType) == typed + [last];
        assert (typed + [last])[..|typed|] == typed;
      } else {
        assert OfType(records, decisionType) == typed;
      }
    }
  }

  /** The filter keeps exactly the matching records. */
  lemma {:induction false} MatchingMembers(records: seq<DecisionRecord>, decisionType: Option<DecisionType>,
                                             incidentId: Option<string>)
    ensures forall x | x in Matching(records, decisionType, incidentId)
              :: x in records && MatchesType(x, decisionType) && MatchesIncident(x, incidentId)
    ensures forall k | 0 <= k < |records| && MatchesType(records[k], decisionType) && MatchesIncident(records[k], incidentId)
              :: records[k] in Matching(records, decisionType, incidentId)
  {
    if records != [] {
      var init := records[..|records| - 1];
      MatchingMembers(init, decisionType, incidentId);
      assert forall k | 0 <= k < |init| :: init[k] == records[k];
    }
  }

  /** The filter distributes over concatenation, so it keeps the records' order. */
  lemma {:induction false} MatchingConcat(a: seq<DecisionRecord>, b: seq<DecisionRecord>, decisionType: Option<DecisionType>,
                                            incidentId: Option<string>)
    ensures Matching(a + b, decisionType, incidentId) == Matching(a, decisionType, incidentId) + Matching(b, decisionType, incidentId)
  {
    if b != [] {
      var binit := b[..|b| - 1];
      assert (a + b)[..|a + b| - 1] == a + binit;
      MatchingConcat(a, binit, decisionType, incidentId);
    } else {
      assert a + b == a;
    }
  }

  /** With no filter every record comes back. */
  lemma {:induction false} MatchingNoFilter(records: seq<DecisionRecord>)
    ensures Matching(records, None, None) == records
  {
    if records != [] {
      MatchingNoFilter(records[..|records| - 1]);
    }
  }

  /** Keeps every decision record, in memory and in the log file. */
  class DecisionLogger {
    const logFile: string
    var decisions: seq<DecisionRecord>
    var linesWritten: nat

    constructor(logFile: string)
      ensures this.logFile == logFile && decisions == [] && linesWritten == 0
    {
      this.logFile := logFile;
      decisions := [];
      linesWritten := 0;
    }

    /** `save_decision`: the record is kept even when writing its line fails (`writeOk` false). */
    method SaveDecision(record: DecisionRecord, writeOk: bool)
      modifies this
      ensures decisions == old(decisions) + [record]
      ensures linesWritten == old(linesWritten) + (if writeOk then 1 else 0)
    {
      decisions := decisions + [record];
      if writeOk {
        linesWritten := linesWritten + 1;
      }
    }

    /** `get_decisions`: the kept records of the given type and incident, oldest first. */
    function GetDecisions(decisionType: Option<DecisionType>, incidentId: Option<string>): (r: seq<DecisionRecord>)
      reads this, set x | x in decisions
      ensures r == Matching(decisions, decisionType, incidentId)
      ensures forall x | x in r :: x in decisions && MatchesType(x, decisionType) && MatchesIncident(x, incidentId)
      ensures forall i | 0 <= i < |decisions| && MatchesType(decisions[i], decisionType)
                         && MatchesIncident(decisions[i], incidentId) :: decisions[i] in r
    {
      TwoPassIsMatching(decisions, decisionType, incidentId);
      MatchingMembers(decisions, decisionType, incidentId);
      OfIncident(OfType(decisions, decisionType), incidentId)
    }

    /**
     * `decision_context` up to its `yield`: a context for a new record, its
     * id defaulting to `<type>-<milliseconds>`.
     */
    method OpenContext(decisionType: DecisionType, decisionId: Option<string>, nowMs: int) returns (ctx: DecisionContext)
      ensures fresh(ctx) && fresh(ctx.record) && ctx.logger == this && ctx.decisionType == decisionType
      ensures ctx.record.decisionId == decisionId.GetOr(decisionType.Value() + "-" + Strings.IntToString(nowMs))
      ensures ctx.record.decisionType == decisionType && ctx.record.decision.None? && ctx.record.reasoning.None?
      ensures ctx.record.decisionMaker == "autonomous_system" && !ctx.record.humanOverride
    {
      var id := if decisionId.Some? then decisionId.value else decisionType.Value() + "-" + Strings.IntToString(nowMs);
      ctx := new DecisionContext(id, decisionType, this, nowMs as real / 1000.0);
    }

    /**
     * `decision_context` after its `yield`, as written: the generator simply
     * ends. The `with` statement exits the generator's context manager, not
     * the yielded DecisionContext, whose `__exit__` therefore never runs.
     */
    method CloseContextAsWritten(ctx: DecisionContext)
      ensures decisions == old(decisions) && linesWritten == old(linesWritten)
    {
    }

    /** Leaving the context as intended: the context's `__exit__` saves its record. */
    method CloseContext(ctx: DecisionContext, writeOk: bool)
      requires ctx.logger == this
      modifies this
      ensures decisions == old(decisions) + [ctx.record]
      ensures linesWritten == old(linesWritten) + (if writeOk then 1 else 0)
    {
      ctx.Exit(writeOk);
    }
  }

  /** An override before any decision was recorded raises TypeError as written; the flag is set all the same. */
  method OverrideBeforeDecisionAsWritten(byUser: string, reason: string, nowMs: int) returns (ctx: DecisionContext, raised: bool)
    ensures raised && ctx.record.humanOverride && ctx.record.reasoning.None?
  {
    var logger := new DecisionLogger("/tmp/decision_justifications.jsonl");
    ctx := logger.OpenContext(Deployment, None, nowMs);
    raised := ctx.HumanOverrideAsWritten(byUser, reason);
  }

  /**
   * One decision made inside `with logger.decision_context(...)`, as written:
   * afterwards the logger has no record of it.
   */
  method DecisionScopeAsWritten(decision: string, confidence: real, nowMs: int)
    returns (logger: DecisionLogger, ctx: DecisionContext)
    ensures fresh(logger) && ctx.record.decision == Some(decision)
    ensures logger.GetDecisions(None, None) == []
    ensures logger.GetDecisions(Some(SafetyGate), None) == []
  {
    logger := new DecisionLogger("/tmp/decision_justifications.jsonl");
    ctx := logger.OpenContext(SafetyGate, None, nowMs);
    ctx.RecordDecision(decision, "", confidence, nowMs as real / 1000.0);
    logger.CloseContextAsWritten(ctx);
  }

  /**
   * The same scope with the record saved on exit: the decision can be
   * retrieved, and an outcome set later through the context is visible in
   * what the logger returns.
   */
  method DecisionScope(decision: string, confidence: real, nowMs: int, writeOk: bool)
    returns (logger: DecisionLogger, ctx: DecisionContext)
    ensures fresh(logger) && ctx.record.decision == Some(decision)
    ensures logger.GetDecisions(Some(SafetyGate), None) == [ctx.record]
    ensures logger.GetDecisions(None, None)[0].outcome == Some("resolved")
    ensures logger.GetDecisions(None, None)[0].confidenceLevel == Some(FromScore(confidence))
  {
    logger := new DecisionLogger("/tmp/decision_justifications.jsonl");
    ctx := logger.OpenContext(SafetyGate, None, nowMs);
    ctx.RecordDecision(decision, "", confidence, nowMs as real / 1000.0);
    logger.CloseContext(ctx, writeOk);
    ctx.SetOutcome("resolved", true, nowMs as real / 1000.0);
    var kept := logger.decisions;
    assert kept == [ctx.record];
    assert Matching(kept, Some(SafetyGate), None) == [ctx.record] by {
      assert kept[..0] == [];
    }
    MatchingNoFilter(kept);
  }
}
