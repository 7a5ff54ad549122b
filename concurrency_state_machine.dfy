/**
 * The operation lifecycle of the concurrency layer: a fixed transition
 * table, a guarded `Transition`, and the human-review pause and resume
 * that also record who paused or resumed the operation in a metadata map.
 * Clock readings are passed in as `now`.
 */
module ConcurrencyStateMachine {
  import opened Wrappers

  datatype ConcurrencyState =
    | Init | Locked | SafetyCheck | InProgress | PausedForHumanReview
    | Completed | Failed | RolledBack | Cancelled

  /** The enum's string value, as `get_history` reports it. */
  function StateValue(s: ConcurrencyState): string
  {
    match s
    case Init => "init"
    case Locked => "locked"
    case SafetyCheck => "safety_check"
    case InProgress => "in_progress"
    case PausedForHumanReview => "paused_for_human_review"
    case Completed => "completed"
    case Failed => "failed"
    case RolledBack => "rolled_back"
    case Cancelled => "cancelled"
  }

  lemma StateValueInjective(a: ConcurrencyState, b: ConcurrencyState)
    requires StateValue(a) == StateValue(b)
    ensures a == b
  {
    assert StateValue(a)[0] == StateValue(b)[0];
    if StateValue(a)[0] == 'c' { assert StateValue(a)[1] == StateValue(b)[1]; }
    if StateValue(a)[0] == 'i' { assert StateValue(a)[1] == StateValue(b)[1]; }
  }

  /** The ALLOWED_TRANSITIONS table, successors in the table's order. */
  function AllowedTransitions(s: ConcurrencyState): seq<ConcurrencyState>
  {
    match s
    case Init => [Locked, Failed]
    case Locked => [SafetyCheck, Failed]
    case SafetyCheck => [InProgress, PausedForHumanReview, Failed]
    case InProgress => [Completed, PausedForHumanReview, Failed]
    case PausedForHumanReview => [InProgress, Cancelled, RolledBack]
    case Completed => []
    case Failed => [RolledBack]
    case RolledBack => []
    case Cancelled => []
  }

  predicate CanTransition(from: ConcurrencyState, to: ConcurrencyState)
  {
    to in AllowedTransitions(from)
  }

  /** States whose successor list is empty. */
  predicate IsTerminal(s: ConcurrencyState)
  {
    s == Completed || s == RolledBack || s == Cancelled
  }

  lemma TerminalStatesHaveNoSuccessor(s: ConcurrencyState, t: ConcurrencyState)
    ensures IsTerminal(s) <==> AllowedTransitions(s) == []
    ensures IsTerminal(s) ==> !CanTransition(s, t)
    ensures CanTransition(Failed, t) <==> t == RolledBack
  {
  }

  /** The pause state is entered only from the safety check or from a running operation. */
  lemma PauseEnteredOnlyFromRunningStates(s: ConcurrencyState)
    ensures CanTransition(s, PausedForHumanReview) <==> s == SafetyCheck || s == InProgress
  {
  }

  /** No transition leads back into INIT. */
  lemma InitHasNoPredecessor(s: ConcurrencyState)
    ensures !CanTransition(s, Init)
  {
  }

  datatype StateTransition = StateTransition(
    fromState: ConcurrencyState,
    toState: ConcurrencyState,
    trigger: string,
    actor: string,
    timestamp: int)

  /** `StateTransition.to_dict`: the states by their string values. */
  datatype TransitionRecord = TransitionRecord(
    fromState: string,
    toState: string,
    trigger: string,
    actor: string,
    timestamp: int)

  /** Values stored in the metadata dict: text, a timestamp, or Python's None. */
  datatype MetaValue = Text(text: string) | Time(at: int) | Null

  /**
   * A history is chained when it starts in INIT, each record leaves the state
   * the previous one entered, every step is in the table, and the last record
   * (if any) enters `current`.
   */
  predicate Chained(history: seq<StateTransition>, current: ConcurrencyState)
  {
    (|history| == 0 ==> current == Init)
    && (|history| > 0 ==> history[0].fromState == Init && history[|history| - 1].toState == current)
    && (forall i :: 0 <= i < |history| - 1 ==> history[i].toState == history[i + 1].fromState)
    && (forall i :: 0 <= i < |history| ==> CanTransition(history[i].fromState, history[i].toState))
  }

  /** The state a history ends in, replayed from INIT. */
  function FinalState(history: seq<StateTransition>): ConcurrencyState
  {
    if history == [] then Init else history[|history| - 1].toState
  }

  /** Extending a chained history by one allowed step keeps it chained. */
  lemma {:induction false} ChainedExtend(history: seq<StateTransition>, current: ConcurrencyState, t: StateTransition)
    requires Chained(history, current)
    requires t.fromState == current && CanTransition(current, t.toState)
    ensures Chained(history + [t], t.toState)
  {
    var h := history + [t];
    forall i | 0 <= i < |h| - 1 ensures h[i].toState == h[i + 1].fromState {
      if i < |history| - 1 {
        assert h[i] == history[i] && h[i + 1] == history[i + 1];
      } else {
        assert h[i] == history[|history| - 1] && h[i + 1] == t;
      }
    }
    forall i | 0 <= i < |h| ensures CanTransition(h[i].fromState, h[i].toState) {
      if i < |history| { assert h[i] == history[i]; }
    }
  }

  /** In a chained history, a terminal state can only be entered by the last record. */
  lemma {:induction false} TerminalIsLast(history: seq<StateTransition>, current: ConcurrencyState, i: nat)
    requires Chained(history, current)
    requires i < |history| && IsTerminal(history[i].toState)
    ensures i == |history| - 1 && current == history[i].toState
  {
    if i < |history| - 1 {
      assert history[i].toState == history[i + 1].fromState;
      assert CanTransition(history[i + 1].fromState, history[i + 1].toState);
      TerminalStatesHaveNoSuccessor(history[i].toState, history[i + 1].toState);
      assert false;
    }
  }

  /** A chained history ends where `FinalState` says, and the first record is the only one leaving INIT. */
  lemma {:induction false} ChainedFinal(history: seq<StateTransition>, current: ConcurrencyState, i: nat)
    requires Chained(history, current)
    requires i < |history| && history[i].fromState == Init
    ensures current == FinalState(history)
    ensures i == 0
  {
    if i > 0 {
      assert history[i - 1].toState == history[i].fromState;
      InitHasNoPredecessor(history[i - 1].fromState);
      assert false;
    }
  }

  /**
   * Execution is gated by the safety check: whenever a record enters
   * IN_PROGRESS, some earlier record entered SAFETY_CHECK.
   */
  lemma {:induction false} ExecutionFollowsSafetyCheck(history: seq<StateTransition>, current: ConcurrencyState, i: nat)
    requires Chained(history, current)
    requires i < |history| && history[i].toState == InProgress
    ensures exists j :: 0 <= j < i && history[j].toState == SafetyCheck
  {
    var from := history[i].fromState;
    assert CanTransition(from, InProgress);
    assert from == SafetyCheck || from == PausedForHumanReview;
    assert i > 0;
    assert history[i - 1].toState == from;
    if from == SafetyCheck {
      assert history[i - 1].toState == SafetyCheck;
    } else {
      var before := history[i - 1].fromState;
      assert CanTransition(before, PausedForHumanReview);
      PauseEnteredOnlyFromRunningStates(before);
      assert i - 1 > 0;
      assert history[i - 2].toState == before;
      if before == InProgress {
        ExecutionFollowsSafetyCheck(history, current, i - 2);
      }
    }
  }

  class ConcurrencyStateMachine {
    const operationId: string
    var currentState: ConcurrencyState
    var transitions: seq<StateTransition>
    var metadata: map<string, MetaValue>

    ghost predicate Valid()
      reads this
    {
      Chained(transitions, currentState)
    }

    constructor (operationId: string)
      ensures this.operationId == operationId
      ensures currentState == Init && transitions == [] && metadata == map[]
      ensures Valid()
    {
      this.operationId := operationId;
      currentState := Init;
      transitions := [];
      metadata := map[];
    }

    /** Moves to `to` if the table allows it from the current state, recording the step. */
    method Transition(to: ConcurrencyState, trigger: string, actor: string, now: int) returns (ok: bool)
      requires Valid()
      modifies this
      ensures Valid()
      ensures ok == CanTransition(old(currentState), to)
      ensures ok ==> (currentState == to
        && transitions == old(transitions) + [StateTransition(old(currentState), to, trigger, actor, now)])
      ensures !ok ==> currentState == old(currentState) && transitions == old(transitions)
      ensures metadata == old(metadata)
    {
      if to in AllowedTransitions(currentState) {
        var t := StateTransition(currentState, to, trigger, actor, now);
        ChainedExtend(transitions, currentState, t);
        transitions := transitions + [t];
        currentState := to;
        ok := true;
      } else {
        ok := false;
      }
    }

    /** Records the pause reason, actor and time, then attempts the move to PAUSED_FOR_HUMAN_REVIEW. */
    method PauseForReview(reason: string, actor: string, now: int) returns (ok: bool)
      requires Valid()
      modifies this
      ensures Valid()
      ensures metadata == old(metadata)["pause_reason" := Text(reason)]["paused_by" := Text(actor)]["paused_at" := Time(now)]
      ensures ok <==> old(currentState) == SafetyCheck || old(currentState) == InProgress
      ensures ok ==> (currentState == PausedForHumanReview
        && transitions == old(transitions) + [StateTransition(old(currentState), PausedForHumanReview, reason, actor, now)])
      ensures !ok ==> currentState == old(currentState) && transitions == old(transitions)
    {
      metadata := metadata["pause_reason" := Text(reason)]["paused_by" := Text(actor)]["paused_at" := Time(now)];
      PauseEnteredOnlyFromRunningStates(currentState);
      ok := Transition(PausedForHumanReview, reason, actor, now);
    }

    /** From the pause state, records the approver and returns to IN_PROGRESS; elsewhere does nothing. */
    method ResumeFromPause(actor: string, approvalId: Option<string>, now: int) returns (ok: bool)
      requires Valid()
      modifies this
      ensures Valid()
      ensures ok == (old(currentState) == PausedForHumanReview)
      ensures ok ==> (currentState == InProgress
        && transitions == old(transitions) + [StateTransition(PausedForHumanReview, InProgress, "human_approved", actor, now)]
        && metadata == old(metadata)["resumed_by" := Text(actor)]["approval_id" := if approvalId.Some? then Text(approvalId.value) else Null])
      ensures !ok ==> currentState == old(currentState) && transitions == old(transitions) && metadata == old(metadata)
    {
      if currentState == PausedForHumanReview {
        metadata := metadata["resumed_by" := Text(actor)]["approval_id" := if approvalId.Some? then Text(approvalId.value) else Null];
        ok := Transition(InProgress, "human_approved", actor, now);
      } else {
        ok := false;
      }
    }

    /** `get_history`: one record per transition, in order, with states by value. */
    function GetHistory(): (h: seq<TransitionRecord>)
      reads this
      ensures |h| == |transitions|
      ensures forall i :: 0 <= i < |h| ==>
        h[i].fromState == StateValue(transitions[i].fromState) && h[i].toState == StateValue(transitions[i].toState)
        && h[i].trigger == transitions[i].trigger && h[i].actor == transitions[i].actor
        && h[i].timestamp == transitions[i].timestamp
    {
      seq(|transitions|, i requires 0 <= i < |transitions| reads this =>
        var t := transitions[i];
        TransitionRecord(StateValue(t.fromState), StateValue(t.toState), t.trigger, t.actor, t.timestamp))
    }
  }

  /** The scenario driven by the module's demo: lock, safety check, pause, resume. */
  method PauseResumeScenario() returns (m: ConcurrencyStateMachine)
    ensures m.currentState == InProgress && |m.transitions| == 4
    ensures "approval_id" in m.metadata && m.metadata["approval_id"] == Text("APPROVAL-123")
  {
    m := new ConcurrencyStateMachine("OP-001");
    var ok := m.Transition(Locked, "lock_acquired", "orchestrator", 0);
    ok := m.Transition(SafetyCheck, "safety_gates", "orchestrator", 1);
    ok := m.PauseForReview("unusual_metric_pattern", "orchestrator", 2);
    ok := m.ResumeFromPause("ops-engineer", Some("APPROVAL-123"), 3);
  }
}
