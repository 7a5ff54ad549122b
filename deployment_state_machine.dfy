/**
 * The deployment lifecycle: build, deploy, canary rounds, promotion and
 * verification, with rollback and failure exits. `Transition` is guarded by
 * the VALID_TRANSITIONS table and stamps `endTime` on entering a terminal
 * state. Clock readings are passed in as `now`; saving the state file is not
 * part of this model.
 */
module DeploymentStateMachine {
  import opened Wrappers

  datatype DeploymentState =
    | Init | Building | Deploying | Canary | CanaryWaiting | CanaryEvaluating
    | Promoting | Promoted | Verifying | Verified | RollingBack | RolledBack | Failed

  /** The VALID_TRANSITIONS table, successors in the table's order. */
  function ValidTransitions(s: DeploymentState): seq<DeploymentState>
  {
    match s
    case Init => [Building, Failed]
    case Building => [Deploying, Failed]
    case Deploying => [Canary, Promoted, Failed]
    case Canary => [CanaryWaiting, RollingBack, Failed]
    case CanaryWaiting => [CanaryEvaluating, RollingBack]
    case CanaryEvaluating => [Canary, Promoting, RollingBack, Failed]
    case Promoting => [Promoted, RollingBack, Failed]
    case Promoted => [Verifying, RollingBack]
    case Verifying => [Verified, RollingBack]
    case Verified => []
    case RollingBack => [RolledBack, Failed]
    case RolledBack => []
    case Failed => []
  }

  predicate IsValidTransition(from: DeploymentState, to: DeploymentState)
  {
    to in ValidTransitions(from)
  }

  /** `_is_terminal_state`: VERIFIED, ROLLED_BACK or FAILED. */
  predicate IsTerminalState(s: DeploymentState)
  {
    s in [Verified, RolledBack, Failed]
  }

  /** The terminal states are exactly those with no successor. */
  lemma TerminalIffNoSuccessor(s: DeploymentState)
    ensures IsTerminalState(s) <==> ValidTransitions(s) == []
  {
  }

  /** VERIFIED is entered only from VERIFYING, and VERIFYING only from PROMOTED. */
  lemma VerificationEntries(s: DeploymentState)
    ensures IsValidTransition(s, Verified) <==> s == Verifying
    ensures IsValidTransition(s, Verifying) <==> s == Promoted
    ensures !IsValidTransition(s, Init)
  {
  }

  datatype StateTransition = StateTransition(
    fromState: DeploymentState,
    toState: DeploymentState,
    timestamp: int,
    reason: string,
    metadata: Metadata)

  datatype DeploymentContext = DeploymentContext(
    deploymentId: string,
    incidentId: string,
    serviceName: string,
    imageTag: string,
    commitHash: string,
    safetyArtifactPath: Option<string>,
    canaryPercentage: int)

  /** Starts in INIT, every step is in the table, consecutive records meet, and the last enters `current`. */
  predicate Chained(history: seq<StateTransition>, current: DeploymentState)
  {
    (|history| == 0 ==> current == Init)
    && (|history| > 0 ==> history[0].fromState == Init && history[|history| - 1].toState == current)
    && (forall i :: 0 <= i < |history| - 1 ==> history[i].toState == history[i + 1].fromState)
    && (forall i :: 0 <= i < |history| ==> IsValidTransition(history[i].fromState, history[i].toState))
  }

  lemma {:induction false} ChainedExtend(history: seq<StateTransition>, current: DeploymentState, t: StateTransition)
    requires Chained(history, current)
    requires t.fromState == current && IsValidTransition(current, t.toState)
    ensures Chained(history + [t], t.toState)
  {
    var h := history + [t];
    forall i | 0 <= i < |h| - 1 ensures h[i].toState == h[i + 1].fromState {
      if i < |history| - 1 {
        assert h[i] == history[i] && h[i + 1] == history[i + 1];
      } else {
        assert h[i] == history[|history| - 1] && h[i + 1] == t;
      }
    }
    forall i | 0 <= i < |h| ensures IsValidTransition(h[i].fromState, h[i].toState) {
      if i < |history| { assert h[i] == history[i]; }
    }
  }

  /** A deployment that ends VERIFIED went through PROMOTED and then VERIFYING, as its last two steps. */
  lemma {:induction false} SuccessfulWentThroughPromotion(history: seq<StateTransition>)
    requires Chained(history, Verified)
    ensures |history| >= 3
    ensures history[|history| - 3].toState == Promoted
    ensures history[|history| - 2].toState == Verifying
  {
    var n := |history|;
    VerificationEntries(history[n - 1].fromState);
    assert history[n - 1].fromState == Verifying;
    assert n >= 2;
    assert history[n - 2].toState == Verifying;
    VerificationEntries(history[n - 2].fromState);
    assert history[n - 2].fromState == Promoted;
    assert n >= 3;
  }

  class DeploymentStateMachine {
    const context: DeploymentContext
    const startTime: int
    var currentState: DeploymentState
    var transitions: seq<StateTransition>
    var endTime: Option<int>

    /** The history is chained and `endTime` is set exactly when the current state is terminal. */
    ghost predicate Valid()
      reads this
    {
      Chained(transitions, currentState)
      && (endTime.Some? <==> IsTerminalState(currentState))
    }

    constructor (context: DeploymentContext, now: int)
      ensures this.context == context && startTime == now
      ensures currentState == Init && transitions == [] && endTime == None
      ensures Valid()
    {
      this.context := context;
      startTime := now;
      currentState := Init;
      transitions := [];
      endTime := None;
    }

    /** Moves to `to` if the table allows it; on entering a terminal state records the end time. */
    method Transition(to: DeploymentState, reason: string, metadata: Option<Metadata>, now: int)
      returns (ok: bool)
      requires Valid()
      modifies this
      ensures Valid()
      ensures ok == IsValidTransition(old(currentState), to)
      ensures ok ==> (currentState == to
        && transitions == old(transitions) + [StateTransition(old(currentState), to, now, reason, metadata.GetOr([]))]
        && endTime == (if IsTerminalState(to) then Some(now) else old(endTime)))
      ensures !ok ==> currentState == old(currentState) && transitions == old(transitions) && endTime == old(endTime)
    {
      if !(to in ValidTransitions(currentState)) {
        return false;
      }
      var t := StateTransition(currentState, to, now, reason, metadata.GetOr([]));
      ChainedExtend(transitions, currentState, t);
      transitions := transitions + [t];
      currentState := to;
      if IsTerminalState(to) {
        endTime := Some(now);
      }
      ok := true;
    }

    /** Once complete, every further transition is refused. */
    lemma CompleteIsFinal(to: DeploymentState)
      requires Valid() && IsComplete()
      ensures !IsValidTransition(currentState, to)
    {
      TerminalIffNoSuccessor(currentState);
    }

    predicate IsComplete()
      reads this
    {
      IsTerminalState(currentState)
    }

    predicate IsSuccessful()
      reads this
    {
      currentState == Verified
    }

    predicate IsRolledBack()
      reads this
    {
      currentState == RolledBack
    }

    predicate IsFailed()
      reads this
    {
      currentState == Failed
    }

    /** A successful deployment is complete and has an end time; a complete one is successful, rolled back or failed. */
    lemma OutcomeClassification()
      requires Valid()
      ensures IsSuccessful() ==> IsComplete() && endTime.Some?
      ensures IsComplete() <==> IsSuccessful() || IsRolledBack() || IsFailed()
      ensures IsComplete() <==> endTime.Some?
    {
    }
  }
}
