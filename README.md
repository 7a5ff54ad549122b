# Hypertrace concurrency control and decision logic, modelled in Dafny

This project models the decision and concurrency-control core of the
hypertrace self-healing pipeline. It covers:

- the distributed lock manager: Redis-style `SET NX` with expiry, scope ordering, owner-checked release and bulk release;
- the dependency-aware conflict detector with its operation registry and resource groups;
- the two state machines: the concurrency lifecycle with human-review pause and resume, and the deployment lifecycle;
- the hash-chained audit logger with its bounded buffer, queries and statistics;
- the decision-justification logger;
- the scoring and decision engines: rollback, risk, deployment confidence and incident resolution;
- the policy engine, patch validator, linter runner, fix-template manager and notifier.

There is one Dafny module per source file. Two small shared modules sit beside them: `Wrappers` (`Option`, `Result`) and `Strings` (substring, prefix, lower-casing and integer-to-text helpers).

Code that computes values is written as datatypes, functions and lemmas. The objects whose fields the source updates are written as classes, with `modifies` clauses on their methods. These are the lock manager and its key store, the conflict detector, both state machines, the audit logger, the decision records, contexts and logger, the fix-template manager and the notifier. Five of them carry a `Valid()` invariant that every method keeps: the lock manager, the conflict detector, both state machines and the audit logger. The others have no invariant beyond their field types. Most of the source's loops become `while` loops in methods, each proved against a specification function. Four list-building loops are recursive functions instead; "## Left out" names them. The source's promises are then proved as lemmas about those functions.

Some things the model takes as inputs instead of computing them:

- Clock readings are parameters (`now`), as are generated identifiers.
- SHA-256 and JSON serialisation are the two functions of a `Hasher` value; the lemmas that need it take their collision-freedom as a hypothesis.
- Outcomes of file and subprocess I/O (a log write succeeding, a linter's parsed output) are parameters.
- Redis is a map from key to stored value and expiry time.

## Model

| member | source | states |
|---|---|---|
| AuditLogger.NewEvent | examples/audit_logger.py:79-90 | a new event carries no hash, and its correlation id is the given one when present and non-empty, otherwise the event's own id |
| AuditLogger.ComputeHash | examples/audit_logger.py:198-202 | with collision-free hashing and serialisation, any other event chained after the same hash gets a different digest; ChainAppend and TamperingDetectedAt build on it |
| AuditLogger.SeparatedByDigest | examples/audit_logger.py:198-202 | the digest over "previous:json" separates events that follow the same hash, under collision-free hashing and serialisation |
| AuditLogger.ChainAppend | examples/audit_logger.py:235-237 | appending an event hashed over its hash-free form and the last hash keeps the log a hash chain |
| AuditLogger.FirstMismatch | examples/audit_logger.py:567-573 | a reported mismatch index lies inside the buffer |
| AuditLogger.WellChainedVerifies | examples/audit_logger.py:198-202 | recomputing hashes over hash-free events accepts every chain `log_event` builds |
| AuditLogger.AsWrittenRejectsFirstEvent | examples/audit_logger.py:569-572 | with collision-free hashing, verification as written rejects every non-empty untampered chain at its first event, because it serialises the hash field already set |
| AuditLogger.TamperingDetectedAt | examples/audit_logger.py:567-573 | altering one event's content while keeping its stored hash is reported at exactly that event |
| AuditLogger.SuffixWellChained | examples/audit_logger.py:253-254 | the newest part of a chain is a chain from the hash of the event before it |
| AuditLogger.EvictionBreaksGenesisStart | examples/audit_logger.py:154 | once the bounded buffer has dropped an event, chaining its oldest event from "GENESIS" fails, for any collision-free hasher none of whose digests is the text "GENESIS" (such a hasher exists: `EvictionHypothesesSatisfiable`) |
| AuditLogger.BoundedAppend | examples/audit_logger.py:154 | appending to a `deque(maxlen=size)` keeps at most `size` events, ends with the new event and drops exactly the oldest one when full |
| AuditLogger.QueryBelowBounds | examples/audit_logger.py:531-546 | the newest-first walk keeps at most `limit` events, each matching every active filter and taken from the buffer |
| AuditLogger.QueryBelowStep | examples/audit_logger.py:531-546 | one step of the walk keeps the newest unvisited event exactly when it matches |
| AuditLogger.WalkNewestFirst | examples/audit_logger.py:528-548 | the loop of `query_events`, with its early break at `limit`, computes the newest-first walk |
| AuditLogger.QueryNewestFirst | examples/audit_logger.py:528-548 | a query returns at most `limit` events, each in the buffer and matching every active filter |
| AuditLogger.Reverse | examples/audit_logger.py:531 | `reversed(buffer)`: element `i` is element `n-1-i` of the buffer |
| AuditLogger.QueryBelowIsTake | examples/audit_logger.py:531-546 | the walk over the first `i` events is the first `limit` matches of those events read newest first |
| AuditLogger.QueryIsTakeOfFilteredReverse | examples/audit_logger.py:528-548 | a query is exactly the first `limit` matching events of the buffer read newest first |
| AuditLogger.ErrorsAreErrorPlusCritical | examples/audit_logger.py:262-263 | the errors count equals the number of ERROR events plus the number of CRITICAL events |
| AuditLogger.TallyCounts | examples/audit_logger.py:257-263 | the running counters hold the total, per-category, per-severity and error counts of every event logged |
| AuditLogger.TallyAppend | examples/audit_logger.py:257-263 | logging one more event performs exactly one counter update |
| AuditLogger.AuditLogger.constructor | examples/audit_logger.py:154-196 | the logger starts with an empty buffer, last hash "GENESIS" and zero counters |
| AuditLogger.AuditLogger.LogEvent | examples/audit_logger.py:204-265 | logging returns the event id, chains the event to the last hash when chaining is on, appends it to the bounded buffer and counts it, and keeps the buffer, chain and counters consistent with everything logged |
| AuditLogger.AuditLogger.QueryEvents | examples/audit_logger.py:514-548 | `query_events` returns the first `limit` matching buffered events, newest first |
| AuditLogger.AuditLogger.GetStatistics | examples/audit_logger.py:550-560 | the statistics count every event ever logged, report the buffer length (at most its capacity) and give the last hash exactly when chaining is on |
| AuditLogger.AuditLogger.VerifyHashChainAsWritten | examples/audit_logger.py:562-575 | verification as written starts from "GENESIS" and reports the first event whose stored hash differs from the hash recomputed with its hash field set; it always passes when chaining is off |
| AuditLogger.AuditLogger.VerifyHashChain | examples/audit_logger.py:562-575 | corrected verification recomputes over hash-free events from the hash the oldest buffered event was chained to, and reports the first mismatch |
| AuditLogger.AuditLogger.ScanChain | examples/audit_logger.py:567-575 | the verification loop stops at the first mismatching event and reports its index |
| AuditLogger.AuditLogger.UntamperedLogVerifies | examples/audit_logger.py:562-575 | an untampered log passes corrected verification, also after the buffer has dropped events |
| AuditLogger.AuditLogger.AsWrittenRejectsUntamperedLog | examples/audit_logger.py:562-575 | as written, verification of any non-empty untampered buffer that has not yet dropped events fails at its first event |
| AuditLogger.BufferAgreeAppend | examples/audit_logger.py:253-254 | appending to the bounded buffer keeps it the newest part of the log, full once the log has outgrown it |
| AuditLogger.ChainAgreeAppend | examples/audit_logger.py:235-237 | after chaining an event, the log is still a chain from "GENESIS" and the last hash is that event's hash |
| ConcurrencyStateMachine.StateValueInjective | examples/concurrency_state_machine.py:25-34 | distinct states have distinct string values |
| ConcurrencyStateMachine.TerminalStatesHaveNoSuccessor | examples/concurrency_state_machine.py:57-67 | COMPLETED, ROLLED_BACK and CANCELLED are exactly the states with no successor, and FAILED leads only to ROLLED_BACK |
| ConcurrencyStateMachine.PauseEnteredOnlyFromRunningStates | examples/concurrency_state_machine.py:57-67 | the review pause can be entered from SAFETY_CHECK or IN_PROGRESS and from no other state |
| ConcurrencyStateMachine.InitHasNoPredecessor | examples/concurrency_state_machine.py:57-67 | no transition enters INIT |
| ConcurrencyStateMachine.ChainedExtend | examples/concurrency_state_machine.py:77-81 | a permitted step appended to a chained history keeps it chained |
| ConcurrencyStateMachine.TerminalIsLast | examples/concurrency_state_machine.py:57-67 | in any history a terminal state can only be entered by the last record, and it is the current state |
| ConcurrencyStateMachine.ChainedFinal | examples/concurrency_state_machine.py:71-80 | a chained history ends in the current state, and only its first record leaves INIT |
| ConcurrencyStateMachine.ExecutionFollowsSafetyCheck | examples/concurrency_state_machine.py:57-67 | whenever a record enters IN_PROGRESS, an earlier record entered SAFETY_CHECK |
| ConcurrencyStateMachine.ConcurrencyStateMachine.constructor | examples/concurrency_state_machine.py:69-73 | a new machine is in INIT with no transitions and empty metadata |
| ConcurrencyStateMachine.ConcurrencyStateMachine.Transition | examples/concurrency_state_machine.py:75-82 | succeeds exactly when the table allows the move; it then records the step and enters the new state, and otherwise changes nothing |
| ConcurrencyStateMachine.ConcurrencyStateMachine.PauseForReview | examples/concurrency_state_machine.py:84-89 | always records reason, actor and time in the metadata, and succeeds exactly from SAFETY_CHECK or IN_PROGRESS |
| ConcurrencyStateMachine.ConcurrencyStateMachine.ResumeFromPause | examples/concurrency_state_machine.py:91-97 | succeeds exactly when paused, records the approver and the approval id (None when absent) and returns to IN_PROGRESS; otherwise changes nothing |
| ConcurrencyStateMachine.ConcurrencyStateMachine.GetHistory | examples/concurrency_state_machine.py:99-101 | one record per transition, in order, with states given by their string values |
| ConcurrencyStateMachine.PauseResumeScenario | examples/concurrency_state_machine.py:103-111 | the demo's lock, safety-check, pause and resume sequence ends IN_PROGRESS after four transitions with the approval id recorded |
| ConflictDetector.AreOperationsConflicting | examples/conflict_detector.py:407-425 | two operation types conflict exactly when both are DEPLOYMENT or ROLLBACK |
| ConflictDetector.ConflictingIsSymmetric | examples/conflict_detector.py:413-425 | the conflict relation on operation types is symmetric |
| ConflictDetector.InOrder | examples/conflict_detector.py:303 | the registered operations are visited in dictionary order, one per id |
| ConflictDetector.RemoveId | examples/conflict_detector.py:201 | deleting a key removes exactly that id from the iteration order, and deleting an absent key changes nothing |
| ConflictDetector.RemoveIdKeepsDistinct | examples/conflict_detector.py:200-201 | the iteration order stays free of repeats after a deletion |
| ConflictDetector.RegisterUnregisterRestores | examples/conflict_detector.py:192-201 | registering a new id and then unregistering it restores both the operation map and its iteration order |
| ConflictDetector.DirectConflictsMembers | examples/conflict_detector.py:303-310 | an operation is a direct conflict exactly when it is registered, runs on the same service and has a clashing type |
| ConflictDetector.GroupsOfMembers | examples/conflict_detector.py:376-379 | a group name is listed for a service exactly when that group holds the service |
| ConflictDetector.NameInGroupsOf | examples/conflict_detector.py:376-379 | with distinct group names, group `i` is listed exactly when it holds the service |
| ConflictDetector.SharedGroupHits | examples/conflict_detector.py:382-387 | the entries the inner loop adds for an operation are all that operation |
| ConflictDetector.SharedGroupHitsNonEmpty | examples/conflict_detector.py:383-387 | an operation gets an entry exactly when some group holds its service and is one of the proposed service's groups |
| ConflictDetector.HitIffShared | examples/conflict_detector.py:376-387 | an operation gets an entry exactly when its service and the proposed service share a group |
| ConflictDetector.ResourceConflictsMembers | examples/conflict_detector.py:368-389 | an operation is a shared-resource conflict exactly when its service shares a group with the proposed service, whatever its type |
| ConflictDetector.PaymentServiceGroups | examples/conflict_detector.py:154-170 | in the default groups payment-service uses postgres_primary and redis_cache, in that order |
| ConflictDetector.PaymentServiceHits | examples/conflict_detector.py:382-387 | an operation on payment-service gets one entry for each of the two groups it shares with payment-service |
| ConflictDetector.ResourceConflictsRepeat | examples/conflict_detector.py:382-387 | an operation is listed once per shared group, so one operation on payment-service is listed twice against payment-service |
| ConflictDetector.ResourceConflictAcrossServices | examples/conflict_detector.py:368-389 | a verification on payment-service is no direct conflict for a restart of cart-service but is a shared-resource conflict through redis_cache |
| ConflictDetector.ServicesOfMembers | examples/conflict_detector.py:248-249 | a service is affected exactly when one of the conflicting operations runs on it |
| ConflictDetector.MaxSeverity | examples/conflict_detector.py:251 | the intended `max` of two severities is one of them and at least as severe as both |
| ConflictDetector.BlockingTextsSayBlock | examples/conflict_detector.py:470-494 | exactly the blocking recommendations are the texts that open with "BLOCK:" |
| ConflictDetector.GenerateRecommendation | examples/conflict_detector.py:463-494 | CRITICAL blocks; HIGH blocks exactly when the blast radius exceeds 5 and otherwise warns; MEDIUM advises caution; LOW proceeds |
| ConflictDetector.DirectOnlyBlocks | examples/conflict_detector.py:225-229 | with only direct conflicts the result is CRITICAL, of type DIRECT, affects only the proposed service and blocks |
| ConflictDetector.AddServices | examples/conflict_detector.py:248-249 | the loop adds the service of every operation to the affected set |
| ConflictDetector.FirstListed | examples/conflict_detector.py:275 | the reported conflict type is one of the types found |
| ConflictDetector.CombineConflicts | examples/conflict_detector.py:215-293 | the combined result reports every conflict, CRITICAL when any is direct and HIGH otherwise, the distinct affected services as blast radius and the matching recommendation; with no conflicts it is the "Safe to proceed" result with severity LOW and blast radius 1 |
| ConflictDetector.CollectConflicts | examples/conflict_detector.py:215-251 | the accumulation lists the direct conflicts before the shared-resource ones and collects their services, severity and types |
| ConflictDetector.ReportDescribes | examples/conflict_detector.py:261-282 | a report built from the collected conflicts describes them |
| ConflictDetector.ScanDirect | examples/conflict_detector.py:303-310 | the loop of `_check_direct_conflicts` collects exactly the direct conflicts in registry order |
| ConflictDetector.ScanResource | examples/conflict_detector.py:382-387 | the outer loop of `_check_resource_conflicts` collects each operation once per shared group |
| ConflictDetector.ScanGroups | examples/conflict_detector.py:383-387 | the inner loop adds one entry per group that holds the operation's service and is one of the proposed service's groups |
| ConflictDetector.DependencyAwareConflictDetector.Ongoing | examples/conflict_detector.py:303 | the ongoing operations in registry order, each stored under its own id |
| ConflictDetector.DependencyAwareConflictDetector.constructor | examples/conflict_detector.py:137-141 | a new detector has no operations and the default resource groups |
| ConflictDetector.DependencyAwareConflictDetector.RegisterOperation | examples/conflict_detector.py:172-196 | stores the operation under its id with missing metadata read as empty; a new id goes last in the iteration order and a re-registered id keeps its place |
| ConflictDetector.DependencyAwareConflictDetector.UnregisterOperation | examples/conflict_detector.py:198-202 | removes the id from the map and the order, and changes nothing for an unknown id |
| ConflictDetector.DependencyAwareConflictDetector.CheckDirectConflicts | examples/conflict_detector.py:295-312 | returns exactly the direct conflicts, in registry order |
| ConflictDetector.DependencyAwareConflictDetector.ServiceResourceGroups | examples/conflict_detector.py:375-379 | returns the names of the groups holding the service, in group order |
| ConflictDetector.DependencyAwareConflictDetector.CheckResourceConflicts | examples/conflict_detector.py:368-389 | returns each registered operation once per group it shares with the service |
| ConflictDetector.DependencyAwareConflictDetector.DetectConflicts | examples/conflict_detector.py:204-293 | with severities combined by rank and no dependency graph, the result describes the direct and shared-resource conflicts |
| ConflictDetector.DependencyAwareConflictDetector.DetectConflictsAsWritten | examples/conflict_detector.py:246-251 | as written, the result is an error exactly when there is a shared-resource conflict, because `max` over plain Enum members raises; otherwise it describes the direct conflicts |
| DecisionJustificationLogger.FromScore | examples/decision_justification_logger.py:72-83 | a score of at least 0.9 is VERY_HIGH, [0.8, 0.9) HIGH, [0.6, 0.8) MEDIUM, [0.4, 0.6) LOW and below 0.4 VERY_LOW, each in both directions |
| DecisionJustificationLogger.FromScoreMonotone | examples/decision_justification_logger.py:72-83 | a higher score never gives a lower confidence level |
| DecisionJustificationLogger.DecisionRecord.constructor | examples/decision_justification_logger.py:160-192 | a fresh record has no context, inputs, decision or outcome, is made by "autonomous_system" and is not overridden |
| DecisionJustificationLogger.DecisionContext.constructor | examples/decision_justification_logger.py:299-308 | a context owns a fresh record with its id, type and start time |
| DecisionJustificationLogger.DecisionContext.SetContext | examples/decision_justification_logger.py:310-315 | the incident id and service name are set only when given and non-empty; every other field of the record stays as it was |
| DecisionJustificationLogger.DecisionContext.AddInput | examples/decision_justification_logger.py:317-321 | appends exactly one input; every other field of the record stays as it was |
| DecisionJustificationLogger.DecisionContext.AddFactor | examples/decision_justification_logger.py:323-327 | appends exactly one factor; every other field of the record stays as it was |
| DecisionJustificationLogger.DecisionContext.AddConstraint | examples/decision_justification_logger.py:329-333 | appends exactly one constraint; every other field of the record stays as it was |
| DecisionJustificationLogger.DecisionContext.AddAlternative | examples/decision_justification_logger.py:335-341 | appends exactly one alternative; every other field of the record stays as it was |
| DecisionJustificationLogger.DecisionContext.RecordDecision | examples/decision_justification_logger.py:343-352 | sets the decision, reasoning, confidence, the confidence level `from_score(confidence)` and the elapsed time in milliseconds; every other field of the record stays as it was |
| DecisionJustificationLogger.DecisionContext.SetOutcome | examples/decision_justification_logger.py:354-358 | records the outcome, its time and correctness; every other field of the record stays as it was |
| DecisionJustificationLogger.DecisionContext.HumanOverrideAsWritten | examples/decision_justification_logger.py:360-364 | as written, the override flag and "human:" + user are set first, and appending the note raises exactly when no reasoning was recorded yet; no other field changes |
| DecisionJustificationLogger.DecisionContext.HumanOverride | examples/decision_justification_logger.py:360-364 | the override sets the flag and "human:" + user as decision maker and appends the note after the existing reasoning, which it keeps as a prefix; no other field changes |
| DecisionJustificationLogger.DecisionContext.Exit | examples/decision_justification_logger.py:369-372 | leaving the context saves its record to the logger |
| DecisionJustificationLogger.OfType | examples/decision_justification_logger.py:414-415 | the type filter keeps a sublist of the records |
| DecisionJustificationLogger.OfIncident | examples/decision_justification_logger.py:417-418 | the incident filter never lengthens the list |
| DecisionJustificationLogger.OfTypeMembers | examples/decision_justification_logger.py:414-415 | a record survives the type filter exactly when it is of the requested type, or no type is given |
| DecisionJustificationLogger.TwoPassIsMatching | examples/decision_justification_logger.py:414-418 | filtering by type and then by incident is the single combined order-preserving filter |
| DecisionJustificationLogger.MatchingMembers | examples/decision_justification_logger.py:408-420 | the filter returns only matching records, and every matching record is returned |
| DecisionJustificationLogger.MatchingConcat | examples/decision_justification_logger.py:408-420 | the filter distributes over concatenation, so it keeps the records' order |
| DecisionJustificationLogger.MatchingNoFilter | examples/decision_justification_logger.py:408-420 | with no filter every record comes back in order |
| DecisionJustificationLogger.DecisionLogger.constructor | examples/decision_justification_logger.py:378-381 | a new logger keeps no decisions |
| DecisionJustificationLogger.DecisionLogger.SaveDecision | examples/decision_justification_logger.py:396-406 | the record is appended in memory whether or not its log line is written |
| DecisionJustificationLogger.DecisionLogger.GetDecisions | examples/decision_justification_logger.py:408-420 | returns exactly the kept records matching the type and incident filters, oldest first, where an empty incident id filters nothing |
| DecisionJustificationLogger.DecisionLogger.OpenContext | examples/decision_justification_logger.py:383-394 | opens a context on a fresh record whose id defaults to `<type>-<milliseconds>` |
| DecisionJustificationLogger.DecisionLogger.CloseContextAsWritten | examples/decision_justification_logger.py:383-394 | as written, the generator simply ends after its `yield`, so the logger keeps nothing |
| DecisionJustificationLogger.DecisionLogger.CloseContext | examples/decision_justification_logger.py:369-372 | leaving the context as intended saves its record |
| DecisionJustificationLogger.OverrideBeforeDecisionAsWritten | examples/decision_justification_logger.py:360-364 | an override before any decision raises as written, with the flag already set and no reasoning |
| DecisionJustificationLogger.DecisionScopeAsWritten | examples/decision_justification_logger.py:383-394 | after a decision made inside `with logger.decision_context(...)`, the logger as written returns no record of it |
| DecisionJustificationLogger.DecisionScope | examples/decision_justification_logger.py:369-406 | with the record saved on exit, the decision can be retrieved by type, and an outcome set later through the context is visible in what the logger returns |
| DeploymentConfidenceScorer.Lookup | examples/deployment_confidence_scorer.py:285 | `d.get(key)` finds a value stored under the key, or is None exactly when no entry has the key |
| DeploymentConfidenceScorer.NewScorer | examples/deployment_confidence_scorer.py:84-100 | the scorer accepts its weights exactly when they sum to 1 within 0.01; missing or empty weights take the defaults, given ones are kept, and the thresholds are stored |
| DeploymentConfidenceScorer.DefaultScorerAccepted | examples/deployment_confidence_scorer.py:72-100 | the default scorer (thresholds 80 and 60, default weights) is accepted |
| DeploymentConfidenceScorer.CountedChecks | examples/deployment_confidence_scorer.py:197-199 | no more checks are counted than there are results |
| DeploymentConfidenceScorer.PassedChecks | examples/deployment_confidence_scorer.py:197-201 | no more checks pass than are counted |
| DeploymentConfidenceScorer.SafetyScore | examples/deployment_confidence_scorer.py:185-206 | the safety score is 0 when the gates failed, 0.5 when no check reports, and otherwise the passed share, always in [0, 1] and 1 when every counted check passed |
| DeploymentConfidenceScorer.CalculateSafetyScore | examples/deployment_confidence_scorer.py:185-206 | the counting loop computes the safety score |
| DeploymentConfidenceScorer.CanaryHealth | examples/deployment_confidence_scorer.py:208-220 | canary health is 1 without canary data and 0 for a failed canary; a passed canary scores its passed share of the gates, 0.5 when it reports no positive gate total, and that share lies in [0, 1] when the gate counts are consistent |
| DeploymentConfidenceScorer.BlastRadius | examples/deployment_confidence_scorer.py:222-243 | the blast-radius factor is one minus the listed service's criticality, 0.5 for an unlisted service, and always in [0.1, 0.8] |
| DeploymentConfidenceScorer.CountSuccesses | examples/deployment_confidence_scorer.py:257 | no more successes than deployments |
| DeploymentConfidenceScorer.LastTen | examples/deployment_confidence_scorer.py:252 | `history[-10:]` is the last min(10, n) entries |
| DeploymentConfidenceScorer.HistoricalSuccess | examples/deployment_confidence_scorer.py:245-259 | historical success is 0.7 without history and otherwise the success share of the last ten deployments, in [0, 1] |
| DeploymentConfidenceScorer.OnlyLastTenCount | examples/deployment_confidence_scorer.py:252 | deployments older than the last ten do not affect the factor |
| DeploymentConfidenceScorer.ChangeComplexity | examples/deployment_confidence_scorer.py:261-279 | change complexity is 1 with no patch, 1 − p/10 (strictly between 0 and 1) for 1 to 9 patches and 0 from ten patches on; a negative count gives more than 1 |
| DeploymentConfidenceScorer.ChangeComplexityAntitone | examples/deployment_confidence_scorer.py:272-279 | more patches never give a better complexity factor |
| DeploymentConfidenceScorer.TestCoverage | examples/deployment_confidence_scorer.py:281-290 | no `tests` entry, or one without a coverage, gives 0; a `tests` entry that is not a dictionary is an error; a reported coverage above 1 is read as a percentage and divided by 100, any other is kept, so one between 0 and 100 gives a factor in [0, 1] |
| DeploymentConfidenceScorer.ExtractFactors | examples/deployment_confidence_scorer.py:149-183 | fails exactly when the `tests` entry is not a dictionary; otherwise each factor is its own calculation, the safety, history and blast-radius factors lie in their ranges, and a failed safety run or canary zeroes its factor |
| DeploymentConfidenceScorer.WeightedScore | examples/deployment_confidence_scorer.py:292-305 | the weighted score fails with a KeyError exactly when one of the six factor weights is missing |
| DeploymentConfidenceScorer.DefaultScoreInRange | examples/deployment_confidence_scorer.py:292-305 | with the default weights, factors in [0, 1] give a score in [0, 100] |
| DeploymentConfidenceScorer.DefaultLeadingWeights | examples/deployment_confidence_scorer.py:89-91 | the default weights of safety, canary and blast radius are 0.30, 0.25 and 0.15 |
| DeploymentConfidenceScorer.DefaultTrailingWeights | examples/deployment_confidence_scorer.py:92-93 | the default weights of history and complexity are 0.10 each |
| DeploymentConfidenceScorer.DefaultCoverageWeight | examples/deployment_confidence_scorer.py:94 | the default weight of test coverage is 0.10 |
| DeploymentConfidenceScorer.DefaultWeightsLookup | examples/deployment_confidence_scorer.py:88-95 | the six default weights |
| DeploymentConfidenceScorer.MakeDecision | examples/deployment_confidence_scorer.py:307-315 | AUTO_PROMOTE exactly from the auto threshold, MANUAL_REVIEW exactly between the manual and auto thresholds, ROLLBACK exactly below both |
| DeploymentConfidenceScorer.DecisionMonotone | examples/deployment_confidence_scorer.py:307-315 | a higher score never gives a more cautious decision |
| DeploymentConfidenceScorer.CalculateConfidence | examples/deployment_confidence_scorer.py:102-147 | the confidence carries the extracted factors, their weighted score, the decision for that score and the thresholds, and fails exactly when factor extraction or weighting fails |
| DeploymentConfidenceScorer.FailedGatesCapDefaultScore | examples/deployment_confidence_scorer.py:188-189 | with the default weights a failed safety gate caps the score at 70, so it is never auto-promoted under the default thresholds |
| DeploymentStateMachine.TerminalIffNoSuccessor | examples/deployment_state_machine.py:78-92 | VERIFIED, ROLLED_BACK and FAILED are exactly the states with an empty successor list |
| DeploymentStateMachine.VerificationEntries | examples/deployment_state_machine.py:78-92 | VERIFIED is entered only from VERIFYING, VERIFYING only from PROMOTED, and nothing enters INIT |
| DeploymentStateMachine.ChainedExtend | examples/deployment_state_machine.py:126-139 | a valid step appended to a chained history keeps it chained |
| DeploymentStateMachine.SuccessfulWentThroughPromotion | examples/deployment_state_machine.py:78-92 | a deployment that ends VERIFIED entered PROMOTED and then VERIFYING in its last steps before VERIFIED |
| DeploymentStateMachine.DeploymentStateMachine.constructor | examples/deployment_state_machine.py:94-105 | a new machine is in INIT with no transitions and no end time |
| DeploymentStateMachine.DeploymentStateMachine.Transition | examples/deployment_state_machine.py:107-148 | succeeds exactly when the table allows the move; it then appends one record (missing metadata read as empty), enters the new state and stamps the end time on entering a terminal state; a refused move changes neither state, history nor end time |
| DeploymentStateMachine.DeploymentStateMachine.CompleteIsFinal | examples/deployment_state_machine.py:155-165 | once complete, no further transition is allowed |
| DeploymentStateMachine.DeploymentStateMachine.OutcomeClassification | examples/deployment_state_machine.py:163-177 | a successful deployment is complete; complete means VERIFIED, ROLLED_BACK or FAILED, and exactly then an end time is set |
| DistributedLockManager.LockOrder | examples/distributed_lock_manager.py:147-152 | every scope has an order between 1 (SYSTEM) and 4 (DEPLOYMENT) |
| DistributedLockManager.LockOrderInjective | examples/distributed_lock_manager.py:147-152 | two scopes have the same order exactly when they are the same scope |
| DistributedLockManager.GenerateLockId | examples/distributed_lock_manager.py:159-161 | "SCOPE:resource"; its properties are stated by LockIdInjective and FirstColon |
| DistributedLockManager.LockIdInjective | examples/distributed_lock_manager.py:159-161 | "SCOPE:resource" ids coincide exactly when scope and resource both coincide |
| DistributedLockManager.LockKey | examples/distributed_lock_manager.py:163-165 | "selfhealing:lock:" before the id; its injectivity is stated by LockKeyInjective |
| DistributedLockManager.FirstColon | examples/distributed_lock_manager.py:159-161 | the first ':' of a lock id sits right after the scope name, and scope names differ in length |
| DistributedLockManager.LockKeyInjective | examples/distributed_lock_manager.py:163-165 | backend keys coincide exactly when the lock ids coincide |
| DistributedLockManager.LiveIffNotExpired | examples/distributed_lock_manager.py:97-98 | a key stored with the lock's own expiry is live exactly while the lock is not expired |
| DistributedLockManager.LiveMonotone | examples/distributed_lock_manager.py:287-293 | once a key has expired it stays expired at every later time |
| DistributedLockManager.HolderAt | examples/distributed_lock_manager.py:435-456 | the holder is the stored owner while the key is live, and "unknown" otherwise |
| DistributedLockManager.KeyStore.constructor | examples/distributed_lock_manager.py:126-133 | a new backend holds no keys |
| DistributedLockManager.KeyStore.SetIfAbsent | examples/distributed_lock_manager.py:282-295 | an expiry that is not positive gets the error reply and changes nothing; otherwise stores the lock with expiry now + ttl exactly when no live entry exists under the key, and reports whether it did |
| DistributedLockManager.KeyStore.CompareAndDelete | examples/distributed_lock_manager.py:381-402 | deletes the key exactly when it is live and holds this very lock, and reports whether it did |
| DistributedLockManager.HeldKeyExcludesOthers | examples/distributed_lock_manager.py:287-293 | a key just stored stays live for its whole time-to-live, so any other set-if-absent in that window fails |
| DistributedLockManager.EffectiveTimeout | examples/distributed_lock_manager.py:233 | the timeout is the request or the default; with a positive default and no negative request it is positive; it is 0 only from a zero default with no request or a zero one; it is negative only from a negative request or default |
| DistributedLockManager.LockManager.constructor | examples/distributed_lock_manager.py:110-152 | a new manager holds no local locks and keeps the default timeout as given, whatever its sign |
| DistributedLockManager.LockManager.ValidateLockOrdering | examples/distributed_lock_manager.py:167-201 | passes exactly when no held lock has a higher order than the request or the same order and a resource sorting after it; a failure names the first violated held lock in insertion order, with rule 1 tested before rule 2 |
| DistributedLockManager.LockManager.AcquireLock | examples/distributed_lock_manager.py:203-295 | an ordering violation is refused with the first violator named and nothing changed; a timeout that is not positive makes the first attempt raise with nothing changed; otherwise it succeeds exactly when some attempt within the wait finds the key free, stores the lock at the first such attempt and records it locally (a new id goes last in insertion order), and on timeout changes nothing and reports the current holder |
| DistributedLockManager.LockManager.ReleaseLock | examples/distributed_lock_manager.py:323-372 | a lock not held locally, or held by another owner, is refused with nothing changed; otherwise it is released exactly when the backend still holds it, removing the key, the local entry and its place in insertion order |
| DistributedLockManager.LockManager.ReleaseTracked | examples/distributed_lock_manager.py:540-546 | one backend release; on success the key and the local entry both go, otherwise nothing changes |
| DistributedLockManager.LockManager.ForceReleaseAll | examples/distributed_lock_manager.py:529-549 | removes exactly the owner's locks that the backend still holds, from the backend, the local table and the insertion order, returns how many, and leaves every other lock alone |
| DistributedLockManager.ReleasableBy | examples/distributed_lock_manager.py:533-546 | the locks force-release can give up are among the owner's locks |
| DistributedLockManager.ReleasedSoFarStep | examples/distributed_lock_manager.py:540-546 | trying one more candidate adds it to the released set exactly when it is releasable, and the count grows by one |
| FixTemplateManager.MatchingInOrderSound | examples/fix_template_manager.py:52-70 | every selected template was loaded and fits the language and the error type, and none is selected more often than it was loaded |
| FixTemplateManager.MatchingInOrderComplete | examples/fix_template_manager.py:52-70 | every loaded template that fits the language and the error type (listed, wildcard or partial) is selected |
| FixTemplateManager.SafetyRank | examples/fix_template_manager.py:73-74 | the sort key is 0, 1 or 2 |
| FixTemplateManager.SafetyRankLevels | examples/fix_template_manager.py:73-74 | key 0 means exactly a "high" level and key 2 exactly a "low" one; missing or unknown levels sort as "medium" |
| FixTemplateManager.OfRankMembers | examples/fix_template_manager.py:74 | the templates picked for one key come from the input and carry that key |
| FixTemplateManager.RanksPartition | examples/fix_template_manager.py:74 | splitting by key loses and adds no template |
| FixTemplateManager.SortBySafetyIsSortedPermutation | examples/fix_template_manager.py:72-74 | the sorted list is a permutation of the matches with the safest templates first |
| FixTemplateManager.OfRankDistributes | examples/fix_template_manager.py:74 | choosing by key commutes with concatenation, so the sort keeps load order within a key |
| FixTemplateManager.SortIsStable | examples/fix_template_manager.py:74 | two templates with the same key leave the sort in the order they were loaded |
| FixTemplateManager.ReplaceAbsent | examples/fix_template_manager.py:101 | replacing a placeholder that does not occur leaves the text unchanged |
| FixTemplateManager.ReplaceBySelf | examples/fix_template_manager.py:101 | replacing a placeholder by itself leaves the text unchanged |
| FixTemplateManager.RenderUntouched | examples/fix_template_manager.py:96-103 | a template mentioning none of the context's placeholders renders to itself |
| FixTemplateManager.WordRun | examples/fix_template_manager.py:119 | the run of word characters is maximal: all word characters, followed by the end or a non-word character |
| FixTemplateManager.PlaceholderAt | examples/fix_template_manager.py:119 | braces around a name at a position are an occurrence of that name's placeholder |
| FixTemplateManager.PlaceholdersOccur | examples/fix_template_manager.py:119 | every variable the placeholder scan finds occurs in the text as `{{name}}` |
| FixTemplateManager.MissingVariables | examples/fix_template_manager.py:121-124 | a name is reported missing exactly when the template requires it and the context lacks it |
| FixTemplateManager.FixTemplateManager.constructor | examples/fix_template_manager.py:14-37 | the manager holds the loaded templates, or none when loading failed |
| FixTemplateManager.FixTemplateManager.FindMatchingTemplates | examples/fix_template_manager.py:39-76 | returns the fitting templates in a stable sort by safety key, which the lemmas above show to be complete, sound and sorted |
| FixTemplateManager.FixTemplateManager.AnyPartialMatch | examples/fix_template_manager.py:67-70 | finds a partial match exactly when some listed error type contains the error type or is contained in it |
| FixTemplateManager.FixTemplateManager.GetTemplateById | examples/fix_template_manager.py:78-83 | returns the first template with the id, and None exactly when no template has it |
| FixTemplateManager.FixTemplateManager.RenderTemplate | examples/fix_template_manager.py:85-103 | substitutes every context entry in context order, each replacing all occurrences of its placeholder |
| FixTemplateManager.FixTemplateManager.ValidateTemplateContext | examples/fix_template_manager.py:105-126 | valid exactly when the context supplies every required placeholder; the missing names are the required ones the context lacks, in order |
| FixTemplateManager.MissingVariablesOccur | examples/fix_template_manager.py:116-124 | every reported missing name occurs in the template as a placeholder and is absent from the context |
| IncidentResolutionValidator.FirstWhere | examples/incident_resolution_validator.py:244-246 | the comparison found is one of the inputs and satisfies the test, and None means no comparison does |
| IncidentResolutionValidator.FirstWhereIsFirst | examples/incident_resolution_validator.py:244-246 | no comparison before the one found satisfies the test |
| IncidentResolutionValidator.CriterionFrom | examples/incident_resolution_validator.py:249-291 | a criterion is built exactly when a comparison was found, from its improvement, and is a required metric criterion |
| IncidentResolutionValidator.RequiredCriteria | examples/incident_resolution_validator.py:243-291 | at most three criteria, all required, each met exactly when its value reaches the target (10, 5 or -5 percent) |
| IncidentResolutionValidator.RequiredMetricsConcat | examples/incident_resolution_validator.py:243-291 | appending lists of required metric criteria keeps them required metric criteria |
| IncidentResolutionValidator.BuildCriteria | examples/incident_resolution_validator.py:236-321 | two to five criteria; exactly all but the last two are required; the last two are the stability and confidence scores against 70; each is met exactly when its value reaches its target |
| IncidentResolutionValidator.ErrorRateCriterionIff | examples/incident_resolution_validator.py:244-261 | an error-rate criterion is present exactly when some comparison is named `error_rate` |
| IncidentResolutionValidator.CountCriteria | examples/incident_resolution_validator.py:148-164 | counts the met, the required and the required-and-met criteria, with required-met at most both other counts |
| IncidentResolutionValidator.AllRequiredMetIff | examples/incident_resolution_validator.py:158-164 | required-met equals required-total exactly when no required criterion is unmet |
| IncidentResolutionValidator.CriteriaRatio | examples/incident_resolution_validator.py:357-359 | the share met is 0 without criteria, between 0 and 1 otherwise, and 1 when all are met |
| IncidentResolutionValidator.RatioMonotone | examples/incident_resolution_validator.py:357-359 | meeting more criteria of the same total gives a larger share |
| IncidentResolutionValidator.ConfidenceFromRatio | examples/incident_resolution_validator.py:356-376 | the confidence is clamped to 0-100, at most 50 while the symptom persists, at most 70 while alerts fire, at least 50 when both are gone, and 100 when in addition every criterion is met |
| IncidentResolutionValidator.ResolutionConfidence | examples/incident_resolution_validator.py:347-376 | the same bounds stated on the criteria counts |
| IncidentResolutionValidator.ConfidenceMonotone | examples/incident_resolution_validator.py:347-376 | meeting more criteria never lowers the confidence |
| IncidentResolutionValidator.DetermineStatus | examples/incident_resolution_validator.py:378-402 | NOT_RESOLVED exactly when the symptom persists; otherwise PARTIALLY_RESOLVED while a required criterion is unmet, and else fully resolved, partially resolved or inconclusive by confidence against the minimum and 60 |
| IncidentResolutionValidator.CheckSymptomPresent | examples/incident_resolution_validator.py:323-345 | the symptom persists exactly when some alert message contains it, ignoring case, or some metric is DEGRADED |
| IncidentResolutionValidator.EmptySymptomMatchesAnyAlert | examples/incident_resolution_validator.py:330-334 | with no recorded symptom, any current alert makes the symptom count as present |
| IncidentResolutionValidator.UnmetReasons | examples/incident_resolution_validator.py:430-433 | no criterion reason is given exactly when every required criterion is met |
| IncidentResolutionValidator.FollowUpHead | examples/incident_resolution_validator.py:413-427 | no status, symptom or alert reason is given exactly when the status is resolved or inconclusive, the symptom is gone and no alert fires |
| IncidentResolutionValidator.CollectUnmet | examples/incident_resolution_validator.py:430-433 | one reason per unmet required criterion, in criteria order |
| IncidentResolutionValidator.CheckFollowUpNeeded | examples/incident_resolution_validator.py:404-435 | follow-up is needed exactly when there is a reason: status not or partially resolved, symptom present, alerts active, or a required criterion unmet |
| IncidentResolutionValidator.ValidateResolution | examples/incident_resolution_validator.py:98-234 | the result joins the parts: criteria built from the inputs, the symptom check, alerts cleared exactly when none fire, the confidence and status from the counts, and the follow-up reasons |
| IncidentResolutionValidator.FullyResolvedNeedsNoFollowUp | examples/incident_resolution_validator.py:386-433 | with a minimum confidence above 70, a fully resolved incident has no follow-up reason, since alerts still firing cap the confidence at 70 |
| LinterRunner.SignaturesBelow | examples/linter_runner.py:398-402 | every baseline issue's signature is collected |
| LinterRunner.SignaturesBelowOnly | examples/linter_runner.py:398-402 | every collected signature belongs to some baseline issue |
| LinterRunner.UnseenMembers | examples/linter_runner.py:404-411 | an issue is kept exactly when it is current and its signature is not in the baseline |
| LinterRunner.UnseenConcat | examples/linter_runner.py:404-411 | filtering a concatenation filters each part, so kept issues stay in order |
| LinterRunner.UnseenShrinks | examples/linter_runner.py:404-411 | filtering never adds issues |
| LinterRunner.UnseenIdempotent | examples/linter_runner.py:404-411 | filtering twice against the same baseline equals filtering once |
| LinterRunner.UnseenNothingKnown | examples/linter_runner.py:404-411 | with no baseline signature every issue is kept, in order |
| LinterRunner.FilterNewIssues | examples/linter_runner.py:389-411 | returns the current issues, in order, whose file:line:rule signature no baseline issue has |
| LinterRunner.CollectSignatures | examples/linter_runner.py:398-402 | collects exactly the baseline's signatures |
| LinterRunner.KeepUnseen | examples/linter_runner.py:404-411 | keeps exactly the current issues whose signature is not collected, in order |
| LinterRunner.KnownIssueDropped | examples/linter_runner.py:401-408 | a current issue with the file, line and rule of some baseline issue is dropped |
| LinterRunner.SignaturesCanCollide | examples/linter_runner.py:401-408 | because the signature is joined text, two issues in different files can share one, so one hides the other |
| LinterRunner.CountsWithinTotal | examples/linter_runner.py:115-117 | the error, warning and info counts add up to at most the total; with the STYLE count they add up to it |
| LinterRunner.Passes | examples/linter_runner.py:119-124 | a run fails exactly when errors exceed the limit with fail-on-error set, or warnings exceed their limit |
| LinterRunner.DefaultPassRule | examples/linter_runner.py:62-64 | with the default limits a run passes exactly when it has no error and at most 50 warnings |
| LinterRunner.RunLinter | examples/linter_runner.py:67-140 | reports the linter's issues (none for an unsupported language), less the baseline's when a non-empty baseline is given; flags, file count, the counts by severity and the verdict follow from them |
| LinterRunner.EmptyBaselineKeepsAll | examples/linter_runner.py:107-112 | an empty or missing baseline reports every issue |
| LinterRunner.SameRunHasNoNewIssues | examples/linter_runner.py:107-111 | a run whose baseline is itself reports no issue |
| LinterRunner.Flake8Severity | examples/linter_runner.py:291-298 | codes starting with E or F are errors, C or N info, and anything else a warning; never STYLE |
| Notifier.DefaultChannels | examples/notifier.py:59-66 | SLACK always comes first; PAGERDUTY is added exactly for CRITICAL, EMAIL exactly for ERROR, and TEAMS never |
| Notifier.TargetChannels | examples/notifier.py:53 | a non-empty explicit list is used as given; None or an empty list falls back to the severity's defaults; the targets are never empty |
| Notifier.RoutedMembers | examples/notifier.py:55-57 | a channel is reached exactly when it is a target and its value is enabled |
| Notifier.RoutedSnoc | examples/notifier.py:55-57 | one more target is appended to the routed channels exactly when it is enabled |
| Notifier.RoutedConcat | examples/notifier.py:55-57 | routing keeps the targets' order |
| Notifier.Notifier.constructor | examples/notifier.py:40-42 | the enabled channels are the configured ones, or none, and nothing has been delivered |
| Notifier.Notifier.Send | examples/notifier.py:44-57 | appends one delivery of the same notification per routed channel, in target order, and nothing else |
| Notifier.Notifier.SendToChannel | examples/notifier.py:68-79 | records exactly one delivery on the channel |
| Notifier.DeliveriesToAppend | examples/notifier.py:55-57 | delivering to one more channel appends one delivery |
| Notifier.SendReachesExactlyEnabledTargets | examples/notifier.py:53-57 | a send reaches exactly the enabled target channels |
| Notifier.CriticalWithoutPagerDutyEnabled | examples/notifier.py:53-66 | with only slack and email enabled, a CRITICAL alert without explicit channels goes to slack alone |
| PolicyEngine.NeverRateLimited | examples/policy_engine.py:138-162 | since rate limits always allow, no decision is ever refused for the rate limit |
| PolicyEngine.CheckRateLimits | examples/policy_engine.py:155-162 | every service is within its rate limits, as fix history is not tracked; NeverRateLimited carries this into CanAutoFix |
| PolicyEngine.CanAutoFix | examples/policy_engine.py:80-153 | a fix is approved exactly when auto-fix is on, the service is not critical, the safety level auto-approves, the error type needs no manual review and the confidence is at least 0.7; the first failing check names the reason: global switch, critical service, safety level, manual-review error type, then low confidence (with the score, 0 when absent); an approved fix needs review exactly when its level says so, and a rejected one always needs review |
| PolicyEngine.RequiresApproval | examples/policy_engine.py:164-167 | no approval is needed exactly when the fix is approved and its safety level does not ask for review |
| PolicyEngine.DefaultPolicyUnattendedOnlyForHighSafety | examples/policy_engine.py:29-68 | under the built-in policy only a high-safety fix can go through without approval, and medium or low ones always need it |
| PolicyEngine.DefaultPolicyApprovesGatewayFix | examples/policy_engine.py:80-153 | a confident high-safety fix of a NullPointerException in api-gateway passes the built-in policy with no review |
| PolicyEngine.MissingFields | examples/policy_engine.py:182-186 | a field is reported missing exactly when it is required and absent or empty |
| PolicyEngine.MissingFieldErrors | examples/policy_engine.py:186 | one "Missing required field" error per missing field, in order |
| PolicyEngine.ValidateFixContext | examples/policy_engine.py:169-206 | the context is valid exactly when every required field is present and non-empty, with one error per missing field in order, and the critical-service, test-file and recent-change warnings |
| PolicyEngine.NoCommitAgeWarnsRecent | examples/policy_engine.py:200-204 | a request without a recent-commit age always gets the recently-modified warning |
| PolicyEngine.ApprovalChain | examples/policy_engine.py:208-212 | the chain is all of the configured approvers or none, only a high-impact service has one, and a high-impact service has all of them; DefaultApprovalChainIffCritical states it for the built-in policy |
| PolicyEngine.DefaultApprovalChainIffCritical | examples/policy_engine.py:208-212 | under the built-in policy a service has approvers exactly when it is critical; those approvers are team-lead and senior-dev, and such a service's fix is refused as critical |
| RiskScorer.ServiceCriticality.Value | examples/risk_scorer.py:20-26 | criticality values run from 1 (DEV) to 5 (CRITICAL) |
| RiskScorer.ChangeSize.Value | examples/risk_scorer.py:29-38 | change-size values run from 1 (TINY) to 5 (HUGE) |
| RiskScorer.ServiceCriticalityOf | examples/risk_scorer.py:170-187 | a listed service gets its table entry; an unlisted one naming payment, auth or security is CRITICAL; no unlisted service is ever DEV |
| RiskScorer.LinesBelowNonNegative | examples/risk_scorer.py:204-210 | counts of lines added and removed that are not negative give a total that is not negative |
| RiskScorer.LinesBelowConcat | examples/risk_scorer.py:204-210 | the line total of two patch lists joined is the sum of their totals |
| RiskScorer.LinesBelowPrefix | examples/risk_scorer.py:204-210 | appending patches leaves the total over the first ones as it was |
| RiskScorer.CountLinesChanged | examples/risk_scorer.py:204-210 | returns the lines added plus removed over all patches, missing counts read as 0 |
| RiskScorer.ChangeSizeFor | examples/risk_scorer.py:189-202 | each size is exactly its range of changed lines: at most 10, 11-50, 51-200, 201-500, over 500 |
| RiskScorer.ChangeSizeMonotone | examples/risk_scorer.py:193-202 | more changed lines never give a smaller change size |
| RiskScorer.ErrorSeverityBounds | examples/risk_scorer.py:212-257 | for counts that are not negative the severity lies between 0 and 10, and a failed build gives 10 |
| RiskScorer.CalculateErrorSeverity | examples/risk_scorer.py:212-257 | returns 10 for a failed build and otherwise the test, analysis and lint points capped at 10, never above 10 |
| RiskScorer.RiskScoreBounds | examples/risk_scorer.py:123-125 | a severity between 0 and 10 gives a score between 0 and 100 |
| RiskScorer.RiskLevelFor | examples/risk_scorer.py:128-135 | each level is exactly the range of scores the strict threshold comparisons give it |
| RiskScorer.RiskLevelMonotone | examples/risk_scorer.py:128-135 | a higher score never gives a lower level |
| RiskScorer.Recommend | examples/risk_scorer.py:266-298 | a critical service at HIGH or CRITICAL risk, and any failed security scan, go to manual review; failing tests on a critical or high-criticality service go to manual review with their own reason when neither earlier rule applies; with no failed scan and no such test failure the action follows the level (LOW deploys, MEDIUM canaries, the rest need review); DEPLOY comes only at LOW risk with the low-risk reason and CANARY only at MEDIUM with the medium-risk one |
| RiskScorer.CleanResultsFollowTheLevel | examples/risk_scorer.py:277-298 | with test and analysis results missing or clean (no failed test, no failed scan) the action follows the level alone: LOW deploys and MEDIUM canaries with their own reasons, the rest need review |
| RiskScorer.CalculateRisk | examples/risk_scorer.py:80-168 | the result joins the parts: criticality, changed lines and size, severity, the score from them, the level from the score and the recommendation from the level |
| RiskScorer.FailedBuildOnCriticalService | examples/risk_scorer.py:123-135 | a failed build on a critical service scores 20 points per size step and is never LOW under the built-in thresholds |
| RollbackDecisionEngine.ComparisonPoints | examples/rollback_decision_engine.py:201-227 | a comparison adds nothing unless DEGRADED, and then between 5 and 40 points |
| RollbackDecisionEngine.Points | examples/rollback_decision_engine.py:201-227 | the degradation points are never negative |
| RollbackDecisionEngine.CalculateSeverity | examples/rollback_decision_engine.py:193-237 | returns the degradation points plus 15 per critical and 5 per warning alert, capped at 100, and lies between 0 and 100 |
| RollbackDecisionEngine.CountSeverityAppend | examples/rollback_decision_engine.py:230-235 | one more alert raises its severity's count by one and leaves the other counts |
| RollbackDecisionEngine.AlertNeverLowersSeverity | examples/rollback_decision_engine.py:230-237 | a further alert never lowers the severity, and below 85 a critical one adds exactly 15 |
| RollbackDecisionEngine.ComparisonNeverLowersSeverity | examples/rollback_decision_engine.py:201-237 | a further comparison never lowers the severity |
| RollbackDecisionEngine.FirstFieldOfJoin | examples/rollback_decision_engine.py:252 | the part before the first '-' of "base-suffix" is the base, when the base has no '-' |
| RollbackDecisionEngine.FirstFieldOfLower | examples/rollback_decision_engine.py:252 | splitting then lower-casing equals lower-casing then splitting |
| RollbackDecisionEngine.LowerIdempotent | examples/rollback_decision_engine.py:252 | lower-casing twice equals lower-casing once |
| RollbackDecisionEngine.CriticalityIgnoresSuffix | examples/rollback_decision_engine.py:249-254 | only the part before the first '-' matters: `payment-api` rates like `payment` |
| RollbackDecisionEngine.FirstFieldNoSeparator | examples/rollback_decision_engine.py:252 | a name without '-' is its own first part |
| RollbackDecisionEngine.CriticalityIgnoresCase | examples/rollback_decision_engine.py:249-254 | the criticality lookup ignores case |
| RollbackDecisionEngine.DefaultCriticalityRange | examples/rollback_decision_engine.py:101-109 | with the default table every criticality lies between 0.3 and 0.95 |
| RollbackDecisionEngine.ServiceCriticality | examples/rollback_decision_engine.py:249-254 | a configured criticality or 0.5 when the lowered base name is unlisted, so within [0, 1] whenever the table is; CriticalityIgnoresSuffix and CriticalityIgnoresCase state how the name is read |
| RollbackDecisionEngine.BlastRadius | examples/rollback_decision_engine.py:239-247 | the reported treatment share, or 100 percent when none is reported, which is at least the default critical blast radius |
| RollbackDecisionEngine.UnreportedShareRollsBackInstantly | examples/rollback_decision_engine.py:239-247 | with no treatment share reported, a failed verification under the default thresholds rolls back instantly with immediate or high urgency |
| RollbackDecisionEngine.DegradedCount | examples/rollback_decision_engine.py:292-301 | no more comparisons are counted worse than baseline than there are comparisons |
| RollbackDecisionEngine.CountDegraded | examples/rollback_decision_engine.py:292-301 | counts exactly the comparisons more than 20% worse than a positive baseline |
| RollbackDecisionEngine.CheckGuardrails | examples/rollback_decision_engine.py:256-315 | reports the previous-version, infrastructure, both-versions and external-dependency guardrails in that order, each exactly when its condition holds; safe exactly when the previous version is healthy, no infrastructure alert fires and not half the comparisons are worse than baseline |
| RollbackDecisionEngine.SafeIffNoBlockingGuardrail | examples/rollback_decision_engine.py:256-315 | rollback is unsafe exactly when a blocking guardrail is reported; high previous latency and external dependencies only warn |
| RollbackDecisionEngine.NoComparisonsTriggerBothVersions | examples/rollback_decision_engine.py:303-305 | with no comparisons 0 >= 0 holds, so the both-versions guardrail fires and rollback is unsafe |
| RollbackDecisionEngine.InfrastructureCountPositive | examples/rollback_decision_engine.py:284-288 | one infrastructure alert makes the infrastructure count positive |
| RollbackDecisionEngine.CreateRollbackDecision | examples/rollback_decision_engine.py:508-550 | always a rollback; a safe one is at least 80 percent confident and an unsafe one at most 70; safe and above 70 severity is 100; at or below 50 severity it is 80 or 50; the plan and the factors are passed through |
| RollbackDecisionEngine.EvaluateDecision | examples/rollback_decision_engine.py:317-506 | PASSED keeps the deployment with the reported confidence (90 when missing); an unsafe rollback escalates with HIGH urgency; a partial result rolls back partially exactly at severity 30 or more; FAILED follows the failed plan; other statuses roll back gradually; every rollback is 80 to 100 percent confident |
| RollbackDecisionEngine.FailedUrgencyMonotone | examples/rollback_decision_engine.py:438-472 | for a failed verification more severity never means less urgency |
| RollbackDecisionEngine.RollbackOnlyWhenSafe | examples/rollback_decision_engine.py:339-506 | a rollback happens exactly when verification did not pass, rollback is safe and the case is not a minor partial one |
| RollbackDecisionEngine.MakeDecision | examples/rollback_decision_engine.py:111-191 | evaluates the decision from the severity, blast radius, criticality and guardrails of its inputs, with a severity between 0 and 100 |
| RollbackDecisionEngine.InfrastructureAlertPreventsRollback | examples/rollback_decision_engine.py:283-288 | an infrastructure alert always stops an automatic rollback, and a result that did not pass then escalates |
| RollbackDecisionEngine.NoComparisonsEscalate | examples/rollback_decision_engine.py:291-305 | a result that did not pass and has no comparisons escalates instead of rolling back |
| PatchValidator.Partner | examples/patch_validator.py:317 | the `pairs` table maps each opener to a closer |
| PatchValidator.ScanConcat | examples/patch_validator.py:319-327 | scanning joined texts scans the second from the stack the first leaves, and an early mismatch stays a mismatch |
| PatchValidator.ScanUnderStack | examples/patch_validator.py:319-327 | openers below the part of the stack a text touches stay untouched |
| PatchValidator.BalancedConcat | examples/patch_validator.py:314-329 | two balanced texts in a row are balanced |
| PatchValidator.BalancedWrap | examples/patch_validator.py:314-329 | a balanced text between an opener and its partner is balanced |
| PatchValidator.Brackets | examples/patch_validator.py:319-322 | the bracket projection holds only openers and closers |
| PatchValidator.OnlyBracketsMatter | examples/patch_validator.py:319-327 | characters other than brackets play no part in the verdict |
| PatchValidator.LeadingCloserUnbalanced | examples/patch_validator.py:322-324 | a closer with nothing open is never balanced, whatever follows |
| PatchValidator.CheckBalancedBraces | examples/patch_validator.py:314-329 | true exactly when every closer matches the most recent open opener and no opener is left open |
| PatchValidator.AnyBlockingIff | examples/patch_validator.py:331-345 | some issue blocks exactly when one of them blocks at the level |
| PatchValidator.EvaluateIssuesMeaning | examples/patch_validator.py:331-345 | PERMISSIVE rejects exactly a failed syntax check, NORMAL exactly any failure, STRICT exactly any failure or warning |
| PatchValidator.LevelsNest | examples/patch_validator.py:331-345 | a patch valid at a stricter level is valid at every laxer one |
| PatchValidator.BreaksConcat | examples/patch_validator.py:104-105 | line boundaries add up over a split that does not fall inside "\r\n" |
| PatchValidator.AppendLine | examples/patch_validator.py:104-106 | one more terminated line after complete lines adds exactly one to the line count |
| PatchValidator.NoBreaks | examples/patch_validator.py:104-105 | a text without line-break characters has no boundary |
| PatchValidator.LinesChanged | examples/patch_validator.py:104-106 | identical texts differ by no line, and the figure is 0 exactly when the line counts agree |
| PatchValidator.AddedLineCounted | examples/patch_validator.py:104-106 | adding one line to a text of complete lines counts as one line changed |
| PatchValidator.RewrittenLineNotCounted | examples/patch_validator.py:104-106 | the figure compares line counts, so rewriting a one-line file counts as no line changed |
| PatchValidator.Missing | examples/patch_validator.py:162-171 | an import is reported exactly when it is on one side and not on the other |
| PatchValidator.SignatureIssues | examples/patch_validator.py:183-197 | each original function kept by the patch with a different signature gives its `signature_changed` issue, FAIL under STRICT and WARNING otherwise, and every issue comes from such a function |
| PatchValidator.RemovedImportIssues | examples/patch_validator.py:162-168 | an `imports_removed` WARNING exactly when some original import is gone and the level is not PERMISSIVE |
| PatchValidator.AddedImportIssues | examples/patch_validator.py:171-176 | an `imports_added` PASS note exactly when some patched import is new |
| PatchValidator.ComparisonIssues | examples/patch_validator.py:157-197 | past the syntax check: a removed-import warning and an added-import note under exactly those conditions, and exactly the signature issues, with no other kind of issue |
| PatchValidator.PythonIssues | examples/patch_validator.py:137-199 | a syntax error gives exactly one FAIL syntax issue and nothing else; otherwise no syntax issue, an `imports_removed` issue exactly when an import is gone and the level is not PERMISSIVE, an `imports_added` issue exactly when one is new, and exactly the signature issues |
| PatchValidator.RemovedMethodIssues | examples/patch_validator.py:221-227 | each original public method missing from the patched set gives its WARNING `method_removed` issue, and every issue names such a method |
| PatchValidator.BraceIssues | examples/patch_validator.py:210-215 | a FAIL syntax issue is raised exactly when the brackets do not balance |
| PatchValidator.ConsoleLogIssues | examples/patch_validator.py:247-253 | at most one issue, the `console_log_removed` PASS note, present exactly when the original contains `console.log` and the patched text does not |
| PatchValidator.LanguageIssues | examples/patch_validator.py:115-127 | the language checks never raise size, line-count or dangerous-pattern issues |
| PatchValidator.MatchIssue | examples/patch_validator.py:264-271 | a match gives a FAIL under STRICT and a WARNING otherwise, with the table's message, on the line the match starts |
| PatchValidator.DangerousIssues | examples/patch_validator.py:257-273 | one issue per match, in match order |
| PatchValidator.LimitIssues | examples/patch_validator.py:95-113 | the opening checks raise only a FAIL `file_size` or a WARNING `lines_changed` issue |
| PatchValidator.LanguageChecks | examples/patch_validator.py:115-127 | dispatches to the Python, Java or JavaScript checks, or warns about an unsupported language |
| PatchValidator.ValidatePatch | examples/patch_validator.py:74-135 | reports the size, line-count, language and dangerous-pattern issues in that order, and is valid exactly when none blocks at the level |
| PatchValidator.LimitIssuesMeaning | examples/patch_validator.py:95-113 | `file_size` is raised exactly over the size limit and `lines_changed` exactly over the line limit |
| PatchValidator.LaterChecksKeepToTheirOwn | examples/patch_validator.py:115-130 | no later check raises `file_size` or `lines_changed` |
| PatchValidator.FileSizeFailIff | examples/patch_validator.py:95-101 | a FAIL `file_size` issue is raised exactly when the patched text is over the size limit |
| PatchValidator.LinesChangedWarningIff | examples/patch_validator.py:103-113 | a `lines_changed` warning is raised exactly when the line counts differ by more than the maximum |
| PatchValidator.OnlyAddedImports | examples/patch_validator.py:157-199 | with nothing removed and no signature change, an added import gives only a PASS `imports_added` note |
| PatchValidator.AddedImportKeepsNormalPatchValid | tests/test_patch_validator.py:4-10 | a NORMAL Python patch that only adds an import is valid and carries the `imports_added` note |
| PatchValidator.DangerousMatchFailsStrictPatch | tests/test_patch_validator.py:13-18 | under STRICT any dangerous match makes the patch invalid through a FAIL `dangerous_pattern` issue |

## Left out

- `examples/concurrency_orchestrator.py`: asynchronous glue with randomly simulated success; its calls do not match the lock manager's or the state machine's signatures, so it has no single meaning to model.
- The Redis client itself, the `fcntl` lock-file backend (`_setup_file_backend`, `_file_acquire`, `_file_release`), `cleanup_expired_locks`, `get_active_locks` and `is_locked`: backend I/O and key scans. The Redis backend is the `KeyStore` class, whose `SetIfAbsent` and `CompareAndDelete` stand for `SET NX EX` and the delete-if-owner script.
- `threading.Lock` mutexes in the lock manager, the audit logger and the decision logger: every operation is modelled as one atomic sequential step.
- SHA-256 and `json.dumps(..., sort_keys=True)`: the two uninterpreted functions of `AuditLogger.Hasher`. Collision-freedom is a hypothesis of the lemmas that need it.
- `os.urandom` event-id suffixes and every `datetime.now()`/`time.time()` reading: these are parameters (`eventId`, `now`, `nowMs`). The lock manager's retry loop makes its k-th attempt at `now + k`, one second apart, standing for `time.sleep(1)`.
- File, console and Elasticsearch logging, the JSONL decision file, the deployment state file, `save_confidence_report` and `load_from_file`: I/O. The decision logger counts the lines it writes and takes the outcome of each write as a parameter, so nothing else about the file is modelled.
- The audit logger's `log_lock_acquired` … `log_safety_gate_result` shortcuts: each one is `log_event` with fixed category and severity arguments.
- The Neo4j dependency graph (`_check_dependency_conflicts`, `_get_downstream_services`, the graph branch of `detect_conflicts` at `examples/conflict_detector.py:232-258`): an external service. The model is the detector without a graph.
- `_generate_explanation`, `get_ongoing_operations`, `get_statistics` and `_count_by_type` of the conflict detector, and `_load_resource_groups` beyond its default table: reporting text and counters that no decision reads.
- `get_state_history`, `get_duration`, `generate_state_diagram` and `_save_state` of the deployment state machine: formatting and I/O over the modelled history.
- Loading fix templates from YAML, plus `get_template_metadata` and `list_templates`: the loaded templates are the constructor's argument.
- `_load_config`, `log_fix_decision` and `update_policy` of the policy engine: file I/O and logging. The configuration is an immutable value.
- Running the linters (`_detect_linter`, `_is_tool_available`, the subprocess calls) and parsing pylint, checkstyle and ESLint output: subprocess and JSON/XML parsing. Only the flake8 code-to-severity map is modelled, and the issues arrive as an input.
- Python's `ast` parsing and the regular-expression searches of the patch validator (`_extract_python_imports`, `_extract_python_functions`, `_extract_java_public_methods`, the dangerous-pattern and `console.log` searches): their results arrive as an `Analysis` value. `format_validation_report` is text output.
- PatchValidator.ValidatePatch: the import sets of the Python checks are joined into messages in list order; Python's set order is unspecified.
- `format_report`, `format_risk_report`, `to_human_readable`, `print_decision`, `generate_report`, `_generate_reasoning`, `_generate_decision_summary` and `_generate_detailed_analysis`: human-readable text. The risk scorer's factor dictionary and the free-text reasons and alternatives of the rollback engine are left out for the same reason; the decisions they explain are modelled.
- `_count_security_issues` of the risk scorer: the critical and high finding counts arrive directly in `AnalysisResult`.
- `max_complexity_increase` of the patch validator's configuration: it is read nowhere.
- The `overall_improvement_pct` the incident validator reads: it only appears in the detailed analysis text, and no decision uses it.
- Floating-point arithmetic is exact `real` arithmetic throughout, so rounding at threshold boundaries is not modelled.
- `str.lower` is ASCII lower-casing, and `\w` in the template placeholder pattern is ASCII letters, digits and `_`. Non-ASCII case mappings and Unicode word characters are not modelled.
- ConflictDetector.DependencyAwareConflictDetector.DetectConflicts: when both direct and shared-resource conflicts occur, it states only that the reported conflict type is one of the two. `list(conflict_types)[0]` depends on Python's set order, and the affected services are a set for the same reason.
- PatchValidator.SignatureIssues, PatchValidator.RemovedMethodIssues, PatchValidator.DangerousIssues and PolicyEngine.MissingFields: the source's `for` loops that append to a local list are written as recursive functions that build the same list in the same order. Nothing but that local list changes in those loops.
- DeploymentConfidenceScorer.Lookup: the weights are a list of pairs, which can repeat a key where a Python dict cannot; the lookup takes the first entry, which is the only one for a list built from a dict.
- PatchValidator.PythonAnalysis: the function names and signatures from `ast` are a list of pairs, which could repeat a name where the source's dict cannot; the model's inputs are taken to come from such a dict.
- `DecisionType(decision_type)` in `decision_context` (`examples/decision_justification_logger.py:387-388`): the model takes a `DecisionType` value, so the conversion from text and the `ValueError` for an unknown text are not modelled.
- PatchValidator.Analysis, PatchValidator.DangerousIssues, FixTemplateManager.FixTemplateManager.RenderTemplate and AuditLogger.AuditLogger.constructor: the original Java public methods are a sequence that could repeat a name a Python set would not; the dangerous-pattern matches are an input sequence taken to be in the order the scan finds them, pattern by pattern in table order and by position within a pattern, which the model does not enforce; the template context is a list of pairs that could repeat a key a dict cannot. The buffer size is a `nat`, so the `ValueError` that `deque(maxlen=-1)` raises for a negative size is not modelled.
- DistributedLockManager.LockManager.AcquireLock: a non-positive time-to-live is refused by the backend with the error reply `SET ... EX` gives, before the key is looked at; the whole exception path is one `BackendRaised` result with nothing changed.
- The demo and `__main__` blocks of the source files: scripted prints.

## Findings

| source | as written | input that shows it | evidently intended | confidence | as-written member | corrected member |
|---|---|---|---|---|---|---|
| examples/audit_logger.py:569-572 | verification hashes each event with its `hash` field already filled in, but at logging time that field was empty | any log with one untampered event: the recomputed hash covers a different serialisation from the stored one | recompute over the event with its hash field cleared, so an untampered log verifies | not executed | AuditLogger.AuditLogger.VerifyHashChainAsWritten, AuditLogger.AsWrittenRejectsFirstEvent, AuditLogger.AuditLogger.AsWrittenRejectsUntamperedLog | AuditLogger.AuditLogger.VerifyHashChain, AuditLogger.AuditLogger.UntamperedLogVerifies |
| examples/audit_logger.py:568 | verification always starts from "GENESIS", though the bounded buffer drops its oldest events | `buffer_size` 1 and two logged events: the remaining event was chained to the first event's hash, not to "GENESIS" | start from the hash the oldest buffered event was chained to | not executed | AuditLogger.EvictionBreaksGenesisStart | AuditLogger.AuditLogger.VerifyHashChain |
| examples/conflict_detector.py:251 | `max(max_severity, ConflictSeverity.HIGH)` on a plain `Enum`, which does not define `<`, so Python raises `TypeError` | any registered operation, of any type, on a service that shares a resource group with the proposed one (`payment-service` while proposing `order-service`) | the more severe of the two severities | not executed | ConflictDetector.DependencyAwareConflictDetector.DetectConflictsAsWritten | ConflictDetector.DependencyAwareConflictDetector.DetectConflicts, ConflictDetector.MaxSeverity |
| examples/decision_justification_logger.py:364 | `human_override` appends to `reasoning` with `+=`, and `reasoning` is `None` until a decision is recorded | an override on a fresh context raises `TypeError` after the flag and decision maker are already set | the override note becomes the reasoning when there is none | not executed | DecisionJustificationLogger.DecisionContext.HumanOverrideAsWritten, DecisionJustificationLogger.OverrideBeforeDecisionAsWritten | DecisionJustificationLogger.DecisionContext.HumanOverride |
| examples/decision_justification_logger.py:383-394 | `decision_context` yields a bare `DecisionContext` and never calls its `__exit__`, so the record made inside the `with` block is never saved | one `with logger.decision_context(...)` block that records a decision leaves `logger.decisions` empty | saving the record on leaving the block, as `DecisionContext.__exit__` does | not executed | DecisionJustificationLogger.DecisionLogger.CloseContextAsWritten, DecisionJustificationLogger.DecisionScopeAsWritten | DecisionJustificationLogger.DecisionLogger.CloseContext, DecisionJustificationLogger.DecisionScope |
