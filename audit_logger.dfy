/**
 * The tamper-evident audit logger: every event is hash-chained to the one
 * logged before it (starting from "GENESIS"), kept in a bounded in-memory
 * buffer that drops its oldest event when full, and counted in running
 * statistics. Queries walk the buffer newest first; verification recomputes
 * the chain over the buffer.
 *
 * SHA-256 and sorted-key JSON are the two functions of a `Hasher`; event ids
 * and clock readings are passed in. File, console and Elasticsearch output are
 * not part of this model.
 */
module AuditLogger {
  import opened Wrappers

  datatype ActionCategory =
    | IncidentDetection | RootCauseAnalysis | CodeLocalization | FixPlanning | PatchGeneration
    | SafetyGates | DeploymentAction | Verification | Rollback | LockOperation
    | ConflictDetection | StateTransition | Notification | ManualIntervention | SystemHealth

  datatype ActionSeverity = Info | Warning | Error | Critical

  datatype AuditEvent = AuditEvent(
    eventId: string,
    timestamp: int,
    category: ActionCategory,
    actionName: string,
    severity: ActionSeverity,
    actor: string,
    resourceId: string,
    outcome: string,
    details: Metadata,
    correlationId: string,
    parentEventId: Option<string>,
    hash: Option<string>)

  /** Python truthiness of an optional string: present and non-empty. */
  predicate Truthy(s: Option<string>)
  {
    s.Some? && s.value != ""
  }

  /** The `AuditEvent` constructor: the correlation id defaults to the event's own id; no hash yet. */
  function NewEvent(eventId: string, now: int, category: ActionCategory, actionName: string,
                    severity: ActionSeverity, actor: string, resourceId: string, outcome: string,
                    details: Metadata, correlationId: Option<string>,
                    parentEventId: Option<string>): (e: AuditEvent)
    ensures e.hash == None && e.eventId == eventId && e.category == category && e.severity == severity
    ensures e.correlationId == if Truthy(correlationId) then correlationId.value else eventId
  {
    AuditEvent(eventId, now, category, actionName, severity, actor, resourceId, outcome, details,
               if Truthy(correlationId) then correlationId.value else eventId, parentEventId, None)
  }

  /** SHA-256 (as hex text) and `json.dumps(event.to_dict(), sort_keys=True)`. */
  datatype Hasher = Hasher(sha256: string -> string, serialize: AuditEvent -> string)

  /** Distinct texts have distinct SHA-256 digests (no collisions are modelled). */
  ghost predicate ShaInjective(h: Hasher)
  {
    forall a: string, b: string :: h.sha256(a) == h.sha256(b) ==> a == b
  }

  /** Distinct events have distinct JSON serialisations. */
  ghost predicate SerializeInjective(h: Hasher)
  {
    forall x: AuditEvent, y: AuditEvent :: h.serialize(x) == h.serialize(y) ==> x == y
  }

  ghost predicate Injective(h: Hasher)
  {
    ShaInjective(h) && SerializeInjective(h)
  }

  /** `_compute_hash`: SHA-256 of the previous hash, ':', and the event's JSON. */
  function ComputeHash(h: Hasher, e: AuditEvent, previousHash: string): (r: string)
    ensures Injective(h) ==> forall e2: AuditEvent :: e2 != e ==> h.sha256(previousHash + ":" + h.serialize(e2)) != r
  {
    SeparatedByDigest(h, e, previousHash);
    h.sha256(previousHash + ":" + h.serialize(e))
  }

  /** With collision-free hashing and serialisation, a different event after the same hash gets a different digest. */
  lemma SeparatedByDigest(h: Hasher, e: AuditEvent, previousHash: string)
    ensures Injective(h) ==> forall e2: AuditEvent :: e2 != e ==> h.sha256(previousHash + ":" + h.serialize(e2))
                                                                   != h.sha256(previousHash + ":" + h.serialize(e))
  {
    if Injective(h) {
      forall e2: AuditEvent | e2 != e
        ensures h.sha256(previousHash + ":" + h.serialize(e2)) != h.sha256(previousHash + ":" + h.serialize(e))
      {
        var p := previousHash + ":";
        assert h.serialize(e2) != h.serialize(e);
        assert (p + h.serialize(e2))[|p|..] == h.serialize(e2);
        assert (p + h.serialize(e))[|p|..] == h.serialize(e);
        assert p + h.serialize(e2) != p + h.serialize(e);
      }
    }
  }

  function Unhashed(e: AuditEvent): AuditEvent
  {
    e.(hash := None)
  }

  function HashText(e: AuditEvent): string
  {
    if e.hash.Some? then e.hash.value else ""
  }

  /** The hash event `i` was chained to: `start` for the first, the previous event's hash otherwise. */
  function HashBefore(events: seq<AuditEvent>, start: string, i: nat): string
    requires i <= |events|
  {
    if i == 0 then start else HashText(events[i - 1])
  }

  /** Each event carries the hash of its hash-free serialisation chained to the hash before it. */
  predicate WellChained(h: Hasher, events: seq<AuditEvent>, start: string)
  {
    events == []
    || (events[0].hash == Some(ComputeHash(h, Unhashed(events[0]), start))
        && WellChained(h, events[1..], HashText(events[0])))
  }

  /** Extending a chain by an event chained to its last hash keeps it a chain. */
  lemma {:induction false} ChainAppend(h: Hasher, events: seq<AuditEvent>, start: string, e: AuditEvent)
    requires WellChained(h, events, start)
    requires e.hash == Some(ComputeHash(h, Unhashed(e), HashBefore(events, start, |events|)))
    ensures WellChained(h, events + [e], start)
  {
    if events != [] {
      assert (events + [e])[1..] == events[1..] + [e];
      assert HashBefore(events, start, |events|) == HashBefore(events[1..], HashText(events[0]), |events| - 1);
      ChainAppend(h, events[1..], HashText(events[0]), e);
    }
  }

  /** What verification recomputes for an event: as written it serialises the stored hash too. */
  function Expected(h: Hasher, e: AuditEvent, previousHash: string, stripHash: bool): string
  {
    ComputeHash(h, if stripHash then Unhashed(e) else e, previousHash)
  }

  /** Index of the first event whose stored hash differs from the recomputed one, chained from `previousHash`. */
  function FirstMismatch(h: Hasher, events: seq<AuditEvent>, previousHash: string, stripHash: bool): (r: Option<nat>)
    ensures r.Some? ==> r.value < |events|
  {
    if events == [] then None
    else
      var expected := Expected(h, events[0], previousHash, stripHash);
      if events[0].hash != Some(expected) then Some(0)
      else match FirstMismatch(h, events[1..], expected, stripHash)
        case None => None
        case Some(k) => Some(k + 1)
  }

  /** Corrected verification accepts every untampered chain. */
  lemma {:induction false} WellChainedVerifies(h: Hasher, events: seq<AuditEvent>, start: string)
    requires WellChained(h, events, start)
    ensures FirstMismatch(h, events, start, true) == None
  {
    if events != [] {
      WellChainedVerifies(h, events[1..], HashText(events[0]));
    }
  }

  /** Texts joined to the same previous hash stay distinct. */
  lemma SeparatedDistinct(p: string, x: string, y: string)
    requires x != y
    ensures p + ":" + x != p + ":" + y
  {
    assert (p + ":" + x)[|p| + 1..] == x;
    assert (p + ":" + y)[|p| + 1..] == y;
  }

  /**
   * As written, verification rejects every non-empty untampered chain at its
   * first event: the stored hash covers the event without its hash field,
   * while the recomputation serialises the field already set.
   */
  lemma AsWrittenRejectsFirstEvent(h: Hasher, events: seq<AuditEvent>, start: string)
    requires Injective(h)
    requires WellChained(h, events, start) && |events| > 0
    ensures FirstMismatch(h, events, start, false) == Some(0)
  {
    var e := events[0];
    assert e.hash == Some(ComputeHash(h, Unhashed(e), HashBefore(events, start, 0)));
    assert e != Unhashed(e);
    var a, b := start + ":" + h.serialize(e), start + ":" + h.serialize(Unhashed(e));
    SeparatedDistinct(start, h.serialize(e), h.serialize(Unhashed(e)));
    assert h.sha256(a) != h.sha256(b);
  }

  /**
   * Tampering with the content of one event (keeping its stored hash) is
   * reported by corrected verification at exactly that event.
   */
  lemma {:induction false} TamperingDetectedAt(h: Hasher, events: seq<AuditEvent>, start: string, k: nat, forged: AuditEvent)
    requires Injective(h)
    requires WellChained(h, events, start)
    requires k < |events| && forged != events[k] && forged.hash == events[k].hash
    ensures FirstMismatch(h, events[k := forged], start, true) == Some(k)
  {
    var t := events[k := forged];
    if k == 0 {
      var e := events[0];
      assert Unhashed(forged) != Unhashed(e);
      var a, b := start + ":" + h.serialize(Unhashed(forged)), start + ":" + h.serialize(Unhashed(e));
      SeparatedDistinct(start, h.serialize(Unhashed(forged)), h.serialize(Unhashed(e)));
      assert h.sha256(a) != h.sha256(b);
      assert t[0].hash != Some(Expected(h, t[0], start, true));
    } else {
      assert t[0] == events[0];
      assert t[1..] == events[1..][k - 1 := forged];
      TamperingDetectedAt(h, events[1..], HashText(events[0]), k - 1, forged);
    }
  }

  /** The tail of a chain is a chain from the hash just before it. */
  lemma {:induction false} SuffixWellChained(h: Hasher, events: seq<AuditEvent>, start: string, k: nat)
    requires WellChained(h, events, start) && k <= |events|
    ensures WellChained(h, events[k..], HashBefore(events, start, k))
  {
    if k > 0 {
      SuffixWellChained(h, events[1..], HashText(events[0]), k - 1);
      assert events[1..][k - 1..] == events[k..];
      assert HashBefore(events[1..], HashText(events[0]), k - 1) == HashBefore(events, start, k);
    }
  }

  /**
   * Once the buffer has dropped events, chaining its oldest event from
   * "GENESIS" fails even with the hash field stripped: that event was chained
   * to a dropped event's hash, and no digest is the text "GENESIS".
   */
  lemma EvictionBreaksGenesisStart(h: Hasher, logged: seq<AuditEvent>, k: nat)
    requires ShaInjective(h) && (forall s :: h.sha256(s) != "GENESIS")
    requires WellChained(h, logged, "GENESIS") && 0 < k < |logged|
    ensures FirstMismatch(h, logged[k..], "GENESIS", true) == Some(0)
  {
    SuffixWellChained(h, logged, "GENESIS", k - 1);
    var tail := logged[k - 1..];
    assert tail[0] == logged[k - 1];
    assert tail[1..] == logged[k..];
    var prev := HashBefore(logged, "GENESIS", k - 1);
    assert logged[k - 1].hash == Some(ComputeHash(h, Unhashed(logged[k - 1]), prev));
    var before := HashText(logged[k - 1]);
    assert before == h.sha256(prev + ":" + h.serialize(Unhashed(logged[k - 1])));
    assert before != "GENESIS";
    assert WellChained(h, logged[k..], before);
    var e := logged[k];
    var x := h.serialize(Unhashed(e));
    assert e.hash == Some(h.sha256(before + ":" + x));
    var expected := Expected(h, e, "GENESIS", true);
    assert expected == h.sha256("GENESIS" + ":" + x);
    SameSuffixCancels(before, "GENESIS", x);
    assert e.hash != Some(expected);
    assert logged[k..][0] == e;
  }

  /** Two hash inputs with the same serialisation agree exactly when their previous hashes do. */
  lemma SameSuffixCancels(a: string, b: string, x: string)
    ensures a + ":" + x == b + ":" + x ==> a == b
  {
    if a + ":" + x == b + ":" + x {
      assert |a| == |b|;
      assert a == (a + ":" + x)[..|a|];
      assert b == (b + ":" + x)[..|b|];
    }
  }

  /** A hasher meeting the hypotheses above exists, so the lemma is not vacuous. */
  lemma EvictionHypothesesSatisfiable()
    ensures var h := Hasher(s => "#" + s, ev => "");
            ShaInjective(h) && (forall s :: h.sha256(s) != "GENESIS")
  {
    var h := Hasher(s => "#" + s, ev => "");
    forall a: string, b: string | h.sha256(a) == h.sha256(b)
      ensures a == b
    {
      assert a == ("#" + a)[1..];
      assert b == ("#" + b)[1..];
    }
    forall s: string
      ensures h.sha256(s) != "GENESIS"
    {
      assert ("#" + s)[0] == '#';
    }
  }

  /** `deque(maxlen=size).append(e)`: drops the oldest element when full. */
  function BoundedAppend(buffer: seq<AuditEvent>, e: AuditEvent, size: nat): (r: seq<AuditEvent>)
    requires |buffer| <= size
    ensures |r| <= size
    ensures |r| == if |buffer| < size then |buffer| + 1 else size
    ensures size > 0 ==> r[|r| - 1] == e
    ensures r == (buffer + [e])[|buffer| + 1 - |r|..]
  {
    if |buffer| < size then buffer + [e] else (buffer + [e])[1..]
  }

  /** The filters of `query_events`; a string filter applies only when it is non-empty. */
  datatype QueryFilter = QueryFilter(
    category: Option<ActionCategory>,
    severity: Option<ActionSeverity>,
    actor: Option<string>,
    resourceId: Option<string>,
    correlationId: Option<string>)

  predicate Matches(e: AuditEvent, f: QueryFilter)
  {
    (f.category.Some? ==> e.category == f.category.value)
    && (f.severity.Some? ==> e.severity == f.severity.value)
    && (Truthy(f.actor) ==> e.actor == f.actor.value)
    && (Truthy(f.resourceId) ==> e.resourceId == f.resourceId.value)
    && (Truthy(f.correlationId) ==> e.correlationId == f.correlationId.value)
  }

  /** Walks `events[..i]` from its newest (last) element, keeping matches until `remaining` are kept. */
  function QueryBelow(events: seq<AuditEvent>, i: nat, f: QueryFilter, remaining: int): seq<AuditEvent>
    requires i <= |events|
    decreases i
  {
    if remaining <= 0 || i == 0 then []
    else
      var e := events[i - 1];
      var older := QueryBelow(events, i - 1, f, if Matches(e, f) then remaining - 1 else remaining);
      if Matches(e, f) then [e] + older else older
  }

  /** The walk keeps at most `remaining` events, each a matching event of `events[..i]`. */
  lemma {:induction false} QueryBelowBounds(events: seq<AuditEvent>, i: nat, f: QueryFilter, remaining: int)
    requires i <= |events|
    ensures |QueryBelow(events, i, f, remaining)| <= if remaining < 0 then 0 else remaining
    ensures forall j :: 0 <= j < |QueryBelow(events, i, f, remaining)| ==>
              Matches(QueryBelow(events, i, f, remaining)[j], f) && QueryBelow(events, i, f, remaining)[j] in events[..i]
    decreases i
  {
    if remaining > 0 && i > 0 {
      var e := events[i - 1];
      var rem := if Matches(e, f) then remaining - 1 else remaining;
      QueryBelowBounds(events, i - 1, f, rem);
      assert events[..i - 1] <= events[..i];
      assert events[..i][i - 1] == e;
    }
  }

  /** One step of the walk: the newest remaining event is kept when it matches. */
  lemma QueryBelowStep(events: seq<AuditEvent>, i: nat, f: QueryFilter, remaining: int)
    requires 0 < i <= |events| && remaining > 0
    ensures QueryBelow(events, i, f, remaining)
      == (if Matches(events[i - 1], f) then [events[i - 1]] else [])
         + QueryBelow(events, i - 1, f, if Matches(events[i - 1], f) then remaining - 1 else remaining)
  {
  }

  /** The loop of `query_events` over a snapshot of the buffer. */
  method WalkNewestFirst(events: seq<AuditEvent>, f: QueryFilter, limit: int) returns (results: seq<AuditEvent>)
    ensures results == QueryBelow(events, |events|, f, limit)
  {
    results := [];
    var i := |events|;
    while i > 0
      invariant 0 <= i <= |events|
      invariant results + QueryBelow(events, i, f, limit - |results|) == QueryBelow(events, |events|, f, limit)
      decreases i
    {
      if |results| >= limit {
        break;
      }
      var e := events[i - 1];
      QueryBelowStep(events, i, f, limit - |results|);
      if Matches(e, f) {
        ghost var rest := QueryBelow(events, i - 1, f, limit - |results| - 1);
        assert results + ([e] + rest) == (results + [e]) + rest;
        results := results + [e];
      }
      i := i - 1;
    }
  }

  /** The newest-first walk over a whole buffer. */
  function QueryNewestFirst(events: seq<AuditEvent>, f: QueryFilter, limit: int): (r: seq<AuditEvent>)
    ensures |r| <= if limit < 0 then 0 else limit
    ensures forall j :: 0 <= j < |r| ==> Matches(r[j], f) && r[j] in events
  {
    assert events[..|events|] == events;
    QueryBelowBounds(events, |events|, f, limit);
    QueryBelow(events, |events|, f, limit)
  }

  function Reverse(s: seq<AuditEvent>): (r: seq<AuditEvent>)
    ensures |r| == |s|
    ensures forall i :: 0 <= i < |s| ==> r[i] == s[|s| - 1 - i]
  {
    if s == [] then [] else [s[|s| - 1]] + Reverse(s[..|s| - 1])
  }

  function Filter(s: seq<AuditEvent>, f: QueryFilter): (r: seq<AuditEvent>)
    ensures |r| <= |s|
  {
    if s == [] then [] else (if Matches(s[0], f) then [s[0]] else []) + Filter(s[1..], f)
  }

  function Take(s: seq<AuditEvent>, n: int): (r: seq<AuditEvent>)
    ensures |r| == if n <= 0 then 0 else if n < |s| then n else |s|
  {
    if n <= 0 then [] else if n < |s| then s[..n] else s
  }

  /** Taking from a sequence with a known head keeps the head and takes one fewer from the rest. */
  lemma TakeCons(e: AuditEvent, rest: seq<AuditEvent>, limit: int)
    requires limit > 0
    ensures Take([e] + rest, limit) == [e] + Take(rest, limit - 1)
  {
    if limit - 1 < |rest| {
      assert ([e] + rest)[..limit] == [e] + rest[..limit - 1];
    }
  }

  /** Read newest first, an appended event comes before everything logged earlier. */
  lemma FilterReverseSnoc(prefix: seq<AuditEvent>, e: AuditEvent, f: QueryFilter)
    ensures Filter(Reverse(prefix + [e]), f) == (if Matches(e, f) then [e] else []) + Filter(Reverse(prefix), f)
  {
    var s := prefix + [e];
    assert s[..|s| - 1] == prefix;
    assert Reverse(s) == [e] + Reverse(prefix);
    assert Reverse(s)[1..] == Reverse(prefix);
  }

  /** A walk over the first `i` events takes the first `limit` matches of those events read newest first. */
  lemma {:induction false} QueryBelowIsTake(events: seq<AuditEvent>, i: nat, f: QueryFilter, limit: int)
    requires i <= |events|
    ensures QueryBelow(events, i, f, limit) == Take(Filter(Reverse(events[..i]), f), limit)
    decreases i
  {
    if limit > 0 && i > 0 {
      var e := events[i - 1];
      var prefix := events[..i - 1];
      assert events[..i] == prefix + [e];
      FilterReverseSnoc(prefix, e, f);
      QueryBelowStep(events, i, f, limit);
      var older := Filter(Reverse(prefix), f);
      if Matches(e, f) {
        QueryBelowIsTake(events, i - 1, f, limit - 1);
        TakeCons(e, older, limit);
        assert QueryBelow(events, i, f, limit) == [e] + Take(older, limit - 1);
      } else {
        QueryBelowIsTake(events, i - 1, f, limit);
        assert QueryBelow(events, i, f, limit) == [] + Take(older, limit);
      }
    }
  }

  /** A query is the first `limit` matching events of the buffer read newest first. */
  lemma QueryIsTakeOfFilteredReverse(events: seq<AuditEvent>, f: QueryFilter, limit: int)
    ensures QueryNewestFirst(events, f, limit) == Take(Filter(Reverse(events), f), limit)
  {
    QueryBelowIsTake(events, |events|, f, limit);
    assert events[..|events|] == events;
  }

  function CountCategory(s: seq<AuditEvent>, c: ActionCategory): nat
  {
    if s == [] then 0 else CountCategory(s[..|s| - 1], c) + (if s[|s| - 1].category == c then 1 else 0)
  }

  function CountSeverity(s: seq<AuditEvent>, v: ActionSeverity): nat
  {
    if s == [] then 0 else CountSeverity(s[..|s| - 1], v) + (if s[|s| - 1].severity == v then 1 else 0)
  }

  predicate IsErrorSeverity(v: ActionSeverity)
  {
    v == Error || v == Critical
  }

  function CountErrors(s: seq<AuditEvent>): nat
  {
    if s == [] then 0 else CountErrors(s[..|s| - 1]) + (if IsErrorSeverity(s[|s| - 1].severity) then 1 else 0)
  }

  /** The errors count is the ERROR count plus the CRITICAL count. */
  lemma {:induction false} ErrorsAreErrorPlusCritical(s: seq<AuditEvent>)
    ensures CountErrors(s) == CountSeverity(s, Error) + CountSeverity(s, Critical)
  {
    if s != [] { ErrorsAreErrorPlusCritical(s[..|s| - 1]); }
  }

  function Get<K>(m: map<K, nat>, k: K): nat
  {
    if k in m then m[k] else 0
  }

  /** The `stats` dict the logger keeps: the running totals. */
  datatype Counters = Counters(
    totalEvents: nat,
    eventsByCategory: map<ActionCategory, nat>,
    eventsBySeverity: map<ActionSeverity, nat>,
    errorsCount: nat)

  /** The statistics update of `log_event` for one more event. */
  function Count(c: Counters, e: AuditEvent): Counters
  {
    Counters(c.totalEvents + 1,
             c.eventsByCategory[e.category := Get(c.eventsByCategory, e.category) + 1],
             c.eventsBySeverity[e.severity := Get(c.eventsBySeverity, e.severity) + 1],
             c.errorsCount + (if IsErrorSeverity(e.severity) then 1 else 0))
  }

  /** The counters after counting every event of `s`, oldest first, from empty ones. */
  function Tally(s: seq<AuditEvent>): Counters
  {
    if s == [] then Counters(0, map[], map[], 0) else Count(Tally(s[..|s| - 1]), s[|s| - 1])
  }

  /** The tally counts: the total, each category, each severity and the errors of the events. */
  lemma {:induction false} TallyCounts(s: seq<AuditEvent>)
    ensures Tally(s).totalEvents == |s| && Tally(s).errorsCount == CountErrors(s)
    ensures forall c :: Get(Tally(s).eventsByCategory, c) == CountCategory(s, c)
    ensures forall v :: Get(Tally(s).eventsBySeverity, v) == CountSeverity(s, v)
  {
    if s != [] {
      TallyCounts(s[..|s| - 1]);
    }
  }

  /** Counting one more event is one more step of the tally. */
  lemma TallyAppend(s: seq<AuditEvent>, e: AuditEvent)
    ensures Tally(s + [e]) == Count(Tally(s), e)
  {
    var t := s + [e];
    assert t[..|t| - 1] == s;
  }

  datatype Statistics = Statistics(
    totalEvents: nat,
    eventsByCategory: map<ActionCategory, nat>,
    eventsBySeverity: map<ActionSeverity, nat>,
    errorsCount: nat,
    bufferSize: nat,
    hashChainEnabled: bool,
    lastHash: Option<string>)

  class AuditLogger {
    const hasher: Hasher
    const bufferSize: nat
    const enableHashChain: bool
    var buffer: seq<AuditEvent>
    var lastHash: string
    /**
     * The hash the oldest buffered event is chained to: "GENESIS" until the
     * buffer first drops an event, then the hash of the last dropped event.
     * Only the corrected verification reads it.
     */
    var chainAnchor: string
    var stats: Counters
    /** Every event logged so far, oldest first. */
    ghost var logged: seq<AuditEvent>

    ghost predicate Valid()
      reads this
    {
      BufferAgree(buffer, logged, chainAnchor, bufferSize)
      && stats == Tally(logged)
      && (enableHashChain ==> ChainAgree(hasher, logged, lastHash))
      && (!enableHashChain ==> lastHash == "GENESIS")
    }

    constructor (hasher: Hasher, bufferSize: nat, enableHashChain: bool)
      ensures this.hasher == hasher && this.bufferSize == bufferSize && this.enableHashChain == enableHashChain
      ensures buffer == [] && lastHash == "GENESIS" && logged == []
      ensures stats == Counters(0, map[], map[], 0)
      ensures Valid()
    {
      this.hasher := hasher;
      this.bufferSize := bufferSize;
      this.enableHashChain := enableHashChain;
      buffer := [];
      lastHash := "GENESIS";
      chainAnchor := "GENESIS";
      stats := Counters(0, map[], map[], 0);
      logged := [];
      new;
      assert buffer == logged[|logged| - |buffer|..];
      assert chainAnchor == HashBefore(logged, "GENESIS", 0);
      assert WellChained(hasher, logged, "GENESIS");
    }

    /**
     * `log_event`: builds the event, chains it to the last hash (when the
     * chain is on), appends it to the bounded buffer and bumps the counters.
     */
    method LogEvent(category: ActionCategory, actionName: string, severity: ActionSeverity, actor: string,
                    resourceId: string, outcome: string, details: Metadata,
                    correlationId: Option<string>, parentEventId: Option<string>,
                    eventId: string, now: int)
      returns (id: string)
      requires Valid()
      modifies this
      ensures Valid()
      ensures id == eventId
      ensures var e0 := NewEvent(eventId, now, category, actionName, severity, actor, resourceId, outcome,
                                 details, correlationId, parentEventId);
        var e := if enableHashChain then e0.(hash := Some(ComputeHash(hasher, e0, old(lastHash)))) else e0;
        logged == old(logged) + [e]
        && buffer == BoundedAppend(old(buffer), e, bufferSize)
        && lastHash == (if enableHashChain then e.hash.value else old(lastHash))
        && stats == Count(old(stats), e)
    {
      var e := NewEvent(eventId, now, category, actionName, severity, actor, resourceId, outcome,
                        details, correlationId, parentEventId);
      var hash := lastHash;
      if enableHashChain {
        e := e.(hash := Some(ComputeHash(hasher, e, lastHash)));
        hash := e.hash.value;
        ChainAgreeAppend(hasher, logged, lastHash, e);
      }
      // The buffer is a deque with a maximum length: appending to a full one drops its oldest event.
      var anchor := if |buffer| + 1 > bufferSize then HashText((buffer + [e])[0]) else chainAnchor;
      BufferAgreeAppend(buffer, logged, chainAnchor, bufferSize, e);
      TallyAppend(logged, e);
      Store(hash, BoundedAppend(buffer, e, bufferSize), anchor, logged + [e], Count(stats, e));
      id := e.eventId;
    }

    /** Replaces the logger's mutable state in one step. */
    method Store(newLastHash: string, newBuffer: seq<AuditEvent>, newAnchor: string,
                 ghost newLogged: seq<AuditEvent>, newStats: Counters)
      modifies this
      ensures lastHash == newLastHash && buffer == newBuffer && chainAnchor == newAnchor
      ensures logged == newLogged && stats == newStats
    {
      lastHash, buffer, chainAnchor, logged, stats := newLastHash, newBuffer, newAnchor, newLogged, newStats;
    }

    /** `query_events`: newest first, at most `limit`, each matching every active filter. */
    method QueryEvents(f: QueryFilter, limit: int) returns (results: seq<AuditEvent>)
      ensures results == QueryNewestFirst(buffer, f, limit)
      ensures results == Take(Filter(Reverse(buffer), f), limit)
    {
      results := WalkNewestFirst(buffer, f, limit);
      QueryIsTakeOfFilteredReverse(buffer, f, limit);
    }

    /** `get_statistics`: the counters, the buffer length and (when chaining) the last hash. */
    function GetStatistics(): (s: Statistics)
      reads this
      requires Valid()
      ensures s.totalEvents == |logged| && s.errorsCount == CountErrors(logged)
      ensures forall c :: Get(s.eventsByCategory, c) == CountCategory(logged, c)
      ensures forall v :: Get(s.eventsBySeverity, v) == CountSeverity(logged, v)
      ensures s.bufferSize == |buffer| <= bufferSize
      ensures s.lastHash.Some? <==> enableHashChain
      ensures enableHashChain ==> s.lastHash.value == HashBefore(logged, "GENESIS", |logged|)
    {
      TallyCounts(logged);
      Statistics(stats.totalEvents, stats.eventsByCategory, stats.eventsBySeverity, stats.errorsCount,
                 |buffer|, enableHashChain,
                 if enableHashChain then Some(lastHash) else None)
    }

    /**
     * `verify_hash_chain` as the source writes it: from "GENESIS", recomputing
     * each event's hash with its hash field already set.
     */
    method VerifyHashChainAsWritten() returns (valid: bool, mismatchAt: Option<nat>)
      ensures valid <==> mismatchAt.None?
      ensures !enableHashChain ==> valid
      ensures enableHashChain ==> mismatchAt == FirstMismatch(hasher, buffer, "GENESIS", false)
    {
      if !enableHashChain {
        return true, None;
      }
      valid, mismatchAt := ScanChain("GENESIS", false);
    }

    /**
     * Corrected verification: recomputes each hash over the event without its
     * hash field, starting from the hash the oldest buffered event was chained to.
     */
    method VerifyHashChain() returns (valid: bool, mismatchAt: Option<nat>)
      ensures valid <==> mismatchAt.None?
      ensures !enableHashChain ==> valid
      ensures enableHashChain ==> mismatchAt == FirstMismatch(hasher, buffer, chainAnchor, true)
    {
      if !enableHashChain {
        return true, None;
      }
      valid, mismatchAt := ScanChain(chainAnchor, true);
    }

    /** The loop both verifications share: stops at the first event whose hash differs. */
    method ScanChain(start: string, stripHash: bool) returns (valid: bool, mismatchAt: Option<nat>)
      ensures valid <==> mismatchAt.None?
      ensures mismatchAt == FirstMismatch(hasher, buffer, start, stripHash)
    {
      var previousHash := start;
      var i := 0;
      while i < |buffer|
        invariant 0 <= i <= |buffer|
        invariant FirstMismatch(hasher, buffer, start, stripHash) ==
          match FirstMismatch(hasher, buffer[i..], previousHash, stripHash)
          case None => None
          case Some(k) => Some(k + i)
        decreases |buffer| - i
      {
        var e := buffer[i];
        var expected := Expected(hasher, e, previousHash, stripHash);
        assert buffer[i..][1..] == buffer[i + 1..];
        if e.hash != Some(expected) {
          return false, Some(i);
        }
        previousHash := expected;
        i := i + 1;
      }
      return true, None;
    }

    /** An untampered log always passes corrected verification, also after the buffer has dropped events. */
    lemma UntamperedLogVerifies()
      requires Valid() && enableHashChain
      ensures FirstMismatch(hasher, buffer, chainAnchor, true) == None
    {
      SuffixWellChained(hasher, logged, "GENESIS", |logged| - |buffer|);
      WellChainedVerifies(hasher, buffer, chainAnchor);
    }

    /** As written, verification of any non-empty untampered buffer fails at its first event. */
    lemma AsWrittenRejectsUntamperedLog()
      requires Valid() && enableHashChain && Injective(hasher)
      requires |buffer| > 0 && |logged| <= bufferSize
      ensures FirstMismatch(hasher, buffer, "GENESIS", false) == Some(0)
    {
      assert buffer == logged;
      AsWrittenRejectsFirstEvent(hasher, buffer, "GENESIS");
    }
  }

  /**
   * The buffer holds the newest events of the log, is full once the log has
   * outgrown it, and `anchor` is the hash its oldest event was chained to.
   */
  ghost predicate BufferAgree(buffer: seq<AuditEvent>, logged: seq<AuditEvent>, anchor: string, size: nat)
  {
    |buffer| <= size && |buffer| <= |logged|
    && buffer == logged[|logged| - |buffer|..]
    && (|logged| > |buffer| ==> |buffer| == size)
    && anchor == HashBefore(logged, "GENESIS", |logged| - |buffer|)
  }

  /** Appending to the bounded buffer, dropping its oldest event when full, keeps it the newest part of the log. */
  lemma BufferAgreeAppend(buffer: seq<AuditEvent>, logged: seq<AuditEvent>, anchor: string, size: nat, e: AuditEvent)
    requires BufferAgree(buffer, logged, anchor, size)
    ensures BufferAgree(BoundedAppend(buffer, e, size), logged + [e],
                        if |buffer| + 1 > size then HashText((buffer + [e])[0]) else anchor, size)
  {
    var extended := buffer + [e];
    assert extended == (logged + [e])[|logged| - |buffer|..];
  }

  /** The log is chained from "GENESIS" and `lastHash` is the hash of its newest event. */
  ghost predicate ChainAgree(h: Hasher, logged: seq<AuditEvent>, lastHash: string)
  {
    WellChained(h, logged, "GENESIS") && lastHash == HashBefore(logged, "GENESIS", |logged|)
  }

  /** Appending an event chained to the last hash keeps the log chained, with that event's hash now last. */
  lemma ChainAgreeAppend(h: Hasher, logged: seq<AuditEvent>, lastHash: string, e: AuditEvent)
    requires ChainAgree(h, logged, lastHash)
    requires e.hash == Some(ComputeHash(h, Unhashed(e), lastHash))
    ensures ChainAgree(h, logged + [e], e.hash.value)
  {
    ChainAppend(h, logged, "GENESIS", e);
  }
}
