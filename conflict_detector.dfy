/**
 * The dependency-aware conflict detector without its dependency graph: a
 * registry of ongoing operations (an insertion-ordered dictionary keyed by
 * operation id), direct conflicts on the same service, conflicts through
 * shared infrastructure groups, and the severity-to-recommendation mapping.
 *
 * The registry is the map `operations` plus `order`, the ids in the order a
 * Python dict iterates them: a new id goes to the end, re-registering an id
 * keeps its place, deleting an id removes it.
 */
module ConflictDetector {
  import opened Wrappers
  import Strings

  datatype ConflictType = Direct | Dependency | Downstream | Upstream | SharedResource | Cascade | Timing

  datatype ConflictSeverity = Critical | High | Medium | Low

  datatype OperationType = Deployment | Rollback | Verification | PatchGeneration | ConfigurationChange | Scaling | Restart

  datatype OngoingOperation = OngoingOperation(
    operationId: string,
    operationType: OperationType,
    serviceName: string,
    actor: string,
    startedAt: int,
    expectedDurationSeconds: int,
    metadata: Metadata)

  /** `_are_operations_conflicting`: deployments and rollbacks clash with each other and themselves. */
  function AreOperationsConflicting(op1: OperationType, op2: OperationType): (r: bool)
    ensures r <==> (op1 == Deployment || op1 == Rollback) && (op2 == Deployment || op2 == Rollback)
  {
    if op1 == Deployment then op2 in [Deployment, Rollback]
    else if op1 == Rollback then op2 in [Deployment, Rollback]
    else if op1 == Verification then false
    else false
  }

  lemma ConflictingIsSymmetric(op1: OperationType, op2: OperationType)
    ensures AreOperationsConflicting(op1, op2) == AreOperationsConflicting(op2, op1)
  {
  }

  /** A named piece of shared infrastructure and the services that use it. */
  datatype ResourceGroup = ResourceGroup(name: string, services: set<string>)

  /** The TypeError Python raises for `max` over members of a plain Enum. */
  const SeverityMaxError := "TypeError: '>' not supported between instances of 'ConflictSeverity' and 'ConflictSeverity'"

  /** `_load_resource_groups`, in dictionary order. */
  const DefaultResourceGroups: seq<ResourceGroup> := [
    ResourceGroup("postgres_primary", {"payment-service", "order-service", "user-service"}),
    ResourceGroup("redis_cache", {"payment-service", "recommendation-service", "cart-service"}),
    ResourceGroup("kafka_orders", {"order-service", "inventory-service", "shipping-service"})
  ]

  /** The registered operations, in the order of `ids`. */
  function InOrder(operations: map<string, OngoingOperation>, ids: seq<string>): (r: seq<OngoingOperation>)
    requires forall id :: id in ids ==> id in operations
    ensures |r| == |ids|
    ensures forall i :: 0 <= i < |ids| ==> r[i] == operations[ids[i]]
  {
    if ids == [] then [] else InOrder(operations, ids[..|ids| - 1]) + [operations[ids[|ids| - 1]]]
  }

  /** `ids` without `id`, order otherwise kept. */
  function RemoveId(ids: seq<string>, id: string): (r: seq<string>)
    ensures forall x :: x in r <==> x in ids && x != id
    ensures id !in ids ==> r == ids
  {
    if ids == [] then []
    else if ids[0] == id then RemoveId(ids[1..], id)
    else [ids[0]] + RemoveId(ids[1..], id)
  }

  /** No id occurs twice. */
  predicate Distinct(ids: seq<string>)
  {
    forall i, j :: 0 <= i < j < |ids| ==> ids[i] != ids[j]
  }

  lemma DistinctCons(x: string, rest: seq<string>)
    requires x !in rest && Distinct(rest)
    ensures Distinct([x] + rest)
  {
    var s := [x] + rest;
    forall i, j | 0 <= i < j < |s|
      ensures s[i] != s[j]
    {
      assert s[j] == rest[j - 1];
      if i > 0 {
        assert s[i] == rest[i - 1];
      }
    }
  }

  lemma DistinctTail(ids: seq<string>)
    requires Distinct(ids) && ids != []
    ensures Distinct(ids[1..]) && ids[0] !in ids[1..]
  {
    var t := ids[1..];
    forall i, j | 0 <= i < j < |t|
      ensures t[i] != t[j]
    {
      assert t[i] == ids[i + 1] && t[j] == ids[j + 1];
    }
    forall k | 0 <= k < |t|
      ensures t[k] != ids[0]
    {
      assert t[k] == ids[k + 1];
    }
  }

  /** Removing an id from a sequence without repeats leaves none. */
  lemma {:induction false} RemoveIdKeepsDistinct(ids: seq<string>, id: string)
    requires Distinct(ids)
    ensures Distinct(RemoveId(ids, id))
  {
    if ids != [] {
      DistinctTail(ids);
      RemoveIdKeepsDistinct(ids[1..], id);
      if ids[0] != id {
        DistinctCons(ids[0], RemoveId(ids[1..], id));
      }
    }
  }

  /**
   * Registering a new id and then unregistering it restores the registry:
   * the map and the iteration order are exactly as before.
   */
  lemma RegisterUnregisterRestores(operations: map<string, OngoingOperation>, ids: seq<string>, op: OngoingOperation)
    requires op.operationId !in operations && op.operationId !in ids
    ensures operations[op.operationId := op] - {op.operationId} == operations
    ensures RemoveId(ids + [op.operationId], op.operationId) == ids
  {
    RemoveAppended(ids, op.operationId);
  }

  lemma {:induction false} RemoveAppended(ids: seq<string>, id: string)
    requires id !in ids
    ensures RemoveId(ids + [id], id) == ids
  {
    if ids != [] {
      assert (ids + [id])[1..] == ids[1..] + [id];
      RemoveAppended(ids[1..], id);
    }
  }

  /** `_check_direct_conflicts` as a specification: operations on `service` whose type clashes with `t`. */
  function DirectConflicts(ops: seq<OngoingOperation>, service: string, t: OperationType): seq<OngoingOperation>
  {
    if ops == [] then []
    else
      var last := ops[|ops| - 1];
      DirectConflicts(ops[..|ops| - 1], service, t)
        + (if last.serviceName == service && AreOperationsConflicting(last.operationType, t) then [last] else [])
  }

  /** An operation is a direct conflict exactly when it is on the same service with a clashing type. */
  lemma {:induction false} DirectConflictsMembers(ops: seq<OngoingOperation>, service: string, t: OperationType, op: OngoingOperation)
    ensures op in DirectConflicts(ops, service, t)
      <==> op in ops && op.serviceName == service && AreOperationsConflicting(op.operationType, t)
  {
    if ops != [] {
      var prefix := ops[..|ops| - 1];
      DirectConflictsMembers(prefix, service, t, op);
      assert ops == prefix + [ops[|ops| - 1]];
    }
  }

  /** The names of the groups `service` belongs to, in group order. */
  function GroupsOf(groups: seq<ResourceGroup>, service: string): seq<string>
  {
    if groups == [] then []
    else
      var last := groups[|groups| - 1];
      GroupsOf(groups[..|groups| - 1], service) + (if service in last.services then [last.name] else [])
  }

  /** Group `i` holds `service`. */
  predicate Holds(groups: seq<ResourceGroup>, i: int, service: string)
  {
    0 <= i < |groups| && service in groups[i].services
  }

  /** With distinct group names, a group's name is listed exactly when the group holds the service. */
  lemma {:induction false} GroupsOfMembers(groups: seq<ResourceGroup>, service: string, n: string)
    ensures n in GroupsOf(groups, service) <==> exists i :: Holds(groups, i, service) && groups[i].name == n
  {
    if groups != [] {
      var prefix := groups[..|groups| - 1];
      GroupsOfMembers(prefix, service, n);
      if exists i :: Holds(prefix, i, service) && prefix[i].name == n {
        var i :| Holds(prefix, i, service) && prefix[i].name == n;
        assert Holds(groups, i, service) && groups[i].name == n;
      }
      if exists i :: Holds(groups, i, service) && groups[i].name == n {
        var i :| Holds(groups, i, service) && groups[i].name == n;
        if i < |groups| - 1 {
          assert Holds(prefix, i, service) && prefix[i].name == n;
        }
      }
    }
  }

  predicate DistinctNames(groups: seq<ResourceGroup>)
  {
    forall i, j :: 0 <= i < j < |groups| ==> groups[i].name != groups[j].name
  }

  lemma NameInGroupsOf(groups: seq<ResourceGroup>, service: string, i: int)
    requires DistinctNames(groups) && 0 <= i < |groups|
    ensures groups[i].name in GroupsOf(groups, service) <==> service in groups[i].services
  {
    GroupsOfMembers(groups, service, groups[i].name);
    if groups[i].name in GroupsOf(groups, service) {
      var k :| Holds(groups, k, service) && groups[k].name == groups[i].name;
      assert !(k < i) && !(i < k);
    }
  }

  /** One copy of `op` per group that holds its service and whose name is one of `mine`. */
  function SharedGroupHits(groups: seq<ResourceGroup>, op: OngoingOperation, mine: seq<string>): (r: seq<OngoingOperation>)
    ensures forall x :: x in r ==> x == op
  {
    if groups == [] then []
    else
      var last := groups[|groups| - 1];
      SharedGroupHits(groups[..|groups| - 1], op, mine)
        + (if op.serviceName in last.services && last.name in mine then [op] else [])
  }

  /** `op` is hit at least once exactly when some group holds its service and is one of `mine`. */
  lemma {:induction false} SharedGroupHitsNonEmpty(groups: seq<ResourceGroup>, op: OngoingOperation, mine: seq<string>)
    ensures SharedGroupHits(groups, op, mine) != []
      <==> exists i :: Holds(groups, i, op.serviceName) && groups[i].name in mine
  {
    if groups != [] {
      var prefix := groups[..|groups| - 1];
      SharedGroupHitsNonEmpty(prefix, op, mine);
      if exists i :: Holds(prefix, i, op.serviceName) && prefix[i].name in mine {
        var i :| Holds(prefix, i, op.serviceName) && prefix[i].name in mine;
        assert Holds(groups, i, op.serviceName) && groups[i].name in mine;
      }
      if exists i :: Holds(groups, i, op.serviceName) && groups[i].name in mine {
        var i :| Holds(groups, i, op.serviceName) && groups[i].name in mine;
        if i < |groups| - 1 {
          assert Holds(prefix, i, op.serviceName) && prefix[i].name in mine;
        }
      }
    }
  }

  /** `_check_resource_conflicts` as a specification: for each operation, for each group, one entry per shared group. */
  function ResourceConflicts(groups: seq<ResourceGroup>, ops: seq<OngoingOperation>, service: string): seq<OngoingOperation>
  {
    if ops == [] then []
    else
      ResourceConflicts(groups, ops[..|ops| - 1], service)
        + SharedGroupHits(groups, ops[|ops| - 1], GroupsOf(groups, service))
  }

  /** Some group holds both services. */
  ghost predicate ShareGroup(groups: seq<ResourceGroup>, s1: string, s2: string)
  {
    exists i :: Holds(groups, i, s1) && s2 in groups[i].services
  }

  /** `op`'s entries against `service` are not empty exactly when the two services share a group. */
  lemma HitIffShared(groups: seq<ResourceGroup>, op: OngoingOperation, service: string)
    requires DistinctNames(groups)
    ensures SharedGroupHits(groups, op, GroupsOf(groups, service)) != [] <==> ShareGroup(groups, op.serviceName, service)
  {
    var mine := GroupsOf(groups, service);
    SharedGroupHitsNonEmpty(groups, op, mine);
    if exists i :: Holds(groups, i, op.serviceName) && groups[i].name in mine {
      var i :| Holds(groups, i, op.serviceName) && groups[i].name in mine;
      NameInGroupsOf(groups, service, i);
    }
    if ShareGroup(groups, op.serviceName, service) {
      var i :| Holds(groups, i, op.serviceName) && service in groups[i].services;
      NameInGroupsOf(groups, service, i);
    }
  }

  /**
   * An operation is a resource conflict exactly when its service and the
   * proposed service share a group, whatever the operation's type and even
   * when it runs on the proposed service itself.
   */
  lemma {:induction false} ResourceConflictsMembers(groups: seq<ResourceGroup>, ops: seq<OngoingOperation>, service: string,
                                                    op: OngoingOperation)
    requires DistinctNames(groups)
    ensures op in ResourceConflicts(groups, ops, service) <==> op in ops && ShareGroup(groups, op.serviceName, service)
  {
    if ops != [] {
      var prefix := ops[..|ops| - 1];
      var last := ops[|ops| - 1];
      ResourceConflictsMembers(groups, prefix, service, op);
      assert ops == prefix + [last];
      HitIffShared(groups, last, service);
      var hits := SharedGroupHits(groups, last, GroupsOf(groups, service));
      if hits != [] {
        assert hits[0] in hits;
      }
    }
  }

  /** payment-service uses postgres_primary and redis_cache, in dictionary order. */
  lemma PaymentServiceGroups()
    ensures GroupsOf(DefaultResourceGroups, "payment-service") == ["postgres_primary", "redis_cache"]
  {
    var g := DefaultResourceGroups;
    var s := "payment-service";
    assert g[..2][..1] == g[..1] && g[..1][..0] == [] && g[..|g| - 1] == g[..2];
    assert GroupsOf(g[..1], s) == ["postgres_primary"];
    assert GroupsOf(g[..2], s) == ["postgres_primary", "redis_cache"];
  }

  /** An operation on payment-service shares postgres_primary and redis_cache with payment-service. */
  lemma PaymentServiceHits(op: OngoingOperation)
    requires op.serviceName == "payment-service"
    ensures SharedGroupHits(DefaultResourceGroups, op, ["postgres_primary", "redis_cache"]) == [op, op]
  {
    var g := DefaultResourceGroups;
    var mine := ["postgres_primary", "redis_cache"];
    assert g[..2][..1] == g[..1] && g[..1][..0] == [] && g[..|g| - 1] == g[..2];
    assert SharedGroupHits(g[..1], op, mine) == [op];
    assert SharedGroupHits(g[..2], op, mine) == [op, op];
  }

  /** An operation on payment-service is listed twice against payment-service: both share two groups. */
  lemma ResourceConflictsRepeat(op: OngoingOperation)
    requires op.serviceName == "payment-service"
    ensures ResourceConflicts(DefaultResourceGroups, [op], "payment-service") == [op, op]
  {
    PaymentServiceGroups();
    PaymentServiceHits(op);
    assert [op][..0] == [];
  }

  /** A verification on payment-service is a resource conflict for a restart of cart-service (both use redis_cache). */
  lemma ResourceConflictAcrossServices(op: OngoingOperation)
    requires op.serviceName == "payment-service" && op.operationType == Verification
    ensures DirectConflicts([op], "cart-service", Restart) == []
    ensures ResourceConflicts(DefaultResourceGroups, [op], "cart-service") == [op]
  {
    var g := DefaultResourceGroups;
    var s := "cart-service";
    assert g[..2][..1] == g[..1] && g[..1][..0] == [] && g[..|g| - 1] == g[..2];
    assert GroupsOf(g[..1], s) == [];
    assert GroupsOf(g[..2], s) == ["redis_cache"];
    assert GroupsOf(g, s) == ["redis_cache"];
    var mine := GroupsOf(g, s);
    assert SharedGroupHits(g[..1], op, mine) == [];
    assert SharedGroupHits(g[..2], op, mine) == [op];
    assert SharedGroupHits(g, op, mine) == [op];
    assert [op][..0] == [];
  }

  /** The services the given operations run on. */
  function ServicesOf(ops: seq<OngoingOperation>): set<string>
  {
    if ops == [] then {} else ServicesOf(ops[..|ops| - 1]) + {ops[|ops| - 1].serviceName}
  }

  /** A service is affected exactly when one of the operations runs on it. */
  lemma {:induction false} ServicesOfMembers(ops: seq<OngoingOperation>, s: string)
    ensures s in ServicesOf(ops) <==> exists op :: op in ops && op.serviceName == s
  {
    if ops != [] {
      var prefix := ops[..|ops| - 1];
      ServicesOfMembers(prefix, s);
      assert ops == prefix + [ops[|ops| - 1]];
    }
  }

  function Rank(s: ConflictSeverity): nat
  {
    match s
    case Low => 0
    case Medium => 1
    case High => 2
    case Critical => 3
  }

  /** The intended `max` of two severities: the more severe one. */
  function MaxSeverity(a: ConflictSeverity, b: ConflictSeverity): (r: ConflictSeverity)
    ensures r == a || r == b
    ensures Rank(r) >= Rank(a) && Rank(r) >= Rank(b)
  {
    if Rank(a) >= Rank(b) then a else b
  }

  /** The recommendations `detect_conflicts` can give; `Text` is the sentence the source returns. */
  datatype Recommendation =
    | BlockCritical
    | BlockLargeBlastRadius(blastRadius: nat)
    | WarnHighSeverity
    | CautionModerate
    | ProceedNoSignificant
    | SafeToProceed
  {
    predicate Blocks()
    {
      BlockCritical? || BlockLargeBlastRadius?
    }

    /**
     * The recommendation text. The opening word of each sentence is written as
     * its own literal so that BlockingTextsSayBlock can read the prefix off
     * without unfolding the whole sentence.
     */
    function Text(): string
    {
      match this
      case BlockCritical =>
        "BLOCK:" + " Critical conflict detected. Wait for ongoing operations to complete or request manual override."
      case BlockLargeBlastRadius(n) =>
        "BLOCK:" + " High-severity conflict with large blast radius (" + Strings.NatToString(n)
        + " services). Requires manual approval."
      case WarnHighSeverity =>
        "WARN:" + " High-severity conflict detected. Proceed with caution or wait for ongoing operations to complete."
      case CautionModerate =>
        "CAUTION:" + " Moderate conflict detected. Monitor closely and be prepared to rollback."
      case ProceedNoSignificant =>
        "PROCEED:" + " No significant conflicts detected."
      case SafeToProceed =>
        "Safe to proceed"
    }
  }

  /** Exactly the blocking recommendations open with "BLOCK:". */
  lemma BlockingTextsSayBlock(r: Recommendation)
    ensures r.Blocks() <==> Strings.StartsWith(r.Text(), "BLOCK:")
  {
    var t := r.Text();
    var word := match r
      case BlockCritical => "BLOCK:"
      case BlockLargeBlastRadius(_) => "BLOCK:"
      case WarnHighSeverity => "WARN:"
      case CautionModerate => "CAUTION:"
      case ProceedNoSignificant => "PROCEED:"
      case SafeToProceed => "S";
    assert t[..|word|] == word;
    assert t[0] == word[0];
  }

  /**
   * `_generate_recommendation` (the list of conflicts it receives is unused):
   * blocks on a critical conflict and on a high one reaching more than five
   * services, warns on the other high ones, advises caution on medium and
   * lets low ones proceed.
   */
  function GenerateRecommendation(severity: ConflictSeverity, blastRadius: nat): (r: Recommendation)
    ensures r.Blocks() <==> severity == Critical || (severity == High && blastRadius > 5)
    ensures r.WarnHighSeverity? <==> severity == High && blastRadius <= 5
    ensures r.CautionModerate? <==> severity == Medium
    ensures r.ProceedNoSignificant? <==> severity == Low
    ensures !r.SafeToProceed?
    ensures r.BlockLargeBlastRadius? ==> r.blastRadius == blastRadius
  {
    match severity
    case Critical => BlockCritical
    case High => if blastRadius > 5 then BlockLargeBlastRadius(blastRadius) else WarnHighSeverity
    case Medium => CautionModerate
    case Low => ProceedNoSignificant
  }

  datatype ConflictResult = ConflictResult(
    hasConflict: bool,
    conflictType: ConflictType,
    severity: ConflictSeverity,
    conflictingOperations: seq<OngoingOperation>,
    affectedServices: set<string>,
    blastRadius: nat,
    recommendation: Recommendation)

  /** The result `detect_conflicts` returns when nothing conflicts. */
  function NoConflict(service: string): ConflictResult
  {
    ConflictResult(false, Direct, Low, [], {service}, 1, SafeToProceed)
  }

  /**
   * What `detect_conflicts` reports for the given direct and shared-resource
   * conflicts: nothing to report, or every conflicting operation, CRITICAL
   * when any is direct and HIGH otherwise, the distinct affected services
   * and a recommendation from severity and blast radius.
   */
  predicate Describes(r: ConflictResult, direct: seq<OngoingOperation>, resource: seq<OngoingOperation>, service: string)
  {
    (r.hasConflict <==> direct != [] || resource != [])
    && (!r.hasConflict ==> r == NoConflict(service))
    && (r.hasConflict ==>
          r.conflictingOperations == direct + resource
          && r.severity == (if direct != [] then Critical else High)
          && r.affectedServices == (if direct != [] then {service} else {}) + ServicesOf(resource)
          && r.blastRadius == |r.affectedServices|
          && r.recommendation == GenerateRecommendation(r.severity, r.blastRadius)
          && (r.conflictType == Direct || r.conflictType == SharedResource)
          && (r.conflictType == Direct ==> direct != [])
          && (r.conflictType == SharedResource ==> resource != []))
  }

  /**
   * With only direct conflicts the result is CRITICAL, of type DIRECT, blocks,
   * and affects the proposed service alone.
   */
  lemma DirectOnlyBlocks(r: ConflictResult, direct: seq<OngoingOperation>, service: string)
    requires Describes(r, direct, [], service) && direct != []
    ensures r.hasConflict && r.conflictType == Direct && r.severity == Critical
    ensures r.conflictingOperations == direct
    ensures r.affectedServices == {service} && r.blastRadius == 1
    ensures r.recommendation == BlockCritical && r.recommendation.Blocks()
  {
    assert r.conflictingOperations == direct + [];
  }

  /** `affected_services.add(op.service_name)` for every operation in turn. */
  method AddServices(base: set<string>, ops: seq<OngoingOperation>) returns (affected: set<string>)
    ensures affected == base + ServicesOf(ops)
  {
    affected := base;
    var k := 0;
    while k < |ops|
      invariant 0 <= k <= |ops|
      invariant affected == base + ServicesOf(ops[..k])
    {
      assert ops[..k + 1][..k] == ops[..k];
      affected := affected + {ops[k].serviceName};
      k := k + 1;
    }
    assert ops[..k] == ops;
  }

  /**
   * `list(conflict_types)[0]`: some member of the set. Python orders a set of
   * enum members by string hashes that vary between processes, so the model
   * leaves the choice open.
   */
  method FirstListed(types: set<ConflictType>) returns (t: ConflictType)
    requires types != {}
    ensures t in types
  {
    t :| t in types;
  }

  /** The second half of `detect_conflicts`: collects the conflicts, affected services, severity and types. */
  method CombineConflicts(direct: seq<OngoingOperation>, resource: seq<OngoingOperation>, proposedService: string)
    returns (r: ConflictResult)
    ensures Describes(r, direct, resource, proposedService)
  {
    var conflicts, affected, maxSeverity, conflictTypes := CollectConflicts(direct, resource, proposedService);
    var blastRadius := |affected|;
    if conflicts != [] {
      var t := FirstListed(conflictTypes);
      r := ConflictResult(true, t, maxSeverity, conflicts, affected, blastRadius,
                          GenerateRecommendation(maxSeverity, blastRadius));
      ReportDescribes(direct, resource, proposedService, t, affected);
    } else {
      r := NoConflict(proposedService);
    }
  }

  /** The accumulation of `detect_conflicts`: the direct conflicts first, then the shared-resource ones. */
  method CollectConflicts(direct: seq<OngoingOperation>, resource: seq<OngoingOperation>, proposedService: string)
    returns (conflicts: seq<OngoingOperation>, affected: set<string>, maxSeverity: ConflictSeverity,
             conflictTypes: set<ConflictType>)
    ensures conflicts == direct + resource
    ensures affected == (if direct != [] then {proposedService} else {}) + ServicesOf(resource)
    ensures maxSeverity == if direct != [] then Critical else if resource != [] then High else Low
    ensures conflictTypes == (if direct != [] then {Direct} else {}) + (if resource != [] then {SharedResource} else {})
  {
    conflicts := [];
    affected := {};
    maxSeverity := Low;
    conflictTypes := {};
    if direct != [] {
      conflicts := conflicts + direct;
      affected := affected + {proposedService};
      conflictTypes := conflictTypes + {Direct};
      maxSeverity := Critical;
    }
    assert conflicts == direct;
    if resource != [] {
      conflicts := conflicts + resource;
      affected := AddServices(affected, resource);
      conflictTypes := conflictTypes + {SharedResource};
      maxSeverity := MaxSeverity(maxSeverity, High);
    } else {
      assert conflicts == direct + resource;
    }
  }

  /** A report with every conflict, the matching severity, the affected services and an allowed type describes them. */
  lemma ReportDescribes(direct: seq<OngoingOperation>, resource: seq<OngoingOperation>, service: string,
                        t: ConflictType, affected: set<string>)
    requires direct != [] || resource != []
    requires affected == (if direct != [] then {service} else {}) + ServicesOf(resource)
    requires (t == Direct && direct != []) || (t == SharedResource && resource != [])
    ensures var severity := if direct != [] then Critical else High;
      Describes(ConflictResult(true, t, severity, direct + resource, affected, |affected|,
                               GenerateRecommendation(severity, |affected|)), direct, resource, service)
  {
  }

  /** The loop of `_check_direct_conflicts`: the operations on `serviceName` whose type clashes. */
  method ScanDirect(ops: seq<OngoingOperation>, serviceName: string, operationType: OperationType)
    returns (conflicts: seq<OngoingOperation>)
    ensures conflicts == DirectConflicts(ops, serviceName, operationType)
  {
    conflicts := [];
    var i := 0;
    while i < |ops|
      invariant 0 <= i <= |ops|
      invariant conflicts == DirectConflicts(ops[..i], serviceName, operationType)
    {
      var op := ops[i];
      assert ops[..i + 1][..i] == ops[..i];
      if op.serviceName == serviceName && AreOperationsConflicting(op.operationType, operationType) {
        conflicts := conflicts + [op];
      }
      i := i + 1;
    }
    assert ops[..i] == ops;
  }

  /** The second loop of `_check_resource_conflicts`: each operation once per group it shares with `mine`. */
  method ScanResource(groups: seq<ResourceGroup>, ops: seq<OngoingOperation>, serviceName: string, mine: seq<string>)
    returns (conflicts: seq<OngoingOperation>)
    requires mine == GroupsOf(groups, serviceName)
    ensures conflicts == ResourceConflicts(groups, ops, serviceName)
  {
    conflicts := [];
    var i := 0;
    while i < |ops|
      invariant 0 <= i <= |ops|
      invariant conflicts == ResourceConflicts(groups, ops[..i], serviceName)
    {
      var op := ops[i];
      assert ops[..i + 1][..i] == ops[..i];
      var hits := ScanGroups(groups, op, mine);
      conflicts := conflicts + hits;
      i := i + 1;
    }
    assert ops[..i] == ops;
  }

  /** The inner loop over the resource groups for one operation. */
  method ScanGroups(groups: seq<ResourceGroup>, op: OngoingOperation, mine: seq<string>)
    returns (hits: seq<OngoingOperation>)
    ensures hits == SharedGroupHits(groups, op, mine)
  {
    hits := [];
    var j := 0;
    while j < |groups|
      invariant 0 <= j <= |groups|
      invariant hits == SharedGroupHits(groups[..j], op, mine)
    {
      assert groups[..j + 1][..j] == groups[..j];
      var g := groups[j];
      if op.serviceName in g.services && g.name in mine {
        hits := hits + [op];
      }
      j := j + 1;
    }
    assert groups[..j] == groups;
  }

  class DependencyAwareConflictDetector {
    const resourceGroups: seq<ResourceGroup>
    var operations: map<string, OngoingOperation>
    /** The registered ids in dictionary iteration order. */
    var order: seq<string>

    ghost predicate Valid()
      reads this
    {
      Distinct(order)
      && (forall id :: id in operations <==> id in order)
      && (forall id :: id in operations ==> operations[id].operationId == id)
      && DistinctNames(resourceGroups)
    }

    /** The registered operations in iteration order. */
    function Ongoing(): (r: seq<OngoingOperation>)
      reads this
      requires Valid()
      ensures |r| == |order|
      ensures forall i :: 0 <= i < |r| ==> r[i] == operations[order[i]] && r[i].operationId == order[i]
    {
      InOrder(operations, order)
    }

    /** Without a dependency graph, and with the default resource groups. */
    constructor ()
      ensures resourceGroups == DefaultResourceGroups && operations == map[] && order == []
      ensures Valid()
    {
      resourceGroups := DefaultResourceGroups;
      operations := map[];
      order := [];
    }

    /**
     * `register_operation`: stores the operation under its id, replacing an
     * earlier one with the same id in place; a missing metadata becomes empty.
     */
    method RegisterOperation(operationId: string, operationType: OperationType, serviceName: string, actor: string,
                             expectedDurationSeconds: int, metadata: Option<Metadata>, now: int)
      requires Valid()
      modifies this
      ensures Valid()
      ensures operations == old(operations)[operationId := OngoingOperation(operationId, operationType, serviceName,
                                                actor, now, expectedDurationSeconds, metadata.GetOr([]))]
      ensures order == if operationId in old(operations) then old(order) else old(order) + [operationId]
    {
      var op := OngoingOperation(operationId, operationType, serviceName, actor, now, expectedDurationSeconds,
                                 metadata.GetOr([]));
      if operationId !in operations {
        order := order + [operationId];
      }
      operations := operations[operationId := op];
    }

    /** `unregister_operation`: removes the id when present, and otherwise changes nothing. */
    method UnregisterOperation(operationId: string)
      requires Valid()
      modifies this
      ensures Valid()
      ensures operations == old(operations) - {operationId}
      ensures order == RemoveId(old(order), operationId)
      ensures operationId !in old(operations) ==> operations == old(operations) && order == old(order)
    {
      if operationId in operations {
        RemoveIdKeepsDistinct(order, operationId);
        operations := operations - {operationId};
        order := RemoveId(order, operationId);
      }
    }

    /** `_check_direct_conflicts`. */
    method CheckDirectConflicts(serviceName: string, operationType: OperationType) returns (conflicts: seq<OngoingOperation>)
      requires Valid()
      ensures conflicts == DirectConflicts(Ongoing(), serviceName, operationType)
    {
      conflicts := ScanDirect(Ongoing(), serviceName, operationType);
    }

    /** The first loop of `_check_resource_conflicts`: the groups `serviceName` belongs to. */
    method ServiceResourceGroups(serviceName: string) returns (mine: seq<string>)
      ensures mine == GroupsOf(resourceGroups, serviceName)
    {
      mine := [];
      var j := 0;
      while j < |resourceGroups|
        invariant 0 <= j <= |resourceGroups|
        invariant mine == GroupsOf(resourceGroups[..j], serviceName)
      {
        assert resourceGroups[..j + 1][..j] == resourceGroups[..j];
        if serviceName in resourceGroups[j].services {
          mine := mine + [resourceGroups[j].name];
        }
        j := j + 1;
      }
      assert resourceGroups[..j] == resourceGroups;
    }

    /** `_check_resource_conflicts`: every operation once per group it shares with `serviceName`. */
    method CheckResourceConflicts(serviceName: string) returns (conflicts: seq<OngoingOperation>)
      requires Valid()
      ensures conflicts == ResourceConflicts(resourceGroups, Ongoing(), serviceName)
    {
      var mine := ServiceResourceGroups(serviceName);
      conflicts := ScanResource(resourceGroups, Ongoing(), serviceName, mine);
    }

    /**
     * `detect_conflicts` with severities combined by rank. The graph is absent,
     * so the blast radius is the number of distinct affected services.
     */
    method DetectConflicts(proposedOperationType: OperationType, proposedService: string, actor: string)
      returns (r: ConflictResult)
      requires Valid()
      ensures Describes(r, DirectConflicts(Ongoing(), proposedService, proposedOperationType),
                        ResourceConflicts(resourceGroups, Ongoing(), proposedService), proposedService)
    {
      var direct := CheckDirectConflicts(proposedService, proposedOperationType);
      var resource := CheckResourceConflicts(proposedService);
      r := CombineConflicts(direct, resource, proposedService);
    }

    /**
     * `detect_conflicts` as the source writes it: `max` over two members of
     * a plain Enum raises TypeError, so any shared-resource conflict ends in
     * that error; otherwise the result is the corrected one.
     */
    method DetectConflictsAsWritten(proposedOperationType: OperationType, proposedService: string, actor: string)
      returns (r: Result<ConflictResult, string>)
      requires Valid()
      ensures var resource := ResourceConflicts(resourceGroups, Ongoing(), proposedService);
        (r.Err? <==> resource != [])
        && (r.Ok? ==> Describes(r.value, DirectConflicts(Ongoing(), proposedService, proposedOperationType), [],
                                proposedService))
    {
      var direct := CheckDirectConflicts(proposedService, proposedOperationType);
      var resource := CheckResourceConflicts(proposedService);
      if resource != [] {
        return Err(SeverityMaxError);
      }
      var detected := CombineConflicts(direct, [], proposedService);
      r := Ok(detected);
    }
  }

}
