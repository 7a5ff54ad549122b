/**
 * Lock bookkeeping of the distributed lock manager: lock ids, the
 * deadlock-prevention ordering check over every lock this process holds,
 * acquire with a retry loop over an atomic set-if-absent key store, owner-
 * checked release through an atomic compare-and-delete, and the emergency
 * release of everything one owner holds.
 *
 * The Redis backend is the `KeyStore` class: a map from key to the stored
 * lock and its expiry time. A key is live while the clock is before its
 * expiry. The clock is an integer number of seconds passed in as `now`; the
 * retry loop makes attempt k at `now + k`, one second apart.
 */
module DistributedLockManager {
  import opened Wrappers
  import Strings

  datatype LockScope = System | Service | Incident | Deployment

  /** The `lock_order` table: lower numbers are acquired first. */
  function LockOrder(s: LockScope): (r: nat)
    ensures 1 <= r <= 4
  {
    match s
    case System => 1
    case Service => 2
    case Incident => 3
    case Deployment => 4
  }

  lemma LockOrderInjective(a: LockScope, b: LockScope)
    ensures LockOrder(a) == LockOrder(b) <==> a == b
  {
  }

  function ScopeName(s: LockScope): string
  {
    match s
    case System => "SYSTEM"
    case Service => "SERVICE"
    case Incident => "INCIDENT"
    case Deployment => "DEPLOYMENT"
  }

  /** `_generate_lock_id`: "SCOPE:resource". */
  function GenerateLockId(scope: LockScope, resourceId: string): string
  {
    ScopeName(scope) + ":" + resourceId
  }

  /** `_get_lock_key`: the backend key of a lock id. */
  function LockKey(lockId: string): string
  {
    "selfhealing:lock:" + lockId
  }

  lemma PrefixCancel(p: string, a: string, b: string)
    requires p + a == p + b
    ensures a == b
  {
    assert a == (p + a)[|p|..];
    assert b == (p + b)[|p|..];
  }

  lemma LockKeyInjective(a: string, b: string)
    ensures LockKey(a) == LockKey(b) <==> a == b
  {
    if LockKey(a) == LockKey(b) { PrefixCancel("selfhealing:lock:", a, b); }
  }

  /** Distinct (scope, resource) pairs get distinct lock ids. */
  lemma {:induction false} LockIdInjective(s1: LockScope, r1: string, s2: LockScope, r2: string)
    ensures GenerateLockId(s1, r1) == GenerateLockId(s2, r2) <==> s1 == s2 && r1 == r2
  {
    var id1, id2 := GenerateLockId(s1, r1), GenerateLockId(s2, r2);
    if id1 == id2 {
      // Scope names contain no ':' and have pairwise different lengths,
      // so the position of the first ':' fixes the scope.
      var n1, n2 := ScopeName(s1), ScopeName(s2);
      FirstColon(s1, r1);
      FirstColon(s2, r2);
      assert |n1| == |n2|;
      PrefixCancel(n1 + ":", r1, r2);
    }
  }

  lemma FirstColon(s: LockScope, r: string)
    ensures (ScopeName(s) + ":" + r)[|ScopeName(s)|] == ':'
    ensures forall i :: 0 <= i < |ScopeName(s)| ==> (ScopeName(s) + ":" + r)[i] != ':'
    ensures forall t :: |ScopeName(t)| == |ScopeName(s)| ==> t == s
  {
  }

  datatype LockInfo = LockInfo(
    lockId: string,
    scope: LockScope,
    resourceId: string,
    owner: string,
    acquiredAt: int,
    expiresAt: int,
    metadata: Metadata)

  /** `LockInfo.is_expired`: the clock has reached the expiry time. */
  predicate IsExpired(info: LockInfo, now: int)
  {
    now >= info.expiresAt
  }

  /** What the backend holds under a key: the serialised lock and when the key expires. */
  datatype StoredLock = StoredLock(info: LockInfo, expiry: int)

  predicate Live(entries: map<string, StoredLock>, key: string, now: int)
  {
    key in entries && now < entries[key].expiry
  }

  /** The key is still live `k` seconds after `start`: attempt k of a retry loop finds it taken. */
  predicate LiveAfter(entries: map<string, StoredLock>, key: string, start: int, k: int)
  {
    Live(entries, key, start + k)
  }

  /** A key stored at `at` with time-to-live equal to the lock's timeout is live exactly while the lock is not expired. */
  lemma LiveIffNotExpired(entries: map<string, StoredLock>, key: string, info: LockInfo, now: int)
    requires key in entries && entries[key] == StoredLock(info, info.expiresAt)
    ensures Live(entries, key, now) <==> !IsExpired(info, now)
  {
  }

  /** Liveness only ends: a key that is not live at `t` is not live at any later time either. */
  lemma LiveMonotone(entries: map<string, StoredLock>, key: string, t1: int, t2: int)
    requires t1 <= t2 && !Live(entries, key, t1)
    ensures !Live(entries, key, t2)
  {
  }

  /** The backend's owner field for the `holder` part of a timeout message. */
  function HolderAt(entries: map<string, StoredLock>, key: string, now: int): (r: string)
    ensures Live(entries, key, now) ==> r == entries[key].info.owner
    ensures !Live(entries, key, now) ==> r == "unknown"
  {
    if Live(entries, key, now) then entries[key].info.owner else "unknown"
  }

  /** The backend's answer to SET NX EX: stored, already taken, or an error reply for a bad expiry. */
  datatype SetReply = Stored | KeyTaken | InvalidExpireTime

  /** The Redis backend: atomic set-if-absent with a time-to-live, and atomic compare-and-delete. */
  class KeyStore {
    var entries: map<string, StoredLock>

    constructor ()
      ensures entries == map[]
    {
      entries := map[];
    }

    /**
     * SET key value NX EX ttl: an expiry that is not positive is refused with
     * an error reply before the key is looked at; otherwise stores only if no
     * live entry exists.
     */
    method SetIfAbsent(key: string, info: LockInfo, ttl: int, now: int) returns (r: SetReply)
      modifies this
      ensures r == InvalidExpireTime <==> ttl <= 0
      ensures r == Stored <==> ttl > 0 && !Live(old(entries), key, now)
      ensures entries == if r == Stored then old(entries)[key := StoredLock(info, now + ttl)] else old(entries)
    {
      if ttl <= 0 {
        return InvalidExpireTime;
      }
      if key in entries && now < entries[key].expiry {
        return KeyTaken;
      }
      entries := entries[key := StoredLock(info, now + ttl)];
      return Stored;
    }

    /** The release script: deletes the key only if it is live and holds exactly this lock. */
    method CompareAndDelete(key: string, info: LockInfo, now: int) returns (ok: bool)
      modifies this
      ensures ok == (Live(old(entries), key, now) && old(entries)[key].info == info)
      ensures entries == if ok then old(entries) - {key} else old(entries)
    {
      ok := key in entries && now < entries[key].expiry && entries[key].info == info;
      if ok {
        entries := entries - {key};
      }
    }
  }

  /** Two managers sharing one store: while one holds a live key, the other's set-if-absent fails. */
  lemma HeldKeyExcludesOthers(entries: map<string, StoredLock>, key: string, info: LockInfo, ttl: int, t: int, later: int)
    requires t <= later < t + ttl
    ensures Live(entries[key := StoredLock(info, t + ttl)], key, later)
  {
  }

  /** Every held lock is filed under its own id, which its scope and resource determine. */
  ghost predicate WellKeyed(locks: map<string, LockInfo>)
  {
    forall id :: id in locks ==> locks[id].lockId == id && id == GenerateLockId(locks[id].scope, locks[id].resourceId)
  }

  /** The attempt `k` seconds in is the first one to find the key free, within the wait. */
  predicate FirstFreeAt(entries: map<string, StoredLock>, key: string, start: int, k: int, wait: int)
  {
    0 <= k < wait && (forall j :: 0 <= j < k ==> LiveAfter(entries, key, start, j)) && !LiveAfter(entries, key, start, k)
  }

  /**
   * The store `after` is `before` with `lock` written under `key` by the attempt
   * `k` seconds after `start`, the first attempt that found the key free,
   * with an expiry `ttl` seconds after that attempt.
   */
  ghost predicate StoredOnFirstFree(before: map<string, StoredLock>, after: map<string, StoredLock>, key: string,
                                    lock: LockInfo, start: int, ttl: int, wait: int)
  {
    exists k :: FirstFreeAt(before, key, start, k, wait) && after == before[key := StoredLock(lock, start + k + ttl)]
  }

  /** Why a request breaks the ordering rules, naming the held lock it conflicts with. */
  datatype OrderingError =
    | ScopeViolation(newScope: LockScope, held: LockInfo)
    | AlphabeticalViolation(resourceId: string, held: LockInfo)

  /** Rule 1: no lower-ordinal scope over a held one; rule 2: same scope only in increasing resource order. */
  predicate Violates(held: LockInfo, scope: LockScope, resourceId: string)
  {
    LockOrder(scope) < LockOrder(held.scope)
    || (LockOrder(scope) == LockOrder(held.scope) && Strings.LexLess(resourceId, held.resourceId))
  }

  /** The ordering check passes when no held lock, whoever owns it, is violated. */
  predicate OrderingAllows(locks: map<string, LockInfo>, scope: LockScope, resourceId: string)
  {
    forall id :: id in locks ==> !Violates(locks[id], scope, resourceId)
  }

  /** The message a violated held lock gives: rule 1 is tested before rule 2. */
  function ViolationOf(held: LockInfo, scope: LockScope, resourceId: string): OrderingError
  {
    if LockOrder(scope) < LockOrder(held.scope) then ScopeViolation(scope, held)
    else AlphabeticalViolation(resourceId, held)
  }

  /** `e` names the first held lock, in insertion order, that the request violates. */
  ghost predicate ReportsFirstViolator(locks: map<string, LockInfo>, order: seq<string>,
                                       scope: LockScope, resourceId: string, e: OrderingError)
  {
    exists i :: 0 <= i < |order| && order[i] in locks
      && Violates(locks[order[i]], scope, resourceId)
      && (forall j :: 0 <= j < i ==> order[j] in locks && !Violates(locks[order[j]], scope, resourceId))
      && e == ViolationOf(locks[order[i]], scope, resourceId)
  }

  /** A violator with no violator before it in the order is the one reported, and it is a held lock. */
  lemma FirstViolatorFound(locks: map<string, LockInfo>, order: seq<string>, scope: LockScope, resourceId: string, i: nat)
    requires i < |order| && order[i] in locks && Violates(locks[order[i]], scope, resourceId)
    requires forall j :: 0 <= j < i ==> order[j] in locks && !Violates(locks[order[j]], scope, resourceId)
    ensures var e := ViolationOf(locks[order[i]], scope, resourceId);
      ReportsFirstViolator(locks, order, scope, resourceId, e)
      && e.held in locks.Values
      && !OrderingAllows(locks, scope, resourceId)
      && (e.ScopeViolation? ==> e.newScope == scope && LockOrder(scope) < LockOrder(e.held.scope))
      && (e.AlphabeticalViolation? ==> e.resourceId == resourceId && LockOrder(scope) == LockOrder(e.held.scope)
                                       && Strings.LexLess(resourceId, e.held.resourceId))
  {
    assert locks[order[i]] in locks.Values;
  }

  /** A scan of the whole order that finds no violator passes the ordering check. */
  lemma ScanCompleteAllows(locks: map<string, LockInfo>, order: seq<string>, scope: LockScope, resourceId: string)
    requires forall id :: id in locks ==> id in order
    requires forall j :: 0 <= j < |order| ==> order[j] in locks && !Violates(locks[order[j]], scope, resourceId)
    ensures OrderingAllows(locks, scope, resourceId)
  {
    forall id | id in locks
      ensures !Violates(locks[id], scope, resourceId)
    {
      var j :| 0 <= j < |order| && order[j] == id;
    }
  }

  predicate Distinct(ids: seq<string>)
  {
    forall i, j :: 0 <= i < j < |ids| ==> ids[i] != ids[j]
  }

  /** The ids in `ids` that are not in `gone`, in their order: what `del` leaves of dict order. */
  function Without(ids: seq<string>, gone: set<string>): (r: seq<string>)
    ensures forall x :: x in r <==> x in ids && x !in gone
  {
    if ids == [] then []
    else if ids[0] in gone then Without(ids[1..], gone)
    else [ids[0]] + Without(ids[1..], gone)
  }

  lemma {:induction false} WithoutDistinct(ids: seq<string>, gone: set<string>)
    requires Distinct(ids)
    ensures Distinct(Without(ids, gone))
  {
    if ids != [] {
      assert Distinct(ids[1..]) by {
        forall i, j | 0 <= i < j < |ids[1..]| ensures ids[1..][i] != ids[1..][j] {
          assert ids[1..][i] == ids[i + 1] && ids[1..][j] == ids[j + 1];
        }
      }
      WithoutDistinct(ids[1..], gone);
      var rest := Without(ids[1..], gone);
      if ids[0] !in gone {
        assert ids[0] !in ids[1..] by {
          forall k | 0 <= k < |ids[1..]| ensures ids[1..][k] != ids[0] {
            assert ids[1..][k] == ids[k + 1];
          }
        }
        assert ids[0] !in rest;
        var r := [ids[0]] + rest;
        forall i, j | 0 <= i < j < |r| ensures r[i] != r[j] {
          if i == 0 { assert r[j] == rest[j - 1]; } else { assert r[i] == rest[i - 1] && r[j] == rest[j - 1]; }
        }
      }
    }
  }

  lemma AppendFreshDistinct(ids: seq<string>, x: string)
    requires Distinct(ids) && x !in ids
    ensures Distinct(ids + [x])
  {
  }

  /** Removing an id the order does not hold leaves it as it is. */
  lemma {:induction false} WithoutAbsent(ids: seq<string>, x: string)
    ensures x !in ids ==> Without(ids, {x}) == ids
  {
    if ids != [] && x !in ids {
      WithoutAbsent(ids[1..], x);
      assert ids == [ids[0]] + ids[1..];
    }
  }

  /** Removing in two rounds is removing the union. */
  lemma {:induction false} WithoutTwice(ids: seq<string>, a: set<string>, b: set<string>)
    ensures Without(Without(ids, a), b) == Without(ids, a + b)
  {
    if ids != [] {
      WithoutTwice(ids[1..], a, b);
      if ids[0] !in a {
        assert Without(ids, a) == [ids[0]] + Without(ids[1..], a);
        assert Without(ids, a)[1..] == Without(ids[1..], a);
      }
    }
  }

  lemma {:induction false} WithoutNothing(ids: seq<string>)
    ensures Without(ids, {}) == ids
  {
    if ids != [] {
      WithoutNothing(ids[1..]);
      assert ids == [ids[0]] + ids[1..];
    }
  }

  /**
   * `timeout_seconds or default_timeout`: zero and None both fall back to the
   * default, and a negative request is truthy and kept.
   */
  function EffectiveTimeout(timeoutSeconds: Option<int>, defaultTimeout: int): (r: int)
    ensures r == defaultTimeout || (timeoutSeconds.Some? && r == timeoutSeconds.value)
    ensures defaultTimeout > 0 && (timeoutSeconds.None? || timeoutSeconds.value >= 0) ==> r > 0
    ensures r == 0 <==> defaultTimeout == 0 && (timeoutSeconds.None? || timeoutSeconds.value == 0)
    ensures r < 0 ==> (timeoutSeconds.Some? && timeoutSeconds.value < 0) || defaultTimeout < 0
  {
    if timeoutSeconds.Some? && timeoutSeconds.value != 0 then timeoutSeconds.value else defaultTimeout
  }

  /** Why `acquire_lock` did not return a lock; `BackendRaised` is the error reply SET propagates as an exception. */
  datatype AcquireError =
    | OrderingRejected(reason: OrderingError)
    | WaitTimedOut(lockId: string, holder: string)
    | BackendRaised(ttl: int)

  datatype ReleaseError = NotHeld | WrongOwner(holder: string) | BackendRefused

  class LockManager {
    const store: KeyStore
    const defaultTimeout: int
    /** The locks this process holds, by lock id. */
    var localLocks: map<string, LockInfo>
    /** The ids of `localLocks` in dict insertion order. */
    var order: seq<string>

    ghost predicate Valid()
      reads this
    {
      WellKeyed(localLocks) && Distinct(order) && (forall id :: id in localLocks <==> id in order)
    }

    constructor (store: KeyStore, defaultTimeoutSeconds: int)
      ensures this.store == store && defaultTimeout == defaultTimeoutSeconds
      ensures localLocks == map[] && order == []
      ensures Valid()
    {
      this.store := store;
      defaultTimeout := defaultTimeoutSeconds;
      localLocks := map[];
      order := [];
    }

    /**
     * `_validate_lock_ordering`: scans the held locks in insertion order and
     * reports the first one the request violates, rule 1 before rule 2.
     */
    method ValidateLockOrdering(scope: LockScope, resourceId: string) returns (ok: bool, err: Option<OrderingError>)
      requires Valid()
      ensures ok == OrderingAllows(localLocks, scope, resourceId)
      ensures ok <==> err.None?
      ensures err.Some? ==> ReportsFirstViolator(localLocks, order, scope, resourceId, err.value)
      ensures err.Some? && err.value.ScopeViolation? ==>
        err.value.held in localLocks.Values && err.value.newScope == scope
        && LockOrder(scope) < LockOrder(err.value.held.scope)
      ensures err.Some? && err.value.AlphabeticalViolation? ==>
        err.value.held in localLocks.Values && err.value.resourceId == resourceId
        && LockOrder(scope) == LockOrder(err.value.held.scope) && Strings.LexLess(resourceId, err.value.held.resourceId)
    {
      var locks, ids := localLocks, order;
      assert forall j :: 0 <= j < |ids| ==> ids[j] in locks;
      var i := 0;
      while i < |ids|
        invariant 0 <= i <= |ids|
        invariant forall j :: 0 <= j < i ==> !Violates(locks[ids[j]], scope, resourceId)
      {
        var held := locks[ids[i]];
        if Violates(held, scope, resourceId) {
          var e := ViolationOf(held, scope, resourceId);
          FirstViolatorFound(locks, ids, scope, resourceId, i);
          return false, Some(e);
        }
        i := i + 1;
      }
      ScanCompleteAllows(locks, ids, scope, resourceId);
      return true, None;
    }

    /**
     * `acquire_lock`: after the ordering check, builds the lock once and tries
     * set-if-absent once per second while fewer than `waitTimeoutSeconds`
     * seconds have passed. The stored key expires `ttl` seconds after the
     * successful attempt; the lock's own `expiresAt` is `now + ttl`. A `ttl`
     * that is not positive makes the first attempt's error reply propagate.
     */
    method AcquireLock(scope: LockScope, resourceId: string, owner: string, timeoutSeconds: Option<int>,
                       waitTimeoutSeconds: int, metadata: Metadata, now: int)
      returns (ok: bool, info: Option<LockInfo>, err: Option<AcquireError>)
      requires Valid()
      modifies this, store
      ensures Valid()
      ensures ok <==> info.Some? && err.None?
      ensures !OrderingAllows(old(localLocks), scope, resourceId) ==>
        !ok && err.Some? && err.value.OrderingRejected?
        && ReportsFirstViolator(old(localLocks), old(order), scope, resourceId, err.value.reason)
        && localLocks == old(localLocks) && order == old(order) && store.entries == old(store.entries)
      ensures OrderingAllows(old(localLocks), scope, resourceId) ==>
        var ttl := EffectiveTimeout(timeoutSeconds, defaultTimeout);
        ttl <= 0 && waitTimeoutSeconds > 0 ==>
          !ok && err == Some(BackendRaised(ttl))
          && localLocks == old(localLocks) && order == old(order) && store.entries == old(store.entries)
      ensures OrderingAllows(old(localLocks), scope, resourceId)
              && (EffectiveTimeout(timeoutSeconds, defaultTimeout) > 0 || waitTimeoutSeconds <= 0) ==>
        var id := GenerateLockId(scope, resourceId);
        (ok <==> exists k :: 0 <= k < waitTimeoutSeconds && !LiveAfter(old(store.entries), LockKey(id), now, k))
      ensures OrderingAllows(old(localLocks), scope, resourceId) && ok ==>
        var id := GenerateLockId(scope, resourceId);
        var ttl := EffectiveTimeout(timeoutSeconds, defaultTimeout);
        var lock := LockInfo(id, scope, resourceId, owner, now, now + ttl, metadata);
        info == Some(lock) && localLocks == old(localLocks)[id := lock]
        && order == (if id in old(localLocks) then old(order) else old(order) + [id])
      ensures OrderingAllows(old(localLocks), scope, resourceId) && ok ==>
        var id := GenerateLockId(scope, resourceId);
        var ttl := EffectiveTimeout(timeoutSeconds, defaultTimeout);
        var lock := LockInfo(id, scope, resourceId, owner, now, now + ttl, metadata);
        StoredOnFirstFree(old(store.entries), store.entries, LockKey(id), lock, now, ttl, waitTimeoutSeconds)
      ensures OrderingAllows(old(localLocks), scope, resourceId)
              && (EffectiveTimeout(timeoutSeconds, defaultTimeout) > 0 || waitTimeoutSeconds <= 0) && !ok ==>
        var id := GenerateLockId(scope, resourceId);
        localLocks == old(localLocks) && order == old(order) && store.entries == old(store.entries)
        && err == Some(WaitTimedOut(id, HolderAt(old(store.entries), LockKey(id),
                                                 now + if waitTimeoutSeconds > 0 then waitTimeoutSeconds else 0)))
    {
      var allowed, why := ValidateLockOrdering(scope, resourceId);
      if !allowed {
        return false, None, Some(OrderingRejected(why.value));
      }
      var id := GenerateLockId(scope, resourceId);
      var ttl := EffectiveTimeout(timeoutSeconds, defaultTimeout);
      var lock := LockInfo(id, scope, resourceId, owner, now, now + ttl, metadata);
      var key := LockKey(id);
      var elapsed := 0;
      while elapsed < waitTimeoutSeconds
        invariant 0 <= elapsed
        invariant elapsed <= waitTimeoutSeconds || elapsed == 0
        invariant store.entries == old(store.entries) && localLocks == old(localLocks) && order == old(order)
        invariant forall j :: 0 <= j < elapsed ==> LiveAfter(old(store.entries), key, now, j)
        invariant ttl <= 0 ==> elapsed == 0
        decreases waitTimeoutSeconds - elapsed
      {
        var reply := store.SetIfAbsent(key, lock, ttl, now + elapsed);
        if reply == InvalidExpireTime {
          return false, None, Some(BackendRaised(ttl));
        }
        if reply == Stored {
          assert FirstFreeAt(old(store.entries), key, now, elapsed, waitTimeoutSeconds);
          assert store.entries == old(store.entries)[key := StoredLock(lock, now + elapsed + ttl)];
          if id !in localLocks {
            order := order + [id];
            AppendFreshDistinct(old(order), id);
          }
          localLocks := localLocks[id := lock];
          assert localLocks == old(localLocks)[id := lock];
          assert StoredOnFirstFree(old(store.entries), store.entries, key, lock, now, ttl, waitTimeoutSeconds);
          return true, Some(lock), None;
        }
        elapsed := elapsed + 1;
      }
      assert forall k :: 0 <= k < waitTimeoutSeconds ==> LiveAfter(old(store.entries), key, now, k);
      var holder := HolderAt(store.entries, key, now + elapsed);
      return false, None, Some(WaitTimedOut(id, holder));
    }

    /** `release_lock`: only a held lock, only by its owner, and only if the backend still holds exactly it. */
    method ReleaseLock(scope: LockScope, resourceId: string, owner: string, now: int)
      returns (ok: bool, err: Option<ReleaseError>)
      requires Valid()
      modifies this, store
      ensures Valid()
      ensures ok <==> err.None?
      ensures var id := GenerateLockId(scope, resourceId);
        if id !in old(localLocks) then
          err == Some(NotHeld) && localLocks == old(localLocks) && order == old(order)
          && store.entries == old(store.entries)
        else if old(localLocks)[id].owner != owner then
          err == Some(WrongOwner(old(localLocks)[id].owner))
          && localLocks == old(localLocks) && order == old(order) && store.entries == old(store.entries)
        else
          var key := LockKey(id);
          (ok == (Live(old(store.entries), key, now) && old(store.entries)[key].info == old(localLocks)[id]))
          && (ok ==> localLocks == old(localLocks) - {id} && order == Without(old(order), {id})
                     && store.entries == old(store.entries) - {key})
          && (!ok ==> err == Some(BackendRefused) && localLocks == old(localLocks) && order == old(order)
                      && store.entries == old(store.entries))
    {
      var id := GenerateLockId(scope, resourceId);
      if id !in localLocks {
        return false, Some(NotHeld);
      }
      var info := localLocks[id];
      if info.owner != owner {
        return false, Some(WrongOwner(info.owner));
      }
      var released := store.CompareAndDelete(LockKey(id), info, now);
      if released {
        WithoutDistinct(order, {id});
        localLocks := localLocks - {id};
        order := Without(order, {id});
        return true, None;
      }
      return false, Some(BackendRefused);
    }

    /** One step of `force_release_all`: the backend release, then the local entry goes if it succeeded. */
    method ReleaseTracked(id: string, info: LockInfo, now: int) returns (ok: bool)
      requires Valid()
      modifies this, store
      ensures Valid()
      ensures ok == (Live(old(store.entries), LockKey(id), now) && old(store.entries)[LockKey(id)].info == info)
      ensures ok ==> localLocks == old(localLocks) - {id} && order == Without(old(order), {id})
                     && store.entries == old(store.entries) - {LockKey(id)}
      ensures !ok ==> localLocks == old(localLocks) && order == old(order) && store.entries == old(store.entries)
    {
      ok := store.CompareAndDelete(LockKey(id), info, now);
      if ok {
        WithoutAbsent(order, id);
      }
      if ok && id in localLocks {
        WithoutDistinct(order, {id});
        localLocks := localLocks - {id};
        order := Without(order, {id});
      }
    }

    /**
     * `force_release_all`: tries the backend release of each lock the owner
     * holds; the ones the backend gives up leave the local table, and their
     * number is returned. Other owners' locks are untouched.
     */
    method ForceReleaseAll(owner: string, now: int) returns (released: nat)
      requires Valid()
      modifies this, store
      ensures Valid()
      ensures var gone := ReleasableBy(old(localLocks), old(store.entries), owner, now);
        released == |gone|
        && localLocks == old(localLocks) - gone
        && order == Without(old(order), gone)
        && store.entries == old(store.entries) - KeysOf(gone)
    {
      var locks0 := localLocks;
      ghost var order0 := order;
      ghost var entries0 := store.entries;
      ghost var gone := ReleasableBy(locks0, entries0, owner, now);
      var candidates := OwnedBy(locks0, owner);
      ghost var removed: set<string> := {};
      released := 0;
      WithoutNothing(order0);
      while candidates != {}
        invariant candidates <= OwnedBy(locks0, owner)
        invariant removed == (OwnedBy(locks0, owner) - candidates) * gone
        invariant localLocks == locks0 - removed
        invariant order == Without(order0, removed)
        invariant store.entries == entries0 - KeysOf(removed)
        invariant released == |removed|
        decreases |candidates|
      {
        var id :| id in candidates;
        var info := locks0[id];
        ForceReleaseStep(locks0, entries0, order0, owner, now, candidates, removed, id);
        StillValid(locks0, order0, removed);
        var ok := ReleaseTracked(id, info, now);
        if ok {
          assert id in gone;
          removed := removed + {id};
          released := released + 1;
        } else {
          assert id !in gone;
        }
        candidates := candidates - {id};
      }
      assert removed == gone;
      StillValid(locks0, order0, removed);
    }
  }

  function OwnedBy(locks: map<string, LockInfo>, owner: string): set<string>
  {
    set id | id in locks && locks[id].owner == owner
  }

  /** The owner's locks whose backend entry is still live and still holds exactly that lock. */
  function ReleasableBy(locks: map<string, LockInfo>, entries: map<string, StoredLock>, owner: string, now: int): (r: set<string>)
    ensures r <= OwnedBy(locks, owner)
  {
    set id | id in locks && locks[id].owner == owner
      && Live(entries, LockKey(id), now) && entries[LockKey(id)].info == locks[id]
  }

  function KeysOf(ids: set<string>): set<string>
  {
    set id | id in ids :: LockKey(id)
  }

  /**
   * One round of `force_release_all`: the candidate's backend entry is as it
   * was at the start, so its release succeeds exactly when it is releasable,
   * and the tables then lose exactly one more id.
   */
  lemma ForceReleaseStep(locks0: map<string, LockInfo>, entries0: map<string, StoredLock>, order0: seq<string>,
                         owner: string, now: int, candidates: set<string>, removed: set<string>, id: string)
    requires id in candidates && candidates <= OwnedBy(locks0, owner)
    requires removed == (OwnedBy(locks0, owner) - candidates) * ReleasableBy(locks0, entries0, owner, now)
    ensures var entries := entries0 - KeysOf(removed);
      var key := LockKey(id);
      (Live(entries, key, now) && entries[key].info == locks0[id]) <==> id in ReleasableBy(locks0, entries0, owner, now)
    ensures id in ReleasableBy(locks0, entries0, owner, now) ==>
      var after := removed + {id};
      after == (OwnedBy(locks0, owner) - (candidates - {id})) * ReleasableBy(locks0, entries0, owner, now)
      && |after| == |removed| + 1
      && (locks0 - removed) - {id} == locks0 - after
      && Without(Without(order0, removed), {id}) == Without(order0, after)
      && (entries0 - KeysOf(removed)) - {LockKey(id)} == entries0 - KeysOf(after)
    ensures id !in ReleasableBy(locks0, entries0, owner, now) ==>
      removed == (OwnedBy(locks0, owner) - (candidates - {id})) * ReleasableBy(locks0, entries0, owner, now)
  {
    var gone := ReleasableBy(locks0, entries0, owner, now);
    ReleasedSoFarStep(OwnedBy(locks0, owner), candidates, gone, removed, id);
    EntryUntouched(entries0, removed, id);
    WithoutTwice(order0, removed, {id});
    RemoveOneMore(locks0, removed, id);
    KeysOfAdd(removed, id);
    RemoveOneMore(entries0, KeysOf(removed), LockKey(id));
  }

  /** Dropping any set of ids from a valid table and its order leaves them valid. */
  lemma StillValid(locks: map<string, LockInfo>, order: seq<string>, removed: set<string>)
    requires WellKeyed(locks) && Distinct(order) && (forall id :: id in locks <==> id in order)
    ensures WellKeyed(locks - removed) && Distinct(Without(order, removed))
    ensures forall id :: id in locks - removed <==> id in Without(order, removed)
  {
    WithoutDistinct(order, removed);
  }

  /** One more candidate tried: it joins the released ones exactly when it is releasable. */
  lemma ReleasedSoFarStep(owned: set<string>, candidates: set<string>, gone: set<string>, removed: set<string>, id: string)
    requires id in candidates && candidates <= owned
    requires removed == (owned - candidates) * gone
    ensures id !in removed
    ensures id in gone ==> removed + {id} == (owned - (candidates - {id})) * gone && |removed + {id}| == |removed| + 1
    ensures id !in gone ==> removed == (owned - (candidates - {id})) * gone
  {
  }

  lemma RemoveOneMore<K, V>(m: map<K, V>, removed: set<K>, k: K)
    ensures (m - removed) - {k} == m - (removed + {k})
  {
  }

  lemma KeysOfAdd(ids: set<string>, id: string)
    ensures KeysOf(ids + {id}) == KeysOf(ids) + {LockKey(id)}
  {
  }

  /** Removing the keys of other ids leaves this id's backend entry as it was. */
  lemma EntryUntouched(entries: map<string, StoredLock>, ids: set<string>, id: string)
    requires id !in ids
    ensures LockKey(id) in entries - KeysOf(ids) <==> LockKey(id) in entries
    ensures LockKey(id) in entries ==> (entries - KeysOf(ids))[LockKey(id)] == entries[LockKey(id)]
  {
    KeysOfMissKey(ids, id);
  }

  /** The backend key of an id outside `ids` is not among the keys of `ids`. */
  lemma KeysOfMissKey(ids: set<string>, id: string)
    requires id !in ids
    ensures LockKey(id) !in KeysOf(ids)
  {
    if LockKey(id) in KeysOf(ids) {
      var other :| other in ids && LockKey(other) == LockKey(id);
      LockKeyInjective(other, id);
    }
  }
}
