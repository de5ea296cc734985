/** The shared runtime state of the version engine: a cache of check
    responses with a time-to-live, and a table of per-image update locks.
    The wall clock is the parameter `now` (milliseconds since the epoch). */
module VersionState {
  import opened Wrappers
  import opened Contracts

  /** How long an update lock stays valid: 15 minutes. */
  const LockTimeoutMs: nat := 900_000

  datatype VersionCheckCache = VersionCheckCache(response: CheckImageVersionResponse, cachedAt: nat)

  datatype UpdateLock = UpdateLock(operationId: string, imageKey: string, lockedAt: nat)

  /** `is_expired`: older than the limit, or stamped in the future (the
      elapsed time cannot be computed then, and that counts as expired). */
  predicate IsExpired(stampedAt: nat, limit: nat, now: nat) {
    stampedAt > now || now - stampedAt > limit
  }

  /** An entry is fresh exactly on the closed interval [stamp, stamp + limit]. */
  lemma FreshInterval(stampedAt: nat, limit: nat, now: nat)
    ensures !IsExpired(stampedAt, limit, now) <==> stampedAt <= now <= stampedAt + limit
  {
  }

  /** What `get_cached_check` answers for a cache map. */
  function CachedLookup(cache: map<string, VersionCheckCache>, key: string, ttl: nat, now: nat)
    : Option<CheckImageVersionResponse>
  {
    if key in cache && !IsExpired(cache[key].cachedAt, ttl, now) then Some(cache[key].response) else None
  }

  /** What `cleanup_cache` keeps: the entries that are not expired. */
  function Retained(cache: map<string, VersionCheckCache>, ttl: nat, now: nat)
    : map<string, VersionCheckCache>
  {
    map k | k in cache && !IsExpired(cache[k].cachedAt, ttl, now) :: cache[k]
  }

  /** The lock table with every expired lock removed, across all keys. */
  function Swept(locks: map<string, UpdateLock>, now: nat): map<string, UpdateLock> {
    map k | k in locks && !IsExpired(locks[k].lockedAt, LockTimeoutMs, now) :: locks[k]
  }

  /** The error `try_lock_update` reports for a held image. */
  function ConflictMessage(imageKey: string, holder: string): string {
    "镜像 " + imageKey + " 正在被操作 " + holder + " 更新中"
  }

  datatype LockOutcome = LockOutcome(result: Result<Unit, string>, locks: map<string, UpdateLock>)

  /** `try_lock_update` on a lock table: sweep, refuse if a live lock holds
      the key, otherwise take it. */
  function TryLock(locks: map<string, UpdateLock>, imageKey: string, operationId: string, now: nat)
    : LockOutcome
  {
    var swept := Swept(locks, now);
    if imageKey in swept && !IsExpired(swept[imageKey].lockedAt, LockTimeoutMs, now) then
      LockOutcome(Err(ConflictMessage(imageKey, swept[imageKey].operationId)), swept)
    else
      LockOutcome(Ok(Unit), swept[imageKey := UpdateLock(operationId, imageKey, now)])
  }

  /** A key is held at `now` when a lock for it has not expired. */
  predicate Held(locks: map<string, UpdateLock>, key: string, now: nat) {
    key in locks && !IsExpired(locks[key].lockedAt, LockTimeoutMs, now)
  }

  /** Taking a lock succeeds exactly when no live lock holds the key. On
      success the key maps to the caller's fresh lock; on failure the error
      names the holder and the holder's lock stays. Either way every other
      key keeps exactly its live lock and every remaining lock is live. */
  lemma {:induction false} TryLockSpec(locks: map<string, UpdateLock>, key: string, op: string, now: nat)
    ensures var o := TryLock(locks, key, op, now);
      && (o.result.Ok? <==> !Held(locks, key, now))
      && (o.result.Ok? ==> key in o.locks && o.locks[key] == UpdateLock(op, key, now))
      && (o.result.Err? ==>
            o.result.error == ConflictMessage(key, locks[key].operationId)
            && key in o.locks && o.locks[key] == locks[key])
      && (forall k :: k != key ==> (k in o.locks <==> Held(locks, k, now)))
      && (forall k :: k != key && k in o.locks ==> o.locks[k] == locks[k])
      && (forall k :: k in o.locks ==> Held(o.locks, k, now))
  {
    var swept := Swept(locks, now);
    assert key in swept <==> Held(locks, key, now);
  }

  /** Mutual exclusion: once an operation takes the lock, any other attempt
      within the next 15 minutes fails and names that operation. */
  lemma LockExcludes(locks: map<string, UpdateLock>, key: string, op1: string, op2: string,
                     t1: nat, t2: nat)
    requires TryLock(locks, key, op1, t1).result.Ok?
    requires t1 <= t2 <= t1 + LockTimeoutMs
    ensures var second := TryLock(TryLock(locks, key, op1, t1).locks, key, op2, t2);
      second.result == Err(ConflictMessage(key, op1))
  {
    TryLockSpec(locks, key, op1, t1);
    var l1 := TryLock(locks, key, op1, t1).locks;
    TryLockSpec(l1, key, op2, t2);
  }

  /** After the lock has been held for more than 15 minutes, anyone may take
      it over. */
  lemma StaleLockIsTakenOver(locks: map<string, UpdateLock>, key: string, op1: string, op2: string,
                             t1: nat, t2: nat)
    requires TryLock(locks, key, op1, t1).result.Ok?
    requires t2 > t1 + LockTimeoutMs
    ensures TryLock(TryLock(locks, key, op1, t1).locks, key, op2, t2).result.Ok?
  {
    TryLockSpec(locks, key, op1, t1);
    var l1 := TryLock(locks, key, op1, t1).locks;
    TryLockSpec(l1, key, op2, t2);
  }

  /** Releasing a key makes the next attempt on it succeed. */
  lemma UnlockThenLockSucceeds(locks: map<string, UpdateLock>, key: string, op: string, now: nat)
    ensures TryLock(locks - {key}, key, op, now).result.Ok?
  {
    TryLockSpec(locks - {key}, key, op, now);
  }

  /** Looking up an entry just cached gives it back while the TTL lasts,
      and nothing once the TTL has passed. */
  lemma CacheThenLookup(cache: map<string, VersionCheckCache>, key: string,
                        response: CheckImageVersionResponse, cachedAt: nat, ttl: nat, now: nat)
    requires cachedAt <= now
    ensures var c := cache[key := VersionCheckCache(response, cachedAt)];
      CachedLookup(c, key, ttl, now) == (if now - cachedAt <= ttl then Some(response) else None)
  {
  }

  /** Caching one key leaves every other key's answer unchanged. */
  lemma CacheOtherKeys(cache: map<string, VersionCheckCache>, key: string, other: string,
                       response: CheckImageVersionResponse, cachedAt: nat, ttl: nat, now: nat)
    requires other != key
    ensures CachedLookup(cache[key := VersionCheckCache(response, cachedAt)], other, ttl, now)
         == CachedLookup(cache, other, ttl, now)
  {
  }

  /** Cleaning up the cache never changes what a lookup with the same TTL
      and clock answers. */
  lemma RetainedKeepsAnswers(cache: map<string, VersionCheckCache>, key: string, ttl: nat, now: nat)
    ensures CachedLookup(Retained(cache, ttl, now), key, ttl, now) == CachedLookup(cache, key, ttl, now)
  {
  }

  class VersionRuntimeState {
    var checkCache: map<string, VersionCheckCache>
    var updateLocks: map<string, UpdateLock>

    constructor()
      ensures checkCache == map[] && updateLocks == map[]
    {
      checkCache := map[];
      updateLocks := map[];
    }

    /** `get_cached_check`: the response for the key while it is fresh;
        the cache itself is left as it is. */
    method GetCachedCheck(imageKey: string, ttl: nat, now: nat) returns (r: Option<CheckImageVersionResponse>)
      ensures r == CachedLookup(checkCache, imageKey, ttl, now)
      ensures r.Some? <==> imageKey in checkCache && checkCache[imageKey].cachedAt <= now <= checkCache[imageKey].cachedAt + ttl
      ensures r.Some? ==> r.value == checkCache[imageKey].response
    {
      if imageKey in checkCache {
        var entry := checkCache[imageKey];
        if IsExpired(entry.cachedAt, ttl, now) {
          r := None;
        } else {
          r := Some(entry.response);
        }
      } else {
        r := None;
      }
    }

    /** `cache_check`: overwrite the key's entry, stamped with `now`. */
    method CacheCheck(imageKey: string, response: CheckImageVersionResponse, now: nat)
      modifies this
      ensures checkCache == old(checkCache)[imageKey := VersionCheckCache(response, now)]
      ensures updateLocks == old(updateLocks)
    {
      checkCache := checkCache[imageKey := VersionCheckCache(response, now)];
    }

    /** `try_lock_update`: remove every expired lock, then refuse if the key
        is held, else take it for `operationId`. */
    method TryLockUpdate(imageKey: string, operationId: string, now: nat) returns (r: Result<Unit, string>)
      modifies this
      ensures r == TryLock(old(updateLocks), imageKey, operationId, now).result
      ensures updateLocks == TryLock(old(updateLocks), imageKey, operationId, now).locks
      ensures checkCache == old(checkCache)
    {
      var locks0 := updateLocks;
      var expiredKeys := set k | k in updateLocks && IsExpired(updateLocks[k].lockedAt, LockTimeoutMs, now);
      var pending := expiredKeys;
      while pending != {}
        invariant pending <= expiredKeys
        invariant checkCache == old(checkCache)
        invariant forall k :: k in updateLocks <==> k in locks0 && (k !in expiredKeys || k in pending)
        invariant forall k :: k in updateLocks ==> updateLocks[k] == locks0[k]
        decreases pending
      {
        var key :| key in pending;
        updateLocks := updateLocks - {key};
        pending := pending - {key};
      }
      assert updateLocks == Swept(locks0, now);

      if imageKey in updateLocks {
        var existing := updateLocks[imageKey];
        if !IsExpired(existing.lockedAt, LockTimeoutMs, now) {
          r := Err(ConflictMessage(imageKey, existing.operationId));
          return;
        }
      }

      updateLocks := updateLocks[imageKey := UpdateLock(operationId, imageKey, now)];
      r := Ok(Unit);
    }

    /** `unlock_update`: drop the key's lock, whoever holds it. */
    method UnlockUpdate(imageKey: string)
      modifies this
      ensures updateLocks == old(updateLocks) - {imageKey}
      ensures checkCache == old(checkCache)
    {
      updateLocks := updateLocks - {imageKey};
    }

    /** `cleanup_cache`: keep exactly the entries that have not expired. */
    method CleanupCache(ttl: nat, now: nat)
      modifies this
      ensures checkCache == Retained(old(checkCache), ttl, now)
      ensures updateLocks == old(updateLocks)
    {
      checkCache := map k | k in checkCache && !IsExpired(checkCache[k].cachedAt, ttl, now) :: checkCache[k];
    }
  }

  /** The lock round of the unit tests: op-123 takes "nginx:latest", op-456
      is refused, the key is released, and op-789 takes it. */
  method LockScenario(now: nat) returns (first: Result<Unit, string>, second: Result<Unit, string>,
                                        third: Result<Unit, string>)
    ensures first.Ok?
    ensures second == Err(ConflictMessage("nginx:latest", "op-123"))
    ensures third.Ok?
  {
    var state := new VersionRuntimeState();
    first := state.TryLockUpdate("nginx:latest", "op-123", now);
    TryLockSpec(map[], "nginx:latest", "op-123", now);
    LockExcludes(map[], "nginx:latest", "op-123", "op-456", now, now);
    second := state.TryLockUpdate("nginx:latest", "op-456", now);
    var beforeUnlock := state.updateLocks;
    state.UnlockUpdate("nginx:latest");
    UnlockThenLockSucceeds(beforeUnlock, "nginx:latest", "op-789", now);
    third := state.TryLockUpdate("nginx:latest", "op-789", now);
  }

  /** The cache round of the unit tests: an entry cached at `now` is served
      with a 60-second TTL, and is gone with a zero TTL once the clock has
      moved on. */
  method CacheScenario(response: CheckImageVersionResponse, now: nat)
    returns (withLongTtl: Option<CheckImageVersionResponse>, withZeroTtl: Option<CheckImageVersionResponse>)
    ensures withLongTtl == Some(response)
    ensures withZeroTtl == None
  {
    var state := new VersionRuntimeState();
    state.CacheCheck("nginx:latest", response, now);
    withLongTtl := state.GetCachedCheck("nginx:latest", 60_000, now);
    withZeroTtl := state.GetCachedCheck("nginx:latest", 0, now + 1);
  }
}
