/** auth/token_pool.py: the in-process run-grant cache, the mint locks and the Redis entry. */
module TokenPool {
  import opened Prelude
  import opened OrderedDict
  import opened GrantTokens

  const LOCAL_CACHE_MAX := 1024
  const LOCKS_MAX := 4096

  /** A mint lock is kept per event loop and cache key. */
  type LockKey = (nat, string)

  type Local = Dict<string, GrantToken>

  type Locks = Dict<LockKey, nat>

  // ----- the in-process cache -----

  /** `_store_run_grant`, first half: keep a usable grant, then drop the oldest past the bound. */
  function StoreLocal(local: Local, key: string, grant: GrantToken, now: real): Local {
    if !grant.Usable(now) then local
    else
      var kept := PutLast(local, key, grant);
      if |kept.entries| > LOCAL_CACHE_MAX && kept.order != [] then Pop(kept, kept.order[0]) else kept
  }

  /** `_cached_run_grant` after the Redis read: the Redis grant, else a usable local one; an unusable local one is dropped. */
  function CachedGrant(local: Local, key: string, fromRedis: Option<GrantToken>, now: real): (r: (Local, Option<GrantToken>))
    ensures r.1.Some? ==> r.1.value.Usable(now) && r.1.value.source == PoolCache
    ensures r.1.None? ==> !(key in local.entries && local.entries[key].Usable(now))
    ensures r.1.None? ==> !(fromRedis.Some? && fromRedis.value.token != "" && fromRedis.value.Usable(now))
    ensures r.1.Some? && fromRedis.Some? && fromRedis.value.token != "" && fromRedis.value.Usable(now) ==>
              SameGrant(r.1.value, fromRedis.value)
    ensures r.1.Some? && !(fromRedis.Some? && fromRedis.value.token != "" && fromRedis.value.Usable(now)) ==>
              key in local.entries && SameGrant(r.1.value, local.entries[key])
  {
    if fromRedis.Some? && fromRedis.value.token != "" && fromRedis.value.Usable(now) then
      (local, Some(fromRedis.value.(source := PoolCache)))
    else if key in local.entries && local.entries[key].Usable(now) then
      (local, Some(local.entries[key].(source := PoolCache)))
    else (Pop(local, key), None)
  }

  /** The lifetime `_store_run_grant` asks Redis for; nothing is written unless it is positive. */
  function RedisTtl(grant: GrantToken, now: real): int
    requires grant.expiresAt.Some?
  {
    Trunc(grant.expiresAt.value - now) - MinRemaining(grant.ttl)
  }

  /** The part of a second that the truncation of the remaining lifetime drops. */
  function Fraction(grant: GrantToken, computed: real): real
    requires grant.expiresAt.Some?
  {
    var left := grant.expiresAt.value - computed;
    left - Trunc(left) as real
  }

  /** A Redis entry whose lifetime was computed at `computed` and that is written at `written`: it goes no later
      than the grant stops being usable exactly when the write took no longer than the fraction of a second the
      truncation dropped; at worst it goes later by the time the write took. */
  lemma RedisEntryExpiresInTime(grant: GrantToken, computed: real, written: real)
    requires grant.expiresAt.Some? && computed <= written && RedisTtl(grant, computed) > 0
    ensures var expires := written + RedisTtl(grant, computed) as real;
            && (expires <= grant.UsableUntil() <==> written - computed <= Fraction(grant, computed))
            && grant.UsableUntil() + (written - computed) - 1.0 < expires <= grant.UsableUntil() + (written - computed)
    ensures grant.Usable(computed)
  {
    assert grant.expiresAt.value - computed >= 0.0;
  }

  lemma StoreLocalValid(local: Local, key: string, grant: GrantToken, now: real)
    requires Valid(local) && |local.entries| <= LOCAL_CACHE_MAX
    ensures var after := StoreLocal(local, key, grant, now);
            && Valid(after) && |after.entries| <= LOCAL_CACHE_MAX
            && (grant.Usable(now) ==> key in after.entries && after.entries[key] == grant)
            && (forall k :: k in after.entries && k != key ==> k in local.entries && after.entries[k] == local.entries[k])
            && (|local.entries| < LOCAL_CACHE_MAX ==> forall k :: k in local.entries ==> k in after.entries)
  {
    if grant.Usable(now) {
      var kept := PutLast(local, key, grant);
      PutLastValid(local, key, grant);
      SameSize(kept);
      if |kept.entries| > LOCAL_CACHE_MAX {
        var last := |kept.order| - 1;
        assert kept.order[last] == key && 0 < last;
        assert kept.order[0] != key;
        PopValid(kept, kept.order[0]);
      }
    }
  }

  /** A full cache gives up the grant stored longest ago, and only for a new key. */
  lemma StoreDropsOldest(local: Local, key: string, grant: GrantToken, now: real, gone: string)
    requires Valid(local) && |local.entries| <= 1024 && gone in local.entries
    ensures gone !in StoreLocal(local, key, grant, now).entries <==>
            grant.Usable(now) && key !in local.entries && |local.entries| == 1024 && gone == local.order[0]
  {
    var kept := PutLast(local, key, grant);
    PutSize(local, key, grant);
    assert gone in local.order;
    if key !in local.entries {
      assert kept.order == local.order + [key];
    }
    assert gone in kept.entries;
  }

  lemma PutSize(local: Local, key: string, grant: GrantToken)
    requires Valid(local)
    ensures |PutLast(local, key, grant).entries| == |local.entries| + if key in local.entries then 0 else 1
    ensures PutLast(local, key, grant).order != []
  {
    PutLastValid(local, key, grant);
  }

  /** What a store or a look leaves in the cache was there, or is the grant stored. */
  lemma StoreLeaves(local: Local, key: string, grant: GrantToken, now: real, k: string)
    requires k in StoreLocal(local, key, grant, now).entries
    ensures var after := StoreLocal(local, key, grant, now);
            (k == key && after.entries[k] == grant) || (k in local.entries && after.entries[k] == local.entries[k])
  {}

  /** A look drops the key's own grant, when that is no longer usable, and nothing else. */
  lemma LookLeaves(local: Local, key: string, fromRedis: Option<GrantToken>, now: real, k: string)
    ensures var after := CachedGrant(local, key, fromRedis, now).0;
            && (k in after.entries ==> k in local.entries && after.entries[k] == local.entries[k])
            && (k in local.entries && k !in after.entries ==> k == key && !local.entries[k].Usable(now))
  {}

  // ----- the mint locks -----

  /** The oldest entry whose lock nobody holds. */
  function FirstIdle(locks: Locks, held: set<nat>, from: nat := 0): (r: Option<LockKey>)
    requires from <= |locks.order|
    ensures r.Some? ==> r.value in locks.entries && locks.entries[r.value] !in held
                        && exists i :: from <= i < |locks.order| && locks.order[i] == r.value
                                       && forall j :: from <= j < i && locks.order[j] in locks.entries ==> locks.entries[locks.order[j]] in held
    ensures r.None? ==> forall i :: from <= i < |locks.order| && locks.order[i] in locks.entries ==> locks.entries[locks.order[i]] in held
    decreases |locks.order| - from
  {
    if from == |locks.order| then None
    else if locks.order[from] in locks.entries && locks.entries[locks.order[from]] !in held then Some(locks.order[from])
    else FirstIdle(locks, held, from + 1)
  }

  /** `_mint_lock`: the key's lock, else a new one; a full map gives up its oldest idle lock, or
      leaves the new lock unshared when every lock is held. */
  function MintLock(locks: Locks, held: set<nat>, key: LockKey, made: nat): (Locks, nat) {
    if key in locks.entries then (locks, locks.entries[key])
    else if |locks.entries| < LOCKS_MAX then (PutLast(locks, key, made), made)
    else
      match FirstIdle(locks, held)
      case Some(stale) => (PutLast(Pop(locks, stale), key, made), made)
      case None => (locks, made)
  }

  lemma MintLockValid(locks: Locks, held: set<nat>, key: LockKey, made: nat)
    requires Valid(locks) && |locks.entries| <= LOCKS_MAX
    ensures var (after, lock) := MintLock(locks, held, key, made);
            && Valid(after) && |after.entries| <= LOCKS_MAX
            && (lock == made || (key in locks.entries && lock == locks.entries[key]))
            && (forall k :: k in after.entries && k != key ==> k in locks.entries && after.entries[k] == locks.entries[k])
            && (key in after.entries ==> after.entries[key] == lock)
            // below the bound nothing is given up and the lock is shared
            && (|locks.entries| < LOCKS_MAX || key in locks.entries ==>
                  key in after.entries && forall k :: k in locks.entries ==> k in after.entries && after.entries[k] == locks.entries[k])
            // a lock somebody holds is never given up
            && (forall k :: k in locks.entries && locks.entries[k] in held ==> k in after.entries && after.entries[k] == locks.entries[k])
  {
    if key !in locks.entries {
      if |locks.entries| < LOCKS_MAX {
        PutLastValid(locks, key, made);
      } else {
        match FirstIdle(locks, held)
        case Some(stale) =>
          PopValid(locks, stale);
          PutLastValid(Pop(locks, stale), key, made);
        case None =>
      }
    }
  }

  /** `TokenPool`, its two bounded maps updated in place. */
  class Pool {
    var local: Local
    var locks: Locks

    ghost predicate Ok() reads this {
      && Valid(local) && |local.entries| <= LOCAL_CACHE_MAX
      && Valid(locks) && |locks.entries| <= LOCKS_MAX
    }

    constructor ()
      ensures Ok() && local == Empty() && locks == Empty()
    {
      local, locks := Empty(), Empty();
    }

    /** `self._local_grants[key] = grant`, `move_to_end`, and the trimming loop. */
    method StoreGrant(key: string, grant: GrantToken, now: real)
      requires Ok()
      modifies this
      ensures Ok() && locks == old(locks)
      ensures local == StoreLocal(old(local), key, grant, now)
    {
      StoreLocalValid(local, key, grant, now);
      if grant.expiresAt.None? || !grant.Usable(now) {
        return;
      }
      PutLastValid(local, key, grant);
      local := PutLast(local, key, grant);
      ghost var kept := local;
      while |local.entries| > LOCAL_CACHE_MAX
        invariant Valid(local) && locks == old(locks)
        invariant |local.entries| <= LOCAL_CACHE_MAX ==>
                    local == if |kept.entries| > LOCAL_CACHE_MAX && kept.order != [] then Pop(kept, kept.order[0]) else kept
        invariant |local.entries| > LOCAL_CACHE_MAX ==> local == kept
        decreases |local.entries|
      {
        SameSize(local);
        PopValid(local, local.order[0]);
        local := Pop(local, local.order[0]);
      }
    }

    method LookUp(key: string, fromRedis: Option<GrantToken>, now: real) returns (grant: Option<GrantToken>)
      requires Ok()
      modifies this
      ensures Ok() && locks == old(locks)
      ensures (local, grant) == CachedGrant(old(local), key, fromRedis, now)
    {
      PopValid(local, key);
      grant := None;
      if fromRedis.Some? && fromRedis.value.token != "" && fromRedis.value.Usable(now) {
        grant := Some(fromRedis.value.(source := PoolCache));
      }
      if grant.None? {
        if key in local.entries && local.entries[key].Usable(now) {
          grant := Some(local.entries[key].(source := PoolCache));
        } else {
          local := Pop(local, key);
        }
      }
    }

    /** The loop that makes room in a full lock map. */
    method DropIdle(held: set<nat>)
      requires Ok()
      modifies this
      ensures Ok() && local == old(local)
      ensures locks == if FirstIdle(old(locks), held).Some? then Pop(old(locks), FirstIdle(old(locks), held).value) else old(locks)
    {
      var i := 0;
      while i < |locks.order|
        invariant i <= |locks.order| && local == old(local) && locks == old(locks)
        invariant FirstIdle(locks, held) == FirstIdle(locks, held, i)
      {
        var stale := locks.order[i];
        if locks.entries[stale] !in held {
          PopValid(locks, stale);
          locks := Pop(locks, stale);
          return;
        }
        i := i + 1;
      }
    }

    method LockFor(key: LockKey, held: set<nat>, made: nat) returns (lock: nat)
      requires Ok()
      modifies this
      ensures Ok() && local == old(local)
      ensures (locks, lock) == MintLock(old(locks), held, key, made)
    {
      if key in locks.entries {
        return locks.entries[key];
      }
      ghost var before := locks;
      if |locks.entries| >= LOCKS_MAX {
        DropIdle(held);
        if FirstIdle(before, held).Some? { PopValid(before, FirstIdle(before, held).value); }
      }
      if |locks.entries| < LOCKS_MAX {
        PutLastValid(locks, key, made);
        locks := PutLast(locks, key, made);
      }
      return made;
    }
  }
}
