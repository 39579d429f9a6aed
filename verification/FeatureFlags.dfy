/** core/feature_flags.py: the bounded in-process cache behind the strict and the lenient lookups. */
module FeatureFlags {
  import opened Prelude
  import opened GrantModes

  const CACHE_TTL := 30.0
  const CACHE_MAX := 2048

  /** The first half of a cache key: "_global", a tenant id, or "rows:" and a tenant id. */
  datatype Scope = Global | OneTenant(tenant: string) | BothRows(tenant: string)

  datatype Key = Key(scope: Scope, flag: string)

  datatype Value = Single(row: Option<Row>) | Pair(rows: FlagRows) | LookupFailed

  datatype Entry = Entry(value: Value, expires: real)

  type Cache = map<Key, Entry>

  /** The stored flag rows at each moment, by tenant (`None` is the global row) and flag. */
  type Database = (real, Option<string>, string) -> Option<Row>

  /** What the database holds for a key: the tenant row hides the global one only in a single lookup. */
  function Truth(db: Database, at: real, key: Key): Value {
    match key.scope
    case Global => Single(db(at, None, key.flag))
    case OneTenant(t) => Single(if db(at, Some(t), key.flag).Some? then db(at, Some(t), key.flag) else db(at, None, key.flag))
    case BothRows(t) => Pair(FlagRows(db(at, None, key.flag), db(at, Some(t), key.flag)))
  }

  // ----- _store_cache -----

  ghost predicate Expired(e: Entry, now: real) { e.expires <= now }

  /** `_store_cache`: a full cache drops what has expired and then, while still full, what expires first. */
  ghost predicate Stored(before: Cache, after: Cache, key: Key, entry: Entry, now: real) {
    && key in after && after[key] == entry
    && (forall k :: k in after && k != key ==> k in before && after[k] == before[k])
    && (key in before || |before| < CACHE_MAX ==> after == before[key := entry])
    && (forall k, kept :: k in before && k !in after && !Expired(before[k], now) && kept in after && kept != key ==>
                            !Expired(before[kept], now) && before[k].expires <= before[kept].expires)
    && (|before| <= CACHE_MAX ==> |after| <= CACHE_MAX)
  }

  class FlagCache {
    var cache: Cache

    constructor ()
      ensures cache == map[]
    {
      cache := map[];
    }

    method FirstToExpire() returns (victim: Key)
      requires cache != map[]
      ensures victim in cache && forall k :: k in cache ==> cache[victim].expires <= cache[k].expires
    {
      var rest := cache.Keys;
      victim :| victim in rest;
      rest := rest - {victim};
      while rest != {}
        invariant rest <= cache.Keys && victim in cache
        invariant forall k :: k in cache && k !in rest ==> cache[victim].expires <= cache[k].expires
        decreases |rest|
      {
        var k :| k in rest;
        if cache[k].expires < cache[victim].expires {
          victim := k;
        }
        rest := rest - {k};
      }
    }

    /** The pass that collects and pops the expired keys. */
    method DropExpired(now: real)
      modifies this
      ensures forall k :: k in cache <==> k in old(cache) && !Expired(old(cache)[k], now)
      ensures forall k :: k in cache ==> cache[k] == old(cache)[k]
      ensures cache.Keys <= old(cache).Keys
    {
      var rest := cache.Keys;
      while rest != {}
        invariant rest <= cache.Keys <= old(cache).Keys
        invariant forall k :: k in cache ==> cache[k] == old(cache)[k]
        invariant forall k :: k in old(cache) && k !in rest ==> (k in cache <==> !Expired(old(cache)[k], now))
        decreases |rest|
      {
        var k :| k in rest;
        rest := rest - {k};
        if cache[k].expires <= now {
          cache := cache - {k};
        }
      }
    }

    method StoreCache(key: Key, value: Value, expires: real, now: real)
      modifies this
      ensures Stored(old(cache), cache, key, Entry(value, expires), now)
    {
      ghost var before := cache;
      if key !in cache && |cache| >= CACHE_MAX {
        DropExpired(now);
        while |cache| >= CACHE_MAX
          invariant forall k :: k in cache ==> k in before && cache[k] == before[k] && !Expired(before[k], now)
          invariant forall k, kept :: k in before && k !in cache && !Expired(before[k], now) && kept in cache ==>
                                        before[k].expires <= before[kept].expires
          decreases |cache|
        {
          var victim := FirstToExpire();
          ghost var full := cache;
          cache := cache - {victim};
          assert cache.Keys == full.Keys - {victim};
        }
      }
      ghost var kept := cache;
      cache := cache[key := Entry(value, expires)];
      assert cache.Keys == kept.Keys + {key};
    }

    /** The shared shape of `_load_flag` (lenient), `is_enabled_strict` and `load_flag_rows_strict`, undisturbed:
        the lookup starts at `now`, the database answers `fetched` (`None` when it raises), and `_store_cache` reads
        the clock again at `later`. */
    method Load(key: Key, strict: bool, now: real, later: real, fetched: Option<Value>) returns (result: Option<Value>)
      modifies this
      ensures if Hit(old(cache), key, strict, now) then cache == old(cache) && result == Some(old(cache)[key].value)
              else Completed(old(cache), cache, Pending(key, strict, now), fetched, later) && result == Outcome(strict, fetched)
    {
      if key in cache && cache[key].expires > now && !(strict && cache[key].value.LookupFailed?) {
        return Some(cache[key].value);
      }
      if fetched.None? {
        if strict {
          return None;
        }
        StoreCache(key, LookupFailed, now + CACHE_TTL, later);
        return Some(LookupFailed);
      }
      StoreCache(key, fetched.value, now + CACHE_TTL, later);
      return fetched;
    }
  }

  predicate Hit(cache: Cache, key: Key, strict: bool, now: real) {
    key in cache && cache[key].expires > now && !(strict && cache[key].value.LookupFailed?)
  }

  /** A lookup that missed and awaits the database. */
  datatype Pending = Pending(key: Key, strict: bool, began: real)

  /** What the caller gets: `None` is `FeatureFlagLookupError`. */
  function Outcome(strict: bool, fetched: Option<Value>): Option<Value> {
    if fetched.None? && !strict then Some(LookupFailed) else fetched
  }

  /** The code after the await: a strict failure caches nothing, anything else lives thirty seconds from the start. */
  ghost predicate Completed(before: Cache, after: Cache, p: Pending, fetched: Option<Value>, now: real) {
    match Outcome(p.strict, fetched)
    case None => after == before
    case Some(value) => Stored(before, after, p.key, Entry(value, p.began + CACHE_TTL), now)
  }

  /** What a lookup leaves behind serves every lookup of the key that begins within thirty seconds of its own start;
      the failure of a lenient one only the lenient ones, and that of a strict one none. */
  lemma KeptForThirty(before: Cache, after: Cache, p: Pending, fetched: Option<Value>, now: real, strict: bool, at: real)
    requires Completed(before, after, p, fetched, now) && fetched != Some(LookupFailed) && (fetched.Some? || !p.strict)
    ensures Hit(after, p.key, strict, at) <==> at < p.began + 30.0 && (fetched.None? ==> !strict)
    ensures p.key in after && after[p.key].value == if fetched.Some? then fetched.value else LookupFailed
  {}

  // ----- every interleaving in one process -----

  datatype Answer = Answer(key: Key, strict: bool, began: real, at: real, result: Option<Value>)

  datatype State = State(clock: real, cache: Cache, pending: map<nat, Pending>, answers: seq<Answer>)

  /** A lookup starts, or its database read, made at `readAt`, comes back (`None` when it raised). */
  datatype Event = Begin(id: nat, key: Key, strict: bool, now: real) | Finish(id: nat, readAt: Option<real>, now: real)

  function Fetched(db: Database, key: Key, readAt: Option<real>): Option<Value> {
    if readAt.Some? then Some(Truth(db, readAt.value, key)) else None
  }

  ghost predicate Step(db: Database, s: State, e: Event, t: State) {
    && s.clock <= e.now && t.clock == e.now
    && match e
       case Begin(id, key, strict, now) =>
         && id !in s.pending && t.cache == s.cache
         && (if Hit(s.cache, key, strict, now)
             then t.pending == s.pending && t.answers == s.answers + [Answer(key, strict, now, now, Some(s.cache[key].value))]
             else t.pending == s.pending[id := Pending(key, strict, now)] && t.answers == s.answers)
       case Finish(id, readAt, now) =>
         && id in s.pending
         && (readAt.Some? ==> s.pending[id].began <= readAt.value <= now)
         && var p := s.pending[id];
            var fetched := Fetched(db, p.key, readAt);
            && Completed(s.cache, t.cache, p, fetched, now) && t.pending == s.pending - {id}
            && t.answers == s.answers + [Answer(p.key, p.strict, p.began, now, Outcome(p.strict, fetched))]
  }

  ghost predicate Next(db: Database, s: State, t: State) {
    exists e :: Step(db, s, e, t)
  }

  /** Any number of lookups in progress at once; the clock never goes back. */
  ghost predicate Run(db: Database, states: seq<State>) {
    && |states| > 0 && states[0] == State(states[0].clock, map[], map[], [])
    && forall i :: 0 <= i < |states| - 1 ==> Next(db, states[i], states[i + 1])
  }

  /** The value was what the database held at some moment of the interval. */
  ghost predicate TrueDuring(db: Database, key: Key, value: Value, from: real, to: real) {
    exists at :: from <= at <= to && Truth(db, at, key) == value
  }

  /** Every usable entry tells the truth of a moment at most one TTL before it expires. */
  ghost predicate CacheInv(db: Database, cache: Cache, clock: real) {
    forall k :: k in cache && !cache[k].value.LookupFailed? ==>
                  TrueDuring(db, k, cache[k].value, cache[k].expires - CACHE_TTL, clock)
  }

  /** A strict answer is never a failure, and was true less than one TTL before its lookup began, or since. */
  ghost predicate Truthful(db: Database, a: Answer) {
    a.strict && a.result.Some? ==>
      !a.result.value.LookupFailed? && exists at :: a.began - CACHE_TTL < at <= a.at && Truth(db, at, a.key) == a.result.value
  }

  ghost predicate Inv(db: Database, s: State) {
    && CacheInv(db, s.cache, s.clock)
    && (forall id :: id in s.pending ==> s.pending[id].began <= s.clock)
    && (forall a :: a in s.answers ==> Truthful(db, a))
  }

  lemma CacheStays(db: Database, cache: Cache, clock: real, later: real)
    requires CacheInv(db, cache, clock) && clock <= later
    ensures CacheInv(db, cache, later)
  {
    forall k | k in cache && !cache[k].value.LookupFailed?
      ensures TrueDuring(db, k, cache[k].value, cache[k].expires - CACHE_TTL, later)
    {
      var at :| cache[k].expires - CACHE_TTL <= at <= clock && Truth(db, at, k) == cache[k].value;
    }
  }

  lemma StoredKeeps(db: Database, before: Cache, after: Cache, p: Pending, readAt: Option<real>, now: real)
    requires CacheInv(db, before, now) && Completed(before, after, p, Fetched(db, p.key, readAt), now)
    requires readAt.Some? ==> p.began <= readAt.value <= now
    ensures CacheInv(db, after, now)
  {
    forall k | k in after && !after[k].value.LookupFailed?
      ensures TrueDuring(db, k, after[k].value, after[k].expires - CACHE_TTL, now)
    {
      if !(k in before && after[k] == before[k]) {
        assert k == p.key && Truth(db, readAt.value, k) == after[k].value;
      }
    }
  }

  lemma StepKeeps(db: Database, s: State, e: Event, t: State)
    requires Inv(db, s) && Step(db, s, e, t)
    ensures Inv(db, t)
  {
    CacheStays(db, s.cache, s.clock, e.now);
    match e
    case Begin(id, key, strict, now) =>
      if Hit(s.cache, key, strict, now) && strict {
        assert TrueDuring(db, key, s.cache[key].value, s.cache[key].expires - CACHE_TTL, now);
      }
    case Finish(id, readAt, now) =>
      var p := s.pending[id];
      StoredKeeps(db, s.cache, t.cache, p, readAt, now);
      if readAt.Some? {
        assert Truth(db, readAt.value, p.key) == Fetched(db, p.key, readAt).value;
      }
  }

  lemma {:induction false} RunKeeps(db: Database, states: seq<State>, i: nat)
    requires Run(db, states) && i < |states|
    ensures Inv(db, states[i])
  {
    if i > 0 {
      RunKeeps(db, states, i - 1);
      assert Next(db, states[i - 1], states[i - 1 + 1]);
      var e :| Step(db, states[i - 1], e, states[i]);
      StepKeeps(db, states[i - 1], e, states[i]);
    }
  }

  /** Over any interleaving a strict lookup never answers from a failure, its own or a cached one: whatever it
      returns was the database's answer at a moment less than 30 seconds before it began, or since. */
  lemma StrictLookupIsTruthful(db: Database, states: seq<State>, i: nat, a: Answer)
    requires Run(db, states) && i < |states| && a in states[i].answers && a.strict && a.result.Some?
    ensures !a.result.value.LookupFailed?
    ensures exists at :: a.began - 30.0 < at <= a.at && Truth(db, at, a.key) == a.result.value
  {
    RunKeeps(db, states, i);
    assert Truthful(db, a);
  }

  /** The two rows of a flag have been these since `since`. */
  ghost predicate Steady(db: Database, since: real, tenant: string, flag: string, rows: FlagRows) {
    forall at :: at >= since ==> db(at, None, flag) == rows.globalRow && db(at, Some(tenant), flag) == rows.tenantRow
  }

  /** Thirty seconds after the rows of a flag last changed every strict lookup answers them: the global row, the
      tenant's own in preference to it, or both side by side. */
  lemma SteadyRowsAnswered(db: Database, states: seq<State>, i: nat, a: Answer, since: real, tenant: string, flag: string, rows: FlagRows)
    requires Run(db, states) && i < |states| && a in states[i].answers && a.strict && a.result.Some?
    requires Steady(db, since, tenant, flag, rows) && a.began >= since + 30.0
    ensures a.key == Key(Global, flag) ==> a.result == Some(Single(rows.globalRow))
    ensures a.key == Key(OneTenant(tenant), flag) ==>
              a.result == Some(Single(if rows.tenantRow.Some? then rows.tenantRow else rows.globalRow))
    ensures a.key == Key(BothRows(tenant), flag) ==> a.result == Some(Pair(rows))
  {
    StrictLookupIsTruthful(db, states, i, a);
    var at :| a.began - 30.0 < at <= a.at && Truth(db, at, a.key) == a.result.value;
    assert db(at, None, flag) == rows.globalRow && db(at, Some(tenant), flag) == rows.tenantRow;
  }

  /** From the table to the mode: thirty seconds after an operator turns on enforcement, for everyone or for a tenant,
      every resolution for the tenant that can read the flags denies; and with no rows at all it answers the default. */
  lemma EnforcementTakesHold(bucket: (string, string) -> int, db: Database, states: seq<State>, i: nat, warn: Answer, deny: Answer,
                             since: real, tenant: string, warnRows: FlagRows, denyRows: FlagRows, memory: Memory, default: Mode, now: real)
    requires Run(db, states) && i < |states| && warn in states[i].answers && deny in states[i].answers
    requires warn.strict && deny.strict && warn.began >= since + 30.0 && deny.began >= since + 30.0
    requires warn.key == Key(BothRows(tenant), FLAG_WARN) && deny.key == Key(BothRows(tenant), FLAG_DENY)
    requires warn.result.Some? && deny.result.Some?
    requires Steady(db, since, tenant, FLAG_WARN, warnRows) && Steady(db, since, tenant, FLAG_DENY, denyRows)
    ensures warn.result.value.Pair? && deny.result.value.Pair?
    ensures var call := Call(tenant, true, default, Some(warn.result.value.rows), Some(deny.result.value.rows), now);
            && (denyRows.globalRow == Some(Row(true, 100)) || denyRows.tenantRow == Some(Row(true, 100)) ==> Resolved(bucket, memory, call) == Deny)
            && (denyRows == warnRows == FlagRows(None, None) ==> Resolved(bucket, memory, call) == default)
  {
    SteadyRowsAnswered(db, states, i, warn, since, tenant, FLAG_WARN, warnRows);
    SteadyRowsAnswered(db, states, i, deny, since, tenant, FLAG_DENY, denyRows);
  }
}
