/** auth/token_pool.py: any interleaving of `get_run_grant_token` calls in one process. */
module Minting {
  import opened Prelude
  import opened OrderedDict
  import opened GrantTokens
  import opened TokenPool

  /** Where a call stands; a step is the code between two awaits. */
  datatype Pc =
    | Asking                               // first Redis read
    | Asked(answer: Option<GrantToken>)    // first look at the caches
    | NeedLock                             // fetch the key's lock and try to take it
    | Queued(lock: nat)                    // waiting for the lock
    | Inside(lock: nat)                    // second Redis read, under the lock
    | InsideAsked(lock: nat, answer: Option<GrantToken>)
    | Minting(lock: nat)                   // the grant is being delegated
    | Storing(lock: nat, grant: GrantToken)
    | Writing(lock: nat, grant: GrantToken, ttl: int, computed: real)
    | HandedOut(grant: GrantToken, at: real)
    | GaveUp

  datatype Call = Call(key: LockKey, pc: Pc)

  /** Who wrote a Redis entry: this process, which computed its lifetime before the write, or another. */
  datatype Origin = Elsewhere | Here(computed: real, written: real)

  datatype RedisEntry = RedisEntry(grant: GrantToken, expires: real, origin: Origin)

  datatype State = State(
    now: real,
    calls: map<nat, Call>,
    local: Local,
    locks: Locks,
    holder: map<nat, nat>,                // lock -> the call inside it
    made: nat,                            // locks created so far
    redis: map<string, RedisEntry>,
    kept: map<string, GrantToken>         // last grant stored per key and not evicted since
  )

  function Init(start: real): State {
    State(start, map[], Empty(), Empty(), map[], 0, map[], map[])
  }

  datatype Step =
    | Tick(later: real)
    | Begin(c: nat, key: LockKey)
    | AskRedis(c: nat, reachable: bool)
    | LookFirst(c: nat)
    | TakeLock(c: nat)
    | Wake(c: nat)
    | LookAgain(c: nat)
    | MintOk(c: nat, grant: GrantToken)
    | MintFails(c: nat)
    | StoreStep(c: nat)
    | WriteRedis(c: nat, reachable: bool)
    | RemoteWrite(cacheKey: string, entry: RedisEntry)
    | RedisLoses(cacheKey: string)
    | EvictLocal(keys: set<string>)

  predicate At(s: State, c: nat) { c in s.calls }

  /** The lock a call is inside, if any. */
  function Held(pc: Pc): Option<nat> {
    match pc
    case Inside(l) => Some(l)
    case InsideAsked(l, _) => Some(l)
    case Minting(l) => Some(l)
    case Storing(l, _) => Some(l)
    case Writing(l, _, _, _) => Some(l)
    case _ => None
  }

  predicate Enabled(s: State, step: Step) {
    match step
    case Tick(later) => later >= s.now
    case Begin(c, _) => c !in s.calls
    case AskRedis(c, _) => c in s.calls && (s.calls[c].pc.Asking? || s.calls[c].pc.Inside?)
    case LookFirst(c) => c in s.calls && s.calls[c].pc.Asked?
    case TakeLock(c) => c in s.calls && s.calls[c].pc.NeedLock?
    case Wake(c) => c in s.calls && s.calls[c].pc.Queued? && s.calls[c].pc.lock !in s.holder
    case LookAgain(c) => c in s.calls && s.calls[c].pc.InsideAsked?
    case MintOk(c, grant) => c in s.calls && s.calls[c].pc.Minting? && grant.expiresAt.Some? && grant.source == Minted
    case MintFails(c) => c in s.calls && s.calls[c].pc.Minting?
    case StoreStep(c) => c in s.calls && s.calls[c].pc.Storing?
    case WriteRedis(c, _) => c in s.calls && s.calls[c].pc.Writing?
    case RemoteWrite(_, entry) => entry.origin.Elsewhere?
    case RedisLoses(_) => true
    case EvictLocal(_) => true
  }

  function SetPc(s: State, c: nat, pc: Pc): State
    requires c in s.calls
  {
    s.(calls := s.calls[c := s.calls[c].(pc := pc)])
  }

  /** Leaving `async with lock`. */
  function Leave(s: State, c: nat, lock: nat, pc: Pc): State
    requires c in s.calls
  {
    SetPc(s, c, pc).(holder := s.holder - {lock})
  }

  /** A Redis GET: an entry is alive through its expiry; an unreachable Redis reads as a miss. */
  function Answer(s: State, key: string, reachable: bool): Option<GrantToken> {
    if reachable && key in s.redis && s.now <= s.redis[key].expires then Some(s.redis[key].grant) else None
  }

  function DoAsk(s: State, c: nat, reachable: bool): State
    requires c in s.calls
  {
    var k := s.calls[c];
    var answer := Answer(s, k.key.1, reachable);
    if k.pc.Inside? then SetPc(s, c, InsideAsked(k.pc.lock, answer)) else SetPc(s, c, Asked(answer))
  }

  function DoLookFirst(s: State, c: nat): State
    requires c in s.calls && s.calls[c].pc.Asked?
  {
    var k := s.calls[c];
    var (local, found) := CachedGrant(s.local, k.key.1, k.pc.answer, s.now);
    var t := s.(local := local);
    if found.Some? then SetPc(t, c, HandedOut(found.value, s.now)) else SetPc(t, c, NeedLock)
  }

  /** `_mint_lock` and the acquisition: a free lock is taken at once. */
  function DoTakeLock(s: State, c: nat): State
    requires c in s.calls
  {
    var (locks, lock) := MintLock(s.locks, s.holder.Keys, s.calls[c].key, s.made);
    var t := s.(locks := locks, made := if lock == s.made then s.made + 1 else s.made);
    if lock in s.holder then SetPc(t, c, Queued(lock))
    else SetPc(t, c, Inside(lock)).(holder := s.holder[lock := c])
  }

  function DoLookAgain(s: State, c: nat): State
    requires c in s.calls && s.calls[c].pc.InsideAsked?
  {
    var k := s.calls[c];
    var (local, found) := CachedGrant(s.local, k.key.1, k.pc.answer, s.now);
    var t := s.(local := local);
    if found.Some? then Leave(t, c, k.pc.lock, HandedOut(found.value, s.now)) else SetPc(t, c, Minting(k.pc.lock))
  }

  function DoStore(s: State, c: nat): State
    requires c in s.calls && s.calls[c].pc.Storing?
  {
    var k := s.calls[c];
    var grant := k.pc.grant;
    if !grant.Usable(s.now) then Leave(s, c, k.pc.lock, HandedOut(grant, s.now))
    else
      var local := StoreLocal(s.local, k.key.1, grant, s.now);
      var kept := map x | x in s.kept.Keys + {k.key.1} && x in local.entries :: if x == k.key.1 then grant else s.kept[x];
      SetPc(s.(local := local, kept := kept), c, Writing(k.pc.lock, grant, RedisTtl(grant, s.now), s.now))
  }

  function DoWrite(s: State, c: nat, reachable: bool): State
    requires c in s.calls && s.calls[c].pc.Writing?
  {
    var k := s.calls[c];
    var t := if reachable && k.pc.ttl > 0
             then s.(redis := s.redis[k.key.1 := RedisEntry(k.pc.grant, s.now + k.pc.ttl as real, Here(k.pc.computed, s.now))]) else s;
    Leave(t, c, k.pc.lock, HandedOut(k.pc.grant, s.now))
  }

  function Apply(s: State, step: Step): State
    requires Enabled(s, step)
  {
    match step
    case Tick(later) => s.(now := later)
    case Begin(c, key) => s.(calls := s.calls[c := Call(key, Asking)])
    case AskRedis(c, reachable) => DoAsk(s, c, reachable)
    case LookFirst(c) => DoLookFirst(s, c)
    case TakeLock(c) => DoTakeLock(s, c)
    case Wake(c) => SetPc(s, c, Inside(s.calls[c].pc.lock)).(holder := s.holder[s.calls[c].pc.lock := c])
    case LookAgain(c) => DoLookAgain(s, c)
    case MintOk(c, grant) => SetPc(s, c, Storing(s.calls[c].pc.lock, grant))
    case MintFails(c) => Leave(s, c, s.calls[c].pc.lock, GaveUp)
    case StoreStep(c) => DoStore(s, c)
    case WriteRedis(c, reachable) => DoWrite(s, c, reachable)
    case RemoteWrite(key, entry) => s.(redis := s.redis[key := entry])
    case RedisLoses(key) => s.(redis := s.redis - {key})
    case EvictLocal(keys) =>
      s.(local := Dict(s.local.entries - keys, Keep(s.local.order, keys)), kept := s.kept - keys)
  }

  /** `order` without the evicted keys. */
  function Keep(order: seq<string>, gone: set<string>): (r: seq<string>)
    ensures forall k :: k in r <==> k in order && k !in gone
    ensures Distinct(order) ==> Distinct(r)
  {
    if order == [] then []
    else
      assert order == [order[0]] + order[1..];
      assert Distinct(order) ==> Distinct(order[1..]) && order[0] !in order[1..];
      var rest := Keep(order[1..], gone);
      if order[0] in gone then rest else [order[0]] + rest
  }

  ghost predicate Next(s: State, t: State) {
    exists step :: Enabled(s, step) && Apply(s, step) == t
  }

  ghost predicate Run(states: seq<State>) {
    && |states| >= 1
    && (exists start :: states[0] == Init(start))
    && forall i :: 0 <= i < |states| - 1 ==> Next(states[i], states[i + 1])
  }

  // ----- the invariant -----

  ghost predicate Holds(k: Call, c: nat, holder: map<nat, nat>) {
    Held(k.pc).Some? ==> Held(k.pc).value in holder && holder[Held(k.pc).value] == c
  }

  /** A call is recorded as the holder of the lock it is inside. */
  ghost predicate HolderInv(calls: map<nat, Call>, holder: map<nat, nat>) {
    forall c :: c in calls ==> Holds(calls[c], c, holder)
  }

  ghost predicate BoundsInv(local: Local, locks: Locks) {
    && Valid(local) && |local.entries| <= LOCAL_CACHE_MAX
    && Valid(locks) && |locks.entries| <= LOCKS_MAX
  }

  /** A grant handed out from a cache was usable at that moment; what is stored was just minted. */
  ghost predicate CallInv(k: Call) {
    && (k.pc.HandedOut? && k.pc.grant.source == PoolCache ==> k.pc.grant.Usable(k.pc.at))
    && (k.pc.Storing? ==> k.pc.grant.source == Minted && k.pc.grant.expiresAt.Some?)
    && (k.pc.Writing? ==> k.pc.grant.source == Minted)
  }

  ghost predicate CallsInv(calls: map<nat, Call>) {
    forall c :: c in calls ==> CallInv(calls[c])
  }

  /** The last grant kept for a key is still in the cache, or has stopped being usable. */
  ghost predicate KeptInv(kept: map<string, GrantToken>, local: Local, now: real) {
    forall k :: k in kept ==> (k in local.entries && local.entries[k] == kept[k]) || !kept[k].Usable(now)
  }

  ghost predicate Inv(s: State) {
    && HolderInv(s.calls, s.holder)
    && BoundsInv(s.local, s.locks)
    && KeptInv(s.kept, s.local, s.now)
    && CallsInv(s.calls)
  }

  lemma HolderSame(calls: map<nat, Call>, holder: map<nat, nat>, c: nat, k: Call)
    requires HolderInv(calls, holder) && Holds(k, c, holder)
    ensures HolderInv(calls[c := k], holder)
  {
  }

  lemma HolderEnters(calls: map<nat, Call>, holder: map<nat, nat>, c: nat, k: Call, lock: nat)
    requires HolderInv(calls, holder) && lock !in holder && Held(k.pc) == Some(lock)
    ensures HolderInv(calls[c := k], holder[lock := c])
  {
  }

  lemma HolderLeaves(calls: map<nat, Call>, holder: map<nat, nat>, c: nat, k: Call, lock: nat)
    requires HolderInv(calls, holder) && c in calls && Held(calls[c].pc) == Some(lock) && Held(k.pc) == None
    ensures HolderInv(calls[c := k], holder - {lock})
  {
    forall x | x in calls && x != c
      ensures Holds(calls[x], x, holder - {lock})
    {
      assert Holds(calls[x], x, holder) && Holds(calls[c], c, holder);
    }
  }

  lemma EvictBounds(local: Local, keys: set<string>)
    requires Valid(local) && |local.entries| <= LOCAL_CACHE_MAX
    ensures var after := Dict(local.entries - keys, Keep(local.order, keys));
            Valid(after) && |after.entries| <= LOCAL_CACHE_MAX
  {
    var after := Dict(local.entries - keys, Keep(local.order, keys));
    assert after.entries.Keys <= local.entries.Keys;
    SubsetSize(after.entries.Keys, local.entries.Keys);
  }

  lemma SubsetSize(a: set<string>, b: set<string>)
    requires a <= b
    ensures |a| <= |b|
  {
    assert b == a + (b - a);
  }

  /** Looking a grant up drops at most an unusable one. */
  lemma LookKeeps(s: State, key: string, answer: Option<GrantToken>)
    requires BoundsInv(s.local, s.locks) && KeptInv(s.kept, s.local, s.now)
    ensures var local := CachedGrant(s.local, key, answer, s.now).0;
            BoundsInv(local, s.locks) && KeptInv(s.kept, local, s.now)
  {
    PopValid(s.local, key);
  }

  lemma StoreKeeps(s: State, c: nat)
    requires BoundsInv(s.local, s.locks) && KeptInv(s.kept, s.local, s.now) && c in s.calls && s.calls[c].pc.Storing?
    ensures var t := DoStore(s, c);
            BoundsInv(t.local, t.locks) && KeptInv(t.kept, t.local, t.now)
  {
    var k := s.calls[c];
    var grant := k.pc.grant;
    StoreLocalValid(s.local, k.key.1, grant, s.now);
    if grant.Usable(s.now) {
      KeptAfterStore(s.kept, s.local, StoreLocal(s.local, k.key.1, grant, s.now), k.key.1, grant, s.now);
    }
  }

  lemma KeptAfterStore(kept: map<string, GrantToken>, local: Local, after: Local, key: string, grant: GrantToken, now: real)
    requires KeptInv(kept, local, now) && key in after.entries && after.entries[key] == grant
    requires forall x :: x in after.entries && x != key ==> x in local.entries && after.entries[x] == local.entries[x]
    ensures KeptInv(map x | x in kept.Keys + {key} && x in after.entries :: if x == key then grant else kept[x], after, now)
  {
  }

  lemma CallChanged(calls: map<nat, Call>, c: nat, k: Call)
    requires CallsInv(calls) && CallInv(k)
    ensures CallsInv(calls[c := k])
  {
  }

  /** A step of one call outside the lock protocol. */
  lemma PlainKeeps(s: State, c: nat, pc: Pc, local: Local)
    requires Inv(s) && c in s.calls && Held(pc) == Held(s.calls[c].pc) && CallInv(s.calls[c].(pc := pc))
    requires BoundsInv(local, s.locks) && KeptInv(s.kept, local, s.now)
    ensures Inv(SetPc(s.(local := local), c, pc))
  {
    assert Holds(s.calls[c], c, s.holder);
    HolderSame(s.calls, s.holder, c, s.calls[c].(pc := pc));
    CallChanged(s.calls, c, s.calls[c].(pc := pc));
  }

  lemma LeaveKeeps(s: State, c: nat, lock: nat, pc: Pc)
    requires Inv(s) && c in s.calls && Held(s.calls[c].pc) == Some(lock) && Held(pc) == None && CallInv(s.calls[c].(pc := pc))
    ensures Inv(Leave(s, c, lock, pc))
  {
    HolderLeaves(s.calls, s.holder, c, s.calls[c].(pc := pc), lock);
    CallChanged(s.calls, c, s.calls[c].(pc := pc));
  }

  lemma TakeLockKeeps(s: State, c: nat)
    requires Inv(s) && c in s.calls && s.calls[c].pc.NeedLock?
    ensures Inv(DoTakeLock(s, c))
  {
    MintLockValid(s.locks, s.holder.Keys, s.calls[c].key, s.made);
    var lock := MintLock(s.locks, s.holder.Keys, s.calls[c].key, s.made).1;
    if lock in s.holder {
      HolderSame(s.calls, s.holder, c, s.calls[c].(pc := Queued(lock)));
      CallChanged(s.calls, c, s.calls[c].(pc := Queued(lock)));
    } else {
      HolderEnters(s.calls, s.holder, c, s.calls[c].(pc := Inside(lock)), lock);
      CallChanged(s.calls, c, s.calls[c].(pc := Inside(lock)));
    }
  }

  lemma KeptCall(s: State, c: nat)
    requires HolderInv(s.calls, s.holder) && CallsInv(s.calls)
    requires c in s.calls && s.calls[c].pc.Storing? && s.calls[c].pc.grant.Usable(s.now)
    ensures HolderInv(DoStore(s, c).calls, DoStore(s, c).holder) && CallsInv(DoStore(s, c).calls)
  {
    var pc := s.calls[c].pc;
    var k := s.calls[c].(pc := Writing(pc.lock, pc.grant, RedisTtl(pc.grant, s.now), s.now));
    assert CallInv(s.calls[c]) && Holds(s.calls[c], c, s.holder);
    HolderSame(s.calls, s.holder, c, k);
    CallChanged(s.calls, c, k);
  }

  lemma StoreStepKeeps(s: State, c: nat)
    requires Inv(s) && c in s.calls && s.calls[c].pc.Storing?
    ensures Inv(DoStore(s, c))
  {
    assert CallInv(s.calls[c]);
    if s.calls[c].pc.grant.Usable(s.now) {
      StoreKeeps(s, c);
      KeptCall(s, c);
    } else {
      LeaveKeeps(s, c, s.calls[c].pc.lock, HandedOut(s.calls[c].pc.grant, s.now));
    }
  }

  lemma LookStepKeeps(s: State, step: Step)
    requires Inv(s) && Enabled(s, step) && (step.LookFirst? || step.LookAgain?)
    ensures Inv(Apply(s, step))
  {
    var c := step.c;
    var k := s.calls[c];
    var (local, found) := CachedGrant(s.local, k.key.1, k.pc.answer, s.now);
    LookKeeps(s, k.key.1, k.pc.answer);
    if step.LookFirst? {
      PlainKeeps(s, c, if found.Some? then HandedOut(found.value, s.now) else NeedLock, local);
    } else if found.Some? {
      assert Inv(s.(local := local));
      LeaveKeeps(s.(local := local), c, k.pc.lock, HandedOut(found.value, s.now));
    } else {
      PlainKeeps(s, c, Minting(k.pc.lock), local);
    }
  }

  lemma CallStepKeeps(s: State, step: Step)
    requires Inv(s) && Enabled(s, step)
    requires step.AskRedis? || step.MintOk? || step.MintFails? || step.WriteRedis? || step.Wake?
    ensures Inv(Apply(s, step))
  {
    var c := step.c;
    var k := s.calls[c];
    match step
    case AskRedis(_, reachable) => PlainKeeps(s, c, DoAsk(s, c, reachable).calls[c].pc, s.local);
    case MintOk(_, grant) => PlainKeeps(s, c, Storing(k.pc.lock, grant), s.local);
    case MintFails(_) => LeaveKeeps(s, c, k.pc.lock, GaveUp);
    case WriteRedis(_, reachable) =>
      assert CallInv(k);
      LeaveKeeps(s, c, k.pc.lock, HandedOut(k.pc.grant, s.now));
    case Wake(_) =>
      HolderEnters(s.calls, s.holder, c, k.(pc := Inside(k.pc.lock)), k.pc.lock);
      CallChanged(s.calls, c, k.(pc := Inside(k.pc.lock)));
  }

  lemma OutsideKeeps(s: State, step: Step)
    requires Inv(s) && Enabled(s, step)
    requires step.Tick? || step.Begin? || step.RemoteWrite? || step.RedisLoses? || step.EvictLocal?
    ensures Inv(Apply(s, step))
  {
    if step.EvictLocal? {
      EvictBounds(s.local, step.keys);
    } else if step.Begin? {
      HolderSame(s.calls, s.holder, step.c, Call(step.key, Asking));
      CallChanged(s.calls, step.c, Call(step.key, Asking));
    }
  }

  /** Every step keeps the invariant, whatever the lock map holds. */
  lemma StepKeeps(s: State, step: Step)
    requires Inv(s) && Enabled(s, step)
    ensures Inv(Apply(s, step))
  {
    if step.LookFirst? || step.LookAgain? {
      LookStepKeeps(s, step);
    } else if step.StoreStep? {
      StoreStepKeeps(s, step.c);
    } else if step.TakeLock? {
      TakeLockKeeps(s, step.c);
    } else if step.AskRedis? || step.MintOk? || step.MintFails? || step.WriteRedis? || step.Wake? {
      CallStepKeeps(s, step);
    } else {
      OutsideKeeps(s, step);
    }
  }

  lemma {:induction false} RunKeeps(states: seq<State>, i: nat)
    requires Run(states) && i < |states|
    ensures Inv(states[i])
  {
    if i > 0 {
      RunKeeps(states, i - 1);
      assert Next(states[i - 1], states[i - 1 + 1]);
      var step :| Enabled(states[i - 1], step) && Apply(states[i - 1], step) == states[i];
      StepKeeps(states[i - 1], step);
    }
  }

  // ----- single flight -----

  /** The lock a call waits for or is inside. */
  function LockOf(pc: Pc): Option<nat> {
    if pc.Queued? then Some(pc.lock) else Held(pc)
  }

  /** That lock is still the lock of the call's key. */
  ghost predicate Shared(k: Call, locks: Locks) {
    LockOf(k.pc).Some? ==> k.key in locks.entries && locks.entries[k.key] == LockOf(k.pc).value
  }

  ghost predicate SharedInv(calls: map<nat, Call>, locks: Locks) {
    forall c :: c in calls ==> Shared(calls[c], locks)
  }

  /** No new lock was asked for while the lock map was full. */
  ghost predicate RoomForLocks(s: State) {
    |s.locks.entries| < LOCKS_MAX
  }

  lemma SharedGrows(calls: map<nat, Call>, locks: Locks, after: Locks, c: nat, k: Call)
    requires SharedInv(calls, locks) && Shared(k, after)
    requires forall x :: x in locks.entries ==> x in after.entries && after.entries[x] == locks.entries[x]
    ensures SharedInv(calls[c := k], after)
  {
    forall x | x in calls && x != c
      ensures Shared(calls[x], after)
    {
      assert Shared(calls[x], locks);
    }
  }

  lemma TakeLockShares(s: State, c: nat)
    requires BoundsInv(s.local, s.locks) && SharedInv(s.calls, s.locks) && RoomForLocks(s) && c in s.calls
    ensures SharedInv(DoTakeLock(s, c).calls, DoTakeLock(s, c).locks)
  {
    MintLockValid(s.locks, s.holder.Keys, s.calls[c].key, s.made);
    var (after, lock) := MintLock(s.locks, s.holder.Keys, s.calls[c].key, s.made);
    SharedGrows(s.calls, s.locks, after, c, s.calls[c].(pc := Queued(lock)));
    SharedGrows(s.calls, s.locks, after, c, s.calls[c].(pc := Inside(lock)));
  }

  /** Every other step leaves the lock map alone and moves a call along the same lock. */
  lemma OtherStepShares(s: State, step: Step)
    requires SharedInv(s.calls, s.locks) && Enabled(s, step) && !step.TakeLock?
    ensures SharedInv(Apply(s, step).calls, Apply(s, step).locks)
  {
    var t := Apply(s, step);
    if !step.Tick? && !step.RemoteWrite? && !step.RedisLoses? && !step.EvictLocal? {
      assert step.Begin? || Shared(s.calls[step.c], s.locks);
      CallMoves(s, step);
      SharedGrows(s.calls, s.locks, s.locks, step.c, t.calls[step.c]);
    }
  }

  ghost predicate MovesOnly(s: State, t: State, c: nat) {
    t.locks == s.locks && c in t.calls && t.calls == s.calls[c := t.calls[c]] && Shared(t.calls[c], s.locks)
  }

  lemma CallMoves(s: State, step: Step)
    requires Enabled(s, step) && !step.TakeLock?
    requires !step.Tick? && !step.RemoteWrite? && !step.RedisLoses? && !step.EvictLocal?
    requires step.Begin? || Shared(s.calls[step.c], s.locks)
    ensures MovesOnly(s, Apply(s, step), step.c)
  {
    if step.LookFirst? || step.LookAgain? {
      LookMoves(s, step);
    } else if step.StoreStep? || step.WriteRedis? || step.MintFails? {
      StoreMoves(s, step);
    }
  }

  lemma LookMoves(s: State, step: Step)
    requires Enabled(s, step) && (step.LookFirst? || step.LookAgain?) && Shared(s.calls[step.c], s.locks)
    ensures MovesOnly(s, Apply(s, step), step.c)
  {
  }

  lemma StoreMoves(s: State, step: Step)
    requires Enabled(s, step) && (step.StoreStep? || step.WriteRedis? || step.MintFails?) && Shared(s.calls[step.c], s.locks)
    ensures MovesOnly(s, Apply(s, step), step.c)
  {
  }

  lemma SharedKeeps(s: State, step: Step)
    requires Inv(s) && SharedInv(s.calls, s.locks) && Enabled(s, step) && RoomForLocks(s)
    ensures SharedInv(Apply(s, step).calls, Apply(s, step).locks)
  {
    if step.TakeLock? {
      TakeLockShares(s, step.c);
    } else {
      OtherStepShares(s, step);
    }
  }

  lemma {:induction false} RunShares(states: seq<State>, i: nat)
    requires Run(states) && i < |states| && forall j :: 0 <= j < i ==> RoomForLocks(states[j])
    ensures Inv(states[i]) && SharedInv(states[i].calls, states[i].locks)
  {
    RunKeeps(states, i);
    if i > 0 {
      RunShares(states, i - 1);
      assert Next(states[i - 1], states[i - 1 + 1]);
      var step :| Enabled(states[i - 1], step) && Apply(states[i - 1], step) == states[i];
      SharedKeeps(states[i - 1], step);
    }
  }

  /** Single flight: while the lock map has room, two calls of one cache key are both between taking the lock
      and storing what they minted only if they run on different event loops. */
  lemma SingleFlight(states: seq<State>, i: nat, c: nat, d: nat)
    requires Run(states) && i < |states| && forall j :: 0 <= j < i ==> RoomForLocks(states[j])
    requires c in states[i].calls && d in states[i].calls && c != d && states[i].calls[c].key.1 == states[i].calls[d].key.1
    requires Held(states[i].calls[c].pc).Some? && Held(states[i].calls[d].pc).Some?
    ensures states[i].calls[c].key.0 != states[i].calls[d].key.0
  {
    RunShares(states, i);
    var s := states[i];
    if s.calls[c].key == s.calls[d].key {
      assert Shared(s.calls[c], s.locks) && Shared(s.calls[d], s.locks);
      assert Holds(s.calls[c], c, s.holder) && Holds(s.calls[d], d, s.holder);
    }
  }

  ghost predicate TwoMint(s: State, cacheKey: string) {
    exists c, d :: c in s.calls && d in s.calls && c != d && s.calls[c].pc.Minting? && s.calls[d].pc.Minting?
                   && s.calls[c].key.1 == cacheKey == s.calls[d].key.1
  }

  /** Every call of the run is on one of these event loops. */
  ghost predicate OnLoops(s: State, loops: set<nat>) {
    forall c :: c in s.calls ==> s.calls[c].key.0 in loops
  }

  /** So one process mints a key at most once at a time exactly when its calls share one event loop: two loops can
      both be minting it. */
  lemma SingleFlightExactly(loops: set<nat>, cacheKey: string)
    ensures (forall states: seq<State>, i: nat ::
               Run(states) && i < |states| && (forall j :: 0 <= j <= i ==> RoomForLocks(states[j]) && OnLoops(states[j], loops)) ==>
                 !TwoMint(states[i], cacheKey))
            <==> forall l, m :: l in loops && m in loops ==> l == m
  {
    if l, m :| l in loops && m in loops && l != m {
      var states := TwoLoopsMintTwice(l, m, cacheKey);
      var i := |states| - 1;
      assert TwoMint(states[i], cacheKey);
      assert forall j :: 0 <= j <= i ==> RoomForLocks(states[j]) && OnLoops(states[j], loops);
    } else {
      forall states: seq<State>, i: nat
        | Run(states) && i < |states| && (forall j :: 0 <= j <= i ==> RoomForLocks(states[j]) && OnLoops(states[j], loops))
        ensures !TwoMint(states[i], cacheKey)
      {
        if TwoMint(states[i], cacheKey) {
          var c, d :| c in states[i].calls && d in states[i].calls && c != d && states[i].calls[c].pc.Minting?
                      && states[i].calls[d].pc.Minting? && states[i].calls[c].key.1 == cacheKey == states[i].calls[d].key.1;
          assert OnLoops(states[i], loops);
          SingleFlight(states, i, c, d);
        }
      }
    }
  }

  // ----- runs that exist -----

  lemma Extended(states: seq<State>, step: Step) returns (longer: seq<State>)
    requires Run(states) && Enabled(states[|states| - 1], step)
    ensures Run(longer) && longer == states + [Apply(states[|states| - 1], step)]
  {
    longer := states + [Apply(states[|states| - 1], step)];
    forall i | 0 <= i < |longer| - 1 ensures Next(longer[i], longer[i + 1]) {
      if i < |states| - 1 {
        assert Next(states[i], states[i + 1]);
      }
    }
  }

  /** All calls of a run are on these loops, and its lock map has room. */
  ghost predicate Roomy(states: seq<State>, loops: set<nat>) {
    forall j :: 0 <= j < |states| ==> |states[j].locks.entries| < 3 && OnLoops(states[j], loops)
  }

  lemma ExtendedRoomy(states: seq<State>, step: Step, loops: set<nat>) returns (longer: seq<State>)
    requires Run(states) && Roomy(states, loops) && Enabled(states[|states| - 1], step)
    requires var t := Apply(states[|states| - 1], step); |t.locks.entries| < 3 && OnLoops(t, loops)
    ensures Run(longer) && Roomy(longer, loops) && |longer| == |states| + 1 && longer[|states|] == Apply(states[|states| - 1], step)
  {
    longer := Extended(states, step);
  }

  /** A call that finds nothing cached asks for its lock. */
  lemma GoesToLock(states: seq<State>, c: nat, key: LockKey, loops: set<nat>) returns (longer: seq<State>)
    requires Run(states) && Roomy(states, loops) && key.0 in loops
    requires var s := states[|states| - 1]; c !in s.calls && key.1 !in s.local.entries
    ensures Run(longer) && Roomy(longer, loops)
    ensures var s, t := states[|states| - 1], longer[|longer| - 1];
            t == s.(calls := s.calls[c := Call(key, NeedLock)], local := Pop(s.local, key.1))
  {
    var s := states[|states| - 1];
    longer := ExtendedRoomy(states, Begin(c, key), loops);
    longer := ExtendedRoomy(longer, AskRedis(c, false), loops);
    longer := ExtendedRoomy(longer, LookFirst(c), loops);
    assert s.calls[c := Call(key, Asking)][c := Call(key, Asked(None))][c := Call(key, NeedLock)] == s.calls[c := Call(key, NeedLock)];
  }

  lemma TakesFreeLock(states: seq<State>, c: nat, loops: set<nat>) returns (longer: seq<State>)
    requires Run(states) && Roomy(states, loops)
    requires var s := states[|states| - 1];
             c in s.calls && s.calls[c].pc.NeedLock? && s.calls[c].key !in s.locks.entries && |s.locks.entries| < 2 && s.made !in s.holder
    ensures Run(longer) && Roomy(longer, loops)
    ensures var s, t := states[|states| - 1], longer[|longer| - 1];
            t == s.(calls := s.calls[c := s.calls[c].(pc := Inside(s.made))], locks := PutLast(s.locks, s.calls[c].key, s.made),
                    holder := s.holder[s.made := c], made := s.made + 1)
  {
    var s := states[|states| - 1];
    var key := s.calls[c].key;
    assert PutLast(s.locks, key, s.made).entries.Keys == s.locks.entries.Keys + {key};
    assert OnLoops(s, loops);
    longer := ExtendedRoomy(states, TakeLock(c), loops);
  }

  lemma MintsInside(states: seq<State>, c: nat, loops: set<nat>) returns (longer: seq<State>)
    requires Run(states) && Roomy(states, loops)
    requires var s := states[|states| - 1]; c in s.calls && s.calls[c].pc.Inside? && s.calls[c].key.1 !in s.local.entries
    ensures Run(longer) && Roomy(longer, loops)
    ensures var s, t := states[|states| - 1], longer[|longer| - 1];
            t == s.(calls := s.calls[c := s.calls[c].(pc := Minting(s.calls[c].pc.lock))], local := Pop(s.local, s.calls[c].key.1))
  {
    assert OnLoops(states[|states| - 1], loops);
    longer := ExtendedRoomy(states, AskRedis(c, false), loops);
    longer := ExtendedRoomy(longer, LookAgain(c), loops);
  }

  lemma GoesInside(states: seq<State>, c: nat, key: LockKey, loops: set<nat>) returns (longer: seq<State>)
    requires Run(states) && Roomy(states, loops) && key.0 in loops
    requires var s := states[|states| - 1];
             c !in s.calls && key !in s.locks.entries && |s.locks.entries| < 2 && s.made !in s.holder && key.1 !in s.local.entries
    ensures Run(longer) && Roomy(longer, loops)
    ensures longer[|longer| - 1] == InsideState(states[|states| - 1], c, key)
  {
    longer := GoesToLock(states, c, key, loops);
    longer := TakesFreeLock(longer, c, loops);
    CallTwice(states[|states| - 1].calls, c, Call(key, NeedLock), Call(key, Inside(states[|states| - 1].made)));
  }

  lemma CallTwice(calls: map<nat, Call>, c: nat, k: Call, l: Call)
    ensures calls[c := k][c := l] == calls[c := l]
  {}

  /** `s` after call `c` has come and taken a new lock for its key. */
  function InsideState(s: State, c: nat, key: LockKey): State {
    s.(calls := s.calls[c := Call(key, Inside(s.made))], local := Pop(s.local, key.1), locks := PutLast(s.locks, key, s.made),
       holder := s.holder[s.made := c], made := s.made + 1)
  }

  function MintingState(s: State, c: nat, key: LockKey): State {
    s.(calls := s.calls[c := Call(key, Minting(s.made))], local := Pop(Pop(s.local, key.1), key.1), locks := PutLast(s.locks, key, s.made),
       holder := s.holder[s.made := c], made := s.made + 1)
  }

  /** With its lock free it goes straight to the mint. */
  lemma GoesToMint(states: seq<State>, c: nat, key: LockKey, loops: set<nat>) returns (longer: seq<State>)
    requires Run(states) && Roomy(states, loops) && key.0 in loops
    requires var s := states[|states| - 1];
             c !in s.calls && key !in s.locks.entries && |s.locks.entries| < 2 && s.made !in s.holder && key.1 !in s.local.entries
    ensures Run(longer) && Roomy(longer, loops)
    ensures longer[|longer| - 1] == MintingState(states[|states| - 1], c, key)
  {
    longer := GoesInside(states, c, key, loops);
    longer := MintsInside(longer, c, loops);
    CallTwice(states[|states| - 1].calls, c, Call(key, Inside(states[|states| - 1].made)), Call(key, Minting(states[|states| - 1].made)));
  }

  /** Calls of one cache key on two event loops of the process take two locks, and both mint. */
  lemma TwoLoopsMintTwice(l: nat, m: nat, cacheKey: string) returns (states: seq<State>)
    requires l != m
    ensures Run(states) && Roomy(states, {l, m})
    ensures TwoMint(states[|states| - 1], cacheKey)
  {
    states := [Init(0.0)];
    states := GoesToMint(states, 0, (l, cacheKey), {l, m});
    states := GoesToMint(states, 1, (m, cacheKey), {l, m});
    var s := states[|states| - 1];
    assert s.calls[0].pc.Minting? && s.calls[1].pc.Minting?;
  }

  /** A mint starts only when the Redis read made under the lock gave nothing usable and the process
      keeps no usable grant for the key: unless it was evicted, the last grant has run out. */
  lemma MintOnlyWhenNothingUsable(states: seq<State>, i: nat, c: nat)
    requires Run(states) && i < |states| && c in states[i].calls && states[i].calls[c].pc.InsideAsked?
    requires Apply(states[i], LookAgain(c)).calls[c].pc.Minting?
    ensures var s, key, answer := states[i], states[i].calls[c].key.1, states[i].calls[c].pc.answer;
            && !(answer.Some? && answer.value.token != "" && answer.value.Usable(s.now))
            && !(key in s.local.entries && s.local.entries[key].Usable(s.now))
            && (key in s.kept ==> !s.kept[key].Usable(s.now))
  {
    RunKeeps(states, i);
  }

  /** Every grant handed out from a cache has its minimum lifetime left, and both maps stay bounded. */
  lemma HandedOutIsUsable(states: seq<State>, i: nat, c: nat)
    requires Run(states) && i < |states| && c in states[i].calls && states[i].calls[c].pc.HandedOut?
    requires states[i].calls[c].pc.grant.source == PoolCache
    ensures var pc := states[i].calls[c].pc;
            && pc.grant.expiresAt.Some?
            && pc.grant.expiresAt.value - pc.at >= 120.0
            && pc.grant.expiresAt.value - pc.at >= MinRemaining(pc.grant.ttl) as real
    ensures |states[i].local.entries| <= 1024 && |states[i].locks.entries| <= 4096
  {
    RunKeeps(states, i);
    assert CallInv(states[i].calls[c]);
  }

  // ----- whose grant is handed out -----

  /** The grant a call has been answered with, has minted or has handed out. */
  function Carried(pc: Pc): Option<GrantToken> {
    match pc
    case Asked(answer) => answer
    case InsideAsked(_, answer) => answer
    case Storing(_, grant) => Some(grant)
    case Writing(_, grant, _, _) => Some(grant)
    case HandedOut(grant, _) => Some(grant)
    case _ => None
  }

  predicate CallCarries(k: Call, key: string, g: GrantToken) {
    k.key.1 == key && Carried(k.pc).Some? && SameGrant(Carried(k.pc).value, g)
  }

  /** The grant is somewhere in the process, or in Redis, under the key. */
  ghost predicate Carries(s: State, key: string, g: GrantToken) {
    || (key in s.local.entries && SameGrant(s.local.entries[key], g))
    || (key in s.redis && SameGrant(s.redis[key].grant, g))
    || exists c :: c in s.calls && CallCarries(s.calls[c], key, g)
  }

  /** The step delegates the grant for the key: Grantex answers a mint here, or another process stores its own. */
  predicate Issues(s: State, step: Step, key: string, g: GrantToken)
    requires Enabled(s, step)
  {
    || (step.MintOk? && s.calls[step.c].key.1 == key && SameGrant(step.grant, g))
    || (step.RemoteWrite? && step.cacheKey == key && SameGrant(step.entry.grant, g))
  }

  /** A look at the caches: the call is answered with what it carried, or with the process's own grant of its key. */
  lemma LookCarries(s: State, c: nat, t: State, key: string, g: GrantToken)
    requires c in s.calls && (s.calls[c].pc.Asked? || s.calls[c].pc.InsideAsked?)
    requires t == if s.calls[c].pc.Asked? then DoLookFirst(s, c) else DoLookAgain(s, c)
    requires Carries(t, key, g)
    ensures Carries(s, key, g)
  {
    var k := s.calls[c];
    LookLeaves(s.local, k.key.1, k.pc.answer, s.now, key);
    LookSets(s, c, t);
    if x :| x in t.calls && CallCarries(t.calls[x], key, g) {
      if x != c {
        assert CallCarries(s.calls[x], key, g);
      } else if k.pc.answer.Some? && SameGrant(k.pc.answer.value, g) {
        assert CallCarries(s.calls[c], key, g);
      }
    }
  }

  lemma LookSets(s: State, c: nat, t: State)
    requires c in s.calls && (s.calls[c].pc.Asked? || s.calls[c].pc.InsideAsked?)
    requires t == if s.calls[c].pc.Asked? then DoLookFirst(s, c) else DoLookAgain(s, c)
    ensures var k := s.calls[c];
            var (local, found) := CachedGrant(s.local, k.key.1, k.pc.answer, s.now);
            && t.local == local && t.redis == s.redis && c in t.calls && t.calls == s.calls[c := t.calls[c]]
            && t.calls[c].key == k.key && Carried(t.calls[c].pc) == found
  {}

  lemma StoreCarries(s: State, c: nat, key: string, g: GrantToken)
    requires c in s.calls && s.calls[c].pc.Storing? && Carries(DoStore(s, c), key, g)
    ensures Carries(s, key, g)
  {
    var k, t := s.calls[c], DoStore(s, c);
    StoreSets(s, c);
    StoreSetsLocal(s, c);
    if key in t.local.entries && SameGrant(t.local.entries[key], g) {
      StoreLeaves(s.local, k.key.1, k.pc.grant, s.now, key);
      assert key == k.key.1 && SameGrant(k.pc.grant, g) ==> CallCarries(s.calls[c], key, g);
    } else if x :| x in t.calls && CallCarries(t.calls[x], key, g) {
      assert CallCarries(s.calls[x], key, g);
    }
  }

  lemma StoreSets(s: State, c: nat)
    requires c in s.calls && s.calls[c].pc.Storing?
    ensures var k, t := s.calls[c], DoStore(s, c);
            && t.redis == s.redis && c in t.calls && t.calls == s.calls[c := t.calls[c]]
            && t.calls[c].key == k.key && Carried(t.calls[c].pc) == Some(k.pc.grant)
  {}

  lemma StoreSetsLocal(s: State, c: nat)
    requires c in s.calls && s.calls[c].pc.Storing?
    ensures DoStore(s, c).local == StoreLocal(s.local, s.calls[c].key.1, s.calls[c].pc.grant, s.now)
  {
    var k := s.calls[c];
    if !k.pc.grant.Usable(s.now) {
      assert DoStore(s, c) == Leave(s, c, k.pc.lock, HandedOut(k.pc.grant, s.now));
    }
  }

  lemma WriteCarries(s: State, c: nat, reachable: bool, key: string, g: GrantToken)
    requires c in s.calls && s.calls[c].pc.Writing? && Carries(DoWrite(s, c, reachable), key, g)
    ensures Carries(s, key, g)
  {
    var k, t := s.calls[c], DoWrite(s, c, reachable);
    if key in t.redis && SameGrant(t.redis[key].grant, g) {
      if !(key in s.redis && t.redis[key] == s.redis[key]) {
        assert CallCarries(k, key, g);
      }
    } else if x :| x in t.calls && CallCarries(t.calls[x], key, g) {
      assert CallCarries(s.calls[x], key, g);
    }
  }

  lemma AskCarries(s: State, c: nat, reachable: bool, key: string, g: GrantToken)
    requires c in s.calls && (s.calls[c].pc.Asking? || s.calls[c].pc.Inside?) && Carries(DoAsk(s, c, reachable), key, g)
    ensures Carries(s, key, g)
  {
    var t := DoAsk(s, c, reachable);
    if x :| x in t.calls && CallCarries(t.calls[x], key, g) {
      assert x != c ==> CallCarries(s.calls[x], key, g);
    }
  }

  lemma OtherCarries(s: State, step: Step, key: string, g: GrantToken)
    requires Enabled(s, step) && Carries(Apply(s, step), key, g)
    requires step.Tick? || step.Begin? || step.TakeLock? || step.Wake? || step.MintOk? || step.MintFails?
             || step.RemoteWrite? || step.RedisLoses? || step.EvictLocal?
    ensures Carries(s, key, g) || Issues(s, step, key, g)
  {
    var t := Apply(s, step);
    if x :| x in t.calls && CallCarries(t.calls[x], key, g) {
      assert x in s.calls && t.calls[x] == s.calls[x] ==> CallCarries(s.calls[x], key, g);
    }
  }

  /** Nothing is carried that was not carried before or issued by the step itself. */
  lemma CarriedFrom(s: State, step: Step, key: string, g: GrantToken)
    requires Enabled(s, step) && Carries(Apply(s, step), key, g)
    ensures Carries(s, key, g) || Issues(s, step, key, g)
  {
    match step
    case LookFirst(c) => LookCarries(s, c, DoLookFirst(s, c), key, g);
    case LookAgain(c) => LookCarries(s, c, DoLookAgain(s, c), key, g);
    case StoreStep(c) => StoreCarries(s, c, key, g);
    case WriteRedis(c, reachable) => WriteCarries(s, c, reachable, key, g);
    case AskRedis(c, reachable) => AskCarries(s, c, reachable, key, g);
    case _ => OtherCarries(s, step, key, g);
  }

  /** The grant was issued for the key on the way from `s` to `t`. */
  ghost predicate IssuedBetween(s: State, t: State, key: string, g: GrantToken) {
    exists step :: Enabled(s, step) && Apply(s, step) == t && Issues(s, step, key, g)
  }

  lemma {:induction false} CarriedWasIssued(states: seq<State>, i: nat, key: string, g: GrantToken) returns (j: nat)
    requires Run(states) && i < |states| && Carries(states[i], key, g)
    ensures j < i && IssuedBetween(states[j], states[j + 1], key, g)
  {
    if i == 0 {
      assert false;
    } else {
      assert Next(states[i - 1], states[i - 1 + 1]);
      var step :| Enabled(states[i - 1], step) && Apply(states[i - 1], step) == states[i];
      CarriedFrom(states[i - 1], step, key, g);
      if Issues(states[i - 1], step, key, g) {
        j := i - 1;
      } else {
        j := CarriedWasIssued(states, i - 1, key, g);
      }
    }
  }

  /** Every grant handed out, token, id and lifetime, was delegated earlier in the run for the call's own cache key:
      it was minted by a call of that key, or another process stored it under it. */
  lemma HandedOutWasIssued(states: seq<State>, i: nat, c: nat) returns (j: nat)
    requires Run(states) && i < |states| && c in states[i].calls && states[i].calls[c].pc.HandedOut?
    ensures j < i && IssuedBetween(states[j], states[j + 1], states[i].calls[c].key.1, states[i].calls[c].pc.grant)
  {
    var k := states[i].calls[c];
    assert CallCarries(k, k.key.1, k.pc.grant);
    j := CarriedWasIssued(states, i, k.key.1, k.pc.grant);
  }

  /** At least two minutes, and a tenth of its whole lifetime, are left. */
  predicate LongEnough(g: GrantToken, now: real) {
    g.expiresAt.Some? && g.expiresAt.value - now >= 120.0 && g.expiresAt.value - now >= MinRemaining(g.ttl) as real
  }

  /** What is cached is used: a first look hands out the live Redis entry of the key when that is usable, else the
      process's own, and goes for the lock only when there is neither. */
  lemma CachedIsUsed(s: State, c: nat, reachable: bool)
    requires c in s.calls && s.calls[c].pc.Asking?
    ensures Enabled(DoAsk(s, c, reachable), LookFirst(c))
    ensures var pc, key := DoLookFirst(DoAsk(s, c, reachable), c).calls[c].pc, s.calls[c].key.1;
            var there := reachable && key in s.redis && s.now <= s.redis[key].expires
                         && s.redis[key].grant.token != "" && LongEnough(s.redis[key].grant, s.now);
            var here := key in s.local.entries && LongEnough(s.local.entries[key], s.now);
            && (if there || here then pc.HandedOut? else pc.NeedLock?)
            && (there ==> SameGrant(pc.grant, s.redis[key].grant))
            && (!there && here ==> SameGrant(pc.grant, s.local.entries[key]))
  {}

  // ----- what this process leaves in Redis -----

  ghost predicate WritingInv(k: Call, now: real) {
    k.pc.Writing? ==> k.pc.grant.expiresAt.Some? && k.pc.ttl == RedisTtl(k.pc.grant, k.pc.computed) && k.pc.computed <= now
  }

  ghost predicate EntryInv(e: RedisEntry) {
    e.origin.Here? ==>
      && e.grant.expiresAt.Some? && e.origin.computed <= e.origin.written && RedisTtl(e.grant, e.origin.computed) > 0
      && e.expires == e.origin.written + RedisTtl(e.grant, e.origin.computed) as real
  }

  ghost predicate WritesInv(s: State) {
    (forall c :: c in s.calls ==> WritingInv(s.calls[c], s.now)) && forall k :: k in s.redis ==> EntryInv(s.redis[k])
  }

  lemma WritesSame(s: State, t: State, c: nat)
    requires WritesInv(s) && s.now <= t.now && t.redis == s.redis && c in t.calls && t.calls == s.calls[c := t.calls[c]] && WritingInv(t.calls[c], t.now)
    ensures WritesInv(t)
  {
    forall x | x in t.calls ensures WritingInv(t.calls[x], t.now) {
      if x != c {
        assert WritingInv(s.calls[x], s.now);
      }
    }
  }

  lemma StoreWrites(s: State, c: nat)
    requires WritesInv(s) && CallsInv(s.calls) && c in s.calls && s.calls[c].pc.Storing?
    ensures WritesInv(DoStore(s, c))
  {
    assert CallInv(s.calls[c]);
    WritesSame(s, DoStore(s, c), c);
  }

  lemma WriteWrites(s: State, c: nat, reachable: bool)
    requires WritesInv(s) && c in s.calls && s.calls[c].pc.Writing?
    ensures WritesInv(DoWrite(s, c, reachable))
  {
    var t := DoWrite(s, c, reachable);
    assert WritingInv(s.calls[c], s.now);
    WritesSame(s, t.(redis := s.redis), c);
  }

  lemma LookWrites(s: State, step: Step)
    requires WritesInv(s) && Enabled(s, step) && (step.LookFirst? || step.LookAgain?)
    ensures WritesInv(Apply(s, step))
  {
    WritesSame(s, Apply(s, step), step.c);
  }

  lemma StepWrites(s: State, step: Step)
    requires WritesInv(s) && CallsInv(s.calls) && Enabled(s, step)
    ensures WritesInv(Apply(s, step))
  {
    if step.StoreStep? {
      StoreWrites(s, step.c);
    } else if step.WriteRedis? {
      WriteWrites(s, step.c, step.reachable);
    } else if step.LookFirst? || step.LookAgain? {
      LookWrites(s, step);
    } else if step.Tick? || step.RemoteWrite? || step.RedisLoses? || step.EvictLocal? {
      assert forall c :: c in s.calls ==> WritingInv(s.calls[c], s.now);
    } else {
      WritesSame(s, Apply(s, step), step.c);
    }
  }

  lemma {:induction false} RunWrites(states: seq<State>, i: nat)
    requires Run(states) && i < |states|
    ensures WritesInv(states[i])
  {
    if i > 0 {
      RunWrites(states, i - 1);
      RunKeeps(states, i - 1);
      assert Next(states[i - 1], states[i - 1 + 1]);
      var step :| Enabled(states[i - 1], step) && Apply(states[i - 1], step) == states[i];
      StepWrites(states[i - 1], step);
    }
  }

  /** In every reachable state, an entry this process wrote goes by the end of the grant's usable time plus the
      time its own write took, and by that end itself exactly when the write took no longer than the dropped
      fraction of a second. */
  lemma OwnEntriesExpireInTime(states: seq<State>, i: nat, key: string)
    requires Run(states) && i < |states| && key in states[i].redis && states[i].redis[key].origin.Here?
    ensures var e := states[i].redis[key];
            && e.grant.expiresAt.Some?
            && e.expires <= e.grant.UsableUntil() + (e.origin.written - e.origin.computed)
            && (e.expires <= e.grant.UsableUntil() <==> e.origin.written - e.origin.computed <= Fraction(e.grant, e.origin.computed))
  {
    RunWrites(states, i);
    var e := states[i].redis[key];
    assert EntryInv(e);
    RedisEntryExpiresInTime(e.grant, e.origin.computed, e.origin.written);
  }

  /** A write that takes half a second leaves an entry half a second too long. */
  lemma SlowWriteOutlives() returns (states: seq<State>)
    ensures Run(states)
    ensures var s := states[|states| - 1];
            "k" in s.redis && s.redis["k"].origin.Here? && s.redis["k"].grant.expiresAt.Some?
            && s.redis["k"].expires == s.redis["k"].grant.UsableUntil() + 0.5
  {
    var grant := GrantToken("t", "g", Some(1000.0), Minted, 0);
    assert grant.Usable(0.0) && RedisTtl(grant, 0.0) == 880;
    states := [Init(0.0)];
    states := GoesToMint(states, 0, (0, "k"), {0});
    states := Extended(states, MintOk(0, grant));
    states := Extended(states, StoreStep(0));
    states := Extended(states, Tick(0.5));
    states := Extended(states, WriteRedis(0, true));
  }
}
