/** Every run of repository operations: outcomes are written once (bridge/state.py). */
module BridgeHistory {
  import opened Prelude
  import opened BridgeState

  datatype Op =
    | CreateOp(id: string, bridge: string, tenant: string, key: Option<string>)
    | SentOp(id: string, visibleTo: Option<string>)
    | RespondedOp(id: string, visibleTo: Option<string>, result: Success, metadata: Metadata)
    | FailedOp(id: string, visibleTo: Option<string>, failure: Failure, metadata: Metadata)
    | TimedOutOp(id: string, visibleTo: Option<string>)
    | OrphanOp(bridge: string, tenant: string, reason: string)

  function Do(st: Store, op: Op): Store {
    match op
    case CreateOp(id, bridge, tenant, key) => Create(st, id, bridge, tenant, key).0
    case SentOp(id, to) => MarkSent(st, id, to).0
    case RespondedOp(id, to, result, metadata) => MarkResponded(st, id, to, result, metadata).store
    case FailedOp(id, to, failure, metadata) => MarkFailed(st, id, to, failure, metadata).store
    case TimedOutOp(id, to) => MarkTimedOut(st, id, to).0
    case OrphanOp(bridge, tenant, reason) => MarkOrphaned(st, bridge, tenant, reason)
  }

  const EMPTY := Store(map[], [])

  /** The table after a run of operations. */
  function After(ops: seq<Op>): Store {
    if ops == [] then EMPTY else Do(After(ops[..|ops| - 1]), ops[|ops| - 1])
  }

  /** A `create_request` that reuses the id of an existing record and finds no record for its key. */
  predicate Overwrites(st: Store, op: Op) {
    && op.CreateOp?
    && op.id in st.requests
    && !(Usable(op.key) && FindOperation(st, op.tenant, op.bridge, op.key).Some?)
  }

  /** Request ids are fresh: no operation of the run overwrites a record. */
  ghost predicate FreshIds(ops: seq<Op>) {
    forall i :: 0 <= i < |ops| ==> !Overwrites(After(ops[..i]), ops[i])
  }

  /** The moves a status may make over any number of steps. */
  predicate Leads(a: Status, b: Status) {
    a == b || a.Pending? || (a.Sent? && b.Terminal())
  }

  ghost predicate SameOutcome(a: Request, b: Request) {
    a.status == b.status && a.result == b.result && a.error == b.error
  }

  ghost predicate Evolves(a: Request, b: Request) {
    && a.id == b.id && a.bridge == b.bridge && a.tenant == b.tenant && a.key == b.key
    && Leads(a.status, b.status)
    && (a.status.Terminal() ==> SameOutcome(a, b))
  }

  ghost predicate StoreEvolves(s: Store, t: Store) {
    forall id :: id in s.requests ==> id in t.requests && Evolves(s.requests[id], t.requests[id])
  }

  /** A stored outcome has exactly the field its status calls for. */
  ghost predicate Sound(r: Request) {
    && (r.status.Responded? <==> r.result.Some?)
    && (r.status.Failed? || r.status.TimedOut? || r.status.Orphaned? <==> r.error.Some?)
    && !r.status.Cancelled?
  }

  predicate SameKey(a: Request, b: Request) {
    Usable(a.key) && SameOperation(b, a.tenant, a.bridge, a.key)
  }

  /** No two records answer one (tenant, bridge, idempotency key). */
  ghost predicate OnePerKey(st: Store) {
    forall a, b {:trigger SameKey(st.requests[a], st.requests[b])} ::
      a in st.requests && b in st.requests && SameKey(st.requests[a], st.requests[b]) ==> a == b
  }

  ghost predicate GoodStore(st: Store) {
    && Coherent(st)
    && OnePerKey(st)
    && (forall id :: id in st.requests ==> Sound(st.requests[id]))
  }

  lemma EvolvesTransitive(s: Store, t: Store, u: Store)
    requires StoreEvolves(s, t) && StoreEvolves(t, u)
    ensures StoreEvolves(s, u)
  {
    forall id | id in s.requests
      ensures id in u.requests && Evolves(s.requests[id], u.requests[id])
    {
      assert Evolves(s.requests[id], t.requests[id]) && Evolves(t.requests[id], u.requests[id]);
    }
  }

  /** Writing back a changed record of the same identity. */
  lemma PutKeeps(st: Store, id: string, r: Request)
    requires GoodStore(st) && id in st.requests && Evolves(st.requests[id], r) && Sound(r)
    ensures GoodStore(Put(st, id, r)) && StoreEvolves(st, Put(st, id, r))
    ensures Put(st, id, r).requests.Keys == st.requests.Keys
  {
    var t := Put(st, id, r);
    forall a, b | a in t.requests && b in t.requests && SameKey(t.requests[a], t.requests[b])
      ensures a == b
    {
      assert SameKey(st.requests[a], st.requests[b]);
    }
  }

  /** A record for a key no record has yet. */
  lemma NewRecordKeeps(st: Store, id: string, r: Request)
    requires GoodStore(st) && id !in st.requests && r.id == id && r.status == Pending && r.result == None && r.error == None
    requires forall a :: a in st.requests ==> !SameKey(r, st.requests[a])
    ensures GoodStore(Put(st, id, r)) && StoreEvolves(st, Put(st, id, r))
  {
    var t := Put(st, id, r);
    assert id !in st.order;
    assert forall x :: x in t.order <==> x in t.requests;
    forall a, b | a in t.requests && b in t.requests && SameKey(t.requests[a], t.requests[b])
      ensures a == b
    {
      if a != id && b == id {
        assert SameKey(r, st.requests[a]);
      }
    }
  }

  lemma NotFound(st: Store, tenant: string, bridge: string, key: Option<string>, id: string)
    requires Coherent(st) && id in st.requests && FindOperation(st, tenant, bridge, key).None?
    ensures !SameOperation(st.requests[id], tenant, bridge, key)
  {
    var i :| 0 <= i < |st.order| && st.order[i] == id;
  }

  /** A created request either is the one record of its key or is new and pending. */
  lemma CreateKeeps(st: Store, id: string, bridge: string, tenant: string, key: Option<string>)
    requires GoodStore(st) && !Overwrites(st, CreateOp(id, bridge, tenant, key))
    ensures var (t, r) := Create(st, id, bridge, tenant, key);
            && GoodStore(t) && StoreEvolves(st, t)
            && r.id in t.requests && t.requests[r.id] == r
            && SameOperation(r, tenant, bridge, key)
            && (r.id in st.requests ==> t == st && Usable(key))
            && (r.id !in st.requests ==> r == NewRequest(id, bridge, tenant, key) && t.requests == st.requests[id := r])
  {
    if !(Usable(key) && FindOperation(st, tenant, bridge, key).Some?) {
      var r := NewRequest(id, bridge, tenant, key);
      forall a | a in st.requests
        ensures !SameKey(r, st.requests[a])
      {
        if Usable(key) { NotFound(st, tenant, bridge, key, a); }
      }
      NewRecordKeeps(st, id, r);
    }
  }

  lemma OrphanedKeeps(st: Store, bridge: string, tenant: string, reason: string)
    requires GoodStore(st)
    ensures GoodStore(MarkOrphaned(st, bridge, tenant, reason))
    ensures StoreEvolves(st, MarkOrphaned(st, bridge, tenant, reason))
  {
    var t := MarkOrphaned(st, bridge, tenant, reason);
    assert forall id :: id in st.requests ==> Evolves(st.requests[id], t.requests[id]);
    forall a, b | a in t.requests && b in t.requests && SameKey(t.requests[a], t.requests[b])
      ensures a == b
    {
      assert SameKey(st.requests[a], st.requests[b]);
    }
  }

  /** Every operation that does not overwrite a record keeps the table good and every outcome. */
  lemma StepKeeps(st: Store, op: Op)
    requires GoodStore(st) && !Overwrites(st, op)
    ensures GoodStore(Do(st, op)) && StoreEvolves(st, Do(st, op))
    ensures !op.CreateOp? ==> Do(st, op).requests.Keys == st.requests.Keys
  {
    match op
    case CreateOp(id, bridge, tenant, key) => CreateKeeps(st, id, bridge, tenant, key);
    case OrphanOp(bridge, tenant, reason) => OrphanedKeeps(st, bridge, tenant, reason);
    case SentOp(id, to) =>
      if Lookup(st, id, to).Some? { PutKeeps(st, id, Do(st, op).requests[id]); }
    case RespondedOp(id, to, result, metadata) =>
      if Lookup(st, id, to).Some? { PutKeeps(st, id, Do(st, op).requests[id]); }
    case FailedOp(id, to, failure, metadata) =>
      if Lookup(st, id, to).Some? { PutKeeps(st, id, Do(st, op).requests[id]); }
    case TimedOutOp(id, to) =>
      if Lookup(st, id, to).Some? { PutKeeps(st, id, Do(st, op).requests[id]); }
  }

  lemma {:induction false} RunKeeps(ops: seq<Op>)
    requires FreshIds(ops)
    ensures GoodStore(After(ops))
  {
    if ops != [] {
      var init := ops[..|ops| - 1];
      assert forall i :: 0 <= i < |init| ==> init[..i] == ops[..i];
      RunKeeps(init);
      StepKeeps(After(init), ops[|ops| - 1]);
    }
  }

  /** Between any two moments of a run each record only moves forward and a finished one is frozen. */
  lemma {:induction false} WriteOnce(ops: seq<Op>, early: nat)
    requires FreshIds(ops) && early <= |ops|
    ensures StoreEvolves(After(ops[..early]), After(ops))
    ensures GoodStore(After(ops))
    decreases |ops|
  {
    RunKeeps(ops);
    if early == |ops| {
      assert ops[..early] == ops;
    } else {
      var init := ops[..|ops| - 1];
      assert forall i :: 0 <= i <= |init| ==> init[..i] == ops[..i];
      WriteOnce(init, early);
      StepKeeps(After(init), ops[|ops| - 1]);
      EvolvesTransitive(After(ops[..early]), After(init), After(ops));
    }
  }

  /** Freshness is exactly what a finished record needs: one operation keeps its outcome if and only
      if it is not a creation that overwrites it. */
  lemma OutcomeKeptExactly(st: Store, op: Op, id: string)
    requires GoodStore(st) && id in st.requests && st.requests[id].status.Terminal()
    ensures (id in Do(st, op).requests && SameOutcome(st.requests[id], Do(st, op).requests[id]))
            <==> !(Overwrites(st, op) && op.id == id)
  {
    if !Overwrites(st, op) {
      StepKeeps(st, op);
      assert Evolves(st.requests[id], Do(st, op).requests[id]);
    }
  }

  /** `mark_responded` / `mark_failed` reporting that this call finished request `id`. */
  predicate Transitions(st: Store, op: Op, id: string) {
    match op
    case RespondedOp(x, to, result, metadata) => x == id && MarkResponded(st, x, to, result, metadata).transitioned
    case FailedOp(x, to, failure, metadata) => x == id && MarkFailed(st, x, to, failure, metadata).transitioned
    case _ => false
  }

  /** A response mark that found request `id` visible and already finished. */
  predicate LateMark(st: Store, op: Op, id: string) {
    && (op.RespondedOp? || op.FailedOp?)
    && op.id == id
    && Lookup(st, id, op.visibleTo).Some?
    && Lookup(st, id, op.visibleTo).value.status.Terminal()
  }

  function TransitionCount(ops: seq<Op>, id: string): nat {
    if ops == [] then 0
    else
      var init := ops[..|ops| - 1];
      TransitionCount(init, id) + if Transitions(After(init), ops[|ops| - 1], id) then 1 else 0
  }

  function LateCount(ops: seq<Op>, id: string): nat {
    if ops == [] then 0
    else
      var init := ops[..|ops| - 1];
      LateCount(init, id) + if LateMark(After(init), ops[|ops| - 1], id) then 1 else 0
  }

  ghost predicate Answered(st: Store, id: string) {
    id in st.requests && (st.requests[id].status.Responded? || st.requests[id].status.Failed?)
  }

  lemma TransitionStep(st: Store, op: Op, id: string)
    requires GoodStore(st) && !Overwrites(st, op)
    ensures Transitions(st, op, id) <==> !Answered(st, id) && Answered(Do(st, op), id)
    ensures Answered(st, id) ==> Answered(Do(st, op), id)
  {
    StepKeeps(st, op);
    if id in st.requests {
      assert Evolves(st.requests[id], Do(st, op).requests[id]);
    } else if op.CreateOp? {
      CreateKeeps(st, op.id, op.bridge, op.tenant, op.key);
    }
  }

  /** At most one call ever reports finishing a request: exactly one when it ends responded or failed. */
  lemma {:induction false} FinishedByOneCall(ops: seq<Op>, id: string)
    requires FreshIds(ops)
    ensures TransitionCount(ops, id) == if Answered(After(ops), id) then 1 else 0
  {
    if ops != [] {
      var init := ops[..|ops| - 1];
      assert forall i :: 0 <= i < |init| ==> init[..i] == ops[..i];
      FinishedByOneCall(init, id);
      RunKeeps(init);
      TransitionStep(After(init), ops[|ops| - 1], id);
    }
  }

  /** The metadata `handle_bridge_response` sends never carries the counter itself. */
  ghost predicate PlainMetadata(ops: seq<Op>) {
    forall i :: 0 <= i < |ops| && (ops[i].RespondedOp? || ops[i].FailedOp?) ==> DUPLICATES !in ops[i].metadata
  }

  lemma DuplicateStep(st: Store, op: Op, id: string)
    requires GoodStore(st) && !Overwrites(st, op)
    requires op.RespondedOp? || op.FailedOp? ==> DUPLICATES !in op.metadata
    requires id in st.requests && !st.requests[id].status.Terminal() ==> DUPLICATES !in st.requests[id].metadata
    requires id in Do(st, op).requests
    ensures !Do(st, op).requests[id].status.Terminal() ==> DUPLICATES !in Do(st, op).requests[id].metadata
    ensures DuplicateCount(Do(st, op).requests[id].metadata) ==
            (if id in st.requests then DuplicateCount(st.requests[id].metadata) else 0) + if LateMark(st, op, id) then 1 else 0
  {
    if op.CreateOp? {
      CreateKeeps(st, op.id, op.bridge, op.tenant, op.key);
    }
  }

  /** The stored duplicate counter is the number of response marks that came after the outcome. */
  lemma {:induction false} DuplicatesAreLateMarks(ops: seq<Op>, id: string)
    requires FreshIds(ops) && PlainMetadata(ops)
    ensures id !in After(ops).requests ==> LateCount(ops, id) == 0
    ensures id in After(ops).requests ==> DuplicateCount(After(ops).requests[id].metadata) == LateCount(ops, id)
    ensures id in After(ops).requests && !After(ops).requests[id].status.Terminal() ==>
              DUPLICATES !in After(ops).requests[id].metadata
  {
    if ops != [] {
      var init := ops[..|ops| - 1];
      assert forall i :: 0 <= i < |init| ==> init[..i] == ops[..i] && init[i] == ops[i];
      DuplicatesAreLateMarks(init, id);
      RunKeeps(init);
      StepKeeps(After(init), ops[|ops| - 1]);
      if id in After(ops).requests {
        DuplicateStep(After(init), ops[|ops| - 1], id);
      }
    }
  }

  /** Reusing an explicit id does break write-once: a finished request is pending again. */
  lemma ReusedIdLosesOutcome(id: string, bridge: string, tenant: string, xml: string)
    ensures var ops := [CreateOp(id, bridge, tenant, None),
                        RespondedOp(id, None, OkPayload(id, xml), map[]),
                        CreateOp(id, bridge, tenant, None)];
            && Answered(After(ops[..2]), id)
            && After(ops).requests == map[id := NewRequest(id, bridge, tenant, None)]
  {
    var a, b := CreateOp(id, bridge, tenant, None), RespondedOp(id, None, OkPayload(id, xml), map[]);
    var ops := [a, b, a];
    assert ops[..2] == [a, b] && [a, b][..1] == [a] && [a][..0] == [];
    assert After([a]) == Do(EMPTY, a);
    assert After([a, b]) == Do(Do(EMPTY, a), b);
  }

  // ----- what one operation does -----

  /** The record an operation is given the id of, and may see. */
  predicate Sees(st: Store, op: Op) {
    !op.CreateOp? && !op.OrphanOp? && op.id in st.requests && (op.visibleTo.None? || op.visibleTo.value == st.requests[op.id].tenant)
  }

  /** Tenants stay apart: an operation for one tenant neither reads nor changes a record of another, and an
      operation on one record leaves every other as it was. */
  lemma TenantsStayApart(st: Store, op: Op, id: string)
    requires id in st.requests && !Overwrites(st, op)
    ensures op.OrphanOp? && op.tenant != st.requests[id].tenant ==> Do(st, op).requests[id] == st.requests[id]
    ensures !op.OrphanOp? && !(Sees(st, op) && op.id == id) ==> id in Do(st, op).requests && Do(st, op).requests[id] == st.requests[id]
    ensures forall t :: t != st.requests[id].tenant ==> Lookup(st, id, Some(t)) == None
    ensures Lookup(st, id, None) == Some(st.requests[id]) == Lookup(st, id, Some(st.requests[id].tenant))
  {}

  /** What a mark does to a record it sees: a pending one is sent, an unfinished one takes the outcome given, and a
      finished one keeps its own. */
  lemma MarksExactly(st: Store, op: Op)
    requires Sees(st, op)
    ensures var r, q := st.requests[op.id], Do(st, op).requests[op.id];
            match op
            case SentOp(_, _) => q.status == (if r.status == Pending then Sent else r.status) && q == r.(status := q.status)
            case RespondedOp(_, _, result, metadata) =>
              if !r.status.Pending? && !r.status.Sent? then SameOutcome(r, q)
              else q.status == Responded && q.result == Some(result) && q.error == r.error && q.metadata == metadata
            case FailedOp(_, _, failure, metadata) =>
              if !r.status.Pending? && !r.status.Sent? then SameOutcome(r, q)
              else q.status == Failed && q.error == Some(failure) && q.result == r.result && q.metadata == metadata
            case TimedOutOp(_, _) =>
              if !r.status.Pending? && !r.status.Sent? then q == r
              else q.status == TimedOut && q.error == Some(Failure(RequestTimedOut, "Bridge request timed out"))
  {}

  /** A late mark is counted, and its metadata, if any, noted; the metadata of the outcome stays. */
  lemma LateMarkNoted(st: Store, op: Op)
    requires Sees(st, op) && (op.RespondedOp? || op.FailedOp?) && st.requests[op.id].status.Terminal()
    ensures var m, q, given := st.requests[op.id].metadata, Do(st, op).requests[op.id].metadata, op.metadata;
            && (given != map[] ==> LAST_DUPLICATE in q && q[LAST_DUPLICATE] == Obj(given))
            && (forall k :: k in m && k != DUPLICATES && (k != LAST_DUPLICATE || given == map[]) ==> k in q && q[k] == m[k])
            && (forall k :: k in q && k != DUPLICATES && k != LAST_DUPLICATE ==> k in m)
  {
    assert |DUPLICATES| != |LAST_DUPLICATE|;
  }

  /** What a disconnect does: exactly the unfinished requests of that bridge and tenant are orphaned. */
  lemma OrphansExactly(st: Store, bridge: string, tenant: string, reason: string, id: string)
    requires id in st.requests
    ensures var r, q := st.requests[id], Do(st, OrphanOp(bridge, tenant, reason)).requests[id];
            if r.bridge == bridge && r.tenant == tenant && (r.status.Pending? || r.status.Sent?)
            then q.status == Orphaned && q.error == Some(Failure(BridgeDisconnected, reason)) && q.result == r.result
            else q == r
  {}

  /** What a creation does: a usable key that a record of the tenant and bridge already has gives that record back
      and changes nothing; otherwise there is a new pending record under the id, and nothing else changes. */
  lemma CreateExactly(st: Store, id: string, bridge: string, tenant: string, key: Option<string>)
    requires Coherent(st)
    ensures var (after, r) := Create(st, id, bridge, tenant, key);
            var known := key.Some? && key.value != "" && exists x :: x in st.requests && SameOperation(st.requests[x], tenant, bridge, key);
            if known then after == st && r.id in st.requests && st.requests[r.id] == r && SameOperation(r, tenant, bridge, key)
            else r == Request(id, bridge, tenant, key, Pending, map[], None, None) && after.requests == st.requests[id := r]
  {
    if Usable(key) {
      var found := FindOperation(st, tenant, bridge, key);
      if x :| x in st.requests && SameOperation(st.requests[x], tenant, bridge, key) {
        var i :| 0 <= i < |st.order| && st.order[i] == x;
        assert found.Some?;
      }
    }
  }
}
