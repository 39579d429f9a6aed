/** The durable request table of bridge/state.py: `InMemoryBridgeStateRepository`. */
module BridgeState {
  import opened Prelude

  datatype Status = Pending | Sent | Responded | TimedOut | Failed | Cancelled | Orphaned {
    predicate Active() { Pending? || Sent? }

    predicate Terminal() { Responded? || TimedOut? || Failed? || Cancelled? || Orphaned? }

    function Text(): string {
      match this
      case Pending => "pending"
      case Sent => "sent"
      case Responded => "responded"
      case TimedOut => "timed_out"
      case Failed => "failed"
      case Cancelled => "cancelled"
      case Orphaned => "orphaned"
    }
  }

  /** The error codes of bridge/state.py and bridge/server_handler.py, which double as response categories. */
  datatype Code =
    | BridgeError | MalformedResponse | BridgeSendFailed | BridgeNotLocal | BridgeDisconnected | BridgeRequestNotFound
    | BridgeBrokerUnavailable | BridgePublishFailed | RequestTimedOut | BridgeNotRegistered | TenantMismatch
    | StatusCode(status: Status)

  /** A response message: `{"type": "response", "request_id", "status": "ok" | "error", ...}`. */
  datatype Payload =
    | OkPayload(requestId: string, xml: string)
    | ErrPayload(requestId: string, category: Code, text: string)

  /** The only message `handle_bridge_response` stores as a result. */
  type Success = p: Payload | p.OkPayload? witness OkPayload("", "")

  datatype Failure = Failure(code: Code, message: string)

  /** The JSON values a response-metadata dictionary holds. */
  datatype Json = Null | Num(n: int) | Str(s: string) | Names(names: seq<string>) | Obj(fields: Metadata)

  type Metadata = map<string, Json>

  const DUPLICATES := "duplicate_response_count"
  const LAST_DUPLICATE := "last_duplicate_metadata"

  datatype Request = Request(
    id: string,
    bridge: string,
    tenant: string,
    key: Option<string>,
    status: Status,
    metadata: Metadata,
    result: Option<Success>,
    error: Option<Failure>
  )

  /** The `requests` dictionary: its entries and their insertion order. */
  datatype Store = Store(requests: map<string, Request>, order: seq<string>)

  /** What `mark_responded` and `mark_failed` leave behind and return. */
  datatype Marked = Marked(store: Store, record: Option<Request>, transitioned: bool)

  ghost predicate Coherent(st: Store) {
    && Distinct(st.order)
    && (forall id :: id in st.order <==> id in st.requests)
    && (forall id :: id in st.requests ==> st.requests[id].id == id)
  }

  /** Python truthiness of an optional idempotency key. */
  predicate Usable(key: Option<string>) {
    key.Some? && key.value != ""
  }

  predicate SameOperation(r: Request, tenant: string, bridge: string, key: Option<string>) {
    r.tenant == tenant && r.bridge == bridge && r.key == key
  }

  /** The first record, in insertion order, for the same tenant, bridge and key. */
  function FindOperation(st: Store, tenant: string, bridge: string, key: Option<string>, from: nat := 0): (r: Option<Request>)
    requires from <= |st.order|
    ensures r.Some? ==>
              (exists i :: from <= i < |st.order| && st.order[i] in st.requests && st.requests[st.order[i]] == r.value)
              && SameOperation(r.value, tenant, bridge, key)
    ensures r.None? ==>
              forall i :: from <= i < |st.order| && st.order[i] in st.requests ==>
                            !SameOperation(st.requests[st.order[i]], tenant, bridge, key)
    decreases |st.order| - from
  {
    if from == |st.order| then None
    else if st.order[from] in st.requests && SameOperation(st.requests[st.order[from]], tenant, bridge, key) then
      Some(st.requests[st.order[from]])
    else FindOperation(st, tenant, bridge, key, from + 1)
  }

  /** `requests[id] = record`: a dictionary write keeps the position of an existing key. */
  function Put(st: Store, id: string, r: Request): Store {
    Store(st.requests[id := r], if id in st.requests then st.order else st.order + [id])
  }

  function NewRequest(id: string, bridge: string, tenant: string, key: Option<string>): Request {
    Request(id, bridge, tenant, key, Pending, map[], None, None)
  }

  /** `create_request`: the existing record of a repeated key, else a new pending one. */
  function Create(st: Store, id: string, bridge: string, tenant: string, key: Option<string>): (r: (Store, Request)) {
    if Usable(key) && FindOperation(st, tenant, bridge, key).Some? then
      (st, FindOperation(st, tenant, bridge, key).value)
    else
      var r := NewRequest(id, bridge, tenant, key);
      (Put(st, id, r), r)
  }

  /** `get_request`: a record of another tenant is invisible. */
  function Lookup(st: Store, id: string, tenant: Option<string>): Option<Request> {
    if id in st.requests && (tenant.None? || st.requests[id].tenant == tenant.value) then Some(st.requests[id])
    else None
  }

  function MarkSent(st: Store, id: string, tenant: Option<string>): (Store, Option<Request>) {
    match Lookup(st, id, tenant)
    case None => (st, None)
    case Some(r) =>
      if r.status.Pending? then
        var sent := r.(status := Sent);
        (Put(st, id, sent), Some(sent))
      else (st, Some(r))
  }

  /** `int(metadata.get("duplicate_response_count") or 0)`. */
  function DuplicateCount(m: Metadata): int {
    if DUPLICATES in m && m[DUPLICATES].Num? then m[DUPLICATES].n else 0
  }

  /** `_record_duplicate`. */
  function WithDuplicate(r: Request, metadata: Metadata): Request {
    var counted := r.metadata[DUPLICATES := Num(DuplicateCount(r.metadata) + 1)];
    r.(metadata := if metadata == map[] then counted else counted[LAST_DUPLICATE := Obj(metadata)])
  }

  /** The shared shape of `mark_responded` and `mark_failed`. */
  function MarkFinished(st: Store, id: string, tenant: Option<string>, finish: Request -> Request, metadata: Metadata): Marked {
    match Lookup(st, id, tenant)
    case None => Marked(st, None, false)
    case Some(r) =>
      if r.status.Terminal() then
        var late := WithDuplicate(r, metadata);
        Marked(Put(st, id, late), Some(late), false)
      else
        var done := finish(r);
        Marked(Put(st, id, done), Some(done), true)
  }

  function MarkResponded(st: Store, id: string, tenant: Option<string>, result: Success, metadata: Metadata): Marked {
    MarkFinished(st, id, tenant, (r: Request) => r.(status := Responded, result := Some(result), metadata := metadata), metadata)
  }

  function MarkFailed(st: Store, id: string, tenant: Option<string>, failure: Failure, metadata: Metadata): Marked {
    MarkFinished(st, id, tenant, (r: Request) => r.(status := Failed, error := Some(failure), metadata := metadata), metadata)
  }

  const TIMEOUT_FAILURE := Failure(RequestTimedOut, "Bridge request timed out")

  function MarkTimedOut(st: Store, id: string, tenant: Option<string>): (Store, Option<Request>) {
    match Lookup(st, id, tenant)
    case None => (st, None)
    case Some(r) =>
      if r.status.Active() then
        var late := r.(status := TimedOut, error := Some(TIMEOUT_FAILURE));
        (Put(st, id, late), Some(late))
      else (st, Some(r))
  }

  predicate Orphanable(r: Request, bridge: string, tenant: string) {
    r.bridge == bridge && r.tenant == tenant && r.status.Active()
  }

  function Orphan(r: Request, reason: string): Request {
    r.(status := Orphaned, error := Some(Failure(BridgeDisconnected, reason)))
  }

  /** `mark_bridge_requests_orphaned` on the table. */
  function MarkOrphaned(st: Store, bridge: string, tenant: string, reason: string): Store {
    st.(requests := map id | id in st.requests ::
      if Orphanable(st.requests[id], bridge, tenant) then Orphan(st.requests[id], reason) else st.requests[id])
  }

  /** `InMemoryBridgeStateRepository`, updated in place. */
  class BridgeStateRepository {
    var requests: map<string, Request>
    var order: seq<string>

    ghost predicate Valid() reads this { Coherent(Contents()) }

    ghost function Contents(): Store reads this { Store(requests, order) }

    constructor ()
      ensures Valid() && Contents() == Store(map[], [])
    {
      requests := map[];
      order := [];
    }

    method CreateRequest(id: string, bridge: string, tenant: string, key: Option<string>) returns (record: Request)
      requires Valid()
      modifies this
      ensures Valid()
      ensures (Contents(), record) == Create(old(Contents()), id, bridge, tenant, key)
    {
      if Usable(key) {
        var existing := SearchOperation(tenant, bridge, key);
        if existing.Some? {
          return existing.value;
        }
      }
      record := Request(id, bridge, tenant, key, Pending, map[], None, None);
      if id !in requests {
        order := order + [id];
      }
      requests := requests[id := record];
    }

    /** The scan `create_request` makes over the records. */
    method SearchOperation(tenant: string, bridge: string, key: Option<string>) returns (existing: Option<Request>)
      requires Valid()
      ensures existing == FindOperation(Contents(), tenant, bridge, key)
    {
      for i := 0 to |order|
        invariant FindOperation(Contents(), tenant, bridge, key) == FindOperation(Contents(), tenant, bridge, key, i)
      {
        var record := requests[order[i]];
        if record.tenant == tenant && record.bridge == bridge && record.key == key {
          return Some(record);
        }
      }
      return None;
    }

    method GetRequest(id: string, tenant: Option<string>) returns (record: Option<Request>)
      ensures record == Lookup(Contents(), id, tenant)
    {
      if id !in requests || (tenant.Some? && requests[id].tenant != tenant.value) {
        return None;
      }
      return Some(requests[id]);
    }

    method MarkSentInPlace(id: string, tenant: Option<string>) returns (record: Option<Request>)
      requires Valid()
      modifies this
      ensures Valid()
      ensures (Contents(), record) == MarkSent(old(Contents()), id, tenant)
    {
      record := GetRequest(id, tenant);
      if record.Some? && record.value.status == Pending {
        requests := requests[id := requests[id].(status := Sent)];
        record := Some(requests[id]);
      }
    }

    method RecordDuplicate(id: string, metadata: Metadata)
      requires Valid() && id in requests
      modifies this
      ensures Valid() && order == old(order)
      ensures requests == old(requests)[id := WithDuplicate(old(requests[id]), metadata)]
    {
      var r := requests[id];
      var updated := r.metadata;
      updated := updated[DUPLICATES := Num(DuplicateCount(updated) + 1)];
      if metadata != map[] {
        updated := updated[LAST_DUPLICATE := Obj(metadata)];
      }
      requests := requests[id := r.(metadata := updated)];
    }

    method MarkRespondedInPlace(id: string, tenant: Option<string>, result: Success, metadata: Metadata)
      returns (record: Option<Request>, transitioned: bool)
      requires Valid()
      modifies this
      ensures Valid()
      ensures Marked(Contents(), record, transitioned) == MarkResponded(old(Contents()), id, tenant, result, metadata)
    {
      record := GetRequest(id, tenant);
      if record.None? {
        return None, false;
      }
      if record.value.status.Terminal() {
        RecordDuplicate(id, metadata);
        return Some(requests[id]), false;
      }
      var done := record.value;
      done := done.(status := Responded);
      done := done.(result := Some(result));
      done := done.(metadata := metadata);
      requests := requests[id := done];
      return Some(done), true;
    }

    method MarkFailedInPlace(id: string, tenant: Option<string>, failure: Failure, metadata: Metadata)
      returns (record: Option<Request>, transitioned: bool)
      requires Valid()
      modifies this
      ensures Valid()
      ensures Marked(Contents(), record, transitioned) == MarkFailed(old(Contents()), id, tenant, failure, metadata)
    {
      record := GetRequest(id, tenant);
      if record.None? {
        return None, false;
      }
      if record.value.status.Terminal() {
        RecordDuplicate(id, metadata);
        return Some(requests[id]), false;
      }
      var done := record.value;
      done := done.(status := Failed);
      done := done.(error := Some(failure));
      done := done.(metadata := metadata);
      requests := requests[id := done];
      return Some(done), true;
    }

    method MarkTimedOutInPlace(id: string, tenant: Option<string>) returns (record: Option<Request>)
      requires Valid()
      modifies this
      ensures Valid()
      ensures (Contents(), record) == MarkTimedOut(old(Contents()), id, tenant)
    {
      record := GetRequest(id, tenant);
      if record.Some? && record.value.status.Active() {
        var late := record.value.(status := TimedOut);
        late := late.(error := Some(TIMEOUT_FAILURE));
        requests := requests[id := late];
        record := Some(late);
      }
    }

    /** The loop over `requests.values()`: every active request of the bridge, each reported once by id. */
    method MarkBridgeRequestsOrphaned(bridge: string, tenant: string, reason: string) returns (updated: seq<string>)
      requires Valid()
      modifies this
      ensures Valid()
      ensures Contents() == MarkOrphaned(old(Contents()), bridge, tenant, reason)
      ensures forall id :: id in updated <==> id in old(requests) && Orphanable(old(requests)[id], bridge, tenant)
      ensures Distinct(updated)
    {
      updated := [];
      ghost var was := requests;
      for i := 0 to |order|
        invariant order == old(order) && OrphanedThese(was, requests, updated, reason)
        invariant forall id :: id in updated <==> id in order[..i] && Orphanable(was[id], bridge, tenant)
        invariant Distinct(updated)
      {
        var id := order[i];
        assert id !in order[..i];
        assert order[..i + 1] == order[..i] + [id];
        var record := requests[id];
        if record.bridge == bridge && record.tenant == tenant && record.status.Active() {
          OrphanedOneMore(was, requests, updated, reason, id);
          requests := requests[id := record.(status := Orphaned, error := Some(Failure(BridgeDisconnected, reason)))];
          updated := updated + [id];
        }
      }
      assert order[..|order|] == order;
      OrphanedAll(Store(was, order), requests, updated, bridge, tenant, reason);
    }
  }

  /** Orphaning exactly the orphanable records is what `MarkOrphaned` says. */
  lemma OrphanedAll(st: Store, now: map<string, Request>, ids: seq<string>, bridge: string, tenant: string, reason: string)
    requires OrphanedThese(st.requests, now, ids, reason)
    requires forall id :: id in st.requests ==> (id in ids <==> Orphanable(st.requests[id], bridge, tenant))
    ensures now == MarkOrphaned(st, bridge, tenant, reason).requests
  {}

  /** `now` is `was` with exactly these records orphaned. */
  ghost predicate OrphanedThese(was: map<string, Request>, now: map<string, Request>, ids: seq<string>, reason: string) {
    now.Keys == was.Keys && forall id :: id in was ==> now[id] == if id in ids then Orphan(was[id], reason) else was[id]
  }

  lemma OrphanedOneMore(was: map<string, Request>, now: map<string, Request>, ids: seq<string>, reason: string, id: string)
    requires OrphanedThese(was, now, ids, reason) && id in was && id !in ids
    ensures now[id] == was[id] && OrphanedThese(was, now[id := Orphan(was[id], reason)], ids + [id], reason)
  {}
}
