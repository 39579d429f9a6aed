/** bridge/server_handler.py as a transition system: any number of `route_to_bridge` calls on any
    number of processes share one repository and one broker. A step is the code between two awaits. */
module BridgeProtocol {
  import opened Prelude
  import opened BridgeState

  const HEARTBEAT_STALE_SECONDS := 120

  datatype SessionStatus = ActiveStatus | ConnectedStatus | OtherStatus(text: string)

  datatype Session = Session(tenant: string, status: SessionStatus, lastHeartbeat: Option<int>) {
    predicate Connected(now: int) {
      && !status.OtherStatus?
      && !(lastHeartbeat.Some? && now - lastHeartbeat.value > HEARTBEAT_STALE_SECONDS)
    }
  }

  /** How `route_to_bridge` ends: a payload, or a `BridgeRouteError`. */
  datatype Outcome = Returned(payload: Payload) | Raised(code: Code)

  datatype Future = Unset | Resolved(payload: Payload) | Broken(code: Code) | Abandoned

  /** Where a call stands; the comments name what it does next. */
  datatype Pc =
    | Start       // read the session
    | Unseen      // no session for this tenant: look whether another tenant has it
    | Ready       // create the request
    | Created     // branch on the record that came back
    | Refused     // bridge disconnected: mark the request failed
    | Registered  // future registered: subscribe to the response
    | NoBroker    // subscription failed: mark the request failed
    | Subscribed  // publish, or re-read when the request was replayed
    | Reread      // branch on the re-read record
    | NoPublish   // publish failed: mark the request failed
    | Waiting     // wait for the future
    | TimingOut   // mark the request timed out
    | Closing     // run the finally block
    | Done

  datatype Caller = Caller(
    proc: nat,
    bridge: string,
    tenantArg: Option<string>,
    rid: string,            // the id this call proposes
    key: Option<string>,
    pc: Pc,
    session: Session,
    joined: bool,           // create_request has returned
    eid: string,            // the id of the record it returned
    replayed: bool,
    seen: Option<Request>,  // the last copy of the record this call read
    future: Future,
    outcome: Outcome
  )

  datatype DeliveryState = Arrived | Sending | SendBroken | Announcing(payload: Payload)

  /** One run of `_send_brokered_request_to_bridge`. */
  datatype Delivery = Delivery(proc: nat, bridge: string, tenant: string, rid: string, at: DeliveryState)

  /** One run of `handle_bridge_response` that finished its request. */
  datatype Responder = Responder(proc: nat, rid: string, payload: Payload, published: bool)

  datatype Published = Published(caller: nat, rid: string, bridge: string, tenant: string)

  datatype State = State(
    store: Store,
    sessions: map<string, Session>,
    callers: map<nat, Caller>,
    pending: map<(nat, string), nat>,     // _pending_requests of every process
    subs: set<(string, nat)>,             // response_handlers
    listener: map<string, nat>,           // the live request subscription of each bridge
    active: set<(nat, string)>,           // _active_bridges of every process
    deliveries: map<nat, Delivery>,
    responders: map<nat, Responder>,
    notices: set<(nat, string)>,          // orphaned requests whose local waiter is still to be told
    published: seq<Published>,            // published_requests
    announced: set<(string, Payload)>,    // published_responses
    wire: seq<string>,                    // post_xml frames written to bridge sockets
    early: set<string>                    // requests answered before any post_xml for them was published
  )

  const NO_SESSION := Session("", OtherStatus(""), None)

  function Init(): State {
    State(Store(map[], []), map[], map[], map[], {}, map[], {}, map[], map[], {}, [], {}, [], {})
  }

  // ----- messages -----

  /** A frame from the bridge: `status`, `xml_response` and `error` are present only as strings. */
  datatype Frame = Frame(requestId: string, status: Option<string>, xml: Option<string>, error: Option<string>, keys: seq<string>)

  const NOT_LOCAL := "Bridge is not connected to this process"
  const NOT_SENT := "Failed to send request to bridge socket"
  const NOT_REGISTERED := "Bridge request was not durably registered"
  const MALFORMED := "Bridge returned a malformed response"

  /** What `handle_bridge_response` makes of a frame. */
  function Reading(f: Frame): (payload: Payload)
    ensures payload.requestId == f.requestId
  {
    if f.status == Some("ok") && f.xml.Some? then OkPayload(f.requestId, f.xml.value)
    else if f.status == Some("error") && f.error.Some? then ErrPayload(f.requestId, BridgeError, f.error.value)
    else ErrPayload(f.requestId, MalformedResponse, MALFORMED)
  }

  /** Which frames are answers, which are errors, and which are neither. */
  lemma ReadingExactly(f: Frame)
    ensures var p := Reading(f);
            && (forall xml :: p == OkPayload(f.requestId, xml) <==> f.status == Some("ok") && f.xml == Some(xml))
            && (forall text :: p == ErrPayload(f.requestId, BridgeError, text) <==> f.status == Some("error") && f.error == Some(text))
            && (p == ErrPayload(f.requestId, MalformedResponse, MALFORMED) <==>
                  !(f.status == Some("ok") && f.xml.Some?) && !(f.status == Some("error") && f.error.Some?))
  {
    assert "ok"[0] != "error"[0];
  }

  function FrameMetadata(f: Frame): (m: Metadata)
    ensures DUPLICATES !in m
  {
    var m := map["bridge_status" := if f.status.Some? then Str(f.status.value) else Null];
    assert |"bridge_status"| != |DUPLICATES| && |"raw_keys"| != |DUPLICATES|;
    if Reading(f).ErrPayload? && Reading(f).category == MalformedResponse then m["raw_keys" := Names(f.keys)] else m
  }

  function FinishWith(st: Store, rid: string, tenant: Option<string>, p: Payload, m: Metadata): Marked {
    if p.OkPayload? then MarkResponded(st, rid, tenant, p, m)
    else MarkFailed(st, rid, tenant, Failure(p.category, p.text), m)
  }

  /** `_RESPONSE_STYLE_FAILURE_CODES`. */
  predicate ResponseStyle(code: Code) {
    code.BridgeError? || code.MalformedResponse? || code.BridgeSendFailed?
  }

  /** `_replay_terminal_record`. */
  function Replay(r: Request): Outcome {
    if r.status.Responded? && r.result.Some? then Returned(r.result.value)
    else
      var code := if r.error.Some? then r.error.value.code else StatusCode(r.status);
      var message := if r.error.Some? && r.error.value.message != "" then r.error.value.message
                     else "Bridge request " + r.status.Text();
      if ResponseStyle(code) then Returned(ErrPayload(r.id, code, message)) else Raised(code)
  }

  // ----- state updates shared by the steps -----

  function SetCaller(s: State, c: nat, k: Caller): State {
    s.(callers := s.callers[c := k])
  }

  function Finish(s: State, c: nat, outcome: Outcome): State
    requires c in s.callers
  {
    SetCaller(s, c, s.callers[c].(pc := Done, outcome := outcome))
  }

  /** `_pending_requests.pop(eid, None)` in the caller's process, whoever registered the slot. */
  function PopSlot(s: State, c: nat): State
    requires c in s.callers
  {
    s.(pending := s.pending - {(s.callers[c].proc, s.callers[c].eid)})
  }

  function CloseSub(s: State, c: nat): State
    requires c in s.callers
  {
    s.(subs := s.subs - {(s.callers[c].eid, c)})
  }

  function Holder(k: Caller, rid: string): (nat, string) { (k.proc, rid) }

  /** The caller whose future `_complete_local_waiter` finds in one of `procs`. */
  predicate Woken(s: State, procs: set<nat>, rid: string, c: nat)
    requires c in s.callers
  {
    var k := s.callers[c];
    && k.proc in procs
    && Holder(k, rid) in s.pending
    && s.pending[Holder(k, rid)] == c
    && k.future.Unset?
  }

  /** `_complete_local_waiter(rid, ...)` in each of `procs`. */
  function Complete(s: State, procs: set<nat>, rid: string, result: Future): State {
    s.(pending := map slot | slot in s.pending && !(slot.0 in procs && slot.1 == rid) :: s.pending[slot],
       callers := map c | c in s.callers ::
         if Woken(s, procs, rid, c) then s.callers[c].(future := result) else s.callers[c])
  }

  function SubscribedProcs(s: State, rid: string): set<nat> {
    set e | e in s.subs && e.0 == rid && e.1 in s.callers :: s.callers[e.1].proc
  }

  function PublishedIds(published: seq<Published>): set<string> {
    set p | p in published :: p.rid
  }

  /** `publish_response`: every current subscriber's handler runs before it returns. */
  function Announce(s: State, rid: string, p: Payload): State {
    Complete(s, SubscribedProcs(s, rid), rid, Resolved(p)).(
      announced := s.announced + {(rid, p)},
      early := if rid in PublishedIds(s.published) then s.early else s.early + {rid})
  }

  // ----- steps -----

  datatype Step =
    | Spawn(c: nat, proc: nat, bridge: string, tenantArg: Option<string>, rid: string, key: Option<string>)
    | GetSession(c: nat)
    | CheckVisible(c: nat)
    | CreateRecord(c: nat)
    | AfterCreate(c: nat, now: int)
    | FailDisconnected(c: nat)
    | Subscribe(c: nat)
    | SubscribeFails(c: nat)
    | FailNoBroker(c: nat, message: string)
    | RereadRecord(c: nat)
    | AfterReread(c: nat)
    | Publish(c: nat, d: nat)
    | PublishFails(c: nat, appended: bool, d: nat)
    | FailNoPublish(c: nat, message: string)
    | Resume(c: nat)
    | TimeOut(c: nat)
    | MarkTimeout(c: nat)
    | Close(c: nat)
    | SetSession(bridge: string, session: Session)
    | Listen(bridge: string, proc: nat)
    | Unlisten(bridge: string)
    | Activate(proc: nat, bridge: string)
    | Deactivate(proc: nat, bridge: string)
    | OrphanBridge(proc: nat, bridge: string, tenant: string, reason: string)
    | Notify(proc: nat, rid: string)
    | DeliverNotLocal(d: nat)
    | DeliverLocal(d: nat)
    | Send(d: nat)
    | SendFails(d: nat)
    | FailSend(d: nat, message: string)
    | AnnounceDelivery(d: nat)
    | Receive(h: nat, proc: nat, frame: Frame, visibleTo: Option<string>)
    | AnnounceResponse(h: nat)
    | CompleteLocal(h: nat)

  predicate At(s: State, c: nat, pc: Pc) {
    c in s.callers && s.callers[c].pc == pc
  }

  predicate DeliveryAt(s: State, d: nat, at: DeliveryState) {
    d in s.deliveries && s.deliveries[d].at == at
  }

  predicate Enabled(s: State, step: Step) {
    match step
    case Spawn(c, _, _, _, rid, _) =>
      // `request_id or str(uuid4())`: non-empty, and no other call or record has it.
      c !in s.callers && rid != "" && rid !in s.store.requests && forall o :: o in s.callers ==> s.callers[o].rid != rid
    case GetSession(c) => At(s, c, Start)
    case CheckVisible(c) => At(s, c, Unseen)
    case CreateRecord(c) => At(s, c, Ready)
    case AfterCreate(c, _) => At(s, c, Created) && s.callers[c].seen.Some?
    case FailDisconnected(c) => At(s, c, Refused)
    case Subscribe(c) => At(s, c, Registered)
    case SubscribeFails(c) => At(s, c, Registered)
    case FailNoBroker(c, _) => At(s, c, NoBroker)
    case RereadRecord(c) => At(s, c, Subscribed) && s.callers[c].replayed
    case AfterReread(c) => At(s, c, Reread)
    case Publish(c, d) => At(s, c, Subscribed) && !s.callers[c].replayed && d !in s.deliveries
    case PublishFails(c, _, d) => At(s, c, Subscribed) && !s.callers[c].replayed && d !in s.deliveries
    case FailNoPublish(c, _) => At(s, c, NoPublish)
    case Resume(c) => At(s, c, Waiting) && (s.callers[c].future.Resolved? || s.callers[c].future.Broken?)
    case TimeOut(c) => At(s, c, Waiting) && s.callers[c].future.Unset?
    case MarkTimeout(c) => At(s, c, TimingOut)
    case Close(c) => At(s, c, Closing)
    case SetSession(_, _) => true
    case Listen(bridge, _) => bridge !in s.listener
    case Unlisten(_) => true
    case Activate(_, _) => true
    case Deactivate(_, _) => true
    case OrphanBridge(_, _, _, _) => true
    case Notify(proc, rid) => (proc, rid) in s.notices
    case DeliverNotLocal(d) => DeliveryAt(s, d, Arrived) && (s.deliveries[d].proc, s.deliveries[d].bridge) !in s.active
    case DeliverLocal(d) => DeliveryAt(s, d, Arrived) && (s.deliveries[d].proc, s.deliveries[d].bridge) in s.active
    case Send(d) => DeliveryAt(s, d, Sending)
    case SendFails(d) => DeliveryAt(s, d, Sending)
    case FailSend(d, _) => DeliveryAt(s, d, SendBroken)
    case AnnounceDelivery(d) => d in s.deliveries && s.deliveries[d].at.Announcing?
    case Receive(h, _, frame, _) => h !in s.responders && frame.requestId != ""
    case AnnounceResponse(h) => h in s.responders && !s.responders[h].published
    case CompleteLocal(h) => h in s.responders && s.responders[h].published
  }

  function Visible(tenant: string): Option<string> {
    if tenant == "" then None else Some(tenant)
  }

  /** `mark_failed` followed by raising the matching `BridgeRouteError`. */
  function FailAndRaise(s: State, c: nat, failure: Failure): State
    requires c in s.callers
  {
    var k := s.callers[c];
    Finish(s.(store := MarkFailed(s.store, k.eid, Some(k.session.tenant), failure, map[]).store), c,
           Raised(failure.code))
  }

  function DoGetSession(s: State, c: nat): State
    requires c in s.callers
  {
    var k := s.callers[c];
    if k.bridge in s.sessions && (k.tenantArg.None? || s.sessions[k.bridge].tenant == k.tenantArg.value) then
      SetCaller(s, c, k.(pc := Ready, session := s.sessions[k.bridge]))
    else if k.tenantArg.Some? then SetCaller(s, c, k.(pc := Unseen))
    else Finish(s, c, Raised(BridgeNotRegistered))
  }

  function DoCheckVisible(s: State, c: nat): State
    requires c in s.callers
  {
    var k := s.callers[c];
    if k.bridge in s.sessions && k.tenantArg != Some(s.sessions[k.bridge].tenant) then
      Finish(s, c, Raised(TenantMismatch))
    else Finish(s, c, Raised(BridgeNotRegistered))
  }

  function DoCreateRecord(s: State, c: nat): State
    requires c in s.callers
  {
    var k := s.callers[c];
    var (store, r) := Create(s.store, k.rid, k.bridge, k.session.tenant, k.key);
    SetCaller(s.(store := store), c,
              k.(pc := Created, joined := true, eid := r.id, seen := Some(r),
                 replayed := r.id != k.rid || r.status != Pending))
  }

  function DoAfterCreate(s: State, c: nat, now: int): State
    requires c in s.callers && s.callers[c].seen.Some?
  {
    var k := s.callers[c];
    if k.seen.value.status.Terminal() then Finish(s, c, Replay(k.seen.value))
    else if !k.session.Connected(now) then SetCaller(s, c, k.(pc := Refused))
    else SetCaller(s.(pending := s.pending[(k.proc, k.eid) := c]), c, k.(pc := Registered))
  }

  function DoAfterReread(s: State, c: nat): State
    requires c in s.callers
  {
    var k := s.callers[c];
    if k.seen.Some? && k.seen.value.status.Terminal() then
      Finish(CloseSub(PopSlot(s, c), c), c, Replay(k.seen.value))
    else SetCaller(s, c, k.(pc := Waiting))
  }

  /** `publish_request` appends the message and hands it to the bridge's live subscription, if any. */
  function Post(s: State, c: nat, d: nat): State
    requires c in s.callers
  {
    var k := s.callers[c];
    var logged := s.(published := s.published + [Published(c, k.eid, k.bridge, k.session.tenant)]);
    if k.bridge in s.listener then
      logged.(deliveries := s.deliveries[d := Delivery(s.listener[k.bridge], k.bridge, k.session.tenant, k.eid, Arrived)])
    else logged
  }

  function DoResume(s: State, c: nat): State
    requires c in s.callers && (s.callers[c].future.Resolved? || s.callers[c].future.Broken?)
  {
    var f := s.callers[c].future;
    Finish(CloseSub(PopSlot(s, c), c), c, if f.Resolved? then Returned(f.payload) else Raised(f.code))
  }

  function SetDelivery(s: State, d: nat, at: DeliveryState): State
    requires d in s.deliveries
  {
    s.(deliveries := s.deliveries[d := s.deliveries[d].(at := at)])
  }

  function DoDeliverNotLocal(s: State, d: nat): State
    requires d in s.deliveries
  {
    var m := s.deliveries[d];
    SetDelivery(s.(store := MarkFailed(s.store, m.rid, Visible(m.tenant), Failure(BridgeNotLocal, NOT_LOCAL), map[]).store), d,
                Announcing(ErrPayload(m.rid, BridgeDisconnected, NOT_LOCAL)))
  }

  function DoDeliverLocal(s: State, d: nat): State
    requires d in s.deliveries
  {
    var m := s.deliveries[d];
    var (store, record) := MarkSent(s.store, m.rid, Visible(m.tenant));
    SetDelivery(s.(store := store), d,
                if record.Some? then Sending
                else Announcing(ErrPayload(m.rid, BridgeRequestNotFound, NOT_REGISTERED)))
  }

  function DoFailSend(s: State, d: nat, message: string): State
    requires d in s.deliveries
  {
    var m := s.deliveries[d];
    SetDelivery(s.(store := MarkFailed(s.store, m.rid, Visible(m.tenant), Failure(BridgeSendFailed, message), map[]).store), d,
                Announcing(ErrPayload(m.rid, BridgeSendFailed, NOT_SENT)))
  }

  function DoReceive(s: State, h: nat, proc: nat, f: Frame, tenant: Option<string>): State {
    var p := Reading(f);
    var marked := FinishWith(s.store, f.requestId, tenant, p, FrameMetadata(f));
    var t := s.(store := marked.store);
    if marked.transitioned then t.(responders := s.responders[h := Responder(proc, f.requestId, p, false)]) else t
  }

  function DoOrphan(s: State, proc: nat, bridge: string, tenant: string, reason: string): State {
    var orphaned := set id | id in s.store.requests && Orphanable(s.store.requests[id], bridge, tenant) :: (proc, id);
    s.(store := MarkOrphaned(s.store, bridge, tenant, reason), notices := s.notices + orphaned)
  }

  function Apply(s: State, step: Step): State
    requires Enabled(s, step)
  {
    match step
    case Spawn(c, proc, bridge, tenantArg, rid, key) =>
      SetCaller(s, c, Caller(proc, bridge, tenantArg, rid, key, Start, NO_SESSION, false, "", false, None, Unset, Raised(BridgeNotRegistered)))
    case GetSession(c) => DoGetSession(s, c)
    case CheckVisible(c) => DoCheckVisible(s, c)
    case CreateRecord(c) => DoCreateRecord(s, c)
    case AfterCreate(c, now) => DoAfterCreate(s, c, now)
    case FailDisconnected(c) =>
      FailAndRaise(s, c, Failure(BridgeDisconnected, "Bridge " + s.callers[c].bridge + " is disconnected"))
    case Subscribe(c) =>
      SetCaller(s.(subs := s.subs + {(s.callers[c].eid, c)}), c, s.callers[c].(pc := Subscribed))
    case SubscribeFails(c) => SetCaller(PopSlot(s, c), c, s.callers[c].(pc := NoBroker))
    case FailNoBroker(c, message) =>
      FailAndRaise(s, c, Failure(BridgeBrokerUnavailable, message))
    case RereadRecord(c) =>
      SetCaller(s, c, s.callers[c].(pc := Reread,
                                    seen := Lookup(s.store, s.callers[c].eid, Some(s.callers[c].session.tenant))))
    case AfterReread(c) => DoAfterReread(s, c)
    case Publish(c, d) => SetCaller(Post(s, c, d), c, s.callers[c].(pc := Waiting))
    case PublishFails(c, appended, d) =>
      SetCaller(CloseSub(PopSlot(if appended then Post(s, c, d) else s, c), c), c, s.callers[c].(pc := NoPublish))
    case FailNoPublish(c, message) =>
      FailAndRaise(s, c, Failure(BridgePublishFailed, message))
    case Resume(c) => DoResume(s, c)
    case TimeOut(c) => SetCaller(PopSlot(s, c), c, s.callers[c].(pc := TimingOut, future := Abandoned))
    case MarkTimeout(c) =>
      SetCaller(s.(store := MarkTimedOut(s.store, s.callers[c].eid, Some(s.callers[c].session.tenant)).0), c,
                s.callers[c].(pc := Closing))
    case Close(c) =>
      Finish(CloseSub(PopSlot(s, c), c), c, Raised(RequestTimedOut))
    case SetSession(bridge, session) => s.(sessions := s.sessions[bridge := session])
    case Listen(bridge, proc) => s.(listener := s.listener[bridge := proc])
    case Unlisten(bridge) => s.(listener := s.listener - {bridge})
    case Activate(proc, bridge) => s.(active := s.active + {(proc, bridge)})
    case Deactivate(proc, bridge) => s.(active := s.active - {(proc, bridge)})
    case OrphanBridge(proc, bridge, tenant, reason) => DoOrphan(s, proc, bridge, tenant, reason)
    case Notify(proc, rid) =>
      Complete(s.(notices := s.notices - {(proc, rid)}), {proc}, rid, Broken(BridgeDisconnected))
    case DeliverNotLocal(d) => DoDeliverNotLocal(s, d)
    case DeliverLocal(d) => DoDeliverLocal(s, d)
    case Send(d) => s.(deliveries := s.deliveries - {d}, wire := s.wire + [s.deliveries[d].rid])
    case SendFails(d) => SetDelivery(s, d, SendBroken)
    case FailSend(d, message) => DoFailSend(s, d, message)
    case AnnounceDelivery(d) =>
      Announce(s, s.deliveries[d].rid, s.deliveries[d].at.payload).(deliveries := s.deliveries - {d})
    case Receive(h, proc, frame, tenant) => DoReceive(s, h, proc, frame, tenant)
    case AnnounceResponse(h) =>
      Announce(s, s.responders[h].rid, s.responders[h].payload).(
        responders := s.responders[h := s.responders[h].(published := true)])
    case CompleteLocal(h) =>
      Complete(s, {s.responders[h].proc}, s.responders[h].rid, Resolved(s.responders[h].payload)).(
        responders := s.responders - {h})
  }

  /** A run: each state follows from the one before by some enabled step. */
  ghost predicate Run(states: seq<State>) {
    && |states| >= 1
    && states[0] == Init()
    && (forall i :: 0 <= i < |states| - 1 ==> Next(states[i], states[i + 1]))
  }

  ghost predicate Next(s: State, t: State) {
    exists step :: Enabled(s, step) && Apply(s, step) == t
  }
}
