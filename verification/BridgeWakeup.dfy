/** No lost wake-up: a call never waits for an outcome that was already announced to it. */
module BridgeWakeup {
  import opened Prelude
  import opened BridgeState
  import opened BridgeHistory
  import opened BridgeProtocol
  import opened BridgeInvariant

  /** Between registering its future and its last `_pending_requests.pop`. */
  predicate Holding(k: Caller) {
    k.pc.Registered? || k.pc.Subscribed? || k.pc.Reread? || k.pc.Waiting? || k.pc.TimingOut? || k.pc.Closing?
  }

  ghost predicate Collide(k: Caller, l: Caller) {
    Holding(k) && Holding(l) && k.proc == l.proc && k.eid == l.eid
  }

  /** At most one waiter per request id per process. */
  ghost predicate SingleWaiter(s: State) {
    forall a, b {:trigger Collide(s.callers[a], s.callers[b])} ::
      a in s.callers && b in s.callers && Collide(s.callers[a], s.callers[b]) ==> a == b
  }

  function Spoken(announced: set<(string, Payload)>): set<string> {
    set e | e in announced :: e.0
  }

  predicate Registering(pc: Pc) { pc.Registered? || pc.Subscribed? || pc.Reread? || pc.Waiting? }

  predicate Listening(pc: Pc) { pc.Subscribed? || pc.Reread? || pc.Waiting? }

  ghost predicate WaiterInv(c: nat, k: Caller, pending: map<(nat, string), nat>, subs: set<(string, nat)>,
                            spoken: set<string>, early: set<string>) {
    && (Listening(k.pc) ==> (k.eid, c) in subs)
    && (k.pc.Reread? ==> k.replayed)
    && (Registering(k.pc) && k.future.Unset? ==> (k.proc, k.eid) in pending && pending[(k.proc, k.eid)] == c)
    && (k.future.Unset? && k.joined && k.eid in spoken ==>
          && (!k.replayed && (k.pc.Created? || Registering(k.pc)) ==> k.eid in early)
          && (k.replayed && k.pc.Reread? ==> k.seen.Some? && k.seen.value.status.Terminal())
          && (k.replayed ==> !k.pc.Waiting?))
  }

  ghost predicate WaitersInv(s: State) {
    forall c :: c in s.callers ==> WaiterInv(c, s.callers[c], s.pending, s.subs, Spoken(s.announced), s.early)
  }

  /** A step of call `c` may touch only its own slot and its own subscription. */
  ghost predicate TouchesOwn(s: State, t: State, c: nat)
    requires c in s.callers
  {
    var k := s.callers[c];
    && c in t.callers && t.callers == s.callers[c := t.callers[c]]
    && t.announced == s.announced && t.early == s.early
    && (forall e :: e in s.subs && e.1 != c ==> e in t.subs)
    && OwnSlot(k, t.callers[c], s.pending, t.pending)
  }

  lemma OtherWaiter(s: State, t: State, c: nat, x: nat)
    requires WaitersInv(s) && SingleWaiter(s) && SingleWaiter(t) && c in s.callers && TouchesOwn(s, t, c)
    requires x in s.callers && x != c
    ensures WaiterInv(x, t.callers[x], t.pending, t.subs, Spoken(t.announced), t.early)
  {
    var k := s.callers[x];
    assert WaiterInv(x, k, s.pending, s.subs, Spoken(s.announced), s.early);
    if Registering(k.pc) && k.future.Unset? {
      assert !Collide(s.callers[c], s.callers[x]) && !Collide(t.callers[c], t.callers[x]);
    }
  }

  lemma OwnStepWaits(s: State, t: State, c: nat)
    requires WaitersInv(s) && SingleWaiter(s) && SingleWaiter(t) && c in s.callers && TouchesOwn(s, t, c)
    requires WaiterInv(c, t.callers[c], t.pending, t.subs, Spoken(t.announced), t.early)
    ensures WaitersInv(t)
  {
    forall x | x in t.callers
      ensures WaiterInv(x, t.callers[x], t.pending, t.subs, Spoken(t.announced), t.early)
    {
      if x != c { OtherWaiter(s, t, c, x); }
    }
  }

  predicate CallStep(step: Step) {
    || Quiet(step) || step.CreateRecord? || step.Publish? || step.PublishFails?
    || step.FailDisconnected? || step.FailNoBroker? || step.FailNoPublish? || step.MarkTimeout?
  }

  /** An announced request is finished, so a call that reads its record sees the outcome. */
  lemma SpokenIsFinished(s: State, rid: string)
    requires AnnouncedInv(s.announced, s.store) && rid in Spoken(s.announced)
    ensures rid in s.store.requests && s.store.requests[rid].status.Terminal()
  {
    var e :| e in s.announced && e.0 == rid;
    assert Backed(e.1, s.store.requests[e.0]);
  }

  /** What a step of call `c` shows about its own waiting. */
  ghost predicate OwnWait(s: State, t: State, c: nat)
    requires c in s.callers
  {
    && TouchesOwn(s, t, c)
    && WaiterInv(c, t.callers[c], t.pending, t.subs, Spoken(t.announced), t.early)
  }

  /** The same with the changed call spelled out. */
  lemma OwnWaitBy(s: State, t: State, c: nat, l: Caller)
    requires c in s.callers && t.callers == s.callers[c := l] && t.announced == s.announced && t.early == s.early
    requires forall e :: e in s.subs && e.1 != c ==> e in t.subs
    requires OwnSlot(s.callers[c], l, s.pending, t.pending)
    requires WaiterInv(c, l, t.pending, t.subs, Spoken(s.announced), s.early)
    ensures OwnWait(s, t, c)
  {
  }

  /** Slots other than the call's own stay; its own may change only while it may hold one. */
  ghost predicate OwnSlot(k: Caller, l: Caller, before: map<(nat, string), nat>, after: map<(nat, string), nat>) {
    forall slot :: slot in before ==>
                     || (slot in after && after[slot] == before[slot])
                     || (slot == (k.proc, k.eid) && (Holding(k) || (Holding(l) && Continues(k, l) && k.joined)))
  }

  lemma SameSlots(k: Caller, l: Caller, pending: map<(nat, string), nat>)
    ensures OwnSlot(k, l, pending, pending)
  {
  }

  lemma CreateWaits(s: State, c: nat)
    requires GoodStore(s.store) && AnnouncedInv(s.announced, s.store)
    requires c in s.callers && s.callers[c].pc.Ready? && s.callers[c].rid !in s.store.requests
    requires CallerInv(s.callers[c], s.store, s.announced)
    ensures OwnWait(s, DoCreateRecord(s, c), c)
  {
    var k := s.callers[c];
    CreatedCaller(s, c);
    if k.rid in Spoken(s.announced) { SpokenIsFinished(s, k.rid); }
  }

  ghost predicate WaitsIn(s: State, c: nat)
    requires c in s.callers
  {
    WaiterInv(c, s.callers[c], s.pending, s.subs, Spoken(s.announced), s.early)
  }

  lemma AfterCreateWaits(s: State, c: nat, now: int)
    requires c in s.callers && s.callers[c].pc.Created? && s.callers[c].seen.Some? && s.callers[c].joined && WaitsIn(s, c)
    ensures OwnWait(s, DoAfterCreate(s, c, now), c)
  {
    var k, t := s.callers[c], DoAfterCreate(s, c, now);
    if k.seen.value.status.Terminal() {
      SameSlots(k, t.callers[c], s.pending);
      OwnWaitBy(s, t, c, k.(pc := Done, outcome := Replay(k.seen.value)));
    } else if !k.session.Connected(now) {
      SameSlots(k, t.callers[c], s.pending);
      OwnWaitBy(s, t, c, k.(pc := Refused));
    } else {
      RegisterWaits(s, c);
    }
  }

  /** Taking the slot of the request. */
  lemma RegisterWaits(s: State, c: nat)
    requires c in s.callers && s.callers[c].pc.Created? && s.callers[c].joined && WaitsIn(s, c)
    ensures var k := s.callers[c];
            OwnWait(s, SetCaller(s.(pending := s.pending[(k.proc, k.eid) := c]), c, k.(pc := Registered)), c)
  {
    var k := s.callers[c];
    OwnWaitBy(s, SetCaller(s.(pending := s.pending[(k.proc, k.eid) := c]), c, k.(pc := Registered)), c, k.(pc := Registered));
  }

  lemma RereadWaits(s: State, step: Step)
    requires step.RereadRecord? && Enabled(s, step) && AnnouncedInv(s.announced, s.store)
    requires CallerInv(s.callers[step.c], s.store, s.announced) && WaitsIn(s, step.c)
    ensures OwnWait(s, Apply(s, step), step.c)
  {
    if s.callers[step.c].eid in Spoken(s.announced) { SpokenIsFinished(s, s.callers[step.c].eid); }
  }

  lemma AfterRereadWaits(s: State, c: nat)
    requires c in s.callers && s.callers[c].pc.Reread? && s.callers[c].joined && s.callers[c].replayed && WaitsIn(s, c)
    ensures OwnWait(s, DoAfterReread(s, c), c)
  {
    var k, t := s.callers[c], DoAfterReread(s, c);
    if k.seen.Some? && k.seen.value.status.Terminal() {
      OwnWaitBy(s, t, c, k.(pc := Done, outcome := Replay(k.seen.value)));
    } else {
      SameSlots(k, t.callers[c], s.pending);
      OwnWaitBy(s, t, c, k.(pc := Waiting));
    }
  }

  /** Before it has a request, a call waits for nothing. */
  lemma SessionWaits(s: State, t: State, c: nat, l: Caller)
    requires c in s.callers && BeforeCreation(s.callers[c].pc) && (BeforeCreation(l.pc) || l.pc.Done?) && !l.joined
    requires t == s.(callers := s.callers[c := l])
    ensures OwnWait(s, t, c)
  {
    SameSlots(s.callers[c], l, s.pending);
    OwnWaitBy(s, t, c, l);
  }

  lemma FailWaits(s: State, c: nat, failure: Failure)
    requires c in s.callers && WaitsIn(s, c)
    ensures OwnWait(s, FailAndRaise(s, c, failure), c)
  {
    var l := s.callers[c].(pc := Done, outcome := Raised(failure.code));
    SameSlots(s.callers[c], l, s.pending);
    OwnWaitBy(s, FailAndRaise(s, c, failure), c, l);
  }

  lemma SubscribeWaits(s: State, step: Step)
    requires (step.Subscribe? || step.SubscribeFails?) && Enabled(s, step) && s.callers[step.c].joined && WaitsIn(s, step.c)
    ensures OwnWait(s, Apply(s, step), step.c)
  {
  }

  lemma PublishWaits(s: State, t: State, c: nat)
    requires c in s.callers && s.callers[c].pc.Subscribed? && !s.callers[c].replayed && s.callers[c].joined && WaitsIn(s, c)
    requires t == s.(published := t.published, deliveries := t.deliveries, callers := s.callers[c := s.callers[c].(pc := Waiting)])
    ensures OwnWait(s, t, c)
  {
    var l := s.callers[c].(pc := Waiting);
    SameSlots(s.callers[c], l, s.pending);
    OwnWaitBy(s, t, c, l);
  }

  lemma PublishFailsWaits(s: State, t: State, c: nat)
    requires c in s.callers && s.callers[c].pc.Subscribed?
    requires t == s.(published := t.published, deliveries := t.deliveries, callers := s.callers[c := s.callers[c].(pc := NoPublish)],
                     pending := PopSlot(s, c).pending, subs := CloseSub(s, c).subs)
    ensures OwnWait(s, t, c)
  {
    OwnWaitBy(s, t, c, s.callers[c].(pc := NoPublish));
  }

  lemma EndWaits(s: State, step: Step)
    requires step.Resume? || step.TimeOut? || step.Close? || step.MarkTimeout?
    requires Enabled(s, step) && s.callers[step.c].joined && WaitsIn(s, step.c)
    ensures OwnWait(s, Apply(s, step), step.c)
  {
    if step.TimeOut? || step.MarkTimeout? {
      TimeoutWaits(s, step);
    } else {
      CloseWaits(s, step);
    }
  }

  lemma TimeoutWaits(s: State, step: Step)
    requires (step.TimeOut? || step.MarkTimeout?) && Enabled(s, step) && s.callers[step.c].joined && WaitsIn(s, step.c)
    ensures OwnWait(s, Apply(s, step), step.c)
  {
  }

  lemma CloseWaits(s: State, step: Step)
    requires (step.Resume? || step.Close?) && Enabled(s, step) && s.callers[step.c].joined && WaitsIn(s, step.c)
    ensures OwnWait(s, Apply(s, step), step.c)
  {
  }

  // ----- announcements -----

  lemma WokenWaiter(s: State, procs: set<nat>, rid: string, f: Future, x: nat)
    requires x in s.callers && SlotInv(s.pending, s.callers) && !f.Unset?
    requires WaiterInv(x, s.callers[x], s.pending, s.subs, Spoken(s.announced), s.early)
    ensures var t := Complete(s, procs, rid, f);
            && WaiterInv(x, t.callers[x], t.pending, s.subs, Spoken(s.announced), s.early)
            && (Registering(s.callers[x].pc) && s.callers[x].eid == rid && s.callers[x].proc in procs ==> !t.callers[x].future.Unset?)
  {
  }

  lemma CompleteWaits(s: State, procs: set<nat>, rid: string, f: Future)
    requires WaitersInv(s) && SlotInv(s.pending, s.callers) && !f.Unset?
    ensures WaitersInv(Complete(s, procs, rid, f))
  {
    var t := Complete(s, procs, rid, f);
    forall x | x in t.callers
      ensures WaiterInv(x, t.callers[x], t.pending, t.subs, Spoken(t.announced), t.early)
    {
      WokenWaiter(s, procs, rid, f, x);
    }
  }

  /** One more request spoken of: what must hold of a call that waits for it. */
  lemma SpokenWaiter(x: nat, k: Caller, pending: map<(nat, string), nat>, subs: set<(string, nat)>,
                     spoken: set<string>, rid: string, early: set<string>, later: set<string>)
    requires WaiterInv(x, k, pending, subs, spoken, early) && early <= later
    requires k.future.Unset? && k.joined && k.eid == rid ==>
               !Listening(k.pc) && (!k.replayed && (k.pc.Created? || k.pc.Registered?) ==> rid in later)
    ensures WaiterInv(x, k, pending, subs, spoken + {rid}, later)
  {
  }

  /** Publishing a response wakes every listening call, or finds it about to re-read. */
  lemma AnnouncedWaiter(s: State, rid: string, p: Payload, x: nat)
    requires PublishedInv(s.published, s.callers) && DistinctIds(s.callers) && CallersInv(s.callers, s.store, s.announced)
    requires SlotInv(s.pending, s.callers) && x in s.callers && WaitsIn(s, x)
    ensures var t := Announce(s, rid, p);
            WaiterInv(x, t.callers[x], t.pending, t.subs, Spoken(t.announced), t.early)
  {
    var k := s.callers[x];
    var procs := SubscribedProcs(s, rid);
    assert CallerInv(k, s.store, s.announced);
    WokenWaiter(s, procs, rid, Resolved(p), x);
    var t := Announce(s, rid, p);
    if k.joined && k.eid == rid {
      if Listening(k.pc) {
        assert (rid, x) in s.subs;
        assert k.proc in procs;
      } else if !k.replayed && (k.pc.Created? || k.pc.Registered?) {
        NotYetPosted(s, x);
      }
    }
    SpokenWaiter(x, t.callers[x], t.pending, s.subs, Spoken(s.announced), rid, s.early, t.early);
    assert Spoken(s.announced + {(rid, p)}) == Spoken(s.announced) + {rid};
  }

  lemma AnnounceWaits(s: State, rid: string, p: Payload)
    requires Inv(s) && WaitersInv(s)
    ensures WaitersInv(Announce(s, rid, p))
  {
    var t := Announce(s, rid, p);
    forall x | x in t.callers
      ensures WaiterInv(x, t.callers[x], t.pending, t.subs, Spoken(t.announced), t.early)
    {
      assert WaitsIn(s, x);
      AnnouncedWaiter(s, rid, p, x);
    }
  }

  lemma GetSessionWaits(s: State, step: Step)
    requires step.GetSession?
    requires Enabled(s, step) && CallerInv(s.callers[step.c], s.store, s.announced) && WaitsIn(s, step.c)
    ensures OwnWait(s, Apply(s, step), step.c)
  {
    var k := s.callers[step.c];
    var l := if k.bridge in s.sessions && (k.tenantArg.None? || s.sessions[k.bridge].tenant == k.tenantArg.value)
             then k.(pc := Ready, session := s.sessions[k.bridge])
             else if k.tenantArg.Some? then k.(pc := Unseen)
             else k.(pc := Done, outcome := Raised(BridgeNotRegistered));
    SessionWaits(s, DoGetSession(s, step.c), step.c, l);
  }

  lemma CheckVisibleWaits(s: State, step: Step)
    requires step.CheckVisible?
    requires Enabled(s, step) && CallerInv(s.callers[step.c], s.store, s.announced) && WaitsIn(s, step.c)
    ensures OwnWait(s, Apply(s, step), step.c)
  {
    SessionWaits(s, DoCheckVisible(s, step.c), step.c, DoCheckVisible(s, step.c).callers[step.c]);
  }

  lemma JoinWaits(s: State, step: Step)
    requires step.AfterCreate?
    requires Enabled(s, step) && CallerInv(s.callers[step.c], s.store, s.announced) && WaitsIn(s, step.c)
    ensures OwnWait(s, Apply(s, step), step.c)
  {
    AfterCreateWaits(s, step.c, step.now);
  }

  lemma RejoinWaits(s: State, step: Step)
    requires step.AfterReread?
    requires Enabled(s, step) && CallerInv(s.callers[step.c], s.store, s.announced) && WaitsIn(s, step.c)
    ensures OwnWait(s, Apply(s, step), step.c)
  {
    AfterRereadWaits(s, step.c);
  }

  lemma PostWaits(s: State, step: Step)
    requires step.Publish?
    requires Enabled(s, step) && CallerInv(s.callers[step.c], s.store, s.announced) && WaitsIn(s, step.c)
    ensures OwnWait(s, Apply(s, step), step.c)
  {
    PublishWaits(s, Apply(s, step), step.c);
  }

  lemma PostFailsWaits(s: State, step: Step)
    requires step.PublishFails?
    requires Enabled(s, step) && CallerInv(s.callers[step.c], s.store, s.announced) && WaitsIn(s, step.c)
    ensures OwnWait(s, Apply(s, step), step.c)
  {
    PublishFailsWaits(s, Apply(s, step), step.c);
  }

  lemma FailureWaits(s: State, step: Step)
    requires step.FailDisconnected? || step.FailNoBroker? || step.FailNoPublish?
    requires Enabled(s, step) && WaitsIn(s, step.c)
    ensures OwnWait(s, Apply(s, step), step.c)
  {
    var c := step.c;
    match step {
      case FailDisconnected(_) =>
        FailWaits(s, c, Failure(BridgeDisconnected, "Bridge " + s.callers[c].bridge + " is disconnected"));
      case FailNoBroker(_, m) => FailWaits(s, c, Failure(BridgeBrokerUnavailable, m));
      case FailNoPublish(_, m) => FailWaits(s, c, Failure(BridgePublishFailed, m));
    }
  }

  lemma OwnWaits(s: State, step: Step)
    requires CallStep(step) && Enabled(s, step)
    requires CallerInv(s.callers[step.c], s.store, s.announced) && WaitsIn(s, step.c)
    requires step.CreateRecord? || step.RereadRecord? ==> GoodStore(s.store) && AnnouncedInv(s.announced, s.store)
    requires step.CreateRecord? ==> s.callers[step.c].rid !in s.store.requests
    ensures OwnWait(s, Apply(s, step), step.c)
  {
    if step.CreateRecord? {
      CreateWaits(s, step.c);
    } else if step.RereadRecord? {
      RereadWaits(s, step);
    } else if step.GetSession? {
      GetSessionWaits(s, step);
    } else if step.CheckVisible? {
      CheckVisibleWaits(s, step);
    } else if step.AfterCreate? {
      JoinWaits(s, step);
    } else if step.AfterReread? {
      RejoinWaits(s, step);
    } else if step.Publish? {
      PostWaits(s, step);
    } else if step.PublishFails? {
      PostFailsWaits(s, step);
    } else if step.Subscribe? || step.SubscribeFails? {
      SubscribeWaits(s, step);
    } else if step.FailDisconnected? || step.FailNoBroker? || step.FailNoPublish? {
      FailureWaits(s, step);
    } else {
      EndWaits(s, step);
    }
  }

  lemma CallStepWaits(s: State, step: Step)
    requires Inv(s) && WaitersInv(s) && Enabled(s, step) && CallStep(step)
    requires SingleWaiter(s) && SingleWaiter(Apply(s, step))
    ensures WaitersInv(Apply(s, step))
  {
    assert CallerInv(s.callers[step.c], s.store, s.announced) && WaitsIn(s, step.c);
    OwnWaits(s, step);
    OwnStepWaits(s, Apply(s, step), step.c);
  }

  /** The handler tables play no part in waiting. */
  lemma HandlersApart(s: State, t: State)
    requires WaitersInv(s) && t == s.(deliveries := t.deliveries, responders := t.responders)
    ensures WaitersInv(t)
  {
  }

  lemma AnnounceStepWaits(s: State, step: Step)
    requires Inv(s) && WaitersInv(s) && Enabled(s, step) && (step.AnnounceDelivery? || step.AnnounceResponse?)
    ensures WaitersInv(Apply(s, step))
  {
    if step.AnnounceDelivery? {
      var m := s.deliveries[step.d];
      AnnounceWaits(s, m.rid, m.at.payload);
      HandlersApart(Announce(s, m.rid, m.at.payload), Apply(s, step));
    } else {
      var r := s.responders[step.h];
      AnnounceWaits(s, r.rid, r.payload);
      HandlersApart(Announce(s, r.rid, r.payload), Apply(s, step));
    }
  }

  lemma CompleteStepWaits(s: State, step: Step)
    requires SlotInv(s.pending, s.callers) && WaitersInv(s) && Enabled(s, step) && (step.Notify? || step.CompleteLocal?)
    ensures WaitersInv(Apply(s, step))
  {
    if step.Notify? {
      CompleteWaits(s.(notices := s.notices - {(step.proc, step.rid)}), {step.proc}, step.rid, Broken(BridgeDisconnected));
    } else {
      var r := s.responders[step.h];
      CompleteWaits(s, {r.proc}, r.rid, Resolved(r.payload));
      HandlersApart(Complete(s, {r.proc}, r.rid, Resolved(r.payload)), Apply(s, step));
    }
  }

  lemma OtherStepWaits(s: State, step: Step)
    requires WaitersInv(s) && Enabled(s, step) && !CallStep(step)
    requires !step.Notify? && !step.AnnounceDelivery? && !step.AnnounceResponse? && !step.CompleteLocal?
    ensures WaitersInv(Apply(s, step))
  {
    var t := Apply(s, step);
    if step.Spawn? {
      assert t.callers.Keys == s.callers.Keys + {step.c};
    } else {
      OtherStepSame(s, step);
      SameWaits(s, t);
    }
  }

  ghost predicate SameForWaiters(s: State, t: State) {
    t.callers == s.callers && t.pending == s.pending && t.subs == s.subs && t.announced == s.announced && t.early == s.early
  }

  lemma OtherStepSame(s: State, step: Step)
    requires Enabled(s, step) && !CallStep(step) && !step.Spawn?
    requires !step.Notify? && !step.AnnounceDelivery? && !step.AnnounceResponse? && !step.CompleteLocal?
    ensures SameForWaiters(s, Apply(s, step))
  {
    if step.DeliverNotLocal? || step.DeliverLocal? || step.SendFails? || step.FailSend? || step.Send? {
      DeliveryStepSame(s, step);
    } else if step.Receive? {
      ReceiveSame(s, step.h, step.proc, step.frame, step.visibleTo);
    } else if step.OrphanBridge? {
      OrphanSame(s, step.proc, step.bridge, step.tenant, step.reason);
    } else {
      SettingStepSame(s, step);
    }
  }

  lemma DeliveryStepSame(s: State, step: Step)
    requires Enabled(s, step)
    requires step.DeliverNotLocal? || step.DeliverLocal? || step.SendFails? || step.FailSend? || step.Send?
    ensures SameForWaiters(s, Apply(s, step))
  {
    if !step.Send? {
      var t := Apply(s, step);
      assert t == SetDelivery(s.(store := t.store), step.d, t.deliveries[step.d].at);
      MovedSame(s, t.store, step.d, t.deliveries[step.d].at);
    }
  }

  lemma MovedSame(s: State, st: Store, d: nat, at: DeliveryState)
    requires d in s.deliveries
    ensures SameForWaiters(s, SetDelivery(s.(store := st), d, at))
  {
  }

  lemma ReceiveSame(s: State, h: nat, proc: nat, f: Frame, to: Option<string>)
    ensures SameForWaiters(s, DoReceive(s, h, proc, f, to))
  {
    var marked := FinishWith(s.store, f.requestId, to, Reading(f), FrameMetadata(f));
    AnswerSame(s, marked, h, Responder(proc, f.requestId, Reading(f), false));
  }

  lemma AnswerSame(s: State, marked: Marked, h: nat, r: Responder)
    ensures SameForWaiters(s, s.(store := marked.store))
    ensures SameForWaiters(s, s.(store := marked.store, responders := s.responders[h := r]))
  {
  }

  lemma OrphanSame(s: State, proc: nat, bridge: string, tenant: string, reason: string)
    ensures SameForWaiters(s, DoOrphan(s, proc, bridge, tenant, reason))
  {
  }

  lemma SettingStepSame(s: State, step: Step)
    requires step.SetSession? || step.Listen? || step.Unlisten? || step.Activate? || step.Deactivate?
    requires Enabled(s, step)
    ensures SameForWaiters(s, Apply(s, step))
  {
    var t := Apply(s, step);
    assert t == s.(sessions := t.sessions, listener := t.listener, active := t.active);
  }

  lemma SameWaits(s: State, t: State)
    requires WaitersInv(s) && SameForWaiters(s, t)
    ensures WaitersInv(t)
  {
  }

  lemma StepWaits(s: State, step: Step)
    requires Inv(s) && WaitersInv(s) && Enabled(s, step)
    requires SingleWaiter(s) && SingleWaiter(Apply(s, step))
    ensures WaitersInv(Apply(s, step))
  {
    if CallStep(step) {
      CallStepWaits(s, step);
    } else if step.AnnounceDelivery? || step.AnnounceResponse? {
      AnnounceStepWaits(s, step);
    } else if step.Notify? || step.CompleteLocal? {
      CompleteStepWaits(s, step);
    } else {
      OtherStepWaits(s, step);
    }
  }

  lemma {:induction false} RunWaits(states: seq<State>, i: nat)
    requires Run(states) && i < |states|
    requires forall j :: 0 <= j < |states| ==> SingleWaiter(states[j])
    ensures Inv(states[i]) && WaitersInv(states[i])
  {
    RunKeepsInv(states, i);
    if i > 0 {
      RunWaits(states, i - 1);
      assert Next(states[i - 1], states[i - 1 + 1]);
      var step :| Enabled(states[i - 1], step) && Apply(states[i - 1], step) == states[i];
      StepWaits(states[i - 1], step);
    }
  }
}
