/** What every step of the bridge protocol keeps, in every interleaving. */
module BridgeInvariant {
  import opened Prelude
  import opened BridgeState
  import opened BridgeHistory
  import opened BridgeProtocol

  // ----- the invariant -----

  /** An announced payload of a bridge answer is the outcome the record holds. */
  ghost predicate Backed(p: Payload, r: Request) {
    && r.status.Terminal()
    && p.requestId == r.id
    && (p.OkPayload? ==> r.status.Responded? && r.result == Some(p))
    && (p.ErrPayload? && (p.category.BridgeError? || p.category.MalformedResponse?) ==>
          r.status.Failed? && r.error == Some(Failure(p.category, p.text)))
  }

  predicate Posted(pc: Pc) {
    pc.NoPublish? || pc.Waiting? || pc.TimingOut? || pc.Closing? || pc.Done?
  }

  predicate BeforeCreation(pc: Pc) { pc.Start? || pc.Unseen? || pc.Ready? }

  ghost predicate Explained(k: Caller, p: Payload, st: Store, announced: set<(string, Payload)>)
    requires k.eid in st.requests
  {
    || (k.eid, p) in announced
    || (st.requests[k.eid].status.Terminal() && Replay(st.requests[k.eid]) == Returned(p))
  }

  ghost predicate CallerInv(k: Caller, st: Store, announced: set<(string, Payload)>) {
    && (BeforeCreation(k.pc) ==> !k.joined)
    && (!BeforeCreation(k.pc) && !k.pc.Done? ==> k.joined)
    && (k.joined ==>
          && k.eid in st.requests
          && SameOperation(st.requests[k.eid], k.session.tenant, k.bridge, k.key)
          && (!k.replayed ==> k.eid == k.rid)
          && (k.seen.Some? ==> Evolves(k.seen.value, st.requests[k.eid]))
          && (k.future.Resolved? ==> (k.eid, k.future.payload) in announced)
          && (k.pc.Done? && k.outcome.Returned? ==> Explained(k, k.outcome.payload, st, announced)))
    && (!k.joined ==> k.future.Unset? && k.seen.None? && k.outcome.Raised?)
  }

  ghost predicate DeliveryInv(m: Delivery, st: Store) {
    && m.rid in st.requests
    && st.requests[m.rid].tenant == m.tenant
    && (m.at.Announcing? ==> Backed(m.at.payload, st.requests[m.rid]))
  }

  ghost predicate ResponderInv(h: Responder, st: Store, announced: set<(string, Payload)>) {
    && h.rid in st.requests
    && Backed(h.payload, st.requests[h.rid])
    && (h.published ==> (h.rid, h.payload) in announced)
  }

  ghost predicate CallersInv(callers: map<nat, Caller>, st: Store, announced: set<(string, Payload)>) {
    forall c :: c in callers ==> CallerInv(callers[c], st, announced)
  }

  /** A proposed id stays unused until its own call creates the record. */
  ghost predicate FreshInv(callers: map<nat, Caller>, st: Store) {
    forall c :: c in callers && !callers[c].joined ==> callers[c].rid !in st.requests
  }

  ghost predicate SameProposal(k: Caller, l: Caller) { k.rid == l.rid }

  ghost predicate DistinctIds(callers: map<nat, Caller>) {
    forall a, b {:trigger SameProposal(callers[a], callers[b])} ::
      a in callers && b in callers && SameProposal(callers[a], callers[b]) ==> a == b
  }

  ghost predicate SlotInv(pending: map<(nat, string), nat>, callers: map<nat, Caller>) {
    forall slot :: slot in pending ==> pending[slot] in callers && Owns(callers[pending[slot]], slot)
  }

  ghost predicate Owns(k: Caller, slot: (nat, string)) {
    k.joined && k.proc == slot.0 && k.eid == slot.1
  }

  ghost predicate AnnouncedInv(announced: set<(string, Payload)>, st: Store) {
    forall e :: e in announced ==> e.0 in st.requests && Backed(e.1, st.requests[e.0])
  }

  ghost predicate DeliveriesInv(deliveries: map<nat, Delivery>, st: Store) {
    forall d :: d in deliveries ==> DeliveryInv(deliveries[d], st)
  }

  ghost predicate RespondersInv(responders: map<nat, Responder>, st: Store, announced: set<(string, Payload)>) {
    forall h :: h in responders ==> ResponderInv(responders[h], st, announced)
  }

  ghost predicate PublicationInv(p: Published, callers: map<nat, Caller>) {
    && p.caller in callers
    && var k := callers[p.caller];
    && k.joined && !k.replayed && Posted(k.pc)
    && p == Published(p.caller, k.rid, k.bridge, k.session.tenant)
  }

  ghost predicate PublishedInv(published: seq<Published>, callers: map<nat, Caller>) {
    && (forall i :: 0 <= i < |published| ==> PublicationInv(published[i], callers))
    && (forall i, j :: 0 <= i < j < |published| ==> published[i].caller != published[j].caller)
  }

  /** Each request is delivered, and written to a socket, at most once. */
  ghost predicate WireInv(published: seq<Published>, wire: seq<string>, deliveries: map<nat, Delivery>) {
    && Distinct(wire)
    && (forall r :: r in wire ==> r in PublishedIds(published))
    && (forall d :: d in deliveries ==> deliveries[d].rid in PublishedIds(published) && deliveries[d].rid !in wire)
    && (forall d, e {:trigger SameMessage(deliveries[d], deliveries[e])} ::
          d in deliveries && e in deliveries && SameMessage(deliveries[d], deliveries[e]) ==> d == e)
  }

  ghost predicate SameMessage(m: Delivery, n: Delivery) { m.rid == n.rid }

  ghost predicate Inv(s: State) {
    && GoodStore(s.store)
    && CallersInv(s.callers, s.store, s.announced)
    && FreshInv(s.callers, s.store)
    && DistinctIds(s.callers)
    && SlotInv(s.pending, s.callers)
    && AnnouncedInv(s.announced, s.store)
    && DeliveriesInv(s.deliveries, s.store)
    && RespondersInv(s.responders, s.store, s.announced)
    && PublishedInv(s.published, s.callers)
    && WireInv(s.published, s.wire, s.deliveries)
  }

  // ----- what survives a change of the table -----

  lemma BackedStays(p: Payload, a: Request, b: Request)
    requires Backed(p, a) && Evolves(a, b)
    ensures Backed(p, b)
  {
  }

  lemma ReplayStays(a: Request, b: Request)
    requires a.status.Terminal() && Evolves(a, b)
    ensures Replay(a) == Replay(b)
  {
  }

  lemma CallerStays(k: Caller, s: Store, t: Store, a: set<(string, Payload)>, b: set<(string, Payload)>)
    requires CallerInv(k, s, a) && StoreEvolves(s, t) && a <= b
    ensures CallerInv(k, t, b)
  {
    if k.joined {
      assert Evolves(s.requests[k.eid], t.requests[k.eid]);
      if s.requests[k.eid].status.Terminal() {
        ReplayStays(s.requests[k.eid], t.requests[k.eid]);
      }
    }
  }

  /** The response log and the handlers speak only of the table. */
  lemma TableStays(s: State, st: Store)
    requires AnnouncedInv(s.announced, s.store) && DeliveriesInv(s.deliveries, s.store)
    requires RespondersInv(s.responders, s.store, s.announced)
    requires StoreEvolves(s.store, st)
    ensures AnnouncedInv(s.announced, st) && DeliveriesInv(s.deliveries, st)
    ensures RespondersInv(s.responders, st, s.announced)
  {
    forall e | e in s.announced
      ensures e.0 in st.requests && Backed(e.1, st.requests[e.0])
    {
      BackedStays(e.1, s.store.requests[e.0], st.requests[e.0]);
    }
    forall d | d in s.deliveries
      ensures DeliveryInv(s.deliveries[d], st)
    {
      var m := s.deliveries[d];
      assert Evolves(s.store.requests[m.rid], st.requests[m.rid]);
      if m.at.Announcing? { BackedStays(m.at.payload, s.store.requests[m.rid], st.requests[m.rid]); }
    }
    forall h | h in s.responders
      ensures ResponderInv(s.responders[h], st, s.announced)
    {
      var r := s.responders[h];
      BackedStays(r.payload, s.store.requests[r.rid], st.requests[r.rid]);
    }
  }

  lemma CallersStay(callers: map<nat, Caller>, s: Store, t: Store, a: set<(string, Payload)>, b: set<(string, Payload)>)
    requires CallersInv(callers, s, a) && StoreEvolves(s, t) && a <= b
    ensures CallersInv(callers, t, b)
  {
    forall x | x in callers
      ensures CallerInv(callers[x], t, b)
    {
      CallerStays(callers[x], s, t, a, b);
    }
  }

  lemma CallerChanged(callers: map<nat, Caller>, c: nat, k: Caller, st: Store, announced: set<(string, Payload)>)
    requires CallersInv(callers, st, announced) && CallerInv(k, st, announced)
    ensures CallersInv(callers[c := k], st, announced)
  {
  }

  lemma ContinuesAll(callers: map<nat, Caller>, c: nat, k: Caller)
    requires c in callers && Continues(callers[c], k)
    ensures forall x :: x in callers ==> Continues(callers[x], callers[c := k][x])
  {
  }

  /** The same call a step later: only its progress differs. */
  ghost predicate Continues(k: Caller, l: Caller) {
    && l.rid == k.rid && l.proc == k.proc && l.bridge == k.bridge
    && (k.joined ==> l.joined && l.eid == k.eid && l.session == k.session && l.replayed == k.replayed)
    && (Posted(k.pc) ==> Posted(l.pc))
  }

  lemma PublishedStays(published: seq<Published>, callers: map<nat, Caller>, after: map<nat, Caller>)
    requires PublishedInv(published, callers)
    requires forall c :: c in callers ==> c in after && Continues(callers[c], after[c])
    ensures PublishedInv(published, after)
  {
    forall i | 0 <= i < |published|
      ensures PublicationInv(published[i], after)
    {
      assert PublicationInv(published[i], callers);
    }
  }

  /** Only slots that were there before, or one for call `c` on its own request. */
  ghost predicate SlotsWithin(after: map<(nat, string), nat>, before: map<(nat, string), nat>, c: nat, k: Caller) {
    forall slot :: slot in after ==>
                     || (slot in before && after[slot] == before[slot])
                     || (after[slot] == c && Owns(k, slot))
  }

  lemma SlotsStay(s: State, t: State, c: nat)
    requires SlotInv(s.pending, s.callers) && c in s.callers
    requires SlotsWithin(t.pending, s.pending, c, s.callers[c])
    requires t.callers.Keys == s.callers.Keys && forall x :: x in s.callers ==> Continues(s.callers[x], t.callers[x])
    ensures SlotInv(t.pending, t.callers)
  {
    forall slot | slot in t.pending
      ensures t.pending[slot] in t.callers && Owns(t.callers[t.pending[slot]], slot)
    {
      var o := t.pending[slot];
      assert o in s.callers && Owns(s.callers[o], slot);
      assert Continues(s.callers[o], t.callers[o]);
    }
  }

  lemma IdsStay(s: State, t: State)
    requires FreshInv(s.callers, s.store) && DistinctIds(s.callers)
    requires t.store.requests.Keys == s.store.requests.Keys
    requires t.callers.Keys == s.callers.Keys && forall x :: x in s.callers ==> Continues(s.callers[x], t.callers[x])
    ensures FreshInv(t.callers, t.store) && DistinctIds(t.callers)
  {
    forall x | x in t.callers && !t.callers[x].joined
      ensures t.callers[x].rid !in t.store.requests
    {
      assert Continues(s.callers[x], t.callers[x]);
    }
    forall x, y | x in t.callers && y in t.callers && SameProposal(t.callers[x], t.callers[y])
      ensures x == y
    {
      assert Continues(s.callers[x], t.callers[x]) && Continues(s.callers[y], t.callers[y]);
      assert SameProposal(s.callers[x], s.callers[y]);
    }
  }

  /** A step of one call that creates, publishes and announces nothing. */
  lemma CallerStepKeeps(s: State, t: State, c: nat)
    requires Inv(s) && GoodStore(t.store) && StoreEvolves(s.store, t.store)
    requires t.store.requests.Keys == s.store.requests.Keys
    requires t.announced == s.announced && t.deliveries == s.deliveries && t.responders == s.responders
    requires t.published == s.published && t.wire == s.wire
    requires c in s.callers && c in t.callers && t.callers == s.callers[c := t.callers[c]]
    requires CallerInv(t.callers[c], t.store, t.announced) && Continues(s.callers[c], t.callers[c])
    requires SlotsWithin(t.pending, s.pending, c, s.callers[c])
    ensures Inv(t)
  {
    assert forall x :: x in s.callers ==> Continues(s.callers[x], t.callers[x]);
    CallersStay(s.callers, s.store, t.store, s.announced, t.announced);
    assert CallersInv(t.callers, t.store, t.announced);
    TableStays(s, t.store);
    PublishedStays(s.published, s.callers, t.callers);
    SlotsStay(s, t, c);
    IdsStay(s, t);
  }

  // ----- the repository operations inside a step -----

  lemma MarkFailedStep(st: Store, rid: string, to: Option<string>, failure: Failure, m: Metadata)
    requires GoodStore(st)
    ensures var marked := MarkFailed(st, rid, to, failure, m);
            && GoodStore(marked.store) && StoreEvolves(st, marked.store)
            && marked.store.requests.Keys == st.requests.Keys
            && (Lookup(st, rid, to).Some? ==> marked.store.requests[rid].status.Terminal())
            && (marked.transitioned ==> rid in st.requests && marked.store.requests[rid].status.Failed?
                                        && marked.store.requests[rid].error == Some(failure))
  {
    StepKeeps(st, FailedOp(rid, to, failure, m));
  }

  lemma MarkRespondedStep(st: Store, rid: string, to: Option<string>, p: Success, m: Metadata)
    requires GoodStore(st)
    ensures var marked := MarkResponded(st, rid, to, p, m);
            && GoodStore(marked.store) && StoreEvolves(st, marked.store)
            && marked.store.requests.Keys == st.requests.Keys
            && (marked.transitioned ==> rid in st.requests && marked.store.requests[rid].status.Responded?
                                        && marked.store.requests[rid].result == Some(p))
  {
    StepKeeps(st, RespondedOp(rid, to, p, m));
  }

  lemma MarkSentStep(st: Store, rid: string, to: Option<string>)
    requires GoodStore(st)
    ensures var (t, r) := MarkSent(st, rid, to);
            GoodStore(t) && StoreEvolves(st, t) && t.requests.Keys == st.requests.Keys && r.Some? == Lookup(st, rid, to).Some?
  {
    StepKeeps(st, SentOp(rid, to));
  }

  lemma MarkTimedOutStep(st: Store, rid: string, to: Option<string>)
    requires GoodStore(st)
    ensures var t := MarkTimedOut(st, rid, to).0;
            GoodStore(t) && StoreEvolves(st, t) && t.requests.Keys == st.requests.Keys
  {
    assert Do(st, TimedOutOp(rid, to)) == MarkTimedOut(st, rid, to).0;
    StepKeeps(st, TimedOutOp(rid, to));
  }

  // ----- steps of a call -----

  predicate Quiet(step: Step) {
    || step.GetSession? || step.CheckVisible? || step.AfterCreate? || step.Subscribe? || step.SubscribeFails?
    || step.RereadRecord? || step.AfterReread? || step.Resume? || step.TimeOut? || step.Close?
    || (step.PublishFails? && !step.appended)
  }

  /** What a step that touches only its own call, slots and subscription must show. */
  ghost predicate OwnStep(s: State, t: State, c: nat)
    requires c in s.callers
  {
    && c in t.callers
    && t == s.(callers := s.callers[c := t.callers[c]], pending := t.pending, subs := t.subs)
    && Continues(s.callers[c], t.callers[c])
    && SlotsWithin(t.pending, s.pending, c, s.callers[c])
    && CallerInv(t.callers[c], s.store, s.announced)
  }

  /** The same with the changed call spelled out. */
  lemma OwnStepBy(s: State, t: State, c: nat, l: Caller)
    requires c in s.callers && t == s.(callers := s.callers[c := l], pending := t.pending, subs := t.subs)
    requires Continues(s.callers[c], l) && CallerInv(l, s.store, s.announced)
    requires SlotsWithin(t.pending, s.pending, c, s.callers[c])
    ensures OwnStep(s, t, c)
  {
  }

  lemma FewerSlots(after: map<(nat, string), nat>, before: map<(nat, string), nat>, c: nat, k: Caller)
    requires forall slot :: slot in after ==> slot in before && after[slot] == before[slot]
    ensures SlotsWithin(after, before, c, k)
  {
  }

  lemma SeenOutcome(k: Caller, st: Store, announced: set<(string, Payload)>)
    requires CallerInv(k, st, announced) && k.joined && k.seen.Some? && k.seen.value.status.Terminal()
    ensures CallerInv(k.(pc := Done, outcome := Replay(k.seen.value)), st, announced)
  {
    ReplayStays(k.seen.value, st.requests[k.eid]);
  }

  lemma QuietCreated(s: State, c: nat, now: int)
    requires c in s.callers && s.callers[c].pc.Created? && s.callers[c].seen.Some?
    requires CallerInv(s.callers[c], s.store, s.announced)
    ensures OwnStep(s, DoAfterCreate(s, c, now), c)
  {
    var k, t := s.callers[c], DoAfterCreate(s, c, now);
    if k.seen.value.status.Terminal() {
      SeenOutcome(k, s.store, s.announced);
      FewerSlots(t.pending, s.pending, c, k);
      OwnStepBy(s, t, c, k.(pc := Done, outcome := Replay(k.seen.value)));
    } else if !k.session.Connected(now) {
      FewerSlots(t.pending, s.pending, c, k);
      OwnStepBy(s, t, c, k.(pc := Refused));
    } else {
      OwnStepBy(s, t, c, k.(pc := Registered));
    }
  }

  lemma QuietReread(s: State, c: nat)
    requires c in s.callers && s.callers[c].pc.Reread? && CallerInv(s.callers[c], s.store, s.announced)
    ensures OwnStep(s, DoAfterReread(s, c), c)
  {
    var k, t := s.callers[c], DoAfterReread(s, c);
    FewerSlots(t.pending, s.pending, c, k);
    if k.seen.Some? && k.seen.value.status.Terminal() {
      SeenOutcome(k, s.store, s.announced);
      OwnStepBy(s, t, c, k.(pc := Done, outcome := Replay(k.seen.value)));
    } else {
      OwnStepBy(s, t, c, k.(pc := Waiting));
    }
  }

  lemma QuietSession(s: State, c: nat)
    requires c in s.callers && s.callers[c].pc.Start? && CallerInv(s.callers[c], s.store, s.announced)
    ensures OwnStep(s, DoGetSession(s, c), c)
  {
    var k := s.callers[c];
    FewerSlots(s.pending, s.pending, c, k);
    var l := if k.bridge in s.sessions && (k.tenantArg.None? || s.sessions[k.bridge].tenant == k.tenantArg.value)
             then k.(pc := Ready, session := s.sessions[k.bridge])
             else if k.tenantArg.Some? then k.(pc := Unseen)
             else k.(pc := Done, outcome := Raised(BridgeNotRegistered));
    OwnStepBy(s, DoGetSession(s, c), c, l);
  }

  lemma QuietVisible(s: State, c: nat)
    requires c in s.callers && s.callers[c].pc.Unseen? && CallerInv(s.callers[c], s.store, s.announced)
    ensures OwnStep(s, DoCheckVisible(s, c), c)
  {
  }

  lemma QuietSubscribe(s: State, step: Step)
    requires step.Subscribe? || step.SubscribeFails?
    requires Enabled(s, step) && CallerInv(s.callers[step.c], s.store, s.announced)
    ensures OwnStep(s, Apply(s, step), step.c)
  {
  }

  lemma QuietLookup(s: State, step: Step)
    requires step.RereadRecord?
    requires Enabled(s, step) && CallerInv(s.callers[step.c], s.store, s.announced)
    ensures OwnStep(s, Apply(s, step), step.c)
  {
  }

  lemma QuietEnd(s: State, step: Step)
    requires step.Resume? || step.TimeOut? || step.Close? || (step.PublishFails? && !step.appended)
    requires Enabled(s, step) && CallerInv(s.callers[step.c], s.store, s.announced)
    ensures OwnStep(s, Apply(s, step), step.c)
  {
    if step.Resume? || step.Close? {
      QuietClose(s, step);
    } else {
      QuietGiveUp(s, step);
    }
  }

  lemma QuietClose(s: State, step: Step)
    requires step.Resume? || step.Close?
    requires Enabled(s, step) && CallerInv(s.callers[step.c], s.store, s.announced)
    ensures OwnStep(s, Apply(s, step), step.c)
  {
  }

  lemma QuietGiveUp(s: State, step: Step)
    requires step.TimeOut? || (step.PublishFails? && !step.appended)
    requires Enabled(s, step) && CallerInv(s.callers[step.c], s.store, s.announced)
    ensures OwnStep(s, Apply(s, step), step.c)
  {
  }

  lemma StoreSame(st: Store)
    ensures StoreEvolves(st, st)
  {
  }

  lemma OwnStepKeeps(s: State, t: State, c: nat)
    requires Inv(s) && c in s.callers && OwnStep(s, t, c)
    ensures Inv(t)
  {
    StoreSame(s.store);
    CallerStepKeeps(s, t, c);
  }

  lemma QuietKeeps(s: State, step: Step)
    requires Inv(s) && Enabled(s, step) && Quiet(step)
    ensures Inv(Apply(s, step))
  {
    assert CallerInv(s.callers[step.c], s.store, s.announced);
    if step.AfterCreate? {
      QuietCreated(s, step.c, step.now);
    } else if step.AfterReread? {
      QuietReread(s, step.c);
    } else if step.RereadRecord? {
      QuietLookup(s, step);
    } else if step.GetSession? {
      QuietSession(s, step.c);
    } else if step.CheckVisible? {
      QuietVisible(s, step.c);
    } else if step.Subscribe? || step.SubscribeFails? {
      QuietSubscribe(s, step);
    } else {
      QuietEnd(s, step);
    }
    OwnStepKeeps(s, Apply(s, step), step.c);
  }

  /** Finishing a call with an error after its request was marked. */
  lemma MarkedKeeps(s: State, st: Store, c: nat, k: Caller)
    requires Inv(s) && GoodStore(st) && StoreEvolves(s.store, st) && st.requests.Keys == s.store.requests.Keys
    requires c in s.callers && s.callers[c].joined && (k == s.callers[c].(pc := Closing) || (k.pc.Done? && k.outcome.Raised?))
    requires k == s.callers[c].(pc := k.pc, outcome := k.outcome) && !BeforeCreation(s.callers[c].pc)
    ensures Inv(SetCaller(s.(store := st), c, k))
  {
    CallerStays(s.callers[c], s.store, st, s.announced, s.announced);
    CallerStepKeeps(s, SetCaller(s.(store := st), c, k), c);
  }

  lemma FailAndRaiseKeeps(s: State, c: nat, failure: Failure)
    requires Inv(s) && c in s.callers && s.callers[c].joined && !BeforeCreation(s.callers[c].pc)
    ensures Inv(FailAndRaise(s, c, failure))
  {
    var k := s.callers[c];
    MarkFailedStep(s.store, k.eid, Some(k.session.tenant), failure, map[]);
    MarkedKeeps(s, MarkFailed(s.store, k.eid, Some(k.session.tenant), failure, map[]).store, c,
                k.(pc := Done, outcome := Raised(failure.code)));
  }

  lemma FailureKeeps(s: State, step: Step)
    requires Inv(s) && Enabled(s, step)
    requires step.FailDisconnected? || step.FailNoBroker? || step.FailNoPublish? || step.MarkTimeout?
    ensures Inv(Apply(s, step))
  {
    if step.MarkTimeout? {
      TimeoutKeeps(s, step.c);
    } else {
      RaisedKeeps(s, step);
    }
  }

  lemma RaisedKeeps(s: State, step: Step)
    requires Inv(s) && Enabled(s, step) && (step.FailDisconnected? || step.FailNoBroker? || step.FailNoPublish?)
    ensures Inv(Apply(s, step))
  {
    var k := s.callers[step.c];
    assert CallerInv(k, s.store, s.announced);
    var failure := if step.FailDisconnected? then Failure(BridgeDisconnected, "Bridge " + k.bridge + " is disconnected")
                   else Failure(if step.FailNoBroker? then BridgeBrokerUnavailable else BridgePublishFailed, step.message);
    assert Apply(s, step) == FailAndRaise(s, step.c, failure);
    FailAndRaiseKeeps(s, step.c, failure);
  }

  lemma TimeoutKeeps(s: State, c: nat)
    requires Inv(s) && Enabled(s, MarkTimeout(c))
    ensures Inv(Apply(s, MarkTimeout(c)))
  {
    var k := s.callers[c];
    assert CallerInv(k, s.store, s.announced);
    MarkTimedOutStep(s.store, k.eid, Some(k.session.tenant));
    MarkedKeeps(s, MarkTimedOut(s.store, k.eid, Some(k.session.tenant)).0, c, k.(pc := Closing));
  }

  lemma SpawnKeeps(s: State, step: Step)
    requires Inv(s) && Enabled(s, step) && step.Spawn?
    ensures Inv(Apply(s, step))
  {
    var t := Apply(s, step);
    PublishedStays(s.published, s.callers, t.callers);
    forall x, y | x in t.callers && y in t.callers && SameProposal(t.callers[x], t.callers[y])
      ensures x == y
    {
      if x != step.c && y != step.c { assert SameProposal(s.callers[x], s.callers[y]); }
    }
  }

  lemma CreateFresh(s: State, c: nat, st: Store, k: Caller)
    requires FreshInv(s.callers, s.store) && DistinctIds(s.callers)
    requires c in s.callers && k.rid == s.callers[c].rid && k.joined
    requires forall x :: x in st.requests ==> x in s.store.requests || x == k.rid
    ensures FreshInv(s.callers[c := k], st) && DistinctIds(s.callers[c := k])
  {
    var after := s.callers[c := k];
    forall x | x in after && !after[x].joined
      ensures after[x].rid !in st.requests
    {
      assert SameProposal(s.callers[x], s.callers[c]) ==> x == c;
    }
    forall x, y | x in after && y in after && SameProposal(after[x], after[y])
      ensures x == y
    {
      assert SameProposal(s.callers[x], s.callers[y]);
    }
  }

  /** The created or replayed record belongs to this very call. */
  lemma CreatedCaller(s: State, c: nat)
    requires GoodStore(s.store) && c in s.callers && s.callers[c].pc.Ready?
    requires CallerInv(s.callers[c], s.store, s.announced) && s.callers[c].rid !in s.store.requests
    ensures var t := DoCreateRecord(s, c);
            && c in t.callers && t == s.(store := t.store, callers := s.callers[c := t.callers[c]])
            && GoodStore(t.store) && StoreEvolves(s.store, t.store)
            && (forall x :: x in t.store.requests ==> x in s.store.requests || x == s.callers[c].rid)
            && CallerInv(t.callers[c], t.store, s.announced)
            && Continues(s.callers[c], t.callers[c]) && t.callers[c].joined
  {
    var k := s.callers[c];
    CreateKeeps(s.store, k.rid, k.bridge, k.session.tenant, k.key);
  }

  lemma CreateRecordParts(s: State, c: nat, t: State)
    requires CallersInv(s.callers, s.store, s.announced) && FreshInv(s.callers, s.store) && DistinctIds(s.callers)
    requires SlotInv(s.pending, s.callers) && PublishedInv(s.published, s.callers)
    requires c in s.callers && c in t.callers && t == s.(store := t.store, callers := s.callers[c := t.callers[c]])
    requires StoreEvolves(s.store, t.store) && CallerInv(t.callers[c], t.store, s.announced)
    requires Continues(s.callers[c], t.callers[c]) && t.callers[c].joined
    requires forall x :: x in t.store.requests ==> x in s.store.requests || x == s.callers[c].rid
    ensures CallersInv(t.callers, t.store, t.announced) && FreshInv(t.callers, t.store) && DistinctIds(t.callers)
    ensures SlotInv(t.pending, t.callers) && PublishedInv(t.published, t.callers)
  {
    CallersStay(s.callers, s.store, t.store, s.announced, s.announced);
    CallerChanged(s.callers, c, t.callers[c], t.store, s.announced);
    CreateFresh(s, c, t.store, t.callers[c]);
    ContinuesAll(s.callers, c, t.callers[c]);
    PublishedStays(s.published, s.callers, t.callers);
    SlotsStay(s, t, c);
  }

  lemma CreateRecordKeeps(s: State, step: Step)
    requires Inv(s) && Enabled(s, step) && step.CreateRecord?
    ensures Inv(Apply(s, step))
  {
    assert CallerInv(s.callers[step.c], s.store, s.announced);
    CreatedCaller(s, step.c);
    var t := DoCreateRecord(s, step.c);
    CreateRecordParts(s, step.c, t);
    TableStays(s, t.store);
  }

  lemma SamePublisher(s: State, c: nat, p: Published)
    requires DistinctIds(s.callers) && PublicationInv(p, s.callers) && c in s.callers && p.rid == s.callers[c].rid
    ensures p.caller == c
  {
    assert SameProposal(s.callers[p.caller], s.callers[c]);
  }

  lemma NotYetPosted(s: State, c: nat)
    requires PublishedInv(s.published, s.callers) && DistinctIds(s.callers) && CallersInv(s.callers, s.store, s.announced)
    requires c in s.callers && s.callers[c].joined && !s.callers[c].replayed && !Posted(s.callers[c].pc)
    ensures s.callers[c].eid !in PublishedIds(s.published)
  {
    assert CallerInv(s.callers[c], s.store, s.announced);
    forall i | 0 <= i < |s.published|
      ensures s.published[i].rid != s.callers[c].eid
    {
      var p := s.published[i];
      assert PublicationInv(p, s.callers);
      if p.rid == s.callers[c].rid { SamePublisher(s, c, p); }
    }
  }

  lemma PublicationAdded(published: seq<Published>, p: Published, callers: map<nat, Caller>)
    requires PublishedInv(published, callers) && PublicationInv(p, callers)
    requires forall i :: 0 <= i < |published| ==> published[i].caller != p.caller
    ensures PublishedInv(published + [p], callers)
  {
  }

  /** A first publication may start the one delivery of its request. */
  lemma DeliveryAdded(published: seq<Published>, p: Published, wire: seq<string>, before: map<nat, Delivery>, d: nat, m: Delivery)
    requires WireInv(published, wire, before) && p.rid !in PublishedIds(published)
    requires m.rid == p.rid && d !in before
    ensures WireInv(published + [p], wire, before)
    ensures WireInv(published + [p], wire, before[d := m])
  {
    assert forall x :: x in published + [p] <==> x in published || x == p;
    assert PublishedIds(published + [p]) == PublishedIds(published) + {p.rid};
    var after := before[d := m];
    forall x, y | x in after && y in after && SameMessage(after[x], after[y])
      ensures x == y
    {
      if x != d && y != d { assert SameMessage(before[x], before[y]); }
    }
  }

  lemma PostedOnce(s: State, c: nat, i: nat)
    requires PublishedInv(s.published, s.callers) && c in s.callers && !Posted(s.callers[c].pc) && i < |s.published|
    ensures s.published[i].caller != c
  {
    var p := s.published[i];
    assert PublicationInv(p, s.callers);
  }

  /** One more publication, and at most one new delivery, of the call's own request. */
  ghost predicate PostEffect(s: State, t: State, c: nat, d: nat)
    requires c in s.callers
  {
    var k := s.callers[c];
    && t.published == s.published + [Published(c, k.eid, k.bridge, k.session.tenant)]
    && (t.deliveries == s.deliveries
        || (d in t.deliveries && t.deliveries == s.deliveries[d := t.deliveries[d]]
            && t.deliveries[d].rid == k.eid && t.deliveries[d].tenant == k.session.tenant && t.deliveries[d].at == Arrived))
  }

  /** The caller's side of publishing: it is now waiting, or has given the request up. */
  lemma PostedCaller(s: State, step: Step)
    requires step.Publish? || (step.PublishFails? && step.appended)
    requires Enabled(s, step) && CallerInv(s.callers[step.c], s.store, s.announced)
    ensures var t := Apply(s, step);
            && OwnStep(s, t.(published := s.published, deliveries := s.deliveries), step.c)
            && Posted(t.callers[step.c].pc)
            && PostEffect(s, t, step.c, step.d)
  {
    if step.Publish? {
      WaitingCaller(s, step.c, step.d);
    } else {
      UnsureCaller(s, step.c, step.d);
    }
  }

  lemma WaitingCaller(s: State, c: nat, d: nat)
    requires Enabled(s, Publish(c, d)) && CallerInv(s.callers[c], s.store, s.announced)
    ensures var t := Apply(s, Publish(c, d));
            && OwnStep(s, t.(published := s.published, deliveries := s.deliveries), c)
            && Posted(t.callers[c].pc) && PostEffect(s, t, c, d)
  {
  }

  lemma UnsureCaller(s: State, c: nat, d: nat)
    requires Enabled(s, PublishFails(c, true, d)) && CallerInv(s.callers[c], s.store, s.announced)
    ensures var t := Apply(s, PublishFails(c, true, d));
            && OwnStep(s, t.(published := s.published, deliveries := s.deliveries), c)
            && Posted(t.callers[c].pc) && PostEffect(s, t, c, d)
  {
  }

  lemma PublicationsGrow(s: State, c: nat, after: map<nat, Caller>)
    requires PublishedInv(s.published, s.callers) && PublishedInv(s.published, after)
    requires c in s.callers && !Posted(s.callers[c].pc) && c in after
    requires var k := s.callers[c];
             PublicationInv(Published(c, k.eid, k.bridge, k.session.tenant), after)
    ensures var k := s.callers[c];
            PublishedInv(s.published + [Published(c, k.eid, k.bridge, k.session.tenant)], after)
  {
    forall i | 0 <= i < |s.published|
      ensures s.published[i].caller != c
    {
      PostedOnce(s, c, i);
    }
    PublicationAdded(s.published, Published(c, s.callers[c].eid, s.callers[c].bridge, s.callers[c].session.tenant), after);
  }

  lemma PostParts(s: State, c: nat, d: nat, t: State)
    requires CallersInv(s.callers, s.store, s.announced) && DistinctIds(s.callers)
    requires PublishedInv(s.published, s.callers) && WireInv(s.published, s.wire, s.deliveries)
    requires DeliveriesInv(s.deliveries, s.store) && PublishedInv(s.published, t.callers)
    requires c in s.callers && c in t.callers && CallerInv(t.callers[c], s.store, s.announced)
    requires s.callers[c].joined && !s.callers[c].replayed && !Posted(s.callers[c].pc)
    requires Continues(s.callers[c], t.callers[c]) && Posted(t.callers[c].pc) && d !in s.deliveries
    requires t.store == s.store && t.wire == s.wire && PostEffect(s, t, c, d)
    ensures PublishedInv(t.published, t.callers) && WireInv(t.published, t.wire, t.deliveries)
    ensures DeliveriesInv(t.deliveries, t.store)
  {
    var k := s.callers[c];
    assert CallerInv(k, s.store, s.announced);
    NotYetPosted(s, c);
    PublicationsGrow(s, c, t.callers);
    var p := Published(c, k.eid, k.bridge, k.session.tenant);
    if t.deliveries == s.deliveries {
      DeliveryAdded(s.published, p, s.wire, s.deliveries, d, Delivery(0, k.bridge, k.session.tenant, k.eid, Arrived));
    } else {
      DeliveryAdded(s.published, p, s.wire, s.deliveries, d, t.deliveries[d]);
      assert DeliveryInv(t.deliveries[d], s.store);
    }
  }

  lemma PostKeeps(s: State, step: Step)
    requires Inv(s) && Enabled(s, step) && (step.Publish? || (step.PublishFails? && step.appended))
    ensures Inv(Apply(s, step))
  {
    assert CallerInv(s.callers[step.c], s.store, s.announced);
    PostedCaller(s, step);
    var t := Apply(s, step);
    OwnStepKeeps(s, t.(published := s.published, deliveries := s.deliveries), step.c);
    PostParts(s, step.c, step.d, t);
  }

  // ----- steps of the broker's handlers -----

  /** A step that changes the table and the handler runs, and no call. */
  lemma HandlerStepKeeps(s: State, t: State)
    requires Inv(s) && GoodStore(t.store) && StoreEvolves(s.store, t.store)
    requires t.store.requests.Keys == s.store.requests.Keys
    requires t.callers == s.callers && t.pending == s.pending && t.announced == s.announced
    requires t.published == s.published
    requires WireInv(t.published, t.wire, t.deliveries)
    requires NewDeliveries(s, t) && NewResponders(s, t)
    ensures Inv(t)
  {
    TableStays(s, t.store);
    CallersStay(s.callers, s.store, t.store, s.announced, t.announced);
    assert DeliveriesInv(t.deliveries, t.store);
    assert RespondersInv(t.responders, t.store, t.announced);
  }

  /** Every delivery that is new or changed is sound in the new table. */
  ghost predicate NewDeliveries(s: State, t: State) {
    forall d :: d in t.deliveries ==> (d in s.deliveries && t.deliveries[d] == s.deliveries[d]) || DeliveryInv(t.deliveries[d], t.store)
  }

  ghost predicate NewResponders(s: State, t: State) {
    forall h :: h in t.responders ==>
                  (h in s.responders && t.responders[h] == s.responders[h]) || ResponderInv(t.responders[h], t.store, t.announced)
  }

  /** Moving one delivery forward after its request was marked. */
  lemma DeliveryMoved(s: State, st: Store, d: nat, at: DeliveryState)
    requires Inv(s) && GoodStore(st) && StoreEvolves(s.store, st) && st.requests.Keys == s.store.requests.Keys
    requires d in s.deliveries
    requires at.Announcing? ==> s.deliveries[d].rid in st.requests && Backed(at.payload, st.requests[s.deliveries[d].rid])
    ensures Inv(SetDelivery(s.(store := st), d, at))
  {
    var m := s.deliveries[d];
    var t := SetDelivery(s.(store := st), d, at);
    assert DeliveryInv(m, s.store);
    assert Evolves(s.store.requests[m.rid], st.requests[m.rid]);
    assert NewDeliveries(s, t);
    WireMoved(s, d, m.(at := at));
    HandlerStepKeeps(s, t);
  }

  lemma NotLocalBacked(st: Store, m: Delivery)
    requires GoodStore(st) && DeliveryInv(m, st)
    ensures var marked := MarkFailed(st, m.rid, Visible(m.tenant), Failure(BridgeNotLocal, NOT_LOCAL), map[]).store;
            && GoodStore(marked) && StoreEvolves(st, marked) && marked.requests.Keys == st.requests.Keys
            && Backed(ErrPayload(m.rid, BridgeDisconnected, NOT_LOCAL), marked.requests[m.rid])
  {
    MarkFailedStep(st, m.rid, Visible(m.tenant), Failure(BridgeNotLocal, NOT_LOCAL), map[]);
  }

  lemma SendFailedBacked(st: Store, m: Delivery, text: string)
    requires GoodStore(st) && DeliveryInv(m, st)
    ensures var marked := MarkFailed(st, m.rid, Visible(m.tenant), Failure(BridgeSendFailed, text), map[]).store;
            && GoodStore(marked) && StoreEvolves(st, marked) && marked.requests.Keys == st.requests.Keys
            && Backed(ErrPayload(m.rid, BridgeSendFailed, NOT_SENT), marked.requests[m.rid])
  {
    MarkFailedStep(st, m.rid, Visible(m.tenant), Failure(BridgeSendFailed, text), map[]);
  }

  lemma DeliverNotLocalKeeps(s: State, d: nat)
    requires Inv(s) && d in s.deliveries
    ensures Inv(DoDeliverNotLocal(s, d))
  {
    var m := s.deliveries[d];
    assert DeliveryInv(m, s.store);
    NotLocalBacked(s.store, m);
    DeliveryMoved(s, DoDeliverNotLocal(s, d).store, d, Announcing(ErrPayload(m.rid, BridgeDisconnected, NOT_LOCAL)));
  }

  lemma DeliverLocalKeeps(s: State, d: nat)
    requires Inv(s) && d in s.deliveries
    ensures Inv(DoDeliverLocal(s, d))
  {
    var m := s.deliveries[d];
    assert DeliveryInv(m, s.store);
    MarkSentStep(s.store, m.rid, Visible(m.tenant));
    DeliveryMoved(s, DoDeliverLocal(s, d).store, d, Sending);
  }

  lemma FailSendKeeps(s: State, d: nat, text: string)
    requires Inv(s) && d in s.deliveries
    ensures Inv(DoFailSend(s, d, text))
  {
    var m := s.deliveries[d];
    assert DeliveryInv(m, s.store);
    SendFailedBacked(s.store, m, text);
    DeliveryMoved(s, DoFailSend(s, d, text).store, d, Announcing(ErrPayload(m.rid, BridgeSendFailed, NOT_SENT)));
  }

  lemma SendFailsKeeps(s: State, d: nat)
    requires Inv(s) && d in s.deliveries
    ensures Inv(SetDelivery(s, d, SendBroken))
  {
    StoreSame(s.store);
    DeliveryMoved(s, s.store, d, SendBroken);
    assert s.(store := s.store) == s;
  }

  lemma WireMoved(s: State, d: nat, m: Delivery)
    requires WireInv(s.published, s.wire, s.deliveries) && d in s.deliveries && m.rid == s.deliveries[d].rid
    ensures WireInv(s.published, s.wire, s.deliveries[d := m])
    ensures WireInv(s.published, s.wire, s.deliveries - {d})
    ensures WireInv(s.published, s.wire + [m.rid], s.deliveries - {d})
  {
    forall x, y | x in s.deliveries && y in s.deliveries && s.deliveries[x].rid == s.deliveries[y].rid
      ensures x == y
    {
      assert SameMessage(s.deliveries[x], s.deliveries[y]);
    }
  }

  lemma SendKeeps(s: State, step: Step)
    requires Inv(s) && Enabled(s, step) && step.Send?
    ensures Inv(Apply(s, step))
  {
    WireMoved(s, step.d, s.deliveries[step.d]);
    StoreSame(s.store);
    HandlerStepKeeps(s, Apply(s, step));
  }

  /** The answer that finished the request is the outcome the table now holds. */
  lemma ReceivedStore(st: Store, f: Frame, to: Option<string>)
    requires GoodStore(st)
    ensures var marked := FinishWith(st, f.requestId, to, Reading(f), FrameMetadata(f));
            && GoodStore(marked.store) && StoreEvolves(st, marked.store) && marked.store.requests.Keys == st.requests.Keys
            && (marked.transitioned ==>
                  f.requestId in marked.store.requests && Backed(Reading(f), marked.store.requests[f.requestId]))
  {
    var p := Reading(f);
    if p.OkPayload? {
      MarkRespondedStep(st, f.requestId, to, p, FrameMetadata(f));
    } else {
      MarkFailedStep(st, f.requestId, to, Failure(p.category, p.text), FrameMetadata(f));
    }
  }

  lemma ResponderAdded(s: State, st: Store, h: nat, r: Responder)
    requires Inv(s) && GoodStore(st) && StoreEvolves(s.store, st) && st.requests.Keys == s.store.requests.Keys
    requires r.rid in st.requests && Backed(r.payload, st.requests[r.rid]) && !r.published
    ensures Inv(s.(store := st, responders := s.responders[h := r]))
  {
    var t := s.(store := st, responders := s.responders[h := r]);
    assert NewResponders(s, t);
    HandlerStepKeeps(s, t);
  }

  lemma StoreChanged(s: State, st: Store)
    requires Inv(s) && GoodStore(st) && StoreEvolves(s.store, st) && st.requests.Keys == s.store.requests.Keys
    ensures Inv(s.(store := st))
  {
    HandlerStepKeeps(s, s.(store := st));
  }

  lemma ReceiveKeeps(s: State, step: Step)
    requires Inv(s) && Enabled(s, step) && step.Receive?
    ensures Inv(Apply(s, step))
  {
    var f := step.frame;
    ReceivedStore(s.store, f, step.visibleTo);
    var marked := FinishWith(s.store, f.requestId, step.visibleTo, Reading(f), FrameMetadata(f));
    assert Apply(s, step) == DoReceive(s, step.h, step.proc, f, step.visibleTo);
    if marked.transitioned {
      ResponderAdded(s, marked.store, step.h, Responder(step.proc, f.requestId, Reading(f), false));
    } else {
      StoreChanged(s, marked.store);
    }
  }

  lemma OrphanKeeps(s: State, step: Step)
    requires Inv(s) && Enabled(s, step) && step.OrphanBridge?
    ensures Inv(Apply(s, step))
  {
    OrphanedKeeps(s.store, step.bridge, step.tenant, step.reason);
    HandlerStepKeeps(s, Apply(s, step));
  }

  // ----- waking waiters -----

  lemma WokenCaller(s: State, procs: set<nat>, rid: string, f: Future, c: nat)
    requires SlotInv(s.pending, s.callers) && CallersInv(s.callers, s.store, s.announced) && c in s.callers
    requires f.Broken? || (f.Resolved? && (rid, f.payload) in s.announced)
    ensures var t := Complete(s, procs, rid, f);
            CallerInv(t.callers[c], s.store, s.announced) && Continues(s.callers[c], t.callers[c])
  {
    assert CallerInv(s.callers[c], s.store, s.announced);
    if Woken(s, procs, rid, c) {
      assert Owns(s.callers[c], Holder(s.callers[c], rid));
    }
  }

  /** Setting futures keeps everything else about the calls. */
  lemma CompleteKeeps(s: State, procs: set<nat>, rid: string, f: Future)
    requires Inv(s)
    requires f.Broken? || (f.Resolved? && (rid, f.payload) in s.announced)
    ensures Inv(Complete(s, procs, rid, f))
  {
    var t := Complete(s, procs, rid, f);
    forall c | c in s.callers
      ensures CallerInv(t.callers[c], s.store, s.announced) && Continues(s.callers[c], t.callers[c])
    {
      WokenCaller(s, procs, rid, f, c);
    }
    assert CallersInv(t.callers, t.store, t.announced);
    PublishedStays(s.published, s.callers, t.callers);
    IdsStay(s, t);
    if c :| c in s.callers { SlotsStay(s, t, c); }
  }

  lemma LogGrows(s: State, rid: string, p: Payload)
    requires Inv(s) && rid in s.store.requests && Backed(p, s.store.requests[rid])
    ensures Inv(s.(announced := s.announced + {(rid, p)}))
  {
    var log := s.announced + {(rid, p)};
    StoreSame(s.store);
    CallersStay(s.callers, s.store, s.store, s.announced, log);
    assert AnnouncedInv(log, s.store);
    assert RespondersInv(s.responders, s.store, log);
  }

  /** The invariant says nothing about sessions, subscriptions, listeners, sockets and notices. */
  lemma OutsideInv(s: State, t: State)
    requires Inv(s) && t.store == s.store && t.callers == s.callers && t.announced == s.announced && t.pending == s.pending
    requires t.deliveries == s.deliveries && t.responders == s.responders && t.published == s.published && t.wire == s.wire
    ensures Inv(t)
  {
  }

  lemma AnnounceKeeps(s: State, rid: string, p: Payload)
    requires Inv(s) && rid in s.store.requests && Backed(p, s.store.requests[rid])
    ensures Inv(Announce(s, rid, p)) && (rid, p) in Announce(s, rid, p).announced
  {
    LogGrows(s, rid, p);
    var logged := s.(announced := s.announced + {(rid, p)});
    CompleteKeeps(logged, SubscribedProcs(s, rid), rid, Resolved(p));
    var woken := Complete(logged, SubscribedProcs(s, rid), rid, Resolved(p));
    OutsideInv(woken, Announce(s, rid, p));
  }

  lemma NotifyKeeps(s: State, step: Step)
    requires Inv(s) && Enabled(s, step) && step.Notify?
    ensures Inv(Apply(s, step))
  {
    CompleteKeeps(s.(notices := s.notices - {(step.proc, step.rid)}), {step.proc}, step.rid,
                  Broken(BridgeDisconnected));
  }

  lemma AnnounceDeliveryKeeps(s: State, step: Step)
    requires Inv(s) && Enabled(s, step) && step.AnnounceDelivery?
    ensures Inv(Apply(s, step))
  {
    var m := s.deliveries[step.d];
    assert DeliveryInv(m, s.store);
    var u := Announce(s, m.rid, m.at.payload);
    AnnounceKeeps(s, m.rid, m.at.payload);
    WireMoved(u, step.d, m);
    StoreSame(u.store);
    HandlerStepKeeps(u, Apply(s, step));
  }

  lemma ResponderMoved(u: State, h: nat)
    requires Inv(u) && h in u.responders && (u.responders[h].rid, u.responders[h].payload) in u.announced
    ensures Inv(u.(responders := u.responders[h := u.responders[h].(published := true)]))
    ensures Inv(u.(responders := u.responders - {h}))
  {
    assert ResponderInv(u.responders[h], u.store, u.announced);
    assert RespondersInv(u.responders[h := u.responders[h].(published := true)], u.store, u.announced);
    assert RespondersInv(u.responders - {h}, u.store, u.announced);
  }

  lemma AnnounceResponseKeeps(s: State, step: Step)
    requires Inv(s) && Enabled(s, step) && step.AnnounceResponse?
    ensures Inv(Apply(s, step))
  {
    var r := s.responders[step.h];
    assert ResponderInv(r, s.store, s.announced);
    AnnounceKeeps(s, r.rid, r.payload);
    ResponderMoved(Announce(s, r.rid, r.payload), step.h);
  }

  lemma CompleteLocalKeeps(s: State, step: Step)
    requires Inv(s) && Enabled(s, step) && step.CompleteLocal?
    ensures Inv(Apply(s, step))
  {
    var r := s.responders[step.h];
    assert ResponderInv(r, s.store, s.announced);
    CompleteKeeps(s, {r.proc}, r.rid, Resolved(r.payload));
    ResponderMoved(Complete(s, {r.proc}, r.rid, Resolved(r.payload)), step.h);
  }

  // ----- all steps -----

  lemma CallerStepsKeep(s: State, step: Step)
    requires Inv(s) && Enabled(s, step)
    requires Quiet(step) || step.Spawn? || step.CreateRecord? || step.Publish? || step.PublishFails?
             || step.FailDisconnected? || step.FailNoBroker? || step.FailNoPublish? || step.MarkTimeout?
    ensures Inv(Apply(s, step))
  {
    if Quiet(step) {
      QuietKeeps(s, step);
    } else if step.Spawn? {
      SpawnKeeps(s, step);
    } else if step.CreateRecord? {
      CreateRecordKeeps(s, step);
    } else if step.Publish? || step.PublishFails? {
      PostKeeps(s, step);
    } else {
      FailureKeeps(s, step);
    }
  }

  lemma EnvironmentKeeps(s: State, step: Step)
    requires Inv(s) && Enabled(s, step)
    requires step.SetSession? || step.Listen? || step.Unlisten? || step.Activate? || step.Deactivate?
    ensures Inv(Apply(s, step))
  {
    OutsideInv(s, Apply(s, step));
  }

  lemma HandlerStepsKeep(s: State, step: Step)
    requires Inv(s) && Enabled(s, step)
    requires step.DeliverNotLocal? || step.DeliverLocal? || step.SendFails? || step.FailSend? || step.Send?
             || step.Receive? || step.OrphanBridge? || step.Notify? || step.AnnounceDelivery? || step.AnnounceResponse?
             || step.CompleteLocal?
    ensures Inv(Apply(s, step))
  {
    if step.Send? {
      SendKeeps(s, step);
    } else if step.Receive? {
      ReceiveKeeps(s, step);
    } else if step.OrphanBridge? {
      OrphanKeeps(s, step);
    } else if step.Notify? {
      NotifyKeeps(s, step);
    } else if step.AnnounceDelivery? {
      AnnounceDeliveryKeeps(s, step);
    } else if step.AnnounceResponse? {
      AnnounceResponseKeeps(s, step);
    } else if step.CompleteLocal? {
      CompleteLocalKeeps(s, step);
    } else if step.DeliverNotLocal? {
      DeliverNotLocalKeeps(s, step.d);
    } else if step.DeliverLocal? {
      DeliverLocalKeeps(s, step.d);
    } else if step.FailSend? {
      FailSendKeeps(s, step.d, step.message);
    } else {
      SendFailsKeeps(s, step.d);
    }
  }

  /** Every step of every interleaving keeps the invariant. */
  lemma StepKeepsInv(s: State, step: Step)
    requires Inv(s) && Enabled(s, step)
    ensures Inv(Apply(s, step))
  {
    if step.SetSession? || step.Listen? || step.Unlisten? || step.Activate? || step.Deactivate? {
      EnvironmentKeeps(s, step);
    } else if Quiet(step) || step.Spawn? || step.CreateRecord? || step.Publish? || step.PublishFails?
              || step.FailDisconnected? || step.FailNoBroker? || step.FailNoPublish? || step.MarkTimeout? {
      CallerStepsKeep(s, step);
    } else {
      HandlerStepsKeep(s, step);
    }
  }

  lemma {:induction false} RunKeepsInv(states: seq<State>, i: nat)
    requires Run(states) && i < |states|
    ensures Inv(states[i])
  {
    if i > 0 {
      RunKeepsInv(states, i - 1);
      assert Next(states[i - 1], states[i - 1 + 1]);
      var step :| Enabled(states[i - 1], step) && Apply(states[i - 1], step) == states[i];
      StepKeepsInv(states[i - 1], step);
    }
  }
}
