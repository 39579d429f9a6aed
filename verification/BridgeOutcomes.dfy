/** Whose bridge a call may use, and how it ends, in every interleaving. */
module BridgeOutcomes {
  import opened Prelude
  import opened BridgeState
  import opened BridgeHistory
  import opened BridgeProtocol
  import opened BridgeInvariant
  import opened BridgeWakeup
  import opened BridgeTheorems

  // ----- the invariant -----

  /** The codes `route_to_bridge` raises of its own accord once it has a record. */
  predicate OwnCode(code: Code) {
    code.BridgeDisconnected? || code.BridgeBrokerUnavailable? || code.BridgePublishFailed? || code.RequestTimedOut?
  }

  ghost predicate FinishedIn(st: Store, rid: string) {
    rid in st.requests && st.requests[rid].status.Terminal()
  }

  /** A call is on a bridge of its own tenant; it ends only when its request is finished, with the stored outcome,
      an announced one or an error of its own; and without a record only because it may not see the bridge. */
  ghost predicate Proper(k: Caller, st: Store) {
    && (k.tenantArg.Some? && (k.pc.Ready? || k.joined) ==> k.session.tenant == k.tenantArg.value)
    && (k.pc.Unseen? ==> k.tenantArg.Some?)
    && (k.joined && (k.pc.Done? || k.pc.Closing? || k.future.Broken?) ==> FinishedIn(st, k.eid))
    && (k.future.Broken? ==> k.joined && k.future.code == BridgeDisconnected)
    && (k.pc.Done? && k.joined && k.outcome.Raised? ==>
          OwnCode(k.outcome.code) || (k.eid in st.requests && Replay(st.requests[k.eid]) == k.outcome))
    && (k.pc.Done? && !k.joined ==> k.outcome == Raised(BridgeNotRegistered) || (k.tenantArg.Some? && k.outcome == Raised(TenantMismatch)))
  }

  ghost predicate AllProper(callers: map<nat, Caller>, st: Store) {
    forall c :: c in callers ==> Proper(callers[c], st)
  }

  /** Only finished requests have waiters to be told of a disconnect. */
  ghost predicate NoticesInv(notices: set<(nat, string)>, st: Store) {
    forall e :: e in notices ==> FinishedIn(st, e.1)
  }

  lemma FinishedStays(st: Store, after: Store, rid: string)
    requires FinishedIn(st, rid) && StoreEvolves(st, after)
    ensures FinishedIn(after, rid) && Replay(after.requests[rid]) == Replay(st.requests[rid])
  {
    assert Evolves(st.requests[rid], after.requests[rid]);
    ReplayStays(st.requests[rid], after.requests[rid]);
  }

  lemma ProperStays(k: Caller, st: Store, after: Store)
    requires Proper(k, st) && StoreEvolves(st, after)
    ensures Proper(k, after)
  {
    if k.joined && FinishedIn(st, k.eid) {
      FinishedStays(st, after, k.eid);
    }
  }

  lemma OthersStay(callers: map<nat, Caller>, st: Store, after: Store)
    requires AllProper(callers, st) && StoreEvolves(st, after)
    ensures AllProper(callers, after)
  {
    forall c | c in callers ensures Proper(callers[c], after) {
      ProperStays(callers[c], st, after);
    }
  }

  // ----- the steps of a call -----

  lemma SessionProper(s: State, c: nat)
    requires At(s, c, Start) && CallerInv(s.callers[c], s.store, s.announced)
    ensures Proper(DoGetSession(s, c).callers[c], s.store)
  {
    var k := s.callers[c];
    if k.bridge in s.sessions && (k.tenantArg.None? || s.sessions[k.bridge].tenant == k.tenantArg.value) {
      OutsideProper(k.(pc := Ready, session := s.sessions[k.bridge]), s.store);
    } else if k.tenantArg.Some? {
      OutsideProper(k.(pc := Unseen), s.store);
    } else {
      OutsideProper(k.(pc := Done, outcome := Raised(BridgeNotRegistered)), s.store);
    }
  }

  lemma OutsideProper(k: Caller, st: Store)
    requires !k.joined && k.future.Unset? && (k.pc.Unseen? ==> k.tenantArg.Some?)
    requires k.pc.Ready? && k.tenantArg.Some? ==> k.session.tenant == k.tenantArg.value
    requires k.pc.Done? ==> k.outcome == Raised(BridgeNotRegistered) || (k.tenantArg.Some? && k.outcome == Raised(TenantMismatch))
    ensures Proper(k, st)
  {}

  lemma VisibleProper(s: State, c: nat)
    requires At(s, c, Unseen) && CallerInv(s.callers[c], s.store, s.announced) && s.callers[c].tenantArg.Some? && !s.callers[c].joined
    ensures Proper(DoCheckVisible(s, c).callers[c], s.store)
  {
    var k := s.callers[c];
    OutsideProper(k.(pc := Done, outcome := Raised(TenantMismatch)), s.store);
    OutsideProper(k.(pc := Done, outcome := Raised(BridgeNotRegistered)), s.store);
  }

  /** A joined call that goes on. */
  lemma InsideProper(k: Caller, pc: Pc, st: Store)
    requires Proper(k, st) && k.joined && !pc.Done? && !pc.Closing? && !pc.Unseen?
    ensures Proper(k.(pc := pc), st)
  {}

  /** A copy of the record that shows it finished gives the call the outcome the table holds. */
  lemma SeenProper(k: Caller, st: Store, announced: set<(string, Payload)>)
    requires CallerInv(k, st, announced) && Proper(k, st) && k.joined && k.seen.Some? && k.seen.value.status.Terminal()
    ensures Proper(k.(pc := Done, outcome := Replay(k.seen.value)), st)
  {
    assert Evolves(k.seen.value, st.requests[k.eid]);
    ReplayStays(k.seen.value, st.requests[k.eid]);
  }

  lemma AfterCreateProper(s: State, c: nat, now: int)
    requires At(s, c, Created) && s.callers[c].seen.Some?
    requires CallerInv(s.callers[c], s.store, s.announced) && Proper(s.callers[c], s.store)
    ensures Proper(DoAfterCreate(s, c, now).callers[c], s.store)
  {
    var k := s.callers[c];
    if k.seen.value.status.Terminal() {
      SeenProper(k, s.store, s.announced);
    } else {
      InsideProper(k, if k.session.Connected(now) then Registered else Refused, s.store);
    }
  }

  lemma AfterRereadProper(s: State, c: nat)
    requires At(s, c, Reread) && CallerInv(s.callers[c], s.store, s.announced) && Proper(s.callers[c], s.store)
    ensures Proper(DoAfterReread(s, c).callers[c], s.store)
  {
    var k := s.callers[c];
    if k.seen.Some? && k.seen.value.status.Terminal() {
      SeenProper(k, s.store, s.announced);
    } else {
      InsideProper(k, Waiting, s.store);
    }
  }

  lemma ResumeProper(s: State, c: nat)
    requires At(s, c, Waiting) && (s.callers[c].future.Resolved? || s.callers[c].future.Broken?) && AnnouncedInv(s.announced, s.store)
    requires CallerInv(s.callers[c], s.store, s.announced) && Proper(s.callers[c], s.store)
    ensures Proper(DoResume(s, c).callers[c], s.store)
  {
    var k := s.callers[c];
    if k.future.Resolved? {
      assert Backed(k.future.payload, s.store.requests[(k.eid, k.future.payload).0]);
    }
  }

  lemma PlainProper(s: State, step: Step)
    requires Enabled(s, step)
    requires step.Subscribe? || step.SubscribeFails? || step.RereadRecord? || step.Publish? || step.PublishFails? || step.TimeOut? || step.Close?
    requires CallerInv(s.callers[step.c], s.store, s.announced) && Proper(s.callers[step.c], s.store)
    ensures Proper(Apply(s, step).callers[step.c], s.store)
  {}

  lemma FailProper(s: State, c: nat, failure: Failure)
    requires c in s.callers && GoodStore(s.store) && OwnCode(failure.code)
    requires CallerInv(s.callers[c], s.store, s.announced) && s.callers[c].joined && Proper(s.callers[c], s.store)
    ensures Proper(FailAndRaise(s, c, failure).callers[c], FailAndRaise(s, c, failure).store)
  {
    var k := s.callers[c];
    MarkFailedStep(s.store, k.eid, Some(k.session.tenant), failure, map[]);
  }

  lemma FailStepProper(s: State, step: Step)
    requires Enabled(s, step) && (step.FailDisconnected? || step.FailNoBroker? || step.FailNoPublish?) && GoodStore(s.store)
    requires CallerInv(s.callers[step.c], s.store, s.announced) && Proper(s.callers[step.c], s.store)
    ensures Proper(Apply(s, step).callers[step.c], Apply(s, step).store)
  {
    var k := s.callers[step.c];
    match step
    case FailDisconnected(c) => FailProper(s, c, Failure(BridgeDisconnected, "Bridge " + k.bridge + " is disconnected"));
    case FailNoBroker(c, m) => FailProper(s, c, Failure(BridgeBrokerUnavailable, m));
    case FailNoPublish(c, m) => FailProper(s, c, Failure(BridgePublishFailed, m));
  }

  lemma TimeoutProper(s: State, c: nat)
    requires Enabled(s, MarkTimeout(c)) && GoodStore(s.store)
    requires CallerInv(s.callers[c], s.store, s.announced) && Proper(s.callers[c], s.store)
    ensures Proper(Apply(s, MarkTimeout(c)).callers[c], Apply(s, MarkTimeout(c)).store)
  {
    var k := s.callers[c];
    MarksExactly(s.store, TimedOutOp(k.eid, Some(k.session.tenant)));
  }

  lemma CreateProper(s: State, c: nat)
    requires Enabled(s, CreateRecord(c)) && CallerInv(s.callers[c], s.store, s.announced) && Proper(s.callers[c], s.store)
    ensures Proper(Apply(s, CreateRecord(c)).callers[c], Apply(s, CreateRecord(c)).store)
  {}

  lemma SightProper(s: State, step: Step)
    requires Enabled(s, step) && (step.GetSession? || step.CheckVisible?)
    requires CallerInv(s.callers[step.c], s.store, s.announced) && Proper(s.callers[step.c], s.store)
    ensures step.c in Apply(s, step).callers && Proper(Apply(s, step).callers[step.c], Apply(s, step).store)
  {
    OtherCallStep(s, step);
    if step.GetSession? {
      SessionProper(s, step.c);
    } else {
      VisibleProper(s, step.c);
    }
  }

  lemma BranchProper(s: State, step: Step)
    requires Enabled(s, step) && (step.AfterCreate? || step.AfterReread?)
    requires CallerInv(s.callers[step.c], s.store, s.announced) && Proper(s.callers[step.c], s.store)
    ensures step.c in Apply(s, step).callers && Proper(Apply(s, step).callers[step.c], Apply(s, step).store)
  {
    OtherCallStep(s, step);
    if step.AfterCreate? {
      AfterCreateProper(s, step.c, step.now);
    } else {
      AfterRereadProper(s, step.c);
    }
  }

  lemma WakeProper(s: State, step: Step)
    requires Enabled(s, step) && step.Resume? && AnnouncedInv(s.announced, s.store)
    requires CallerInv(s.callers[step.c], s.store, s.announced) && Proper(s.callers[step.c], s.store)
    ensures step.c in Apply(s, step).callers && Proper(Apply(s, step).callers[step.c], Apply(s, step).store)
  {
    OtherCallStep(s, step);
    ResumeProper(s, step.c);
  }

  lemma OwnProper(s: State, step: Step)
    requires Inv(s) && AllProper(s.callers, s.store) && Enabled(s, step) && CallStep(step)
    ensures var t := Apply(s, step);
            step.c in t.callers && Proper(t.callers[step.c], t.store)
  {
    assert CallerInv(s.callers[step.c], s.store, s.announced) && Proper(s.callers[step.c], s.store);
    if step.GetSession? || step.CheckVisible? {
      SightProper(s, step);
    } else if step.AfterCreate? || step.AfterReread? {
      BranchProper(s, step);
    } else if step.Resume? {
      WakeProper(s, step);
    } else if step.CreateRecord? {
      CreateProper(s, step.c);
    } else if step.MarkTimeout? {
      TimeoutProper(s, step.c);
    } else if step.FailDisconnected? || step.FailNoBroker? || step.FailNoPublish? {
      FailStepProper(s, step);
    } else {
      PlainProper(s, step);
      OtherCallStep(s, step);
    }
  }

  /** A step of a call touches no other call and no notice. */
  ghost predicate ChangesOnly(s: State, t: State, c: nat) {
    c in t.callers && t.callers == s.callers[c := t.callers[c]] && t.notices == s.notices
  }

  lemma OwnOnly(s: State, step: Step)
    requires Enabled(s, step) && CallStep(step)
    ensures ChangesOnly(s, Apply(s, step), step.c)
  {
    if step.FailDisconnected? || step.FailNoBroker? || step.FailNoPublish? || step.MarkTimeout? || step.CreateRecord? {
      MarkingOnly(s, step);
    } else if step.Publish? || step.PublishFails? {
      PostingOnly(s, step);
    } else {
      QuietOnly(s, step);
    }
  }

  lemma GetOnly(s: State, c: nat)
    requires c in s.callers
    ensures ChangesOnly(s, DoGetSession(s, c), c) && DoGetSession(s, c).deliveries == s.deliveries
  {}

  lemma QuietOnly(s: State, step: Step)
    requires Enabled(s, step) && Quiet(step) && !step.PublishFails?
    ensures ChangesOnly(s, Apply(s, step), step.c) && Apply(s, step).deliveries == s.deliveries
  {
    match step
    case GetSession(c) => GetOnly(s, c);
    case AfterCreate(c, now) => AfterCreateOnly(s, c, now);
    case AfterReread(c) => AfterRereadOnly(s, c);
    case CheckVisible(c) => CheckOnly(s, c);
    case _ => PlainOnly(s, step);
  }

  lemma CheckOnly(s: State, c: nat)
    requires c in s.callers
    ensures ChangesOnly(s, DoCheckVisible(s, c), c) && DoCheckVisible(s, c).deliveries == s.deliveries
  {}

  lemma PlainOnly(s: State, step: Step)
    requires Enabled(s, step) && Quiet(step) && !step.PublishFails?
    requires !step.GetSession? && !step.CheckVisible? && !step.AfterCreate? && !step.AfterReread?
    ensures ChangesOnly(s, Apply(s, step), step.c) && Apply(s, step).deliveries == s.deliveries
  {}

  lemma AfterCreateOnly(s: State, c: nat, now: int)
    requires c in s.callers && s.callers[c].seen.Some?
    ensures ChangesOnly(s, DoAfterCreate(s, c, now), c) && DoAfterCreate(s, c, now).deliveries == s.deliveries
  {}

  lemma AfterRereadOnly(s: State, c: nat)
    requires c in s.callers
    ensures ChangesOnly(s, DoAfterReread(s, c), c) && DoAfterReread(s, c).deliveries == s.deliveries
  {}

  lemma MarkingOnly(s: State, step: Step)
    requires Enabled(s, step)
    requires step.FailDisconnected? || step.FailNoBroker? || step.FailNoPublish? || step.MarkTimeout? || step.CreateRecord?
    ensures ChangesOnly(s, Apply(s, step), step.c) && Apply(s, step).deliveries == s.deliveries
  {}

  lemma PostedOnly(s: State, c: nat, d: nat)
    requires c in s.callers
    ensures Post(s, c, d).callers == s.callers && Post(s, c, d).notices == s.notices
  {}

  lemma PostingOnly(s: State, step: Step)
    requires Enabled(s, step) && (step.Publish? || step.PublishFails?)
    ensures ChangesOnly(s, Apply(s, step), step.c)
  {
    PostedOnly(s, step.c, step.d);
  }

  // ----- the other steps -----

  /** Waking the holder of a slot with an answer, or with a disconnect that has finished its request. */
  lemma CompleteProper(s: State, procs: set<nat>, rid: string, f: Future)
    requires AllProper(s.callers, s.store) && SlotInv(s.pending, s.callers)
    requires f.Resolved? || (f == Broken(BridgeDisconnected) && FinishedIn(s.store, rid))
    ensures AllProper(Complete(s, procs, rid, f).callers, s.store)
  {
    var t := Complete(s, procs, rid, f);
    forall c | c in t.callers ensures Proper(t.callers[c], s.store) {
      assert Proper(s.callers[c], s.store);
      if Woken(s, procs, rid, c) {
        assert Owns(s.callers[c], Holder(s.callers[c], rid));
      }
    }
  }

  lemma AnnounceProper(s: State, rid: string, p: Payload)
    requires AllProper(s.callers, s.store) && SlotInv(s.pending, s.callers)
    ensures AllProper(Announce(s, rid, p).callers, s.store) && Announce(s, rid, p).store == s.store
    ensures Announce(s, rid, p).notices == s.notices
  {
    CompleteProper(s, SubscribedProcs(s, rid), rid, Resolved(p));
  }

  lemma TellProper(s: State, step: Step)
    requires Inv(s) && AllProper(s.callers, s.store) && NoticesInv(s.notices, s.store) && Enabled(s, step)
    requires step.AnnounceDelivery? || step.AnnounceResponse? || step.CompleteLocal? || step.Notify?
    ensures AllProper(Apply(s, step).callers, Apply(s, step).store) && NoticesInv(Apply(s, step).notices, Apply(s, step).store)
  {
    if step.AnnounceDelivery? {
      AnnounceProper(s, s.deliveries[step.d].rid, s.deliveries[step.d].at.payload);
    } else if step.AnnounceResponse? {
      AnnounceProper(s, s.responders[step.h].rid, s.responders[step.h].payload);
    } else if step.CompleteLocal? {
      CompleteProper(s, {s.responders[step.h].proc}, s.responders[step.h].rid, Resolved(s.responders[step.h].payload));
    } else {
      assert FinishedIn(s.store, (step.proc, step.rid).1);
      CompleteProper(s.(notices := s.notices - {(step.proc, step.rid)}), {step.proc}, step.rid, Broken(BridgeDisconnected));
    }
  }

  lemma OrphanNotices(s: State, step: Step)
    requires Enabled(s, step) && step.OrphanBridge? && NoticesInv(s.notices, s.store) && GoodStore(s.store)
    ensures Apply(s, step).callers == s.callers && NoticesInv(Apply(s, step).notices, Apply(s, step).store)
  {
    var t := Apply(s, step);
    OrphanedKeeps(s.store, step.bridge, step.tenant, step.reason);
    forall e | e in t.notices ensures FinishedIn(t.store, e.1) {
      if e in s.notices {
        FinishedStays(s.store, t.store, e.1);
      } else {
        OrphansExactly(s.store, step.bridge, step.tenant, step.reason, e.1);
      }
    }
  }

  lemma NoticesStay(notices: set<(nat, string)>, st: Store, after: Store)
    requires NoticesInv(notices, st) && StoreEvolves(st, after)
    ensures NoticesInv(notices, after)
  {
    forall e | e in notices ensures FinishedIn(after, e.1) {
      FinishedStays(st, after, e.1);
    }
  }

  lemma RestProper(s: State, step: Step)
    requires Inv(s) && AllProper(s.callers, s.store) && NoticesInv(s.notices, s.store) && Enabled(s, step) && !CallStep(step)
    requires !step.AnnounceDelivery? && !step.AnnounceResponse? && !step.CompleteLocal? && !step.Notify? && !step.OrphanBridge?
    ensures AllProper(Apply(s, step).callers, Apply(s, step).store) && NoticesInv(Apply(s, step).notices, Apply(s, step).store)
  {
    var t := Apply(s, step);
    HandlerStoreStep(s, step);
    OthersStay(s.callers, s.store, t.store);
    NoticesStay(s.notices, s.store, t.store);
    if step.Spawn? {
      SpawnProper(s, step);
    } else {
      OtherStepSame(s, step);
      NoticesSame(s, step);
    }
  }

  lemma SpawnProper(s: State, step: Step)
    requires Enabled(s, step) && step.Spawn? && AllProper(s.callers, s.store)
    ensures AllProper(Apply(s, step).callers, s.store) && Apply(s, step).store == s.store && Apply(s, step).notices == s.notices
  {}

  lemma NoticesSame(s: State, step: Step)
    requires Enabled(s, step) && !CallStep(step) && !step.Spawn? && !step.OrphanBridge?
    requires !step.AnnounceDelivery? && !step.AnnounceResponse? && !step.CompleteLocal? && !step.Notify?
    ensures Apply(s, step).notices == s.notices
  {
    if step.Receive? {
      ReceiveNotices(s, step.h, step.proc, step.frame, step.visibleTo);
    } else if step.DeliverNotLocal? || step.DeliverLocal? || step.FailSend? {
      DeliverNotices(s, step);
    }
  }

  lemma ReceiveNotices(s: State, h: nat, proc: nat, f: Frame, to: Option<string>)
    ensures DoReceive(s, h, proc, f, to).notices == s.notices
  {}

  lemma DeliverNotices(s: State, step: Step)
    requires Enabled(s, step) && (step.DeliverNotLocal? || step.DeliverLocal? || step.FailSend?)
    ensures Apply(s, step).notices == s.notices
  {}

  lemma StepProper(s: State, step: Step)
    requires Inv(s) && AllProper(s.callers, s.store) && NoticesInv(s.notices, s.store) && Enabled(s, step)
    ensures AllProper(Apply(s, step).callers, Apply(s, step).store) && NoticesInv(Apply(s, step).notices, Apply(s, step).store)
  {
    if CallStep(step) {
      CallStepProper(s, step);
    } else if step.AnnounceDelivery? || step.AnnounceResponse? || step.CompleteLocal? || step.Notify? {
      TellProper(s, step);
    } else if step.OrphanBridge? {
      StoreStep(s, step);
      OrphanNotices(s, step);
      OthersStay(s.callers, s.store, Apply(s, step).store);
    } else {
      RestProper(s, step);
    }
  }

  lemma CallStepProper(s: State, step: Step)
    requires Inv(s) && AllProper(s.callers, s.store) && NoticesInv(s.notices, s.store) && Enabled(s, step) && CallStep(step)
    ensures AllProper(Apply(s, step).callers, Apply(s, step).store) && NoticesInv(Apply(s, step).notices, Apply(s, step).store)
  {
    StoreStep(s, step);
    OwnProper(s, step);
    OwnOnly(s, step);
    OthersStay(s.callers, s.store, Apply(s, step).store);
    NoticesStay(s.notices, s.store, Apply(s, step).store);
  }

  lemma {:induction false} RunProper(states: seq<State>, n: nat)
    requires Run(states) && n < |states|
    ensures Inv(states[n]) && AllProper(states[n].callers, states[n].store) && NoticesInv(states[n].notices, states[n].store)
  {
    RunKeepsInv(states, n);
    if n > 0 {
      RunProper(states, n - 1);
      assert Next(states[n - 1], states[n - 1 + 1]);
      var step :| Enabled(states[n - 1], step) && Apply(states[n - 1], step) == states[n];
      StepProper(states[n - 1], step);
    }
  }

  // ----- what follows, for every run -----

  /** Tenants stay apart: a call made for a tenant is only ever routed over a bridge of that tenant; its record and
      everything it published carry that tenant. */
  lemma OwnTenantOnly(states: seq<State>, n: nat, c: nat, tenant: string)
    requires Run(states) && n < |states| && c in states[n].callers && states[n].callers[c].tenantArg == Some(tenant)
    ensures var s, k := states[n], states[n].callers[c];
            && (k.joined ==> k.session.tenant == tenant && k.eid in s.store.requests && s.store.requests[k.eid].tenant == tenant)
            && (forall i :: 0 <= i < |s.published| && s.published[i].caller == c ==> s.published[i].tenant == tenant)
  {
    RunProper(states, n);
    var s := states[n];
    assert Proper(s.callers[c], s.store) && CallerInv(s.callers[c], s.store, s.announced);
    forall i | 0 <= i < |s.published| && s.published[i].caller == c ensures s.published[i].tenant == tenant {
      assert PublicationInv(s.published[i], s.callers);
    }
  }

  /** How a call ends: with a record, only once the request is finished, and then with the stored outcome, an
      announced one, or an error of its own; without one, only because it may not see the bridge, and then its own
      id was never used. */
  lemma EndsExplained(states: seq<State>, n: nat, c: nat)
    requires Run(states) && n < |states| && c in states[n].callers && states[n].callers[c].pc.Done?
    ensures var s, k := states[n], states[n].callers[c];
            if k.joined then
              && FinishedIn(s.store, k.eid)
              && (|| Replay(s.store.requests[k.eid]) == k.outcome
                  || (k.outcome.Returned? && (k.eid, k.outcome.payload) in s.announced)
                  || (k.outcome.Raised? && OwnCode(k.outcome.code)))
            else
              && (k.outcome == Raised(BridgeNotRegistered) || (k.tenantArg.Some? && k.outcome == Raised(TenantMismatch)))
              && k.rid !in s.store.requests
  {
    RunProper(states, n);
    var s := states[n];
    assert Proper(s.callers[c], s.store) && CallerInv(s.callers[c], s.store, s.announced);
  }

  // ----- a bridge of another tenant -----

  /** The bridge, as far as it is registered, is not the tenant's. */
  predicate Foreign(s: State, bridge: string, tenant: string) {
    bridge in s.sessions ==> s.sessions[bridge].tenant != tenant
  }

  /** The call has not come past the session check. */
  predicate Outside(k: Caller) {
    !k.joined && (k.pc.Start? || k.pc.Unseen? || k.pc.Done?)
  }

  lemma OutsideStep(s: State, step: Step, c: nat)
    requires Inv(s) && Enabled(s, step) && c in s.callers && Outside(s.callers[c]) && s.callers[c].tenantArg.Some?
    requires Foreign(s, s.callers[c].bridge, s.callers[c].tenantArg.value)
    ensures var t := Apply(s, step);
            c in t.callers && Outside(t.callers[c]) && t.callers[c].tenantArg == s.callers[c].tenantArg && t.callers[c].bridge == s.callers[c].bridge
  {
    if CallStep(step) {
      OwnOnly(s, step);
      if step.c == c {
        assert CallerInv(s.callers[c], s.store, s.announced);
        SessionOutside(s, step);
      }
    } else if step.AnnounceDelivery? || step.AnnounceResponse? || step.CompleteLocal? || step.Notify? {
      TellOutside(s, step, c);
    } else if !step.Spawn? {
      OtherStepSame(s, step);
    }
  }

  lemma SessionOutside(s: State, step: Step)
    requires Enabled(s, step) && CallStep(step) && step.c in s.callers && Outside(s.callers[step.c])
    requires s.callers[step.c].tenantArg.Some? && Foreign(s, s.callers[step.c].bridge, s.callers[step.c].tenantArg.value)
    ensures var k, l := s.callers[step.c], Apply(s, step).callers[step.c];
            Outside(l) && l.tenantArg == k.tenantArg && l.bridge == k.bridge
  {
    assert step.GetSession? || step.CheckVisible?;
  }

  /** Telling a waiter changes nothing but its future. */
  lemma CompleteTells(s: State, procs: set<nat>, rid: string, f: Future, c: nat)
    requires c in s.callers
    ensures var t := Complete(s, procs, rid, f);
            c in t.callers && t.callers[c] == s.callers[c].(future := t.callers[c].future)
  {}

  lemma TellOutside(s: State, step: Step, c: nat)
    requires Enabled(s, step) && c in s.callers
    requires step.AnnounceDelivery? || step.AnnounceResponse? || step.CompleteLocal? || step.Notify?
    ensures var t := Apply(s, step);
            c in t.callers && t.callers[c] == s.callers[c].(future := t.callers[c].future)
  {
    if step.AnnounceDelivery? {
      var m := s.deliveries[step.d];
      CompleteTells(s, SubscribedProcs(s, m.rid), m.rid, Resolved(m.at.payload), c);
    } else if step.AnnounceResponse? {
      var h := s.responders[step.h];
      CompleteTells(s, SubscribedProcs(s, h.rid), h.rid, Resolved(h.payload), c);
    } else if step.CompleteLocal? {
      var h := s.responders[step.h];
      CompleteTells(s, {h.proc}, h.rid, Resolved(h.payload), c);
    } else {
      CompleteTells(s.(notices := s.notices - {(step.proc, step.rid)}), {step.proc}, step.rid, Broken(BridgeDisconnected), c);
    }
  }

  /** A call for `tenant` that names `bridge` and has not come past the session check. */
  predicate KeptOut(s: State, c: nat, bridge: string, tenant: string) {
    c in s.callers && Outside(s.callers[c]) && s.callers[c].tenantArg == Some(tenant) && s.callers[c].bridge == bridge
  }

  lemma KeptOutNext(s: State, t: State, c: nat, bridge: string, tenant: string)
    requires Inv(s) && Next(s, t) && KeptOut(s, c, bridge, tenant) && Foreign(s, bridge, tenant)
    ensures KeptOut(t, c, bridge, tenant)
  {
    var step :| Enabled(s, step) && Apply(s, step) == t;
    OutsideStep(s, step, c);
  }

  /** If the call is kept out at one moment, so it is at the next. */
  ghost predicate StillOut(states: seq<State>, i: nat, c: nat, bridge: string, tenant: string) {
    i + 1 < |states| && (KeptOut(states[i], c, bridge, tenant) ==> KeptOut(states[i + 1], c, bridge, tenant))
  }

  lemma StaysOutOnce(states: seq<State>, i: nat, c: nat, bridge: string, tenant: string)
    requires Run(states) && i + 1 < |states| && Foreign(states[i], bridge, tenant)
    ensures StillOut(states, i, c, bridge, tenant)
  {
    if KeptOut(states[i], c, bridge, tenant) {
      RunKeepsInv(states, i);
      KeptOutNext(states[i], states[i + 1], c, bridge, tenant);
    }
  }

  lemma {:induction false} StaysOut(states: seq<State>, b: nat, n: nat, c: nat, bridge: string, tenant: string)
    requires b <= n < |states| && KeptOut(states[b], c, bridge, tenant)
    requires forall i :: b <= i < n ==> StillOut(states, i, c, bridge, tenant)
    ensures KeptOut(states[n], c, bridge, tenant)
  {
    if b < n {
      StaysOut(states, b, n - 1, c, bridge, tenant);
      assert StillOut(states, n - 1, c, bridge, tenant);
    }
  }

  lemma KeptOutMeans(s: State, c: nat, bridge: string, tenant: string)
    requires Inv(s) && AllProper(s.callers, s.store) && KeptOut(s, c, bridge, tenant)
    ensures var k := s.callers[c];
            && k.rid !in s.store.requests && (forall i :: 0 <= i < |s.published| ==> s.published[i].caller != c)
            && (k.pc.Done? ==> k.outcome == Raised(TenantMismatch) || k.outcome == Raised(BridgeNotRegistered))
  {
    assert Proper(s.callers[c], s.store);
    forall i | 0 <= i < |s.published| ensures s.published[i].caller != c {
      assert PublicationInv(s.published[i], s.callers);
    }
  }

  /** A call for a tenant that names a bridge which, throughout, is unregistered or another tenant's gets no record,
      publishes nothing, and can end only refused. */
  lemma ForeignBridgeRefused(states: seq<State>, b: nat, n: nat, c: nat, bridge: string, tenant: string)
    requires Run(states) && b <= n < |states| && c in states[b].callers && states[b].callers[c].pc.Start?
    requires states[b].callers[c].tenantArg == Some(tenant) && states[b].callers[c].bridge == bridge
    requires forall i :: b <= i < n ==> Foreign(states[i], bridge, tenant)
    ensures c in states[n].callers
    ensures var s, k := states[n], states[n].callers[c];
            && !k.joined && k.rid !in s.store.requests && (forall i :: 0 <= i < |s.published| ==> s.published[i].caller != c)
            && (k.pc.Done? ==> k.outcome == Raised(TenantMismatch) || k.outcome == Raised(BridgeNotRegistered))
  {
    RunKeepsInv(states, b);
    assert CallerInv(states[b].callers[c], states[b].store, states[b].announced);
    forall i | b <= i < n ensures StillOut(states, i, c, bridge, tenant) {
      StaysOutOnce(states, i, c, bridge, tenant);
    }
    StaysOut(states, b, n, c, bridge, tenant);
    RunProper(states, n);
    KeptOutMeans(states[n], c, bridge, tenant);
  }

  /** Which of the two errors it is: a mismatch exactly when the bridge is registered, to another tenant. */
  lemma MismatchExactly(s: State, c: nat)
    requires Enabled(s, CheckVisible(c)) && s.callers[c].tenantArg.Some?
    ensures Apply(s, CheckVisible(c)) == s.(callers := s.callers[c := Apply(s, CheckVisible(c)).callers[c]])
    ensures var k, l := s.callers[c], Apply(s, CheckVisible(c)).callers[c];
            && l.pc.Done?
            && (l.outcome == Raised(TenantMismatch) <==> k.bridge in s.sessions && s.sessions[k.bridge].tenant != k.tenantArg.value)
            && (l.outcome == Raised(TenantMismatch) || l.outcome == Raised(BridgeNotRegistered))
  {}

  /** A bridge the call may see is used, whoever asks without naming a tenant. */
  lemma VisibleBridgeUsed(s: State, c: nat)
    requires At(s, c, Start)
    ensures var k, l := s.callers[c], DoGetSession(s, c).callers[c];
            var visible := k.bridge in s.sessions && (k.tenantArg.Some? ==> k.tenantArg.value == s.sessions[k.bridge].tenant);
            if visible then l == k.(pc := Ready, session := s.sessions[k.bridge]) else !l.pc.Ready?
  {
    var k := s.callers[c];
    if k.bridge in s.sessions && (k.tenantArg.None? || s.sessions[k.bridge].tenant == k.tenantArg.value) {
      assert DoGetSession(s, c) == SetCaller(s, c, k.(pc := Ready, session := s.sessions[k.bridge]));
    }
  }

  // ----- nothing is dropped on the way -----

  /** A delivery is taken off only when its request was written to the socket or its failure announced. */
  lemma DeliveryEndsTold(s: State, step: Step, d: nat)
    requires Enabled(s, step) && d in s.deliveries && d !in Apply(s, step).deliveries
    ensures s.deliveries[d].rid in Apply(s, step).wire || s.deliveries[d].rid in Spoken(Apply(s, step).announced)
  {
    if step.AnnounceDelivery? {
      AnnouncedDelivery(s, step.d);
    } else if !step.Send? {
      DeliveryStays(s, step, d);
    }
  }

  lemma AnnouncedDelivery(s: State, d: nat)
    requires Enabled(s, AnnounceDelivery(d))
    ensures Apply(s, AnnounceDelivery(d)).deliveries == s.deliveries - {d}
    ensures s.deliveries[d].rid in Spoken(Apply(s, AnnounceDelivery(d)).announced)
  {
    assert (s.deliveries[d].rid, s.deliveries[d].at.payload) in Apply(s, AnnounceDelivery(d)).announced;
  }

  lemma DeliveryStays(s: State, step: Step, d: nat)
    requires Enabled(s, step) && d in s.deliveries && !step.Send? && !step.AnnounceDelivery?
    ensures d in Apply(s, step).deliveries
  {
    if step.Publish? || step.PublishFails? {
      PostedDeliveries(s, step, d);
    } else if Quiet(step) {
      QuietOnly(s, step);
    } else if CallStep(step) {
      MarkingOnly(s, step);
    }
  }

  lemma PostedDeliveries(s: State, step: Step, d: nat)
    requires Enabled(s, step) && d in s.deliveries && (step.Publish? || step.PublishFails?)
    ensures d in Apply(s, step).deliveries
  {}

  /** A published request reaches the bridge's subscriber when there is one, as this call's message. */
  lemma PublishReachesListener(s: State, c: nat, d: nat)
    requires Enabled(s, Publish(c, d))
    ensures var k, t := s.callers[c], Apply(s, Publish(c, d));
            && t.published == s.published + [Published(c, k.eid, k.bridge, k.session.tenant)]
            && (forall e :: e in t.deliveries && e !in s.deliveries ==> t.deliveries[e] == Delivery(s.listener[k.bridge], k.bridge, k.session.tenant, k.eid, Arrived))
            && (d in t.deliveries <==> k.bridge in s.listener)
  {}

  /** A first visible answer is the one that will be announced; any other leaves nobody to announce it. */
  lemma FirstAnswerAnnounced(s: State, h: nat, proc: nat, frame: Frame, to: Option<string>)
    requires Enabled(s, Receive(h, proc, frame, to))
    ensures var t, rid := DoReceive(s, h, proc, frame, to), frame.requestId;
            if rid in s.store.requests && (to.Some? ==> to.value == s.store.requests[rid].tenant) && !s.store.requests[rid].status.Terminal()
            then t.responders == s.responders[h := Responder(proc, rid, Reading(frame), false)]
            else t.responders == s.responders
  {
  }

  /** Whoever may hold the slot of a request that was orphaned is told. */
  lemma OrphansToldOf(s: State, proc: nat, bridge: string, tenant: string, reason: string, id: string)
    requires id in s.store.requests
    ensures var t := DoOrphan(s, proc, bridge, tenant, reason);
            (proc, id) in t.notices <==> (proc, id) in s.notices || t.store.requests[id].status != s.store.requests[id].status
  {
    OrphansExactly(s.store, bridge, tenant, reason, id);
    assert s.store.requests[id].status.Active() ==> s.store.requests[id].status != Orphaned;
  }

  /** The call is the one whose unset future the process's slot for the request holds. */
  predicate Waits(s: State, proc: nat, rid: string, c: nat) {
    && c in s.callers && s.callers[c].proc == proc && s.callers[c].future.Unset?
    && (proc, rid) in s.pending && s.pending[(proc, rid)] == c
  }

  /** It is told of a disconnect, or of the answer its own process received, at once. */
  lemma HolderTold(s: State, step: Step, c: nat)
    requires Enabled(s, step) && (step.Notify? || step.CompleteLocal?)
    requires if step.Notify? then Waits(s, step.proc, step.rid, c) else Waits(s, s.responders[step.h].proc, s.responders[step.h].rid, c)
    ensures c in Apply(s, step).callers
    ensures Apply(s, step).callers[c].future ==
            if step.Notify? then Broken(BridgeDisconnected) else Resolved(s.responders[step.h].payload)
  {}

  /** And wakes with exactly that. */
  lemma ResumesWithIt(s: State, c: nat)
    requires c in s.callers && (s.callers[c].future.Resolved? || s.callers[c].future.Broken?)
    ensures var k, l := s.callers[c], DoResume(s, c).callers[c];
            && l.pc.Done?
            && (forall p :: k.future == Resolved(p) ==> l.outcome == Returned(p))
            && (forall code :: k.future == Broken(code) ==> l.outcome == Raised(code))
  {}

  // ----- the branches of a call -----

  /** A bridge takes requests while it is active or connected and was heard of in the last 120 seconds, if ever. */
  lemma ConnectedExactly(session: Session, now: int)
    ensures session.Connected(now) <==>
            && (session.status.ActiveStatus? || session.status.ConnectedStatus?)
            && (session.lastHeartbeat.Some? ==> now <= session.lastHeartbeat.value + 120)
  {}

  /** What a call does with the record it was given: the outcome of a finished one is replayed at once; an unfinished
      one is waited for, or refused over a bridge that is not connected. */
  lemma AfterCreateExactly(s: State, c: nat, now: int)
    requires c in s.callers && s.callers[c].seen.Some?
    ensures var k, l := s.callers[c], DoAfterCreate(s, c, now).callers[c];
            if k.seen.value.status.Pending? || k.seen.value.status.Sent?
            then l.pc == if k.session.Connected(now) then Registered else Refused
            else l.pc == Done && l.outcome == Replay(k.seen.value)
  {
    var k := s.callers[c];
    var l := if k.seen.value.status.Terminal() then k.(pc := Done, outcome := Replay(k.seen.value))
             else k.(pc := if k.session.Connected(now) then Registered else Refused);
    assert DoAfterCreate(s, c, now).callers == s.callers[c := l];
  }

  /** A call publishes, rather than joins, exactly when no record of its tenant, bridge and usable key was there. */
  lemma OriginalExactly(s: State, c: nat)
    requires Inv(s) && At(s, c, Ready)
    ensures var k, l := s.callers[c], DoCreateRecord(s, c).callers[c];
            l.pc.Created? && l.joined &&
            (l.replayed <==> k.key.Some? && k.key.value != ""
                             && exists x :: x in s.store.requests && SameOperation(s.store.requests[x], k.session.tenant, k.bridge, k.key))
  {
    var k := s.callers[c];
    assert CallerInv(k, s.store, s.announced) && !k.joined;
    CreateExactly(s.store, k.rid, k.bridge, k.session.tenant, k.key);
  }

  /** What the record replays once a failure was marked on it. */
  lemma MarkedReplays(st: Store, id: string, to: Option<string>, failure: Failure)
    requires GoodStore(st) && Sees(st, FailedOp(id, to, failure, map[]))
    ensures var r, after := st.requests[id], MarkFailed(st, id, to, failure, map[]).store;
            && id in after.requests
            && (r.status.Terminal() ==> Replay(after.requests[id]) == Replay(r))
            && (!r.status.Terminal() ==> after.requests[id] == r.(status := Failed, error := Some(failure), metadata := map[]))
  {
    MarkFailedStep(st, id, to, failure, map[]);
    if st.requests[id].status.Terminal() {
      ReplayStays(st.requests[id], MarkFailed(st, id, to, failure, map[]).store.requests[id]);
    }
  }

  /** A call that fails on its own account says why, and that is what the record replays if it was unfinished. */
  lemma OwnFailureReplays(s: State, c: nat, failure: Failure)
    requires Inv(s) && c in s.callers && s.callers[c].joined && OwnCode(failure.code)
    ensures var k, t := s.callers[c], FailAndRaise(s, c, failure);
            && k.eid in s.store.requests && k.eid in t.store.requests
            && t.callers[c].outcome == Raised(failure.code)
            && (var r := s.store.requests[k.eid];
                Replay(t.store.requests[k.eid]) == if r.status.Terminal() then Replay(r) else Raised(failure.code))
  {
    var k := s.callers[c];
    assert CallerInv(k, s.store, s.announced);
    MarkedReplays(s.store, k.eid, Some(k.session.tenant), failure);
    assert Sound(s.store.requests[k.eid]);
  }

  /** Which failure it is. */
  lemma FailureCodes(s: State, step: Step)
    requires Enabled(s, step) && (step.FailDisconnected? || step.FailNoBroker? || step.FailNoPublish? || step.Close?)
    ensures step.c in Apply(s, step).callers && Apply(s, step).callers[step.c].pc.Done?
    ensures Apply(s, step).callers[step.c].outcome ==
            Raised(match step
                   case FailDisconnected(_) => BridgeDisconnected
                   case FailNoBroker(_, _) => BridgeBrokerUnavailable
                   case FailNoPublish(_, _) => BridgePublishFailed
                   case _ => RequestTimedOut)
  {}

  lemma VisibleDelivery(s: State, d: nat, failure: Failure)
    requires Inv(s) && d in s.deliveries
    ensures var m := s.deliveries[d];
            Sees(s.store, FailedOp(m.rid, Visible(m.tenant), failure, map[])) && Sound(s.store.requests[m.rid])
            && s.store.requests[m.rid].id == m.rid
  {
    assert DeliveryInv(s.deliveries[d], s.store);
  }

  /** A delivery that fails: what its waiter is told is not what the record replays later. A request that reached the
      wrong process is announced as an error answer and replayed as a raised error. */
  lemma NotLocalReplays(s: State, d: nat)
    requires Inv(s) && d in s.deliveries && !s.store.requests[s.deliveries[d].rid].status.Terminal()
    ensures var t, rid := DoDeliverNotLocal(s, d), s.deliveries[d].rid;
            && rid in t.store.requests && Replay(t.store.requests[rid]) == Raised(BridgeNotLocal)
            && t.deliveries[d].at == Announcing(ErrPayload(rid, BridgeDisconnected, "Bridge is not connected to this process"))
  {
    var m, failure := s.deliveries[d], Failure(BridgeNotLocal, NOT_LOCAL);
    VisibleDelivery(s, d, failure);
    MarkedReplays(s.store, m.rid, Visible(m.tenant), failure);
  }

  /** And one that could not be written is replayed with the socket's own message. */
  lemma FailedSendReplays(s: State, d: nat, message: string)
    requires Inv(s) && d in s.deliveries && !s.store.requests[s.deliveries[d].rid].status.Terminal()
    ensures var t, rid := DoFailSend(s, d, message), s.deliveries[d].rid;
            && rid in t.store.requests
            && Replay(t.store.requests[rid]) == Returned(ErrPayload(rid, BridgeSendFailed, if message == "" then "Bridge request failed" else message))
            && t.deliveries[d].at == Announcing(ErrPayload(rid, BridgeSendFailed, "Failed to send request to bridge socket"))
  {
    var m, failure := s.deliveries[d], Failure(BridgeSendFailed, message);
    VisibleDelivery(s, d, failure);
    MarkedReplays(s.store, m.rid, Visible(m.tenant), failure);
    FailedReplays(s.store.requests[m.rid], OkPayload("", ""), message);
  }

  /** A delivery to the right process marks a pending request sent and goes on to the socket. */
  lemma LocalDeliverySends(s: State, d: nat)
    requires Inv(s) && d in s.deliveries
    ensures var t, rid := DoDeliverLocal(s, d), s.deliveries[d].rid;
            && t.deliveries[d].at.Sending? && rid in s.store.requests && rid in t.store.requests
            && t.store.requests[rid].status == (if s.store.requests[rid].status.Pending? then Sent else s.store.requests[rid].status)
  {
    var m := s.deliveries[d];
    VisibleDelivery(s, d, Failure(BridgeSendFailed, ""));
    var (store, record) := MarkSent(s.store, m.rid, Visible(m.tenant));
    assert record.Some?;
    assert DoDeliverLocal(s, d) == SetDelivery(s.(store := store), d, Sending);
  }

  lemma FailedReplays(r: Request, p: Success, text: string)
    requires Sound(r) && r.status.Active()
    ensures Replay(r.(status := Failed, error := Some(Failure(BridgeSendFailed, text)), metadata := map[])) ==
            Returned(ErrPayload(r.id, BridgeSendFailed, if text == "" then "Bridge request failed" else text))
  {
    EndingReplays(r.(metadata := map[]), p, text);
  }
}
