/** The guarantees of the bridge protocol, over every run. */
module BridgeTheorems {
  import opened Prelude
  import opened BridgeState
  import opened BridgeHistory
  import opened BridgeProtocol
  import opened BridgeInvariant
  import opened BridgeWakeup

  // ----- never publish twice -----

  /** Only the call that created a record publishes it, under the record's own tenant and bridge. */
  lemma PublisherCreatedTheRecord(states: seq<State>, n: nat, i: nat)
    requires Run(states) && n < |states| && i < |states[n].published|
    ensures var s, p := states[n], states[n].published[i];
            && p.caller in s.callers && p.rid == s.callers[p.caller].rid && !s.callers[p.caller].replayed
            && p.rid in s.store.requests
            && SameOperation(s.store.requests[p.rid], p.tenant, p.bridge, s.callers[p.caller].key)
  {
    RunKeepsInv(states, n);
    var s := states[n];
    assert PublicationInv(s.published[i], s.callers);
    assert CallerInv(s.callers[s.published[i].caller], s.store, s.announced);
  }

  /** At most one `post_xml` is ever published per (tenant, bridge, idempotency key). */
  lemma PublishedOncePerKey(states: seq<State>, n: nat, i: nat, j: nat)
    requires Run(states) && n < |states| && i < j < |states[n].published|
    ensures var s := states[n];
            && s.published[i].rid in s.store.requests && s.published[j].rid in s.store.requests
            && !SameKey(s.store.requests[s.published[i].rid], s.store.requests[s.published[j].rid])
  {
    RunKeepsInv(states, n);
    PublisherCreatedTheRecord(states, n, i);
    PublisherCreatedTheRecord(states, n, j);
    var s := states[n];
    var a, b := s.published[i], s.published[j];
    if a.rid == b.rid {
      SamePublisher(s, a.caller, b);
    }
  }

  /** Nor is it ever written to a bridge socket twice. */
  lemma SentOncePerKey(states: seq<State>, n: nat, i: nat, j: nat)
    requires Run(states) && n < |states| && i < j < |states[n].wire|
    ensures var s := states[n];
            && s.wire[i] in s.store.requests && s.wire[j] in s.store.requests
            && !SameKey(s.store.requests[s.wire[i]], s.store.requests[s.wire[j]])
  {
    RunKeepsInv(states, n);
    WireKnown(states, n, i);
    WireKnown(states, n, j);
  }

  lemma WireKnown(states: seq<State>, n: nat, i: nat)
    requires Run(states) && n < |states| && i < |states[n].wire|
    ensures states[n].wire[i] in states[n].store.requests
  {
    RunKeepsInv(states, n);
    var s := states[n];
    assert s.wire[i] in s.wire;
    var k :| 0 <= k < |s.published| && s.published[k].rid == s.wire[i];
    PublisherCreatedTheRecord(states, n, k);
  }

  // ----- no lost wake-up -----

  /** With one waiter per request and process, a waiting call whose future is unset was never told of
      an outcome; the one exception is an original caller whose request was answered before any
      `post_xml` for it existed. */
  lemma NoLostWakeup(states: seq<State>, n: nat, c: nat)
    requires Run(states) && n < |states|
    requires forall j :: 0 <= j < |states| ==> SingleWaiter(states[j])
    requires c in states[n].callers && states[n].callers[c].pc.Waiting? && states[n].callers[c].future.Unset?
    ensures var s, k := states[n], states[n].callers[c];
            && (k.eid in Spoken(s.announced) ==> !k.replayed && k.eid in s.early)
            && (k.eid, c) in s.subs
            && (k.proc, k.eid) in s.pending && s.pending[(k.proc, k.eid)] == c
  {
    RunWaits(states, n);
    var s := states[n];
    assert WaiterInv(c, s.callers[c], s.pending, s.subs, Spoken(s.announced), s.early);
    assert CallerInv(s.callers[c], s.store, s.announced);
  }

  /** What the single waiter buys, exactly: a response reaches a subscribed call if and only if the
      slot of its process is still its own. */
  lemma AnnouncementReachesHolder(s: State, rid: string, p: Payload, c: nat)
    requires c in s.callers && (rid, c) in s.subs && s.callers[c].future.Unset?
    ensures var k := s.callers[c];
            Announce(s, rid, p).callers[c].future == Resolved(p)
            <==> (k.proc, rid) in s.pending && s.pending[(k.proc, rid)] == c
  {
    assert (rid, c) in s.subs;
    assert s.callers[c].proc in SubscribedProcs(s, rid);
  }

  /** So a second call of one process that joins the same request makes the first miss the outcome. */
  lemma SecondWaiterLosesFirst(s: State, first: nat, second: nat, now: int, p: Payload)
    requires first in s.callers && s.callers[first].pc.Waiting? && s.callers[first].future.Unset? && first != second
    requires Enabled(s, AfterCreate(second, now)) && !s.callers[second].seen.value.status.Terminal()
    requires s.callers[second].session.Connected(now)
    requires s.callers[second].proc == s.callers[first].proc && s.callers[second].eid == s.callers[first].eid
    ensures var k := s.callers[first];
            var t := Announce(Apply(s, AfterCreate(second, now)), k.eid, p);
            t.callers[first] == k && k.eid in Spoken(t.announced)
  {
    var k := s.callers[first];
    var u := Apply(s, AfterCreate(second, now));
    var t := Announce(u, k.eid, p);
    assert (k.eid, p) in t.announced;
    assert u.pending[(k.proc, k.eid)] == second;
  }

  // ----- replay -----

  /** What `_replay_terminal_record` answers for each way a request can end. */
  lemma EndingReplays(r: Request, p: Success, text: string)
    requires Sound(r) && r.status.Active()
    ensures Replay(r.(status := Responded, result := Some(p))) == Returned(p)
    ensures Replay(r.(status := TimedOut, error := Some(TIMEOUT_FAILURE))) == Raised(RequestTimedOut)
    ensures Replay(Orphan(r, text)) == Raised(BridgeDisconnected)
    ensures forall code: Code :: var failed := r.(status := Failed, error := Some(Failure(code, text)));
              Replay(failed) == if code.BridgeError? || code.MalformedResponse? || code.BridgeSendFailed?
                                then Returned(ErrPayload(r.id, code, if text == "" then "Bridge request failed" else text))
                                else Raised(code)
  {
    assert Status.Failed.Text() == "failed";
    assert "Bridge request " + "failed" == "Bridge request failed";
  }

  predicate BridgeAnswer(p: Payload) {
    p.OkPayload? || p.category.BridgeError? || p.category.MalformedResponse?
  }

  predicate Blank(p: Payload) { p.ErrPayload? && p.text == "" }

  lemma StoreStep(s: State, step: Step)
    requires Inv(s) && Enabled(s, step)
    ensures StoreEvolves(s.store, Apply(s, step).store)
  {
    if CallStep(step) {
      assert CallerInv(s.callers[step.c], s.store, s.announced);
      CallStoreStep(s, step);
    } else {
      HandlerStoreStep(s, step);
    }
  }

  lemma HandlerStoreStep(s: State, step: Step)
    requires GoodStore(s.store) && Enabled(s, step) && !CallStep(step)
    ensures StoreEvolves(s.store, Apply(s, step).store)
  {
    StoreSame(s.store);
    if step.OrphanBridge? {
      OrphanedKeeps(s.store, step.bridge, step.tenant, step.reason);
    } else if step.Receive? {
      ReceivedStore(s.store, step.frame, step.visibleTo);
    } else if step.DeliverNotLocal? {
      var m := s.deliveries[step.d];
      MarkFailedStep(s.store, m.rid, Visible(m.tenant), Failure(BridgeNotLocal, NOT_LOCAL), map[]);
    } else if step.DeliverLocal? {
      MarkSentStep(s.store, s.deliveries[step.d].rid, Visible(s.deliveries[step.d].tenant));
    } else if step.FailSend? {
      var m := s.deliveries[step.d];
      MarkFailedStep(s.store, m.rid, Visible(m.tenant), Failure(BridgeSendFailed, step.message), map[]);
    }
  }

  lemma CallStoreStep(s: State, step: Step)
    requires GoodStore(s.store) && Enabled(s, step) && CallStep(step)
    requires step.CreateRecord? ==> s.callers[step.c].rid !in s.store.requests
    ensures StoreEvolves(s.store, Apply(s, step).store)
  {
    if step.CreateRecord? {
      var k := s.callers[step.c];
      CreateKeeps(s.store, k.rid, k.bridge, k.session.tenant, k.key);
    } else if step.FailDisconnected? || step.FailNoBroker? || step.FailNoPublish? || step.MarkTimeout? {
      FailStoreStep(s, step);
    } else {
      OtherCallStep(s, step);
      StoreSame(s.store);
    }
  }

  /** The other steps of a call leave the table alone. */
  lemma OtherCallStep(s: State, step: Step)
    requires Enabled(s, step) && (Quiet(step) || step.Publish? || step.PublishFails?)
    ensures Apply(s, step).store == s.store
  {
    if step.Publish? || step.PublishFails? {
      PublishStep(s, step);
    }
  }

  lemma PublishStep(s: State, step: Step)
    requires Enabled(s, step) && (step.Publish? || step.PublishFails?)
    ensures Apply(s, step).store == s.store
  {}

  lemma FailStoreStep(s: State, step: Step)
    requires GoodStore(s.store) && Enabled(s, step)
    requires step.FailDisconnected? || step.FailNoBroker? || step.FailNoPublish? || step.MarkTimeout?
    ensures StoreEvolves(s.store, Apply(s, step).store)
  {
    var k := s.callers[step.c];
    var to := Some(k.session.tenant);
    if step.FailDisconnected? {
      MarkFailedStep(s.store, k.eid, to, Failure(BridgeDisconnected, "Bridge " + k.bridge + " is disconnected"), map[]);
    } else if step.FailNoBroker? {
      MarkFailedStep(s.store, k.eid, to, Failure(BridgeBrokerUnavailable, step.message), map[]);
    } else if step.FailNoPublish? {
      MarkFailedStep(s.store, k.eid, to, Failure(BridgePublishFailed, step.message), map[]);
    } else {
      MarkTimedOutStep(s.store, k.eid, to);
    }
  }

  /** The table at a later moment of a run. */
  lemma {:induction false} RunEvolves(states: seq<State>, i: nat, j: nat)
    requires Run(states) && i <= j < |states|
    ensures StoreEvolves(states[i].store, states[j].store)
  {
    if i == j {
      StoreSame(states[i].store);
    } else {
      RunEvolves(states, i, j - 1);
      RunKeepsInv(states, j - 1);
      assert Next(states[j - 1], states[j - 1 + 1]);
      var step :| Enabled(states[j - 1], step) && Apply(states[j - 1], step) == states[j];
      StoreStep(states[j - 1], step);
      EvolvesTransitive(states[i].store, states[j - 1].store, states[j].store);
    }
  }

  lemma ExplainedAnswer(k: Caller, p: Payload, s: State)
    requires AnnouncedInv(s.announced, s.store) && GoodStore(s.store)
    requires k.joined && k.eid in s.store.requests && Explained(k, p, s.store, s.announced) && BridgeAnswer(p)
    ensures s.store.requests[k.eid].status.Terminal()
    ensures Replay(s.store.requests[k.eid]) == Returned(p) <==> !Blank(p)
  {
    var r := s.store.requests[k.eid];
    assert |"Bridge request " + r.status.Text()| > 0;
    if (k.eid, p) in s.announced {
      assert Backed(p, s.store.requests[(k.eid, p).0]);
      assert Sound(r);
    }
  }

  /** Replay is faithful forever after: once a call has returned a bridge answer, the durable record
      rebuilds that very payload at every later moment, exactly unless the bridge reported an empty error text. */
  lemma ReplayIsFaithful(states: seq<State>, i: nat, j: nat, c: nat)
    requires Run(states) && i <= j < |states|
    requires c in states[i].callers && states[i].callers[c].pc.Done? && states[i].callers[c].outcome.Returned?
    requires BridgeAnswer(states[i].callers[c].outcome.payload)
    ensures var k := states[i].callers[c];
            && k.eid in states[j].store.requests
            && states[j].store.requests[k.eid].status.Terminal()
            && (Replay(states[j].store.requests[k.eid]) == Returned(k.outcome.payload) <==> !Blank(k.outcome.payload))
  {
    RunKeepsInv(states, i);
    var s := states[i];
    var k := s.callers[c];
    assert CallerInv(k, s.store, s.announced);
    ExplainedAnswer(k, k.outcome.payload, s);
    RunEvolves(states, i, j);
    ReplayStays(s.store.requests[k.eid], states[j].store.requests[k.eid]);
  }

  /** All calls of one idempotency key that get a bridge answer get the same one. */
  lemma OneAnswerPerKey(states: seq<State>, n: nat, c: nat, d: nat)
    requires Run(states) && n < |states| && c in states[n].callers && d in states[n].callers
    requires var k, l := states[n].callers[c], states[n].callers[d];
             && k.pc.Done? && l.pc.Done? && k.outcome.Returned? && l.outcome.Returned?
             && BridgeAnswer(k.outcome.payload) && BridgeAnswer(l.outcome.payload)
             && !Blank(k.outcome.payload) && !Blank(l.outcome.payload)
             && Usable(k.key) && k.key == l.key && k.bridge == l.bridge && k.session.tenant == l.session.tenant
    ensures states[n].callers[c].outcome == states[n].callers[d].outcome
  {
    ReplayIsFaithful(states, n, n, c);
    ReplayIsFaithful(states, n, n, d);
    RunKeepsInv(states, n);
    var s := states[n];
    var k, l := s.callers[c], s.callers[d];
    assert CallerInv(k, s.store, s.announced) && CallerInv(l, s.store, s.announced);
    assert SameKey(s.store.requests[k.eid], s.store.requests[l.eid]);
  }

  /** The blank text is a real exception: the caller saw "", a repeated call sees another text. */
  lemma BlankErrorReplaysDifferently(r: Request)
    requires Sound(r) && r.status.Active()
    ensures var f := Frame(r.id, Some("error"), None, Some(""), []);
            var marked := FinishWith(Store(map[r.id := r], [r.id]), r.id, None, Reading(f), FrameMetadata(f));
            && marked.transitioned && marked.record.Some?
            && Replay(marked.record.value) == Returned(ErrPayload(r.id, BridgeError, "Bridge request failed"))
            && Reading(f) == ErrPayload(r.id, BridgeError, "")
  {
    EndingReplays(r, OkPayload("", ""), "");
  }
}
