/** A run of the bridge protocol that exists: two calls of one process on one request. */
module BridgeScenario {
  import opened Prelude
  import opened BridgeState
  import opened BridgeHistory
  import opened BridgeProtocol
  import opened BridgeWakeup

  /** What the scenario is about: a connected bridge, two calls of one process with one key and ids `a` and `b`. */
  datatype Setting = Setting(bridge: string, session: Session, now: int, proc: nat, key: Option<string>, a: string, b: string) {
    predicate Good() {
      a != "" && b != "" && a != b && Usable(key) && session.Connected(now)
    }

    function Record(): Request {
      NewRequest(a, bridge, session.tenant, key)
    }

    /** A call that has come as far as `pc`. */
    function Call(rid: string, pc: Pc): Caller {
      Caller(proc, bridge, None, rid, key, pc, session, true, a, rid != a, Some(Record()), Unset, Raised(BridgeNotRegistered))
    }
  }

  lemma Extended(states: seq<State>, step: Step) returns (longer: seq<State>)
    requires Run(states) && Enabled(states[|states| - 1], step)
    ensures Run(longer) && |longer| == |states| + 1 && longer[|states|] == Apply(states[|states| - 1], step)
  {
    longer := states + [Apply(states[|states| - 1], step)];
    forall i | 0 <= i < |longer| - 1 ensures Next(longer[i], longer[i + 1]) {
      if i < |states| - 1 {
        assert Next(states[i], states[i + 1]);
      }
    }
  }

  /** A call arrives and reads the session. */
  function Ready(s: State, x: Setting, c: nat, rid: string): State {
    s.(callers := s.callers[c := Caller(x.proc, x.bridge, None, rid, x.key, Pc.Ready, x.session, false, "", false, None, Unset,
                                        Raised(BridgeNotRegistered))])
  }

  lemma Arrives(states: seq<State>, x: Setting, c: nat, rid: string) returns (longer: seq<State>)
    requires Run(states) && rid != ""
    requires var s := states[|states| - 1];
             && c !in s.callers && rid !in s.store.requests && (forall o :: o in s.callers ==> s.callers[o].rid != rid)
             && x.bridge in s.sessions && s.sessions[x.bridge] == x.session
    ensures Run(longer) && longer[|longer| - 1] == Ready(states[|states| - 1], x, c, rid)
  {
    longer := Extended(states, Spawn(c, x.proc, x.bridge, None, rid, x.key));
    longer := Extended(longer, GetSession(c));
    assert longer[|longer| - 1].callers == Ready(states[|states| - 1], x, c, rid).callers;
  }

  /** The first call has created its record. */
  function AfterFirst(x: Setting, pc: Pc, pending: map<(nat, string), nat>, subs: set<(string, nat)>, published: seq<Published>): State {
    Init().(store := Store(map[x.a := x.Record()], [x.a]), sessions := map[x.bridge := x.session],
            callers := map[0 := x.Call(x.a, pc)], pending := pending, subs := subs, published := published)
  }

  lemma FirstCreates(x: Setting) returns (states: seq<State>)
    requires x.Good()
    ensures Run(states) && states[|states| - 1] == AfterFirst(x, Created, map[], {}, [])
  {
    states := Extended([Init()], SetSession(x.bridge, x.session));
    assert states[|states| - 1].sessions == map[x.bridge := x.session];
    states := Arrives(states, x, 0, x.a);
    states := Extended(states, CreateRecord(0));
  }

  function Posted(x: Setting): seq<Published> {
    [Published(0, x.a, x.bridge, x.session.tenant)]
  }

  lemma FirstRegisters(x: Setting) returns (states: seq<State>)
    requires x.Good()
    ensures Run(states) && states[|states| - 1] == AfterFirst(x, Registered, map[(x.proc, x.a) := 0], {}, [])
  {
    states := FirstCreates(x);
    states := Extended(states, AfterCreate(0, x.now));
  }

  lemma FirstWaits(x: Setting) returns (states: seq<State>)
    requires x.Good()
    ensures Run(states) && states[|states| - 1] == AfterFirst(x, Waiting, map[(x.proc, x.a) := 0], {(x.a, 0)}, Posted(x))
  {
    states := FirstRegisters(x);
    states := Extended(states, Subscribe(0));
    assert states[|states| - 1] == AfterFirst(x, Subscribed, map[(x.proc, x.a) := 0], {(x.a, 0)}, []);
    states := Extended(states, Publish(0, 0));
    assert states[|states| - 1].published == Posted(x);
  }

  function Joined(x: Setting, pc: Pc, slot: nat): State {
    AfterFirst(x, Waiting, map[(x.proc, x.a) := slot], {(x.a, 0)}, Posted(x)).(
      callers := map[0 := x.Call(x.a, Waiting), 1 := x.Call(x.b, pc)])
  }

  lemma SecondCreates(states: seq<State>, x: Setting) returns (longer: seq<State>)
    requires x.Good() && Run(states)
    requires states[|states| - 1] == Ready(AfterFirst(x, Waiting, map[(x.proc, x.a) := 0], {(x.a, 0)}, Posted(x)), x, 1, x.b)
    ensures Run(longer) && longer[|longer| - 1] == Joined(x, Created, 0)
  {
    FindsFirst(x);
    longer := Extended(states, CreateRecord(1));
    assert longer[|longer| - 1].callers == map[0 := x.Call(x.a, Waiting), 1 := x.Call(x.b, Created)];
  }

  /** The second call finds the first one's record and takes over the slot. */
  lemma SecondJoins(x: Setting) returns (states: seq<State>)
    requires x.Good()
    ensures Run(states) && states[|states| - 1] == Joined(x, Registered, 1)
  {
    states := FirstWaits(x);
    states := Arrives(states, x, 1, x.b);
    states := SecondCreates(states, x);
    states := Extended(states, AfterCreate(1, x.now));
    assert states[|states| - 1].callers == map[0 := x.Call(x.a, Waiting), 1 := x.Call(x.b, Registered)];
    assert states[|states| - 1].pending == map[(x.proc, x.a) := 1];
  }

  lemma FindsFirst(x: Setting)
    requires x.Good()
    ensures Create(Store(map[x.a := x.Record()], [x.a]), x.b, x.bridge, x.session.tenant, x.key)
            == (Store(map[x.a := x.Record()], [x.a]), x.Record())
  {
    var st := Store(map[x.a := x.Record()], [x.a]);
    assert st.order[0] == x.a && SameOperation(st.requests[x.a], x.session.tenant, x.bridge, x.key);
  }

  /** The record a first answer leaves. */
  lemma FirstAnswer(x: Setting, p: Success, m: Metadata)
    ensures var marked := FinishWith(Store(map[x.a := x.Record()], [x.a]), x.a, None, p, m);
            marked.transitioned && x.a in marked.store.requests && marked.store.requests[x.a].status == Responded
  {}

  /** The bridge's answer has finished the request and is about to be announced. */
  ghost predicate AboutToTell(s: State, x: Setting, p: Payload) {
    && s.callers == Joined(x, Registered, 1).callers && s.pending == Joined(x, Registered, 1).pending && s.subs == {(x.a, 0)}
    && s.responders == map[0 := Responder(x.proc, x.a, p, false)]
    && x.a in s.store.requests && s.store.requests[x.a].status == Responded
  }

  lemma BridgeAnswers(x: Setting, f: Frame) returns (states: seq<State>)
    requires x.Good() && f.requestId == x.a && Reading(f).OkPayload?
    ensures Run(states) && AboutToTell(states[|states| - 1], x, Reading(f))
  {
    states := SecondJoins(x);
    AnswerStep(x, f);
    states := Extended(states, Receive(0, x.proc, f, None));
  }

  lemma AnswerStep(x: Setting, f: Frame)
    requires x.Good() && f.requestId == x.a && Reading(f).OkPayload?
    ensures Enabled(Joined(x, Registered, 1), Receive(0, x.proc, f, None))
    ensures AboutToTell(Apply(Joined(x, Registered, 1), Receive(0, x.proc, f, None)), x, Reading(f))
  {
    FirstAnswer(x, Reading(f), FrameMetadata(f));
  }

  /** The first call still waits although its request has been spoken of; the second was told. */
  ghost predicate FirstMissed(s: State, x: Setting) {
    && s.callers.Keys == {0, 1} && s.callers[0].pc.Waiting? && s.callers[0].future.Unset?
    && s.callers[0].eid == x.a && x.a in Spoken(s.announced) && s.callers[1].future.Resolved?
    && x.a in s.store.requests && s.store.requests[x.a].status == Responded
  }

  /** Telling reaches the call that holds the slot, and not the one that subscribed. */
  lemma TellsTheSecond(s: State, x: Setting, p: Payload)
    requires AboutToTell(s, x, p)
    ensures FirstMissed(Announce(s, x.a, p), x)
  {
    var t := Announce(s, x.a, p);
    assert (x.a, p) in t.announced;
    assert (x.a, 0) in s.subs && x.proc in SubscribedProcs(s, x.a);
  }

  lemma SameButResponders(s: State, x: Setting, responders: map<nat, Responder>)
    requires FirstMissed(s, x)
    ensures FirstMissed(s.(responders := responders), x)
  {}

  lemma TellingStep(s: State, x: Setting, p: Payload)
    requires AboutToTell(s, x, p)
    ensures Enabled(s, AnnounceResponse(0)) && FirstMissed(Apply(s, AnnounceResponse(0)), x)
  {
    TellsTheSecond(s, x, p);
    SameButResponders(Announce(s, x.a, p), x, s.responders[0 := s.responders[0].(published := true)]);
  }

  /** The bridge answers: the outcome is announced, the second call is told, and the first still waits, for good
      unless it times out. */
  lemma FirstMissesTheOutcome(x: Setting, f: Frame) returns (states: seq<State>)
    requires x.Good() && f.requestId == x.a && Reading(f).OkPayload?
    ensures Run(states) && FirstMissed(states[|states| - 1], x)
  {
    states := BridgeAnswers(x, f);
    TellingStep(states[|states| - 1], x, Reading(f));
    states := Extended(states, AnnounceResponse(0));
  }
}
