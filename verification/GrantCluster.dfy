/** auth/token_pool.py: revocations running across nodes, with everything else that touches the caches between
    their awaits. */
module GrantCluster {
  import opened Prelude
  import opened GrantRevocation

  /** Where a `revoke_agent_grants` stands; a step is one Redis command or one call of the revoker. */
  datatype Phase =
    | Scanning             // between two keys of `scan_iter`
    | Got(key: string)     // read, not yet deleted
    | Scanned              // about to delete the agent's own token
    | TokenGone            // about to read the delegated grant
    | DelegatedRead        // about to delete it
    | Publishing           // about to broadcast
    | Asking               // calling the revoker
    | Done

  /** `began` is the serial at its start; `due` are the entries the scan still owes, `cleared` the nodes that have
      dropped the agent's grants since: the node itself, those that handled the broadcast, those restarted. */
  datatype Revocation = Revocation(tenant: string, agent: string, began: nat, phase: Phase, due: set<(string, nat)>,
                                   tokens: seq<string>, asked: seq<string>, revoked: nat, failed: nat,
                                   published: bool, cleared: set<nat>)

  /** `inbox` holds each node's undelivered broadcasts; `serial` numbers the stores. */
  datatype State = State(runs: Grants, delegated: map<string, string>, agentTokens: set<string>, locals: map<nat, Grants>,
                         inbox: map<nat, seq<nat>>, revs: map<nat, Revocation>, serial: nat)

  datatype Event =
    | Begin(r: nat, node: nat, tenant: string, agent: string, client: bool, found: seq<string>)
    | Yield(r: nat, key: string)
    | Delete(r: nat)
    | EndScan(r: nat)
    | DropToken(r: nat)
    | ReadDelegated(r: nat)
    | DropDelegated(r: nat)
    | Publish(r: nat, listening: set<nat>)
    | RedisFails(r: nat)
    | Ask(r: nat, approved: bool)
    | Finish(r: nat)
    | Handle(node: nat)
    | LoseMessage(node: nat)
    | StoreLocal(node: nat, key: string, token: string)
    | StoreShared(key: string, token: string)
    | StoreDelegated(agent: string, token: string)
    | StoreToken(agent: string)
    | LocalDrops(node: nat, key: string)
    | SharedLoses(key: string)
    | Restart(node: nat)

  predicate In(s: State, r: nat, phase: Phase) {
    r in s.revs && s.revs[r].phase == phase
  }

  /** Entries of the agent under the scanned prefix. */
  function Matching(runs: Grants, prefix: string): set<(string, nat)> {
    set k | k in runs && prefix <= k :: (k, runs[k].serial)
  }

  /** `SCAN` promises that an entry there for the whole iteration is returned; it may return others, and repeats. */
  ghost predicate Enabled(s: State, e: Event) {
    match e
    case Begin(r, node, _, agent, _, found) =>
      && r !in s.revs && node in s.locals
      && Distinct(found) && forall t :: t in found <==> t in LocalTokens(s.locals[node], agent)
    case Yield(r, key) => In(s, r, Scanning) && RunPrefix(s.revs[r].tenant, s.revs[r].agent) <= key
    case Delete(r) => r in s.revs && s.revs[r].phase.Got?
    case EndScan(r) => In(s, r, Scanning) && forall d :: d in s.revs[r].due ==> !(d.0 in s.runs && s.runs[d.0].serial == d.1)
    case DropToken(r) => In(s, r, Scanned)
    case ReadDelegated(r) => In(s, r, TokenGone)
    case DropDelegated(r) => In(s, r, DelegatedRead)
    case Publish(r, _) => In(s, r, Publishing)
    case RedisFails(r) => r in s.revs && !s.revs[r].phase.Asking? && !s.revs[r].phase.Done?
    case Ask(r, _) => In(s, r, Asking) && |s.revs[r].asked| < |s.revs[r].tokens|
    case Finish(r) => In(s, r, Asking) && |s.revs[r].asked| >= |s.revs[r].tokens|
    case Handle(node) => node in s.locals && node in s.inbox && s.inbox[node] != [] && s.inbox[node][0] in s.revs
    case LoseMessage(node) => node in s.inbox && s.inbox[node] != []
    case StoreLocal(node, _, _) => node in s.locals
    case LocalDrops(node, _) => node in s.locals
    case _ => true
  }

  function SetRev(s: State, r: nat, v: Revocation): State {
    s.(revs := s.revs[r := v])
  }

  function SetLocal(s: State, node: nat, local: Grants): State {
    s.(locals := s.locals[node := local])
  }

  /** The scan has returned `key`, and its value was read. */
  function Yielded(v: Revocation, runs: Grants, key: string): Revocation {
    if key in runs then
      v.(phase := Got(key), due := v.due - {(key, runs[key].serial)}, tokens := Noted(v.tokens, runs[key].token))
    else v.(phase := Got(key))
  }

  /** A node's whole cache is gone: nothing of the agent is left on it for any revocation under way. */
  function Cleared(revs: map<nat, Revocation>, node: nat): map<nat, Revocation> {
    map r | r in revs :: revs[r].(cleared := revs[r].cleared + {node})
  }

  ghost function Apply(s: State, e: Event): State
    requires Enabled(s, e)
  {
    match e
    case Begin(r, node, tenant, agent, client, found) =>
      SetLocal(SetRev(s, r, Revocation(tenant, agent, s.serial, if client then Scanning else Asking,
                                       Matching(s.runs, RunPrefix(tenant, agent)), found, [], 0, 0, false, {node})),
               node, Evicted(s.locals[node], agent))
    case Yield(r, key) => SetRev(s, r, Yielded(s.revs[r], s.runs, key))
    case Delete(r) => SetRev(s.(runs := s.runs - {s.revs[r].phase.key}), r, s.revs[r].(phase := Scanning))
    case EndScan(r) => SetRev(s, r, s.revs[r].(phase := Scanned))
    case DropToken(r) => SetRev(s.(agentTokens := s.agentTokens - {s.revs[r].agent}), r, s.revs[r].(phase := TokenGone))
    case ReadDelegated(r) =>
      var v := s.revs[r];
      SetRev(s, r, v.(phase := DelegatedRead, tokens := Noted(v.tokens, if v.agent in s.delegated then s.delegated[v.agent] else "")))
    case DropDelegated(r) => SetRev(s.(delegated := s.delegated - {s.revs[r].agent}), r, s.revs[r].(phase := Publishing))
    case Publish(r, listening) =>
      SetRev(s.(inbox := map n | n in s.inbox.Keys + listening ::
                  (if n in s.inbox then s.inbox[n] else []) + (if n in listening then [r] else [])),
             r, s.revs[r].(phase := Asking, published := true))
    case RedisFails(r) => SetRev(s, r, s.revs[r].(phase := Asking))
    case Ask(r, approved) =>
      var v := s.revs[r];
      SetRev(s, r, v.(asked := v.asked + [v.tokens[|v.asked|]], revoked := v.revoked + (if approved then 1 else 0),
                      failed := v.failed + (if approved then 0 else 1)))
    case Finish(r) => SetRev(s, r, s.revs[r].(phase := Done))
    case Handle(node) =>
      var r := s.inbox[node][0];
      var v := s.revs[r];
      SetLocal(SetRev(s.(inbox := s.inbox[node := s.inbox[node][1..]], agentTokens := s.agentTokens - {v.agent}), r,
                      v.(cleared := v.cleared + {node})),
               node, Evicted(s.locals[node], v.agent))
    case LoseMessage(node) => s.(inbox := s.inbox[node := s.inbox[node][1..]])
    case StoreLocal(node, key, token) =>
      SetLocal(s, node, s.locals[node][key := Grant(token, s.serial)]).(serial := s.serial + 1)
    case StoreShared(key, token) => s.(runs := s.runs[key := Grant(token, s.serial)], serial := s.serial + 1)
    case StoreDelegated(agent, token) => s.(delegated := s.delegated[agent := token])
    case StoreToken(agent) => s.(agentTokens := s.agentTokens + {agent})
    case LocalDrops(node, key) => SetLocal(s, node, s.locals[node] - {key})
    case SharedLoses(key) => s.(runs := s.runs - {key})
    case Restart(node) => SetLocal(s, node, map[]).(inbox := s.inbox - {node}, revs := Cleared(s.revs, node))
  }

  ghost predicate Next(s: State, t: State) {
    exists e :: Enabled(s, e) && t == Apply(s, e)
  }

  /** A run starts with any caches and no revocation; every entry was stored before. */
  ghost predicate Run(states: seq<State>) {
    && |states| > 0 && states[0].revs == map[] && states[0].inbox == map[] && OlderThan(states[0].runs, states[0].serial)
    && (forall n :: n in states[0].locals ==> OlderThan(states[0].locals[n], states[0].serial))
    && forall i :: 0 <= i < |states| - 1 ==> Next(states[i], states[i + 1])
  }

  ghost predicate OlderThan(grants: Grants, serial: nat) {
    forall k :: k in grants ==> grants[k].serial < serial
  }

  // ----- the invariant -----

  /** The entry of the scanned agent was there when the revocation began. */
  predicate Before(v: Revocation, key: string, grant: Grant) {
    RunPrefix(v.tenant, v.agent) <= key && grant.serial < v.began
  }

  /** The phases in which the scan may still owe an entry, or the revocation has given Redis up. */
  predicate Owes(v: Revocation) {
    v.phase.Scanning? || v.phase.Got? || ((v.phase.Asking? || v.phase.Done?) && !v.published)
  }

  ghost predicate SharedInv(runs: Grants, v: Revocation) {
    && (v.phase.Scanning? ==> forall k :: k in runs && Before(v, k, runs[k]) ==> (k, runs[k].serial) in v.due)
    && (v.phase.Got? ==> forall k :: k in runs && Before(v, k, runs[k]) ==> k == v.phase.key || (k, runs[k].serial) in v.due)
    && (!Owes(v) ==> forall k :: k in runs ==> !Before(v, k, runs[k]))
  }

  /** No grant recognised as the agent's and older than the revocation. */
  ghost predicate Free(local: Grants, v: Revocation) {
    forall k :: k in local && OfAgent(k, v.agent) ==> local[k].serial >= v.began
  }

  ghost predicate LocalInv(locals: map<nat, Grants>, v: Revocation) {
    forall n :: n in locals && n in v.cleared ==> Free(locals[n], v)
  }

  ghost predicate BookInv(v: Revocation, serial: nat) {
    && v.began <= serial && Distinct(v.tokens)
    && |v.asked| <= |v.tokens| && v.asked == v.tokens[..|v.asked|] && |v.asked| == v.revoked + v.failed
    && (!v.phase.Asking? && !v.phase.Done? ==> v.asked == [] && !v.published)
    && (v.phase.Done? ==> |v.asked| == |v.tokens|)
  }

  ghost predicate RevInv(v: Revocation, runs: Grants, locals: map<nat, Grants>, serial: nat) {
    SharedInv(runs, v) && LocalInv(locals, v) && BookInv(v, serial)
  }

  ghost predicate Inv(s: State) {
    && OlderThan(s.runs, s.serial) && (forall n :: n in s.locals ==> OlderThan(s.locals[n], s.serial))
    && (forall r :: r in s.revs ==> RevInv(s.revs[r], s.runs, s.locals, s.serial))
  }

  /** Fewer or newer entries in the shared cache disturb no revocation. */
  lemma SharedChanged(runs: Grants, after: Grants, v: Revocation)
    requires SharedInv(runs, v)
    requires forall k :: k in after ==> (k in runs && after[k] == runs[k]) || after[k].serial >= v.began
    ensures SharedInv(after, v)
  {}

  lemma FreeStays(local: Grants, after: Grants, v: Revocation)
    requires Free(local, v)
    requires forall k :: k in after ==> (k in local && after[k] == local[k]) || after[k].serial >= v.began
    ensures Free(after, v)
  {}

  lemma LocalChanged(locals: map<nat, Grants>, node: nat, after: Grants, v: Revocation)
    requires LocalInv(locals, v)
    requires node in locals ==> forall k :: k in after ==> (k in locals[node] && after[k] == locals[node][k]) || after[k].serial >= v.began
    requires node !in locals ==> after == map[]
    ensures LocalInv(locals[node := after], v)
  {
    if node in locals && node in v.cleared {
      FreeStays(locals[node], after, v);
    }
  }

  lemma EvictedIsFree(local: Grants, v: Revocation)
    ensures Free(Evicted(local, v.agent), v)
  {}

  /** What a step may do to the caches: lose entries, and add entries newer than everything. */
  ghost predicate Grows(before: Grants, after: Grants, serial: nat) {
    forall k :: k in after ==> (k in before && after[k] == before[k]) || after[k].serial == serial
  }

  /** A step that touches one node's cache and the shared one, and leaves every revocation but `r` as it was. */
  lemma OthersKeep(s: State, runs: Grants, node: nat, local: Grants, serial: nat, x: nat)
    requires Inv(s) && x in s.revs && s.serial <= serial <= s.serial + 1
    requires Grows(s.runs, runs, s.serial)
    requires Grows(if node in s.locals then s.locals[node] else map[], local, s.serial)
    requires node !in s.locals ==> local == map[]
    ensures RevInv(s.revs[x], runs, s.locals[node := local], serial)
  {
    var v := s.revs[x];
    assert RevInv(v, s.runs, s.locals, s.serial);
    SharedChanged(s.runs, runs, v);
    LocalChanged(s.locals, node, local, v);
  }

  /** The caches alone change. */
  lemma CachesKeep(s: State, runs: Grants, node: nat, local: Grants, serial: nat)
    requires Inv(s) && s.serial <= serial <= s.serial + 1
    requires Grows(s.runs, runs, s.serial) && OlderThan(runs, serial)
    requires Grows(if node in s.locals then s.locals[node] else map[], local, s.serial) && OlderThan(local, serial)
    requires node !in s.locals ==> local == map[]
    ensures Inv(s.(runs := runs, locals := s.locals[node := local], serial := serial))
  {
    forall x | x in s.revs ensures RevInv(s.revs[x], runs, s.locals[node := local], serial) {
      OthersKeep(s, runs, node, local, serial, x);
    }
  }

  /** One revocation takes a step of its own, dropping entries at most. */
  lemma OwnKeeps(s: State, t: State, r: nat, v: Revocation, runs: Grants)
    requires Inv(s) && t.runs == runs && t.locals == s.locals && t.serial == s.serial && t.revs == s.revs[r := v]
    requires runs.Keys <= s.runs.Keys && forall k :: k in runs ==> runs[k] == s.runs[k]
    requires RevInv(v, runs, s.locals, s.serial)
    ensures Inv(t)
  {
    forall x | x in t.revs ensures RevInv(t.revs[x], t.runs, t.locals, t.serial) {
      if x != r {
        assert RevInv(s.revs[x], s.runs, s.locals, s.serial);
        SharedChanged(s.runs, runs, s.revs[x]);
      }
    }
  }

  lemma BeginKeeps(s: State, e: Event)
    requires Inv(s) && Enabled(s, e) && e.Begin?
    ensures Inv(Apply(s, e))
  {
    var t := Apply(s, e);
    var v := t.revs[e.r];
    EvictedIsFree(s.locals[e.node], v);
    assert RevInv(v, t.runs, t.locals, t.serial);
    forall x | x in t.revs && x != e.r ensures RevInv(t.revs[x], t.runs, t.locals, t.serial) {
      OthersKeep(s, s.runs, e.node, t.locals[e.node], s.serial, x);
    }
  }

  lemma YieldedInv(v: Revocation, runs: Grants, locals: map<nat, Grants>, serial: nat, key: string)
    requires RevInv(v, runs, locals, serial) && v.phase.Scanning?
    ensures RevInv(Yielded(v, runs, key), runs, locals, serial)
  {
    SameAgent(locals, v, Yielded(v, runs, key));
  }

  lemma YieldKeeps(s: State, e: Event)
    requires Inv(s) && Enabled(s, e) && e.Yield?
    ensures Inv(Apply(s, e))
  {
    assert RevInv(s.revs[e.r], s.runs, s.locals, s.serial);
    YieldedInv(s.revs[e.r], s.runs, s.locals, s.serial, e.key);
    OwnKeeps(s, Apply(s, e), e.r, Yielded(s.revs[e.r], s.runs, e.key), s.runs);
  }

  lemma DeleteKeeps(s: State, e: Event)
    requires Inv(s) && Enabled(s, e) && (e.Delete? || e.EndScan?)
    ensures Inv(Apply(s, e))
  {
    var t := Apply(s, e);
    assert RevInv(s.revs[e.r], s.runs, s.locals, s.serial);
    SameAgent(s.locals, s.revs[e.r], t.revs[e.r]);
    OwnKeeps(s, t, e.r, t.revs[e.r], t.runs);
  }

  /** `LocalInv` reads the agent, the start and the cleared nodes only. */
  lemma SameAgent(locals: map<nat, Grants>, v: Revocation, w: Revocation)
    requires LocalInv(locals, v) && w.agent == v.agent && w.began == v.began && w.cleared == v.cleared
    ensures LocalInv(locals, w)
  {
    forall n | n in locals && n in w.cleared ensures Free(locals[n], w) {
      assert Free(locals[n], v);
    }
  }

  lemma LaterKeeps(s: State, e: Event)
    requires Inv(s) && Enabled(s, e)
    requires e.DropToken? || e.ReadDelegated? || e.DropDelegated? || e.Publish? || e.RedisFails?
    ensures Inv(Apply(s, e))
  {
    var t := Apply(s, e);
    assert RevInv(s.revs[e.r], s.runs, s.locals, s.serial);
    SameAgent(s.locals, s.revs[e.r], t.revs[e.r]);
    OwnKeeps(s, t, e.r, t.revs[e.r], t.runs);
  }

  lemma AskKeeps(s: State, e: Event)
    requires Inv(s) && Enabled(s, e) && (e.Ask? || e.Finish?)
    ensures Inv(Apply(s, e))
  {
    var t := Apply(s, e);
    assert RevInv(s.revs[e.r], s.runs, s.locals, s.serial);
    SameAgent(s.locals, s.revs[e.r], t.revs[e.r]);
    OwnKeeps(s, t, e.r, t.revs[e.r], t.runs);
  }

  lemma HandleKeeps(s: State, e: Event)
    requires Inv(s) && Enabled(s, e) && e.Handle?
    ensures Inv(Apply(s, e))
  {
    var t := Apply(s, e);
    var r := s.inbox[e.node][0];
    CachesKeep(s, s.runs, e.node, t.locals[e.node], s.serial);
    var u := s.(locals := t.locals);
    assert RevInv(u.revs[r], u.runs, u.locals, u.serial);
    EvictedIsFree(s.locals[e.node], t.revs[r]);
    forall n | n in t.locals && n in t.revs[r].cleared ensures Free(t.locals[n], t.revs[r]) {
      if n != e.node {
        assert Free(u.locals[n], u.revs[r]);
      }
    }
    OwnKeeps(u, t, r, t.revs[r], t.runs);
  }

  lemma RestartKeeps(s: State, e: Event)
    requires Inv(s) && Enabled(s, e) && e.Restart?
    ensures Inv(Apply(s, e))
  {
    var t := Apply(s, e);
    CachesKeep(s, s.runs, e.node, map[], s.serial);
    forall x | x in t.revs ensures RevInv(t.revs[x], t.runs, t.locals, t.serial) {
      var v := s.revs[x];
      assert RevInv(v, s.runs, t.locals, s.serial);
      forall n | n in t.locals && n in t.revs[x].cleared ensures Free(t.locals[n], t.revs[x]) {
        if n != e.node {
          assert Free(t.locals[n], v);
        }
      }
    }
  }

  lemma CacheKeeps(s: State, e: Event)
    requires Inv(s) && Enabled(s, e)
    requires e.StoreLocal? || e.LocalDrops? || e.StoreShared? || e.SharedLoses?
    ensures Inv(Apply(s, e))
  {
    var t := Apply(s, e);
    if e.StoreLocal? || e.LocalDrops? {
      CachesKeep(s, s.runs, e.node, t.locals[e.node], t.serial);
    } else {
      forall x | x in t.revs ensures RevInv(t.revs[x], t.runs, t.locals, t.serial) {
        assert RevInv(s.revs[x], s.runs, s.locals, s.serial);
        SharedChanged(s.runs, t.runs, s.revs[x]);
      }
    }
  }

  lemma StepKeeps(s: State, e: Event)
    requires Inv(s) && Enabled(s, e)
    ensures Inv(Apply(s, e))
  {
    if e.Begin? {
      BeginKeeps(s, e);
    } else if e.Yield? {
      YieldKeeps(s, e);
    } else if e.Delete? || e.EndScan? {
      DeleteKeeps(s, e);
    } else if e.DropToken? || e.ReadDelegated? || e.DropDelegated? || e.Publish? || e.RedisFails? {
      LaterKeeps(s, e);
    } else if e.Ask? || e.Finish? {
      AskKeeps(s, e);
    } else if e.Handle? {
      HandleKeeps(s, e);
    } else if e.Restart? {
      RestartKeeps(s, e);
    } else if e.StoreLocal? || e.LocalDrops? || e.StoreShared? || e.SharedLoses? {
      CacheKeeps(s, e);
    }
  }

  lemma {:induction false} RunKeeps(states: seq<State>, i: nat)
    requires Run(states) && i < |states|
    ensures Inv(states[i])
  {
    if i > 0 {
      RunKeeps(states, i - 1);
      assert Next(states[i - 1], states[i - 1 + 1]);
      var e :| Enabled(states[i - 1], e) && states[i] == Apply(states[i - 1], e);
      StepKeeps(states[i - 1], e);
    }
  }

  // ----- what follows, for every run -----

  /** The revocation started between two states. */
  ghost predicate Starts(s: State, t: State, r: nat) {
    r !in s.revs && r in t.revs
  }

  /** A revocation keeps who it is for, when it began and, once set, that it was broadcast; its tokens only grow. */
  ghost predicate Continues(v: Revocation, w: Revocation) {
    w.tenant == v.tenant && w.agent == v.agent && w.began == v.began && v.tokens <= w.tokens
  }

  /** The steps of revocation `r` itself. */
  predicate OwnStep(e: Event) {
    e.Yield? || e.Delete? || e.EndScan? || e.DropToken? || e.ReadDelegated? || e.DropDelegated? || e.Publish? || e.RedisFails?
    || e.Ask? || e.Finish?
  }

  ghost predicate AllContinue(revs: map<nat, Revocation>, after: map<nat, Revocation>) {
    revs.Keys <= after.Keys && forall r :: r in revs ==> Continues(revs[r], after[r])
  }

  lemma OneContinues(revs: map<nat, Revocation>, r: nat, w: Revocation)
    requires r in revs ==> Continues(revs[r], w)
    ensures AllContinue(revs, revs[r := w])
  {}

  lemma OwnContinues(s: State, e: Event)
    requires Enabled(s, e) && OwnStep(e)
    ensures e.r in s.revs && AllContinue(s.revs, Apply(s, e).revs) && Apply(s, e).revs.Keys == s.revs.Keys
  {
    var t := Apply(s, e);
    OneContinues(s.revs, e.r, t.revs[e.r]);
  }

  lemma OtherContinues(s: State, e: Event)
    requires Enabled(s, e) && !OwnStep(e)
    ensures AllContinue(s.revs, Apply(s, e).revs)
    ensures e.Begin? || Apply(s, e).revs.Keys == s.revs.Keys
  {
    var t := Apply(s, e);
    if e.Begin? {
      OneContinues(s.revs, e.r, t.revs[e.r]);
    } else if e.Handle? {
      OneContinues(s.revs, s.inbox[e.node][0], t.revs[s.inbox[e.node][0]]);
    }
  }

  lemma NextContinues(s: State, t: State)
    requires Next(s, t)
    ensures AllContinue(s.revs, t.revs)
    ensures forall r :: Starts(s, t, r) ==> t.revs[r].began == s.serial
  {
    var e :| Enabled(s, e) && t == Apply(s, e);
    if OwnStep(e) {
      OwnContinues(s, e);
    } else {
      OtherContinues(s, e);
      if e.Begin? {
        assert t.revs[e.r].began == s.serial && t.revs.Keys == s.revs.Keys + {e.r};
      }
    }
  }

  lemma {:induction false} ChainContinues(chain: seq<map<nat, Revocation>>, i: nat, j: nat, r: nat)
    requires i <= j < |chain| && r in chain[i] && forall k :: 0 <= k < |chain| - 1 ==> AllContinue(chain[k], chain[k + 1])
    ensures r in chain[j] && Continues(chain[i][r], chain[j][r])
  {
    if i < j {
      ChainContinues(chain, i, j - 1, r);
      assert AllContinue(chain[j - 1], chain[j - 1 + 1]);
      ContinuesOn(chain[i][r], chain[j - 1][r], chain[j][r]);
    }
  }

  lemma RunContinues(states: seq<State>, i: nat, j: nat, r: nat)
    requires Run(states) && i <= j < |states| && r in states[i].revs
    ensures r in states[j].revs && Continues(states[i].revs[r], states[j].revs[r])
  {
    var chain := seq(|states|, k requires 0 <= k < |states| => states[k].revs);
    forall k | 0 <= k < |chain| - 1 ensures AllContinue(chain[k], chain[k + 1]) {
      NextContinues(states[k], states[k + 1]);
    }
    ChainContinues(chain, i, j, r);
  }

  lemma ContinuesOn(u: Revocation, v: Revocation, w: Revocation)
    requires Continues(u, v) && Continues(v, w)
    ensures Continues(u, w)
  {}

  /** The revocation has reached Redis to the end, and every node has dropped the agent's grants since it began:
      by starting it, by handling its broadcast, or by starting afresh. */
  ghost predicate Complete(s: State, r: nat) {
    r in s.revs && s.revs[r].published && forall n :: n in s.locals ==> n in s.revs[r].cleared
  }

  /** Revocation across nodes: whatever else runs in between, stores, lookups, expiry, lost messages, other
      revocations, once a revocation is complete no run grant of the tenant and agent that was cached when it
      started is left, in Redis or, if the ids hold no colon, on any node. */
  lemma NothingRemains(states: seq<State>, b: nat, i: nat, r: nat, key: string)
    requires Run(states) && b + 1 <= i < |states| && Starts(states[b], states[b + 1], r) && Complete(states[i], r)
    requires RunPrefix(states[i].revs[r].tenant, states[i].revs[r].agent) <= key
    ensures key in states[b].runs ==> !(key in states[i].runs && states[i].runs[key] == states[b].runs[key])
    ensures ':' !in states[i].revs[r].tenant && ':' !in states[i].revs[r].agent ==>
              forall n, m :: n in states[b].locals && m in states[i].locals && key in states[b].locals[n] && key in states[i].locals[m] ==>
                states[i].locals[m][key] != states[b].locals[n][key]
  {
    RunKeeps(states, b);
    RunKeeps(states, i);
    assert Next(states[b], states[b + 1]);
    NextContinues(states[b], states[b + 1]);
    RunContinues(states, b + 1, i, r);
    var s, v := states[i], states[i].revs[r];
    assert RevInv(v, s.runs, s.locals, s.serial);
    if ':' !in v.tenant && ':' !in v.agent {
      OwnKey(v.tenant, v.agent, key);
      forall n, m | n in states[b].locals && m in s.locals && key in states[b].locals[n] && key in s.locals[m]
        ensures s.locals[m][key] != states[b].locals[n][key]
      {
        assert OlderThan(states[b].locals[n], states[b].serial) && Free(s.locals[m], v);
      }
    }
  }

  lemma OwnKey(tenant: string, agent: string, key: string)
    requires ':' !in tenant && ':' !in agent && RunPrefix(tenant, agent) <= key
    ensures OfAgent(key, agent)
  {
    var digest := key[|RunPrefix(tenant, agent)|..];
    assert key == RunPrefix(tenant, agent) + digest;
    RecognisedExactly(tenant, agent, digest);
  }

  /** No step stores a grant under the prefix. */
  ghost predicate NoStore(s: State, t: State, prefix: string) {
    && (forall k :: k in t.runs && prefix <= k ==> k in s.runs && t.runs[k] == s.runs[k])
    && (forall n, k :: n in t.locals && k in t.locals[n] && prefix <= k ==> n in s.locals && k in s.locals[n] && t.locals[n][k] == s.locals[n][k])
  }

  lemma {:induction false} NoNewer(states: seq<State>, b: nat, i: nat, prefix: string)
    requires Run(states) && b <= i < |states| && forall j :: b <= j < i ==> NoStore(states[j], states[j + 1], prefix)
    ensures NoStore(states[b], states[i], prefix)
  {
    if b < i {
      NoNewer(states, b, i - 1, prefix);
      assert NoStore(states[i - 1], states[i - 1 + 1], prefix);
    }
  }

  /** So if none is stored meanwhile, none is left at all. */
  lemma NothingAtAll(states: seq<State>, b: nat, i: nat, r: nat, key: string)
    requires Run(states) && b + 1 <= i < |states| && Starts(states[b], states[b + 1], r) && Complete(states[i], r)
    requires ':' !in states[i].revs[r].tenant && ':' !in states[i].revs[r].agent
    requires var prefix := RunPrefix(states[i].revs[r].tenant, states[i].revs[r].agent);
             prefix <= key && forall j :: b <= j < i ==> NoStore(states[j], states[j + 1], prefix)
    ensures key !in states[i].runs && forall n :: n in states[i].locals ==> key !in states[i].locals[n]
  {
    NothingRemains(states, b, i, r, key);
    NoNewer(states, b, i, RunPrefix(states[i].revs[r].tenant, states[i].revs[r].agent));
  }

  /** Each token a revocation has noted goes to the revoker exactly once, and every call is counted; a token is
      noted for each grant evicted on the node that starts it and for each grant read in the scan. */
  lemma EachTokenAskedOnce(states: seq<State>, j: nat, i: nat, r: nat, token: string)
    requires Run(states) && j <= i < |states| && r in states[j].revs && token in states[j].revs[r].tokens
    requires r in states[i].revs && states[i].revs[r].phase.Done?
    ensures var v := states[i].revs[r];
            && v.asked == v.tokens && Distinct(v.asked) && token in v.asked
            && |v.asked| == v.revoked + v.failed
  {
    RunContinues(states, j, i, r);
    RunKeeps(states, i);
    assert RevInv(states[i].revs[r], states[i].runs, states[i].locals, states[i].serial);
  }

  lemma StepNotes(s: State, e: Event)
    requires Enabled(s, e)
    ensures e.Begin? ==> forall k :: k in s.locals[e.node] && OfAgent(k, e.agent) && s.locals[e.node][k].token != "" ==>
                           s.locals[e.node][k].token in Apply(s, e).revs[e.r].tokens
    ensures e.Yield? && e.key in s.runs && s.runs[e.key].token != "" ==> s.runs[e.key].token in Apply(s, e).revs[e.r].tokens
    ensures e.ReadDelegated? && s.revs[e.r].agent in s.delegated && s.delegated[s.revs[e.r].agent] != "" ==>
              s.delegated[s.revs[e.r].agent] in Apply(s, e).revs[e.r].tokens
  {
    if e.Begin? {
      forall k | k in s.locals[e.node] && OfAgent(k, e.agent) && s.locals[e.node][k].token != ""
        ensures s.locals[e.node][k].token in Apply(s, e).revs[e.r].tokens
      {
        assert s.locals[e.node][k].token in LocalTokens(s.locals[e.node], e.agent);
      }
    }
  }

  // ----- the single call as a path of steps -----

  ghost predicate Path(path: seq<State>) {
    |path| > 0 && forall i :: 0 <= i < |path| - 1 ==> Next(path[i], path[i + 1])
  }

  function Last(path: seq<State>): State
    requires |path| > 0
  {
    path[|path| - 1]
  }

  lemma Extended(path: seq<State>, e: Event) returns (longer: seq<State>)
    requires Path(path) && Enabled(Last(path), e)
    ensures Path(longer) && longer[0] == path[0] && Last(longer) == Apply(Last(path), e)
  {
    longer := path + [Apply(Last(path), e)];
    forall i | 0 <= i < |longer| - 1 ensures Next(longer[i], longer[i + 1]) {
      if i < |path| - 1 {
        assert Next(path[i], path[i + 1]);
      }
    }
  }

  lemma ScanOne(path: seq<State>, r: nat, key: string) returns (longer: seq<State>)
    requires Path(path) && In(Last(path), r, Scanning) && RunPrefix(Last(path).revs[r].tenant, Last(path).revs[r].agent) <= key
    ensures Path(longer) && longer[0] == path[0] && In(Last(longer), r, Scanning)
    ensures var s, t := Last(path), Last(longer);
            && t == s.(runs := s.runs - {key}, revs := s.revs[r := t.revs[r]])
            && t.revs[r] == s.revs[r].(due := t.revs[r].due, tokens := t.revs[r].tokens) && t.revs[r].due <= s.revs[r].due
  {
    longer := Extended(path, Yield(r, key));
    longer := Extended(longer, Delete(r));
  }

  /** The scan of `revoke_agent_grants` over the given keys, with nothing in between. */
  lemma {:induction false} ScanAll(path: seq<State>, r: nat, keys: seq<string>) returns (longer: seq<State>)
    requires Path(path) && In(Last(path), r, Scanning)
    requires forall i :: 0 <= i < |keys| ==> RunPrefix(Last(path).revs[r].tenant, Last(path).revs[r].agent) <= keys[i]
    ensures Path(longer) && longer[0] == path[0] && In(Last(longer), r, Scanning)
    ensures var s, t := Last(path), Last(longer);
            && t == s.(runs := t.runs, revs := s.revs[r := t.revs[r]]) && t.runs == s.runs - (set k | k in keys)
            && t.revs[r] == s.revs[r].(due := t.revs[r].due, tokens := t.revs[r].tokens) && t.revs[r].due <= s.revs[r].due
    decreases |keys|
  {
    if keys == [] {
      longer := path;
    } else {
      longer := ScanOne(path, r, keys[0]);
      longer := ScanAll(longer, r, keys[1..]);
      assert keys == [keys[0]] + keys[1..];
      assert (set k | k in keys) == {keys[0]} + (set k | k in keys[1..]);
    }
  }

  /** Undisturbed, a revocation that reaches Redis does what `Node.RevokeAgentGrants` and `SharedRedis.Forget`
      promise: the node's cache evicted, the shared cache forgotten, the broadcast with every node. */
  lemma UndisturbedRevocation(s: State, r: nat, node: nat, tenant: string, agent: string, found: seq<string>, keys: seq<string>)
    returns (path: seq<State>)
    requires Enabled(s, Begin(r, node, tenant, agent, true, found))
    requires forall k :: k in keys <==> k in s.runs && RunPrefix(tenant, agent) <= k
    ensures Path(path) && path[0] == s
    ensures var t := Last(path);
            && t.runs == Forgotten(s.runs, RunPrefix(tenant, agent)) && t.locals == s.locals[node := Evicted(s.locals[node], agent)]
            && t.delegated == s.delegated - {agent} && t.agentTokens == s.agentTokens - {agent}
            && (forall n :: n in s.locals ==> n in t.inbox && t.inbox[n] == (if n in s.inbox then s.inbox[n] else []) + [r])
            && In(t, r, Asking) && t.revs[r].published
  {
    path := [s];
    path := Extended(path, Begin(r, node, tenant, agent, true, found));
    assert forall i :: 0 <= i < |keys| ==> keys[i] in keys;
    path := ScanAll(path, r, keys);
    assert Last(path).runs == Forgotten(s.runs, RunPrefix(tenant, agent));
    forall d | d in Last(path).revs[r].due ensures d.0 !in Last(path).runs {
      assert d in Matching(s.runs, RunPrefix(tenant, agent));
    }
    path := Extended(path, EndScan(r));
    path := Broadcast(path, r);
  }

  lemma Broadcast(path: seq<State>, r: nat) returns (longer: seq<State>)
    requires Path(path) && In(Last(path), r, Scanned)
    ensures Path(longer) && longer[0] == path[0] && In(Last(longer), r, Asking) && Last(longer).revs[r].published
    ensures var s, t, agent := Last(path), Last(longer), Last(path).revs[r].agent;
            && t.runs == s.runs && t.locals == s.locals && t.delegated == s.delegated - {agent} && t.agentTokens == s.agentTokens - {agent}
            && (forall n :: n in s.locals ==> n in t.inbox && t.inbox[n] == (if n in s.inbox then s.inbox[n] else []) + [r])
  {
    longer := Extended(path, DropToken(r));
    longer := Extended(longer, ReadDelegated(r));
    longer := Extended(longer, DropDelegated(r));
    longer := Extended(longer, Publish(r, Last(path).locals.Keys));
  }

  // ----- what a revocation leaves alone -----

  /** The key a scan is about to delete is one of its own. */
  ghost predicate GotOwn(revs: map<nat, Revocation>) {
    forall r :: r in revs && revs[r].phase.Got? ==> RunPrefix(revs[r].tenant, revs[r].agent) <= revs[r].phase.key
  }

  lemma GotOwnStep(s: State, e: Event)
    requires GotOwn(s.revs) && Enabled(s, e)
    ensures GotOwn(Apply(s, e).revs)
  {}

  lemma {:induction false} RunGotOwn(states: seq<State>, i: nat)
    requires Run(states) && i < |states|
    ensures GotOwn(states[i].revs)
  {
    if i > 0 {
      RunGotOwn(states, i - 1);
      assert Next(states[i - 1], states[i - 1 + 1]);
      var e :| Enabled(states[i - 1], e) && states[i] == Apply(states[i - 1], e);
      GotOwnStep(states[i - 1], e);
    }
  }

  /** Over any interleaving a shared grant goes only by expiry or by a revocation of its own agent and tenant (ids
      without colons), and a node's only by trimming, a restart or a revocation of its own agent. */
  lemma OnlyOwnDropped(states: seq<State>, i: nat, e: Event, owner: string, other: string, digest: string, node: nat)
    requires Run(states) && i < |states| && Enabled(states[i], e) && ':' !in owner && ':' !in other
    requires forall r :: r in states[i].revs ==> ':' !in states[i].revs[r].tenant && ':' !in states[i].revs[r].agent
    requires e.Begin? ==> ':' !in e.agent
    ensures var s, t, key := states[i], Apply(states[i], e), RunKey(owner, other, digest);
            && (key in s.runs && key !in t.runs && !e.SharedLoses? ==>
                  e.Delete? && s.revs[e.r].tenant == owner && s.revs[e.r].agent == other)
            && (node in s.locals && node in t.locals && key in s.locals[node] && key !in t.locals[node] && !e.LocalDrops? && !e.Restart? ==>
                  (e.Begin? && e.agent == other) || (e.Handle? && s.revs[s.inbox[e.node][0]].agent == other))
  {
    RunGotOwn(states, i);
    var s, key := states[i], RunKey(owner, other, digest);
    if e.Delete? && key == s.revs[e.r].phase.key {
      PrefixIsOwn(s.revs[e.r].tenant, s.revs[e.r].agent, owner, other, digest);
    }
    if (e.Begin? || e.Handle?) && node == e.node && key in s.locals[node] {
      OthersKept(s.locals[node], "", if e.Begin? then e.agent else s.revs[s.inbox[node][0]].agent, owner, other, digest);
    }
  }
}
