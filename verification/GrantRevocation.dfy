/** auth/token_pool.py: evicting and revoking every cached grant of an agent, across nodes. */
module GrantRevocation {
  import opened Prelude

  const GRANT := "grant"
  const RUN := "run"

  /** `kind:sub:tenant:agent:`, the shape of every key this pool writes. */
  function Prefix(kind: string, sub: string, tenant: string, agent: string): string {
    kind + [':'] + (sub + [':'] + (tenant + [':'] + (agent + [':'])))
  }

  function RunPrefix(tenant: string, agent: string): string {
    Prefix(GRANT, RUN, tenant, agent)
  }

  /** `_run_grant_cache_key`; `digest` is the 24 hex digits of the scope hash. */
  function RunKey(tenant: string, agent: string, digest: string): string {
    RunPrefix(tenant, agent) + digest
  }

  /** The fourth field of a key, the one a node takes for the agent's id. */
  function FourthField(key: string): Option<string> {
    var parts := Split(key, ':');
    if |parts| > 3 then Some(parts[3]) else None
  }

  /** `k.startswith("grant:run:") and k.split(":")[3:4] == [agent_id]`. */
  predicate OfAgent(key: string, agent: string) {
    GRANT + [':'] + RUN + [':'] <= key && FourthField(key) == Some(agent)
  }

  lemma PrefixNests(kind: string, sub: string, tenant: string, agent: string, digest: string)
    ensures Prefix(kind, sub, tenant, agent) + digest == kind + [':'] + (sub + [':'] + (tenant + [':'] + (agent + [':'] + digest)))
  {
    var a := agent + [':'];
    assert tenant + [':'] + (a + digest) == (tenant + [':'] + a) + digest;
    var t := tenant + [':'] + a;
    assert sub + [':'] + (t + digest) == (sub + [':'] + t) + digest;
    var u := sub + [':'] + t;
    assert kind + [':'] + (u + digest) == (kind + [':'] + u) + digest;
  }

  lemma KeyParts(kind: string, sub: string, tenant: string, agent: string, digest: string)
    ensures Split(Prefix(kind, sub, tenant, agent) + digest, ':')
            == Split(kind, ':') + (Split(sub, ':') + (Split(tenant, ':') + (Split(agent, ':') + Split(digest, ':'))))
  {
    var r3 := agent + [':'] + digest;
    var r2 := tenant + [':'] + r3;
    var r1 := sub + [':'] + r2;
    SplitConcat(agent, digest, ':');
    SplitConcat(tenant, r3, ':');
    SplitConcat(sub, r2, ':');
    SplitConcat(kind, r1, ':');
    PrefixNests(kind, sub, tenant, agent, digest);
  }

  /** When a key built for an agent is recognised as that agent's: if neither id holds a colon, or if
      a colon in the tenant id happens to put the agent's id in the fourth field. */
  lemma FourthFieldExactly(kind: string, sub: string, tenant: string, agent: string, digest: string)
    requires ':' !in kind && ':' !in sub
    ensures FourthField(Prefix(kind, sub, tenant, agent) + digest) ==
            Some(if |Split(tenant, ':')| > 1 then Split(tenant, ':')[1] else Split(agent, ':')[0])
  {
    KeyParts(kind, sub, tenant, agent, digest);
    SplitWhole(kind, ':');
    SplitWhole(sub, ':');
    var t, a, d := Split(tenant, ':'), Split(agent, ':'), Split(digest, ':');
    var rest := t + (a + d);
    assert ([kind] + ([sub] + rest))[3] == rest[1];
  }

  lemma RecognisedExactly(tenant: string, agent: string, digest: string)
    ensures OfAgent(RunKey(tenant, agent, digest), agent) <==>
            if ':' in tenant then |Split(tenant, ':')| > 1 && Split(tenant, ':')[1] == agent else ':' !in agent
  {
    FourthFieldExactly(GRANT, RUN, tenant, agent, digest);
    SplitWhole(tenant, ':');
    SplitWhole(agent, ':');
    PrefixStarts(GRANT, RUN, tenant, agent, digest);
  }

  lemma PrefixStarts(kind: string, sub: string, tenant: string, agent: string, digest: string)
    ensures kind + [':'] + sub + [':'] <= Prefix(kind, sub, tenant, agent) + digest
  {
    assert Prefix(kind, sub, tenant, agent) + digest
        == kind + [':'] + sub + [':'] + (tenant + [':'] + (agent + [':']) + digest);
  }

  /** A cached grant: its token ("" for a payload without one, or one that is not JSON) and which store wrote it. */
  datatype Grant = Grant(token: string, serial: nat)

  type Grants = map<string, Grant>

  /** What `_evict_local_agent_grants` leaves of a node's cache. */
  function Evicted(local: Grants, agent: string): Grants {
    map k | k in local && !OfAgent(k, agent) :: local[k]
  }

  /** What an undisturbed scan leaves of the shared cache. */
  function Forgotten(runs: Grants, prefix: string): Grants {
    map k | k in runs && !(prefix <= k) :: runs[k]
  }

  function Tokens(found: Grants, keys: set<string>): set<string> {
    set k | k in keys && k in found && found[k].token != "" :: found[k].token
  }

  function LocalTokens(local: Grants, agent: string): set<string> {
    Tokens(local, set k | k in local && OfAgent(k, agent))
  }

  function SharedTokens(runs: Grants, prefix: string): set<string> {
    Tokens(runs, set k | k in runs && prefix <= k)
  }

  /** The cache all nodes share: run grants, delegated grants, agents' own tokens, and the revocation channel. */
  class SharedRedis {
    var runs: Grants
    var delegated: Grants
    var agentTokens: Grants
    var broadcasts: seq<string>

    constructor (runs: Grants, delegated: Grants, agentTokens: Grants)
      ensures this.runs == runs && this.delegated == delegated && this.agentTokens == agentTokens && broadcasts == []
    {
      this.runs, this.delegated, this.agentTokens, broadcasts := runs, delegated, agentTokens, [];
    }

    /** The Redis half of `revoke_agent_grants`: scan and delete, then broadcast. */
    method Forget(prefix: string, agent: string, seen: seq<string>) returns (tokens: seq<string>)
      requires Distinct(seen)
      modifies this
      ensures runs == Forgotten(old(runs), prefix)
      ensures delegated == old(delegated) - {agent} && agentTokens == old(agentTokens) - {agent}
      ensures broadcasts == old(broadcasts) + [agent]
      ensures Distinct(tokens)
      ensures forall t :: t in tokens <==> t in seen || t in SharedTokens(old(runs), prefix) || t in Tokens(old(delegated), {agent})
    {
      runs, tokens := PopAll(runs, (set k | k in runs && prefix <= k), seen);
      agentTokens := agentTokens - {agent};
      tokens := Noted(tokens, if agent in delegated then delegated[agent].token else "");
      delegated := delegated - {agent};
      broadcasts := broadcasts + [agent];
    }
  }

  datatype Outcome = Outcome(evicted: nat, revoked: nat, failed: nat)

  function Approved(revoker: string -> bool, tokens: seq<string>): nat {
    if tokens == [] then 0 else (if revoker(tokens[0]) then 1 else 0) + Approved(revoker, tokens[1..])
  }

  lemma {:induction false} ApprovedOneMore(revoker: string -> bool, tokens: seq<string>, token: string)
    ensures Approved(revoker, tokens + [token]) == Approved(revoker, tokens) + if revoker(token) then 1 else 0
  {
    if tokens != [] {
      ApprovedOneMore(revoker, tokens[1..], token);
      assert (tokens + [token])[1..] == tokens[1..] + [token];
    }
  }

  /** `tokens.setdefault(token)`: an ordered set. */
  function Noted(tokens: seq<string>, token: string): (r: seq<string>)
    ensures Distinct(tokens) ==> Distinct(r)
    ensures tokens <= r
    ensures forall t :: t in r <==> t in tokens || (t == token && token != "")
  {
    if token == "" || token in tokens then tokens else tokens + [token]
  }

  /** The loops of `_evict_local_agent_grants` and of the Redis scan: take each key out, noting its token once. */
  method PopAll(found: Grants, keys: set<string>, seen: seq<string>) returns (left: Grants, tokens: seq<string>)
    requires Distinct(seen) && keys <= found.Keys
    ensures left == found - keys
    ensures Distinct(tokens)
    ensures forall t :: t in tokens <==> t in seen || t in Tokens(found, keys)
  {
    left, tokens := found, seen;
    var rest := keys;
    while rest != {}
      invariant rest <= keys
      invariant left == found - (keys - rest)
      invariant Distinct(tokens)
      invariant forall t :: t in tokens <==> t in seen || t in Tokens(found, keys - rest)
      decreases |rest|
    {
      var key :| key in rest;
      tokens := Noted(tokens, left[key].token);
      left := left - {key};
      assert keys - (rest - {key}) == (keys - rest) + {key};
      rest := rest - {key};
    }
    assert keys - rest == keys;
  }

  class Node {
    var local: Grants

    constructor (local: Grants)
      ensures this.local == local
    {
      this.local := local;
    }

    /** `_evict_local_agent_grants`, also what handling a broadcast does to a node's own cache; repeated tokens,
        which the only caller that reads the list drops, are dropped here. */
    method EvictLocalAgentGrants(agent: string) returns (tokens: seq<string>)
      modifies this
      ensures local == Evicted(old(local), agent)
      ensures Distinct(tokens)
      ensures forall t :: t in tokens <==> t in LocalTokens(old(local), agent)
    {
      local, tokens := PopAll(local, (set k | k in local && OfAgent(k, agent)), []);
    }

    /** `revoke_agent_grants`; `reachable` is false when this process holds no Redis client. `asked` is
        what the revoker was given, in order. */
    method RevokeAgentGrants(redis: SharedRedis, reachable: bool, tenant: string, agent: string, revoker: string -> bool)
      returns (outcome: Outcome, asked: seq<string>)
      modifies this, redis
      ensures local == Evicted(old(local), agent)
      ensures reachable ==>
                && redis.runs == Forgotten(old(redis.runs), RunPrefix(tenant, agent))
                && redis.delegated == old(redis.delegated) - {agent}
                && redis.agentTokens == old(redis.agentTokens) - {agent}
                && redis.broadcasts == old(redis.broadcasts) + [agent]
      ensures !reachable ==> unchanged(redis)
      ensures Distinct(asked)
      ensures forall t :: t in asked <==>
                || t in LocalTokens(old(local), agent)
                || (reachable && t in SharedTokens(old(redis.runs), RunPrefix(tenant, agent)))
                || (reachable && t in Tokens(old(redis.delegated), {agent}))
      ensures outcome.evicted == |asked| == outcome.revoked + outcome.failed
      ensures outcome.revoked == Approved(revoker, asked)
    {
      var tokens := EvictLocalAgentGrants(agent);
      if reachable {
        tokens := redis.Forget(RunPrefix(tenant, agent), agent, tokens);
      }
      var revoked, failed;
      revoked, failed, asked := RevokeEach(revoker, tokens);
      outcome := Outcome(|tokens|, revoked, failed);
    }

    /** `_listen_revocations` on a message: the agent's own token and this node's grants go. */
    method HandleRevocation(redis: SharedRedis, agent: string)
      modifies this, redis`agentTokens
      ensures local == Evicted(old(local), agent)
      ensures redis.agentTokens == old(redis.agentTokens) - {agent}
    {
      redis.agentTokens := redis.agentTokens - {agent};
      var _ := EvictLocalAgentGrants(agent);
    }
  }

  /** The closing loop: `asked` is what the revoker was given, call by call; a refusal is counted. */
  method RevokeEach(revoker: string -> bool, tokens: seq<string>) returns (revoked: nat, failed: nat, asked: seq<string>)
    ensures asked == tokens
    ensures revoked == Approved(revoker, asked) && revoked + failed == |asked|
  {
    revoked, failed, asked := 0, 0, [];
    for i := 0 to |tokens|
      invariant asked == tokens[..i]
      invariant revoked + failed == |asked| && revoked == Approved(revoker, asked)
    {
      ApprovedOneMore(revoker, asked, tokens[i]);
      var approved := revoker(tokens[i]);
      asked := asked + [tokens[i]];
      if approved {
        revoked := revoked + 1;
      } else {
        failed := failed + 1;
      }
    }
  }

  /** Which of an agent's grants a node drops: all of them exactly when the ids hold no colon; a colon in
      the tenant id leaves them usable on the node unless it puts the agent's id in the fourth field. */
  lemma DroppedExactly(local: Grants, tenant: string, agent: string, digest: string)
    requires RunKey(tenant, agent, digest) in local
    ensures RunKey(tenant, agent, digest) !in Evicted(local, agent) <==>
            if ':' in tenant then |Split(tenant, ':')| > 1 && Split(tenant, ':')[1] == agent else ':' !in agent
  {
    RecognisedExactly(tenant, agent, digest);
  }

  /** A prefix names one tenant and agent when no id holds a colon. */
  lemma PrefixIsOwn(tenant: string, agent: string, owner: string, other: string, digest: string)
    requires ':' !in tenant && ':' !in agent && ':' !in owner && ':' !in other
    ensures RunPrefix(tenant, agent) <= RunKey(owner, other, digest) <==> tenant == owner && agent == other
  {
    var key := RunKey(owner, other, digest);
    if RunPrefix(tenant, agent) <= key {
      var rest := key[|RunPrefix(tenant, agent)|..];
      assert key == RunKey(tenant, agent, rest);
      RunParts(tenant, agent, rest);
      RunParts(owner, other, digest);
    }
  }

  lemma RunParts(tenant: string, agent: string, digest: string)
    requires ':' !in tenant && ':' !in agent
    ensures var parts := Split(RunKey(tenant, agent, digest), ':'); |parts| >= 4 && parts[2] == tenant && parts[3] == agent
  {
    PrefixParts(GRANT, RUN, tenant, agent, digest);
  }

  lemma PrefixParts(kind: string, sub: string, tenant: string, agent: string, digest: string)
    requires ':' !in kind && ':' !in sub && ':' !in tenant && ':' !in agent
    ensures Split(Prefix(kind, sub, tenant, agent) + digest, ':') == [kind, sub, tenant, agent] + Split(digest, ':')
  {
    KeyParts(kind, sub, tenant, agent, digest);
    SplitWhole(kind, ':');
    SplitWhole(sub, ':');
    SplitWhole(tenant, ':');
    SplitWhole(agent, ':');
    var d := Split(digest, ':');
    assert [kind] + ([sub] + ([tenant] + ([agent] + d))) == [kind, sub, tenant, agent] + d;
  }

  /** Nobody else's grants go: with ids that hold no colon, a node drops an entry exactly when it is the agent's, of
      whichever tenant, and the shared cache exactly when it is the agent's in that tenant. */
  lemma OthersKept(grants: Grants, tenant: string, agent: string, owner: string, other: string, digest: string)
    requires ':' !in tenant && ':' !in agent && ':' !in owner && ':' !in other && RunKey(owner, other, digest) in grants
    ensures var key := RunKey(owner, other, digest);
            && (if other == agent then key !in Evicted(grants, agent)
                else key in Evicted(grants, agent) && Evicted(grants, agent)[key] == grants[key])
            && (if owner == tenant && other == agent then key !in Forgotten(grants, RunPrefix(tenant, agent))
                else key in Forgotten(grants, RunPrefix(tenant, agent)) && Forgotten(grants, RunPrefix(tenant, agent))[key] == grants[key])
  {
    RunParts(owner, other, digest);
    PrefixStarts(GRANT, RUN, owner, other, digest);
    PrefixIsOwn(tenant, agent, owner, other, digest);
  }

  lemma ColonTenantSurvives(digest: string, grant: Grant)
    ensures RunKey("x:y", "a", digest) in Evicted(map[RunKey("x:y", "a", digest) := grant], "a")
  {
    DroppedExactly(map[RunKey("x:y", "a", digest) := grant], "x:y", "a", digest);
    SplitConcat("x", "y", ':');
    SplitWhole("x", ':');
    SplitWhole("y", ':');
    assert "x:y" == "x" + [':'] + "y" && "x:y"[1] == ':';
    assert Split("x:y", ':')[1] == "y" && "y"[0] != "a"[0];
  }
}
