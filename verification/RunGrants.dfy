/** auth/run_grants.py and the dispatch check of auth/grant_enforcement.py: which authority a run
    carries, and when one of its tool calls is dispatched. */
module RunGrants {
  import opened Prelude
  import opened ConnectorRegistry
  import opened GrantModes
  import opened GrantTokens

  // ----- str.strip -----

  predicate IsSpace(c: char) {
    || '\t' <= c <= '\r' || '\U{1c}' <= c <= ' ' || c == '\U{85}' || c == '\U{a0}' || c == '\U{1680}'
    || '\U{2000}' <= c <= '\U{200a}' || c == '\U{2028}' || c == '\U{2029}' || c == '\U{202f}' || c == '\U{205f}' || c == '\U{3000}'
  }

  function Strip(s: string): (r: string)
    ensures r == "" <==> forall i :: 0 <= i < |s| ==> IsSpace(s[i])
    ensures r != "" ==> !IsSpace(r[0]) && !IsSpace(r[|r| - 1])
  {
    if s == "" then ""
    else if IsSpace(s[0]) then Strip(s[1..])
    else if IsSpace(s[|s| - 1]) then Strip(s[..|s| - 1])
    else s
  }

  /** Only spaces are cut off, and only at the two ends. */
  lemma {:induction false} StripCuts(s: string) returns (i: nat, j: nat)
    ensures i <= j <= |s| && Strip(s) == s[i..j]
    ensures forall k :: 0 <= k < i || j <= k < |s| ==> IsSpace(s[k])
  {
    if s == "" {
      i, j := 0, 0;
    } else if IsSpace(s[0]) {
      i, j := StripCuts(s[1..]);
      assert s[1..][i..j] == s[i + 1..j + 1];
      assert forall k :: 0 <= k < |s| - 1 ==> s[1..][k] == s[k + 1];
      i, j := i + 1, j + 1;
      forall k | 0 <= k < i || j <= k < |s| ensures IsSpace(s[k]) {
        assert k > 0 ==> s[k] == s[1..][k - 1];
      }
    } else if IsSpace(s[|s| - 1]) {
      i, j := StripCuts(s[..|s| - 1]);
      assert s[..|s| - 1][i..j] == s[i..j];
      forall k | 0 <= k < i || j <= k < |s| ensures IsSpace(s[k]) {
        assert k < |s| - 1 ==> s[k] == s[..|s| - 1][k];
      }
    } else {
      i, j := 0, |s|;
    }
  }

  // ----- asking Grantex -----

  datatype Verdict = Allow | Refuse | Raise

  /** What one `client.enforce` answers: any function of when it is asked and of the call. */
  type Oracle = (nat, string, string, string, Option<real>) -> Verdict

  /** The ids asked about, in order: a remote MCP connector has no other names. */
  function AskedIds(reg: Registry, connector: string): (ids: seq<string>)
    requires reg.Valid()
    ensures ids != [] && ids[0] == connector
  {
    if "mcp_" <= connector then [connector] else IdsOf(reg, connector)
  }

  ghost predicate AllowedAt(oracle: Oracle, when: nat, token: string, ids: seq<string>, tool: string, amount: Option<real>, k: nat) {
    && k < |ids|
    && oracle(when, token, ids[k], tool, amount).Allow?
    && forall j :: 0 <= j < k ==> oracle(when, token, ids[j], tool, amount).Refuse?
  }

  /** `enforce_connector_grant`: ask under each id until one allows; an exception ends the search. */
  function Enforce(oracle: Oracle, when: nat, token: string, ids: seq<string>, tool: string, amount: Option<real>): (v: Verdict)
    ensures v.Allow? <==> exists k: nat :: AllowedAt(oracle, when, token, ids, tool, amount, k)
  {
    if ids == [] then Refuse
    else
      var first := oracle(when, token, ids[0], tool, amount);
      if !first.Refuse? then
        assert first.Allow? ==> AllowedAt(oracle, when, token, ids, tool, amount, 0);
        first
      else
        var rest := Enforce(oracle, when, token, ids[1..], tool, amount);
        assert rest.Allow? ==> exists k: nat :: AllowedAt(oracle, when, token, ids, tool, amount, k) by {
          if rest.Allow? {
            var k: nat :| AllowedAt(oracle, when, token, ids[1..], tool, amount, k);
            assert AllowedAt(oracle, when, token, ids, tool, amount, k + 1);
          }
        }
        assert (exists k: nat :: AllowedAt(oracle, when, token, ids, tool, amount, k)) ==> rest.Allow? by {
          if k: nat :| AllowedAt(oracle, when, token, ids, tool, amount, k) {
            assert AllowedAt(oracle, when, token, ids[1..], tool, amount, k - 1);
          }
        }
        rest
  }

  datatype Denial = GrantMissing(sub: MissingReason) | EnforcementUnavailable | NotAllowed | ToolScopeMissing

  datatype MissingReason = Unstated | NoAgent | LookupFailed | AmbiguousGrants | CallerUnavailable | PoolRefused(code: string)

  datatype GrantCheck = GrantCheck(dispatch: bool, denial: Option<Denial>)

  /** `check_tool_grant`, for warn and deny. */
  function CheckToolGrant(oracle: Oracle, when: nat, reg: Registry, mode: Mode, token: string, connector: string, tool: string,
                          amount: Option<real>, missing: MissingReason): GrantCheck
    requires reg.Valid() && mode != Off
  {
    if token == "" then GrantCheck(mode == Warn, Some(GrantMissing(missing)))
    else
      match Enforce(oracle, when, token, AskedIds(reg, connector), tool, amount)
      case Allow => GrantCheck(true, None)
      case Refuse => GrantCheck(mode == Warn, Some(NotAllowed))
      case Raise => GrantCheck(mode == Warn, Some(EnforcementUnavailable))
  }

  // ----- tool-qualified scopes -----

  predicate ScopeOf(scope: string, connector: string) {
    var parts := Split(scope, ':');
    |parts| >= 3 && (parts[0] == "tool" || parts[0] == "agenticorg") && parts[1] == connector
  }

  function NamedTool(scope: string): string {
    var parts := Split(scope, ':');
    if |parts| >= 4 then parts[3] else ""
  }

  /** How a registered scope reads: `tool:<connector>:<permission>` is for the whole connector, and a fourth field
      narrows it to that tool. */
  lemma ScopeReads(kind: string, connector: string, permission: string, tool: string, other: string)
    requires ':' !in kind && ':' !in connector && ':' !in permission && ':' !in tool
    ensures var wide := kind + [':'] + (connector + [':'] + permission);
            var narrow := kind + [':'] + (connector + [':'] + (permission + [':'] + tool));
            && (ScopeOf(wide, other) <==> (kind == "tool" || kind == "agenticorg") && connector == other)
            && (ScopeOf(narrow, other) <==> ScopeOf(wide, other))
            && NamedTool(wide) == "" && NamedTool(narrow) == tool
  {
    var wide := connector + [':'] + permission;
    var narrow := connector + [':'] + (permission + [':'] + tool);
    SplitWhole(kind, ':');
    SplitWhole(connector, ':');
    SplitWhole(permission, ':');
    SplitWhole(tool, ':');
    SplitConcat(connector, permission, ':');
    SplitConcat(permission, tool, ':');
    SplitConcat(connector, permission + [':'] + tool, ':');
    SplitConcat(kind, wide, ':');
    SplitConcat(kind, narrow, ':');
  }

  /** The grant's scopes for the connector leave `tool` in: one of them names no tool, none names
      any, or one names this tool. */
  predicate ScopesCover(scopes: seq<string>, connector: string, tool: string) {
    || (exists s :: s in scopes && ScopeOf(s, connector) && NamedTool(s) == "")
    || (forall s :: s in scopes && ScopeOf(s, connector) ==> NamedTool(s) == "")
    || (exists s :: s in scopes && ScopeOf(s, connector) && NamedTool(s) == tool && tool != "")
  }

  /** `tool_scope_denial`, one pass over the scopes. */
  method ToolScopeDenial(scopes: seq<string>, connector: string, tool: string) returns (denied: bool)
    ensures denied <==> !ScopesCover(scopes, connector, tool)
  {
    var named: set<string> := {};
    var connectorLevel := false;
    for i := 0 to |scopes|
      invariant connectorLevel <==> exists j :: 0 <= j < i && ScopeOf(scopes[j], connector) && NamedTool(scopes[j]) == ""
      invariant forall t :: t in named <==> t != "" && exists j :: 0 <= j < i && ScopeOf(scopes[j], connector) && NamedTool(scopes[j]) == t
    {
      var parts := Split(scopes[i], ':');
      if |parts| < 3 || (parts[0] != "tool" && parts[0] != "agenticorg") || parts[1] != connector {
        continue;
      }
      if |parts| >= 4 && parts[3] != "" {
        named := named + {parts[3]};
      } else {
        connectorLevel := true;
      }
    }
    denied := !(connectorLevel || named == {} || tool in named);
    assert named != {} ==> exists s :: s in scopes && ScopeOf(s, connector) && NamedTool(s) != "" by {
      if named != {} {
        var t :| t in named;
        var j :| 0 <= j < |scopes| && ScopeOf(scopes[j], connector) && NamedTool(scopes[j]) == t;
        assert scopes[j] in scopes;
      }
    }
    assert forall s :: s in scopes && ScopeOf(s, connector) && NamedTool(s) != "" ==> NamedTool(s) in named;
  }

  // ----- the grant a run carries -----

  datatype RunGrant = RunGrant(
    mode: Mode,
    token: string,
    source: Source,
    missing: MissingReason,
    expiresAt: Option<real>,
    ttl: int,
    scopes: seq<string>,
    callerToken: string,
    callerAgent: string,
    callerUnavailable: bool
  ) {
    /** A token the caller supplied or the agent had configured stays strictly enforced in warn. */
    function CallMode(): Mode {
      if mode == Warn && token != "" && (source.Supplied? || source.AgentConfig?) then Deny else mode
    }
  }

  /** A caller's Grantex token, or the fact that one is required. */
  datatype CallerGrant = CallerGrant(token: string, agent: string, required: bool)

  /** `caller_grant_for_run`: `marker` is the agent recorded when a caller token started the run. */
  function CallerGrantForRun(active: CallerGrant, marker: Option<string>): CallerGrant {
    if marker.None? then active
    else if active.token != "" && active.agent == marker.value then active
    else CallerGrant("", marker.value, true)
  }

  datatype GrantexConfig = GrantexConfig(legacyToken: string, scopes: seq<string>)

  /** What `token_pool.get_run_grant_token` does: a grant, or any failure. */
  datatype PoolAnswer = Granted(grant: GrantToken) | Refused(code: string)

  /** Everything `resolve_run_grant` depends on; `config` is `None` when the agent lookup fails. */
  datatype RunRequest = RunRequest(
    mode: Mode,
    isolated: bool,
    agent: string,
    supplied: string,
    caller: CallerGrant,
    config: Option<GrantexConfig>,
    pool: PoolAnswer
  ) {
    function EffectiveMode(): Mode { if isolated then Deny else mode }
  }

  function Bare(mode: Mode, token: string, source: Source, missing: MissingReason): RunGrant {
    RunGrant(mode, token, source, missing, None, 0, [], "", "", false)
  }

  function NonEmpty(scopes: seq<string>): seq<string> {
    if scopes == [] then [] else (if scopes[0] != "" then [scopes[0]] else []) + NonEmpty(scopes[1..])
  }

  /** `_resolve_run_agent_grant`. */
  function AgentGrant(mode: Mode, supplied: string, r: RunRequest): RunGrant {
    if supplied != "" then Bare(mode, supplied, Supplied, Unstated)
    else if r.agent == "" then Bare(mode, "", Missing, NoAgent)
    else if r.config.None? then Bare(mode, "", Missing, LookupFailed)
    else if !r.isolated && Strip(r.config.value.legacyToken) != "" then
      Bare(mode, Strip(r.config.value.legacyToken), AgentConfig, Unstated)
    else
      match r.pool
      case Refused(code) => Bare(mode, "", Missing, PoolRefused(code))
      case Granted(g) => RunGrant(mode, g.token, g.source, Unstated, g.expiresAt, g.ttl, NonEmpty(r.config.value.scopes), "", "", false)
  }

  function WithCaller(g: RunGrant, caller: string, agent: string, r: RunRequest): RunGrant {
    if caller != "" then g.(callerToken := caller, callerAgent := agent)
    else if r.caller.required && Strip(r.caller.token) == "" then g.(callerAgent := agent, callerUnavailable := true)
    else g
  }

  /** `resolve_run_grant`. */
  function Resolve(r: RunRequest): RunGrant {
    var supplied, caller := Strip(r.supplied), Strip(r.caller.token);
    if r.isolated then
      if supplied != "" && caller != "" && caller != supplied then Bare(Deny, "", Missing, AmbiguousGrants)
      else if supplied != "" then
        WithCaller(AgentGrant(Deny, "", r), supplied, if r.caller.agent != "" then r.caller.agent else r.agent, r)
      else WithCaller(AgentGrant(Deny, "", r), caller, r.caller.agent, r)
    else if r.mode == Off then
      var legacy := if r.supplied != "" then r.supplied else r.caller.token;
      Bare(Off, legacy, if Strip(legacy) != "" then Supplied else NoSource, Unstated)
    else if caller != "" && supplied == "" && r.caller.agent != "" && r.caller.agent == r.agent then
      WithCaller(AgentGrant(r.mode, caller, r), "", r.caller.agent, r)
    else WithCaller(AgentGrant(r.mode, supplied, r), caller, r.caller.agent, r)
  }

  /** `refresh_run_grant`: a pool grant close to expiry is replaced, everything else is kept. */
  function Refresh(g: RunGrant, now: real, pool: PoolAnswer): RunGrant {
    if g.mode == Off || !(g.source.Minted? || g.source.PoolCache?) then g
    else if g.expiresAt.Some? && g.expiresAt.value - now >= MinRemaining(g.ttl) as real then g
    else if pool.Refused? then g
    else g.(token := pool.grant.token, source := pool.grant.source, expiresAt := pool.grant.expiresAt, ttl := pool.grant.ttl)
  }

  function RefreshAll(g: RunGrant, refreshes: seq<(real, PoolAnswer)>): RunGrant {
    if refreshes == [] then g
    else
      var last := refreshes[|refreshes| - 1];
      Refresh(RefreshAll(g, refreshes[..|refreshes| - 1]), last.0, last.1)
  }

  // ----- the dispatch decision -----

  /** `check_run_grant`: the tool scopes, then the caller's token strictly, then the run's own grant. */
  function CheckRunGrant(oracle: Oracle, reg: Registry, g: RunGrant, connector: string, tool: string, amount: Option<real>): GrantCheck
    requires reg.Valid() && g.mode != Off
  {
    var mode := g.CallMode();
    if !ScopesCover(g.scopes, connector, tool) && mode != Warn then GrantCheck(false, Some(ToolScopeMissing))
    else if g.callerUnavailable && g.callerToken == "" then
      CheckToolGrant(oracle, 0, reg, Deny, "", connector, tool, amount, CallerUnavailable)
    else
      var own := CheckToolGrant(oracle, 1, reg, mode, g.token, connector, tool, amount, g.missing);
      if g.callerToken != "" then
        var caller := CheckToolGrant(oracle, 0, reg, Deny, g.callerToken, connector, tool, amount, Unstated);
        if !caller.dispatch then caller else own
      else own
  }

  /** `direct_tool_call_permitted` (with the amount the graph's own check passes). */
  predicate Dispatches(oracle: Oracle, reg: Registry, g: RunGrant, connector: string, tool: string, amount: Option<real>)
    requires reg.Valid()
  {
    g.mode == Off || CheckRunGrant(oracle, reg, g, connector, tool, amount).dispatch
  }

  /** Grantex itself said yes to this token, under some id of the connector. */
  ghost predicate GrantexAllowed(oracle: Oracle, when: nat, reg: Registry, token: string, connector: string, tool: string, amount: Option<real>)
    requires reg.Valid()
  {
    && token != ""
    && exists k: nat :: AllowedAt(oracle, when, token, AskedIds(reg, connector), tool, amount, k)
  }

  /** Refreshing changes the run's own token and nothing else it is judged by. */
  lemma {:induction false} RefreshKeepsBinding(g: RunGrant, refreshes: seq<(real, PoolAnswer)>)
    ensures var h := RefreshAll(g, refreshes);
            && h.mode == g.mode && h.scopes == g.scopes
            && h.callerToken == g.callerToken && h.callerUnavailable == g.callerUnavailable && h.missing == g.missing
            && (g.source.Supplied? || g.source.AgentConfig? || g.source.Missing? || g.source.NoSource? ==> h == g)
  {
    if refreshes != [] {
      RefreshKeepsBinding(g, refreshes[..|refreshes| - 1]);
    }
  }

  /** The dispatch decision, exactly: a refusal to answer or a missing token is never a yes. */
  lemma DispatchExactly(oracle: Oracle, reg: Registry, g: RunGrant, connector: string, tool: string, amount: Option<real>)
    requires reg.Valid() && g.mode != Off
    ensures Dispatches(oracle, reg, g, connector, tool, amount) <==>
            && (if g.callerToken != "" then GrantexAllowed(oracle, 0, reg, g.callerToken, connector, tool, amount) else !g.callerUnavailable)
            && (g.CallMode() == Warn
                || (ScopesCover(g.scopes, connector, tool) && GrantexAllowed(oracle, 1, reg, g.token, connector, tool, amount)))
  {
  }

  /** One of the ids the connector goes by: a remote MCP connector has its own only, any other those with its live id. */
  predicate SameConnector(reg: Registry, connector: string, id: string) {
    if "mcp_" <= connector then id == connector else reg.LiveId(id) == reg.LiveId(connector)
  }

  ghost predicate AllowedAs(oracle: Oracle, when: nat, reg: Registry, token: string, connector: string, tool: string, amount: Option<real>, id: string) {
    SameConnector(reg, connector, id) && oracle(when, token, id, tool, amount).Allow?
  }

  /** In a settled registry a token is allowed exactly when Grantex allows it under some id the connector goes by. */
  lemma AllowedUnderAnyId(oracle: Oracle, when: nat, reg: Registry, token: string, connector: string, tool: string, amount: Option<real>)
    requires reg.Valid() && Settled(reg) && token != "" && forall id :: !oracle(when, token, id, tool, amount).Raise?
    ensures GrantexAllowed(oracle, when, reg, token, connector, tool, amount) <==>
            exists id :: AllowedAs(oracle, when, reg, token, connector, tool, amount, id)
  {
    var ids := AskedIds(reg, connector);
    if k: nat :| AllowedAt(oracle, when, token, ids, tool, amount, k) {
      LinkedIsSameLive(reg, connector, ids[k]);
      assert AllowedAs(oracle, when, reg, token, connector, tool, amount, ids[k]);
    }
    if id :| AllowedAs(oracle, when, reg, token, connector, tool, amount, id) {
      LinkedIsSameLive(reg, connector, id);
      var k: nat :| k < |ids| && ids[k] == id;
      var first := FirstAllowed(oracle, when, token, ids, tool, amount, k);
    }
  }

  lemma {:induction false} FirstAllowed(oracle: Oracle, when: nat, token: string, ids: seq<string>, tool: string, amount: Option<real>, k: nat)
    returns (first: nat)
    requires k < |ids| && oracle(when, token, ids[k], tool, amount).Allow? && forall id :: !oracle(when, token, id, tool, amount).Raise?
    ensures AllowedAt(oracle, when, token, ids, tool, amount, first)
    decreases k
  {
    if j :| 0 <= j < k && oracle(when, token, ids[j], tool, amount).Allow? {
      first := FirstAllowed(oracle, when, token, ids, tool, amount, j);
    } else {
      first := k;
      forall j | 0 <= j < k ensures oracle(when, token, ids[j], tool, amount).Refuse? {
        assert !oracle(when, token, ids[j], tool, amount).Raise?;
      }
    }
  }

  /** Which calls a run may make while Grantex answers: its caller's token, when it has one, is allowed under an id of
      the connector; and unless it is in warn with a grant that is neither supplied nor configured, its own token is,
      and its scopes cover the tool. */
  lemma DispatchByAnyId(oracle: Oracle, reg: Registry, g: RunGrant, connector: string, tool: string, amount: Option<real>)
    requires reg.Valid() && Settled(reg) && g.mode != Off
    requires forall when, token, id :: !oracle(when, token, id, tool, amount).Raise?
    ensures var lenient := g.mode == Warn && !(g.token != "" && (g.source.Supplied? || g.source.AgentConfig?));
            Dispatches(oracle, reg, g, connector, tool, amount) <==>
            && (if g.callerToken != "" then exists id :: AllowedAs(oracle, 0, reg, g.callerToken, connector, tool, amount, id)
                else !g.callerUnavailable)
            && (lenient || (ScopesCover(g.scopes, connector, tool) && g.token != ""
                            && exists id :: AllowedAs(oracle, 1, reg, g.token, connector, tool, amount, id)))
  {
    DispatchExactly(oracle, reg, g, connector, tool, amount);
    if g.callerToken != "" {
      AllowedUnderAnyId(oracle, 0, reg, g.callerToken, connector, tool, amount);
    }
    if g.token != "" {
      AllowedUnderAnyId(oracle, 1, reg, g.token, connector, tool, amount);
    }
  }

  /** A refused call is refused for a stated reason, and a reason without a refusal is a warning. */
  lemma DenialsAreStated(oracle: Oracle, reg: Registry, g: RunGrant, connector: string, tool: string, amount: Option<real>)
    requires reg.Valid() && g.mode != Off
    ensures var check := CheckRunGrant(oracle, reg, g, connector, tool, amount);
            && (!check.dispatch ==> check.denial.Some?)
            && (check.dispatch && check.denial.Some? ==> g.mode == Warn)
            && (check.denial == Some(ToolScopeMissing) <==> !ScopesCover(g.scopes, connector, tool) && g.CallMode() == Deny)
  {}

  /** What a dispatch says about the grant a run started with, however often it was refreshed since. */
  lemma DispatchedAfterRefresh(oracle: Oracle, reg: Registry, g: RunGrant, refreshes: seq<(real, PoolAnswer)>,
                               connector: string, tool: string, amount: Option<real>)
    requires reg.Valid() && g.mode != Off
    requires Dispatches(oracle, reg, RefreshAll(g, refreshes), connector, tool, amount)
    ensures var h := RefreshAll(g, refreshes);
            && h.mode == g.mode
            && (g.callerToken != "" ==> GrantexAllowed(oracle, 0, reg, g.callerToken, connector, tool, amount))
            && (g.mode == Deny ==> ScopesCover(h.scopes, connector, tool) && GrantexAllowed(oracle, 1, reg, h.token, connector, tool, amount))
            && (g.source.Supplied? && g.token != "" ==> GrantexAllowed(oracle, 1, reg, g.token, connector, tool, amount))
            && (g.source.Missing? ==> h.token == g.token)
  {
    RefreshKeepsBinding(g, refreshes);
    DispatchExactly(oracle, reg, RefreshAll(g, refreshes), connector, tool, amount);
  }

  lemma ModeIsKept(r: RunRequest)
    ensures Resolve(r).mode == r.EffectiveMode()
  {}

  /** Python's `a or b` on strings. */
  function Or(a: string, b: string): string {
    if a != "" then a else b
  }

  function ConfiguredToken(r: RunRequest): string {
    if r.agent != "" && r.config.Some? then Strip(r.config.value.legacyToken) else ""
  }

  function PoolToken(r: RunRequest): string {
    if r.agent != "" && r.config.Some? && r.pool.Granted? then r.pool.grant.token else ""
  }

  /** Whose token a run carries as its own: the one supplied, else its own agent's if that agent is the caller, else
      the configured one, else the pool's; in isolation the pool's only; and in off whichever was presented. */
  lemma OwnTokenOrder(r: RunRequest)
    ensures var presented := if r.caller.agent != "" && r.caller.agent == r.agent then Strip(r.caller.token) else "";
            Resolve(r).token ==
            if r.isolated && Strip(r.supplied) != "" && Strip(r.caller.token) !in {"", Strip(r.supplied)} then ""
            else if r.isolated then PoolToken(r)
            else if r.mode == Off then Or(r.supplied, r.caller.token)
            else Or(Strip(r.supplied), Or(presented, Or(ConfiguredToken(r), PoolToken(r))))
  {}

  lemma {:induction false} NonEmptyKeeps(scopes: seq<string>, s: string)
    ensures s in NonEmpty(scopes) <==> s in scopes && s != ""
  {
    if scopes != [] {
      NonEmptyKeeps(scopes[1..], s);
      assert scopes == [scopes[0]] + scopes[1..];
    }
  }

  lemma PoolGrantParts(r: RunRequest)
    requires Resolve(r).source.Minted? || Resolve(r).source.PoolCache?
    ensures var g := Resolve(r);
            && r.config.Some? && r.pool.Granted? && g.scopes == NonEmpty(r.config.value.scopes)
            && g.expiresAt == r.pool.grant.expiresAt && g.ttl == r.pool.grant.ttl && g.source == r.pool.grant.source
  {}

  /** A run on a pool grant is held to the agent's registered scopes and to that grant's lifetime. */
  lemma PoolGrantIsBound(r: RunRequest, s: string)
    requires Resolve(r).source.Minted? || Resolve(r).source.PoolCache?
    ensures var g := Resolve(r);
            && r.config.Some? && r.pool.Granted? && (s in g.scopes <==> s in r.config.value.scopes && s != "")
            && g.expiresAt == r.pool.grant.expiresAt && g.ttl == r.pool.grant.ttl && g.source == r.pool.grant.source
  {
    PoolGrantParts(r);
    NonEmptyKeeps(r.config.value.scopes, s);
  }

  /** A refresh from a pool that gives a usable grant leaves the run with at least the minimum lifetime, and does not
      touch a grant that has it. */
  lemma RefreshedIsUsable(g: RunGrant, now: real, pool: PoolAnswer)
    requires g.mode != Off && (g.source.Minted? || g.source.PoolCache?) && pool.Granted? && pool.grant.Usable(now)
    ensures var h := Refresh(g, now, pool);
            && h.expiresAt.Some? && h.expiresAt.value - now >= 120.0 && 10.0 * (h.expiresAt.value - now) >= h.ttl as real
            && (h.token == g.token || h.token == pool.grant.token)
            && (g.expiresAt.Some? && g.expiresAt.value - now >= MinRemaining(g.ttl) as real ==> h == g)
  {
    var h := Refresh(g, now, pool);
    assert h.expiresAt.value - now >= MinRemaining(h.ttl) as real;
  }

  /** Where a caller's token goes: it is kept beside the run's own grant, it is the run's own grant when the
      caller is the run's agent, or it clashes with a supplied one and the run gets no grant. */
  lemma CallerTokenIsBound(r: RunRequest)
    requires r.EffectiveMode() != Off && Strip(r.caller.token) != ""
    ensures var g, caller := Resolve(r), Strip(r.caller.token);
            && g.mode == r.EffectiveMode()
            && (|| g.callerToken == caller
                || (g.source.Supplied? && g.token == caller && r.caller.agent == r.agent)
                || (g.mode == Deny && g.token == "" && g.source.Missing?))
  {}

  /** End to end: a run started with a caller's Grantex token dispatches a call only if Grantex allows
      that very token, in warn as in deny, whatever was supplied, configured, minted or refreshed. The token of
      the run's own agent may be asked about as the run's grant; another agent's is asked about first. */
  lemma CallerTokenMustAllow(oracle: Oracle, reg: Registry, r: RunRequest, refreshes: seq<(real, PoolAnswer)>,
                             connector: string, tool: string, amount: Option<real>)
    requires reg.Valid() && r.EffectiveMode() != Off && Strip(r.caller.token) != ""
    requires Dispatches(oracle, reg, RefreshAll(Resolve(r), refreshes), connector, tool, amount)
    ensures GrantexAllowed(oracle, 0, reg, Strip(r.caller.token), connector, tool, amount)
            || (r.caller.agent == r.agent && GrantexAllowed(oracle, 1, reg, Strip(r.caller.token), connector, tool, amount))
  {
    CallerTokenIsBound(r);
    DispatchedAfterRefresh(oracle, reg, Resolve(r), refreshes, connector, tool, amount);
  }

  /** In deny the run's own grant must be allowed too, and its tool-qualified scopes cover the tool;
      a caller of another agent is asked for in addition, never instead. */
  lemma DenyNeedsOwnGrant(oracle: Oracle, reg: Registry, r: RunRequest, refreshes: seq<(real, PoolAnswer)>,
                          connector: string, tool: string, amount: Option<real>)
    requires reg.Valid() && r.EffectiveMode() == Deny
    requires Dispatches(oracle, reg, RefreshAll(Resolve(r), refreshes), connector, tool, amount)
    ensures var h := RefreshAll(Resolve(r), refreshes);
            && h.mode == Deny
            && GrantexAllowed(oracle, 1, reg, h.token, connector, tool, amount)
            && ScopesCover(h.scopes, connector, tool)
            && (Strip(r.caller.token) != "" && r.caller.agent != r.agent ==>
                  GrantexAllowed(oracle, 0, reg, Strip(r.caller.token), connector, tool, amount))
  {
    ModeIsKept(r);
    var g := Resolve(r);
    DispatchedAfterRefresh(oracle, reg, g, refreshes, connector, tool, amount);
    if Strip(r.caller.token) != "" && r.caller.agent != r.agent {
      CallerTokenIsBound(r);
      assert g.callerToken == Strip(r.caller.token);
    }
  }

  /** A run resumed without its required caller token, and without a supplied token to stand in for it. */
  predicate Stranded(r: RunRequest) {
    r.caller.required && Strip(r.caller.token) == "" && !(r.isolated && Strip(r.supplied) != "")
  }

  /** A stranded run dispatches nothing, whatever Grantex would say. */
  lemma StrandedRunDispatchesNothing(oracle: Oracle, reg: Registry, r: RunRequest, refreshes: seq<(real, PoolAnswer)>,
                                     connector: string, tool: string, amount: Option<real>)
    requires reg.Valid() && r.EffectiveMode() != Off && Stranded(r)
    ensures !Dispatches(oracle, reg, RefreshAll(Resolve(r), refreshes), connector, tool, amount)
  {
    RefreshKeepsBinding(Resolve(r), refreshes);
    DispatchExactly(oracle, reg, RefreshAll(Resolve(r), refreshes), connector, tool, amount);
  }

  /** The run's own agent has no grant: no agent, no configuration, or a pool that gives nothing. */
  predicate Grantless(r: RunRequest) {
    r.agent == "" || r.config.None? || r.pool.Refused? || r.pool.grant.token == ""
  }

  /** The run is one the pool can still give a token to, at a refresh. */
  predicate Refreshable(r: RunRequest) {
    r.agent != "" && r.config.Some? && r.pool.Granted? && (r.pool.grant.source.Minted? || r.pool.grant.source.PoolCache?)
  }

  /** No tool call of the run is dispatched, whatever Grantex says and whichever the connector and the tool. */
  ghost predicate DispatchesNothing(g: RunGrant) {
    forall oracle: Oracle, reg: Registry, connector: string, tool: string, amount: Option<real> ::
      reg.Valid() ==> !Dispatches(oracle, reg, g, connector, tool, amount)
  }

  /** A connector whose id holds a colon is named by no scope, so no tool scope stands in its way. */
  lemma ColonConnectorCovered(scopes: seq<string>, tool: string)
    ensures ScopesCover(scopes, ":", tool)
  {
    assert ":"[0] == ':';
    forall s: string ensures !ScopeOf(s, ":") {
      var parts := Split(s, ':');
      assert |parts| >= 3 ==> ':' !in parts[1];
    }
  }

  /** A grant that has its own token and needs no missing caller can dispatch: Grantex has only to agree. */
  lemma RefusedExactly(g: RunGrant)
    requires g.mode == Deny
    ensures DispatchesNothing(g) <==> g.token == "" || (g.callerUnavailable && g.callerToken == "")
  {
    var oracle: Oracle := (w, t, c, o, m) => Allow;
    var reg := Registry({}, map[], []);
    DispatchExactly(oracle, reg, g, ":", "", None);
    ColonConnectorCovered(g.scopes, "");
    if g.callerToken != "" {
      assert AllowedAt(oracle, 0, g.callerToken, AskedIds(reg, ":"), "", None, 0);
    }
    if g.token != "" {
      assert AllowedAt(oracle, 1, g.token, AskedIds(reg, ":"), "", None, 0);
    }
    if g.token == "" || (g.callerUnavailable && g.callerToken == "") {
      forall o: Oracle, reg: Registry, connector: string, tool: string, amount: Option<real> | reg.Valid()
        ensures !Dispatches(o, reg, g, connector, tool, amount)
      {
        DispatchExactly(o, reg, g, connector, tool, amount);
      }
    } else {
      assert Dispatches(oracle, reg, g, ":", "", None);
    }
  }

  /** What an unstranded resumed run carries: the supplied token as its caller's, its own grant in deny. */
  lemma UnstrandedGrant(r: RunRequest)
    requires r.caller.required && Strip(r.caller.token) == "" && !Stranded(r)
    ensures var g := Resolve(r);
            && g.mode == Deny && g.callerToken != "" && (g.token == "" <==> Grantless(r))
            && ((g.source.Minted? || g.source.PoolCache?) <==> Refreshable(r))
  {}

  /** Exactly which resumed runs dispatch nothing, at any point of their refreshes: the stranded ones, and those
      left without a token of their own. */
  lemma ResumedRefusedExactly(r: RunRequest, refreshes: seq<(real, PoolAnswer)>)
    requires r.caller.required && Strip(r.caller.token) == "" && r.EffectiveMode() != Off
    ensures DispatchesNothing(RefreshAll(Resolve(r), refreshes)) <==> Stranded(r) || RefreshAll(Resolve(r), refreshes).token == ""
  {
    var h := RefreshAll(Resolve(r), refreshes);
    if Stranded(r) {
      forall oracle: Oracle, reg: Registry, connector: string, tool: string, amount: Option<real> | reg.Valid()
        ensures !Dispatches(oracle, reg, h, connector, tool, amount)
      {
        StrandedRunDispatchesNothing(oracle, reg, r, refreshes, connector, tool, amount);
      }
    } else {
      UnstrandedGrant(r);
      RefreshKeepsBinding(Resolve(r), refreshes);
      RefusedExactly(h);
    }
  }

  /** And in terms of the request alone: for ever, exactly when it is stranded, or has no grant and none can come. */
  lemma ResumedRefusedForEver(r: RunRequest)
    requires r.caller.required && Strip(r.caller.token) == "" && r.EffectiveMode() != Off
    ensures (forall refreshes: seq<(real, PoolAnswer)> :: DispatchesNothing(RefreshAll(Resolve(r), refreshes))) <==>
            Stranded(r) || (Grantless(r) && !Refreshable(r))
  {
    var g := Resolve(r);
    forall refreshes: seq<(real, PoolAnswer)> | Stranded(r) || (Grantless(r) && !Refreshable(r))
      ensures DispatchesNothing(RefreshAll(g, refreshes))
    {
      ResumedRefusedExactly(r, refreshes);
      if !Stranded(r) {
        UnstrandedGrant(r);
        NeverRefreshed(g, refreshes);
      }
    }
    if !Stranded(r) && !(Grantless(r) && !Refreshable(r)) {
      UnstrandedGrant(r);
      if Grantless(r) {
        var late := if g.expiresAt.Some? then g.expiresAt.value else 0.0;
        var once := [(late, Granted(GrantToken("t", "", None, Minted, 0)))];
        ResumedRefusedExactly(r, once);
        assert once[..0] == [];
        assert RefreshAll(g, once).token == "t";
      } else {
        ResumedRefusedExactly(r, []);
      }
    }
  }

  lemma {:induction false} NeverRefreshed(g: RunGrant, refreshes: seq<(real, PoolAnswer)>)
    requires !g.source.Minted? && !g.source.PoolCache?
    ensures RefreshAll(g, refreshes) == g
  {
    if refreshes != [] {
      NeverRefreshed(g, refreshes[..|refreshes| - 1]);
    }
  }

  /** In isolated mode a supplied token stands in for the missing caller token: such a run is treated
      exactly as one whose caller presented that token. */
  lemma SuppliedStandsInForCaller(r: RunRequest)
    requires r.isolated && r.caller.required && Strip(r.caller.token) == "" && Strip(r.supplied) != ""
    ensures Resolve(r) == Resolve(r.(caller := CallerGrant(r.supplied, r.caller.agent, false)))
    ensures Resolve(r).callerToken == Strip(r.supplied) && !Resolve(r).callerUnavailable
  {
  }

  /** So a run marked as started by a caller and resumed without it can still dispatch: an instance. */
  lemma ResumedRunCanDispatch()
    ensures var reg := Registry({}, map[], []);
            var r := RunRequest(Off, true, "a", "s", CallerGrant("", "b", true), Some(GrantexConfig("", [])),
                                Granted(GrantToken("t", "g", None, Minted, 0)));
            reg.Valid() && Dispatches((w, t, c, o, m) => Allow, reg, Resolve(r), "c", "o", None)
  {
    var reg := Registry({}, map[], []);
    var oracle: Oracle := (w, t, c, o, m) => Allow;
    var r := RunRequest(Off, true, "a", "s", CallerGrant("", "b", true), Some(GrantexConfig("", [])),
                        Granted(GrantToken("t", "g", None, Minted, 0)));
    assert !IsSpace("s"[0]) && Strip("s") == "s";
    var g := Resolve(r);
    assert g == RunGrant(Deny, "t", Minted, Unstated, None, 0, [], "s", "b", false);
    assert AllowedAt(oracle, 0, "s", AskedIds(reg, "c"), "o", None, 0);
    assert AllowedAt(oracle, 1, "t", AskedIds(reg, "c"), "o", None, 0);
    DispatchExactly(oracle, reg, g, "c", "o", None);
  }

  /** A run that recorded a caller and is resumed by anyone else, or by no one, dispatches nothing. */
  lemma ResumeNeedsTheSameCaller(oracle: Oracle, reg: Registry, r: RunRequest, active: CallerGrant, marker: string,
                                 refreshes: seq<(real, PoolAnswer)>, connector: string, tool: string, amount: Option<real>)
    requires reg.Valid() && r.EffectiveMode() != Off && !(r.isolated && Strip(r.supplied) != "")
    requires !(active.token != "" && active.agent == marker)
    requires r.caller == CallerGrantForRun(active, Some(marker))
    ensures !Dispatches(oracle, reg, RefreshAll(Resolve(r), refreshes), connector, tool, amount)
  {
    StrandedRunDispatchesNothing(oracle, reg, r, refreshes, connector, tool, amount);
  }

  /** One resumed by that very caller, or that recorded none, is judged as the caller's own. */
  lemma ResumedBySameCaller(r: RunRequest, active: CallerGrant, marker: Option<string>)
    requires marker.Some? ==> active.token != "" && active.agent == marker.value
    ensures Resolve(r.(caller := CallerGrantForRun(active, marker))) == Resolve(r.(caller := active))
  {}

  /** Warn never weakens a check that applied in off: a supplied or configured token that Grantex does
      not allow is refused in warn as well. */
  lemma WarnKeepsLegacyChecks(oracle: Oracle, reg: Registry, g: RunGrant, connector: string, tool: string, amount: Option<real>)
    requires reg.Valid() && g.mode == Warn && g.token != "" && (g.source.Supplied? || g.source.AgentConfig?)
    requires Dispatches(oracle, reg, g, connector, tool, amount)
    ensures GrantexAllowed(oracle, 1, reg, g.token, connector, tool, amount)
  {
    DispatchExactly(oracle, reg, g, connector, tool, amount);
  }
}
