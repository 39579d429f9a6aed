/** auth/grant_enforcement.py: the effective `grants.enforce_closed` mode, through flag-store outages. */
module GrantModes {
  import opened Prelude

  datatype Mode = Off | Warn | Deny

  function Rank(m: Mode): nat {
    match m
    case Off => 0
    case Warn => 1
    case Deny => 2
  }

  predicate AtLeast(a: Mode, b: Mode) { Rank(a) >= Rank(b) }

  /** `_stricter`: the join of the order off < warn < deny. */
  function Stricter(a: Mode, b: Mode): (m: Mode)
    ensures AtLeast(m, a) && AtLeast(m, b)
    ensures forall other :: AtLeast(other, a) && AtLeast(other, b) ==> AtLeast(other, m)
  {
    if Rank(a) >= Rank(b) then a else b
  }

  // ----- flag rows (core/feature_flags.py) -----

  datatype Row = Row(enabled: bool, rollout: int)

  datatype FlagRows = FlagRows(globalRow: Option<Row>, tenantRow: Option<Row>)

  const FLAG_WARN := "grants.enforce_closed.warn"
  const FLAG_DENY := "grants.enforce_closed.deny"

  /** `row_enabled`; `bucket` is the deterministic 0-99 hash of (flag, subject). */
  function RowEnabled(bucket: (string, string) -> int, flag: string, row: Option<Row>, subject: string): bool {
    && row.Some?
    && row.value.enabled
    && (row.value.rollout >= 100
        || (row.value.rollout > 0 && bucket(flag, if subject == "" then "__anon__" else subject) < row.value.rollout))
  }

  predicate FlagOn(bucket: (string, string) -> int, flag: string, rows: FlagRows, subject: string) {
    RowEnabled(bucket, flag, rows.globalRow, subject) || RowEnabled(bucket, flag, rows.tenantRow, subject)
  }

  /** The mode of a successful lookup: the join of the deployment default and every flag that is on. */
  function Joined(default: Mode, warnOn: bool, denyOn: bool): Mode {
    Stricter(Stricter(default, if warnOn then Warn else Off), if denyOn then Deny else Off)
  }

  /** A tenant row can only raise the mode: it hides neither the default nor a global row. */
  lemma TenantRowOnlyRaises(bucket: (string, string) -> int, default: Mode, warn: FlagRows, deny: FlagRows, subject: string,
                            warnRow: Option<Row>, denyRow: Option<Row>)
    ensures var mode := Joined(default, FlagOn(bucket, FLAG_WARN, warn.(tenantRow := warnRow), subject),
                               FlagOn(bucket, FLAG_DENY, deny.(tenantRow := denyRow), subject));
            && AtLeast(mode, default)
            && AtLeast(mode, Joined(default, FlagOn(bucket, FLAG_WARN, warn.(tenantRow := None), subject),
                                    FlagOn(bucket, FLAG_DENY, deny.(tenantRow := None), subject)))
            && (RowEnabled(bucket, FLAG_DENY, deny.globalRow, subject) ==> mode == Deny)
            && (RowEnabled(bucket, FLAG_WARN, warn.globalRow, subject) ==> AtLeast(mode, Warn))
  {
  }

  // ----- the memory of resolved modes -----

  const LAST_KNOWN_TTL := 3600.0
  const LAST_KNOWN_MAX := 4096

  datatype Remembered = Remembered(mode: Mode, at: real)

  type Memory = map<string, Remembered>

  function Recall(memory: Memory, tenant: string, now: real): Option<Mode> {
    if tenant !in memory || now - memory[tenant].at > LAST_KNOWN_TTL then None else Some(memory[tenant].mode)
  }

  ghost predicate Oldest(memory: Memory, victim: string) {
    victim in memory && forall t :: t in memory ==> memory[victim].at <= memory[t].at
  }

  /** `_remember`: a full map gives up one oldest entry for a new tenant. */
  ghost predicate Remembers(before: Memory, after: Memory, tenant: string, mode: Mode, now: real) {
    if tenant !in before && |before| >= LAST_KNOWN_MAX
    then exists victim :: Oldest(before, victim) && after == (before - {victim})[tenant := Remembered(mode, now)]
    else after == before[tenant := Remembered(mode, now)]
  }

  /** One call: `None` rows are a `FeatureFlagLookupError`. */
  datatype Call = Call(tenant: string, validTenant: bool, default: Mode, warn: Option<FlagRows>, deny: Option<FlagRows>, now: real) {
    predicate Succeeds() { validTenant && warn.Some? && deny.Some? }

    predicate Fails() { validTenant && (warn.None? || deny.None?) }
  }

  /** What `resolve_enforcement_mode` returns. */
  function Resolved(bucket: (string, string) -> int, memory: Memory, call: Call): Mode {
    if !call.validTenant then call.default
    else if call.Succeeds() then
      Joined(call.default, FlagOn(bucket, FLAG_WARN, call.warn.value, call.tenant), FlagOn(bucket, FLAG_DENY, call.deny.value, call.tenant))
    else
      match Recall(memory, call.tenant, call.now)
      case Some(known) => Stricter(call.default, known)
      case None => Deny
  }

  /** The row's percentage reaches the bucket. */
  predicate Reaches(row: Option<Row>, bucket: int) {
    row.Some? && row.value.enabled && bucket < row.value.rollout
  }

  /** What an operator reads off the rows of a successful lookup, buckets being 0 to 99: a flag is in force for the
      tenants whose bucket an enabled row's percentage reaches, and the mode is the strictest in force, the
      deployment default included. So full rollout reaches everyone and none at all nobody. */
  lemma RowsDecide(bucket: (string, string) -> int, memory: Memory, call: Call)
    requires call.Succeeds() && forall flag, subject :: 0 <= bucket(flag, subject) < 100
    ensures var mode, subject := Resolved(bucket, memory, call), if call.tenant == "" then "__anon__" else call.tenant;
            var b, c := bucket("grants.enforce_closed.warn", subject), bucket("grants.enforce_closed.deny", subject);
            var warned := Reaches(call.warn.value.globalRow, b) || Reaches(call.warn.value.tenantRow, b);
            var denied := Reaches(call.deny.value.globalRow, c) || Reaches(call.deny.value.tenantRow, c);
            && (mode == Deny <==> call.default == Deny || denied)
            && (mode == Off <==> call.default == Off && !warned && !denied)
  {}

  ghost predicate ResolveStep(bucket: (string, string) -> int, before: Memory, after: Memory, call: Call, mode: Mode) {
    && mode == Resolved(bucket, before, call)
    && (if call.Succeeds() then Remembers(before, after, call.tenant, mode, call.now) else after == before)
  }

  class ModeResolver {
    var lastKnown: Memory

    constructor ()
      ensures lastKnown == map[]
    {
      lastKnown := map[];
    }

    /** `min(_last_known, key=...)`. */
    method FindOldest() returns (victim: string)
      requires lastKnown != map[]
      ensures Oldest(lastKnown, victim)
    {
      var rest := lastKnown.Keys;
      victim :| victim in rest;
      rest := rest - {victim};
      while rest != {}
        invariant rest <= lastKnown.Keys && victim in lastKnown
        invariant forall t :: t in lastKnown && t !in rest ==> lastKnown[victim].at <= lastKnown[t].at
        decreases |rest|
      {
        var t :| t in rest;
        if lastKnown[t].at < lastKnown[victim].at {
          victim := t;
        }
        rest := rest - {t};
      }
    }

    method Remember(tenant: string, mode: Mode, now: real)
      modifies this
      ensures Remembers(old(lastKnown), lastKnown, tenant, mode, now)
      ensures |old(lastKnown)| <= LAST_KNOWN_MAX ==> |lastKnown| <= LAST_KNOWN_MAX
    {
      ghost var before := lastKnown;
      if tenant !in lastKnown && |lastKnown| >= LAST_KNOWN_MAX {
        var victim := FindOldest();
        lastKnown := lastKnown - {victim};
        assert lastKnown.Keys == before.Keys - {victim};
        assert |lastKnown.Keys| == |before.Keys| - 1;
      }
      ghost var kept := lastKnown;
      lastKnown := lastKnown[tenant := Remembered(mode, now)];
      assert lastKnown.Keys == kept.Keys + {tenant};
    }

    /** `resolve_enforcement_mode`: one pass over the two flags, with the outage fallback. */
    method ResolveMode(bucket: (string, string) -> int, call: Call) returns (mode: Mode)
      modifies this
      ensures ResolveStep(bucket, old(lastKnown), lastKnown, call, mode)
      ensures |old(lastKnown)| <= LAST_KNOWN_MAX ==> |lastKnown| <= LAST_KNOWN_MAX
    {
      if !call.validTenant {
        return call.default;
      }
      mode := call.default;
      var flags := [(FLAG_WARN, Warn, call.warn), (FLAG_DENY, Deny, call.deny)];
      for i := 0 to 2
        invariant lastKnown == old(lastKnown)
        invariant i >= 1 ==> call.warn.Some?
        invariant i == 2 ==> call.deny.Some?
        invariant i == 0 ==> mode == call.default
        invariant i == 1 ==> mode == Stricter(call.default, if FlagOn(bucket, FLAG_WARN, call.warn.value, call.tenant) then Warn else Off)
        invariant i == 2 ==> mode == Joined(call.default, FlagOn(bucket, FLAG_WARN, call.warn.value, call.tenant),
                                            FlagOn(bucket, FLAG_DENY, call.deny.value, call.tenant))
      {
        var (flag, flagMode, rows) := flags[i];
        if rows.None? {
          var known := Recall(lastKnown, call.tenant, call.now);
          return if known.Some? then Stricter(call.default, known.value) else Deny;
        }
        if RowEnabled(bucket, flag, rows.value.globalRow, call.tenant) || RowEnabled(bucket, flag, rows.value.tenantRow, call.tenant) {
          mode := Stricter(mode, flagMode);
        }
      }
      Remember(call.tenant, mode, call.now);
    }
  }

  // ----- every run of one process -----

  /** A run from an empty memory, the calls in the order they complete (nothing is awaited between the last lookup
      and the return): one deployment default, a clock that never goes back. */
  ghost predicate ModeRun(bucket: (string, string) -> int, memories: seq<Memory>, calls: seq<Call>, modes: seq<Mode>) {
    && |memories| == |calls| + 1 && |modes| == |calls| && memories[0] == map[]
    && (forall i :: 0 <= i < |calls| ==> ResolveStep(bucket, memories[i], memories[i + 1], calls[i], modes[i]))
    && (forall i, j :: 0 <= i < j < |calls| ==> calls[i].now <= calls[j].now && calls[i].default == calls[j].default)
  }

  /** What an outage at `now` would answer with is at least `mode`. */
  ghost predicate Holds(memory: Memory, tenant: string, default: Mode, mode: Mode, now: real) {
    match Recall(memory, tenant, now)
    case Some(known) => AtLeast(Stricter(default, known), mode)
    case None => true
  }

  /** Eviction and expiry only turn a remembered answer into deny. */
  lemma MemoryOnlyForgets(bucket: (string, string) -> int, before: Memory, after: Memory, call: Call, mode: Mode,
                          tenant: string, floor: Mode, now: real)
    requires ResolveStep(bucket, before, after, call, mode) && !(call.Succeeds() && call.tenant == tenant)
    requires Holds(before, tenant, call.default, floor, call.now) && call.now <= now
    ensures Holds(after, tenant, call.default, floor, now)
  {
    assert tenant in after ==> tenant in before && after[tenant] == before[tenant];
  }

  lemma {:induction false} FloorStays(bucket: (string, string) -> int, memories: seq<Memory>, calls: seq<Call>, modes: seq<Mode>,
                                      i: nat, j: nat, floor: Mode)
    requires ModeRun(bucket, memories, calls, modes) && i < j < |calls|
    requires forall k :: i < k < j ==> !(calls[k].Succeeds() && calls[k].tenant == calls[i].tenant)
    requires Holds(memories[i + 1], calls[i].tenant, calls[i].default, floor, calls[i].now)
    ensures Holds(memories[j], calls[i].tenant, calls[i].default, floor, calls[j].now)
  {
    if j == i + 1 {
      assert memories[j] == memories[i + 1];
    } else {
      FloorStays(bucket, memories, calls, modes, i, j - 1, floor);
      assert calls[j - 1].default == calls[i].default;
      assert ResolveStep(bucket, memories[j - 1], memories[j - 1 + 1], calls[j - 1], modes[j - 1]);
      MemoryOnlyForgets(bucket, memories[j - 1], memories[j], calls[j - 1], modes[j - 1], calls[i].tenant, floor, calls[j].now);
    }
  }

  /** An outage never weakens enforcement: a failed lookup answers at least as strictly as any answer
      this process gave the tenant since (and including) its last successful lookup. */
  lemma OutageNeverWeakens(bucket: (string, string) -> int, memories: seq<Memory>, calls: seq<Call>, modes: seq<Mode>, i: nat, j: nat)
    requires ModeRun(bucket, memories, calls, modes) && i < j < |calls|
    requires calls[i].tenant == calls[j].tenant && calls[i].validTenant && calls[j].Fails()
    requires forall k :: i < k < j ==> !(calls[k].Succeeds() && calls[k].tenant == calls[i].tenant)
    ensures AtLeast(modes[j], modes[i])
  {
    assert ResolveStep(bucket, memories[i], memories[i + 1], calls[i], modes[i]);
    assert ResolveStep(bucket, memories[j], memories[j + 1], calls[j], modes[j]);
    assert Holds(memories[i + 1], calls[i].tenant, calls[i].default, modes[i], calls[i].now);
    FloorStays(bucket, memories, calls, modes, i, j, modes[i]);
    assert calls[i].default == calls[j].default;
  }

  /** The entry of a tenant stays while the map has room and no later lookup of the tenant succeeds. */
  lemma {:induction false} EntryStays(bucket: (string, string) -> int, memories: seq<Memory>, calls: seq<Call>, modes: seq<Mode>, i: nat, j: nat)
    requires ModeRun(bucket, memories, calls, modes) && i < j <= |calls| && calls[i].Succeeds()
    requires forall k :: i < k < j ==> !(calls[k].Succeeds() && calls[k].tenant == calls[i].tenant) && |memories[k]| < 4096
    ensures calls[i].tenant in memories[j] && memories[j][calls[i].tenant] == Remembered(modes[i], calls[i].now)
  {
    if j == i + 1 {
      assert ResolveStep(bucket, memories[i], memories[i + 1], calls[i], modes[i]);
    } else {
      EntryStays(bucket, memories, calls, modes, i, j - 1);
      assert ResolveStep(bucket, memories[j - 1], memories[j - 1 + 1], calls[j - 1], modes[j - 1]);
    }
  }

  /** What an outage answers, while the process remembers fewer than 4096 tenants: for an hour after the tenant's last
      successful lookup, the stricter of that answer and the default, and deny from then on. */
  lemma OutageAnswersExactly(bucket: (string, string) -> int, memories: seq<Memory>, calls: seq<Call>, modes: seq<Mode>, i: nat, j: nat)
    requires ModeRun(bucket, memories, calls, modes) && i < j < |calls|
    requires calls[i].tenant == calls[j].tenant && calls[i].Succeeds() && calls[j].Fails()
    requires forall k :: i < k < j ==> !(calls[k].Succeeds() && calls[k].tenant == calls[i].tenant) && |memories[k]| < 4096
    ensures modes[j] == if calls[j].now - calls[i].now <= 3600.0 then Stricter(calls[j].default, modes[i]) else Deny
  {
    EntryStays(bucket, memories, calls, modes, i, j);
    assert ResolveStep(bucket, memories[j], memories[j + 1], calls[j], modes[j]);
  }

  /** A tenant this process knows nothing of is denied during an outage. */
  lemma UnknownTenantDenied(bucket: (string, string) -> int, memories: seq<Memory>, calls: seq<Call>, modes: seq<Mode>, j: nat)
    requires ModeRun(bucket, memories, calls, modes) && j < |calls| && calls[j].Fails()
    requires forall k :: 0 <= k < j ==> !(calls[k].Succeeds() && calls[k].tenant == calls[j].tenant)
    ensures modes[j] == Deny
  {
    NothingKnown(bucket, memories, calls, modes, calls[j].tenant, j);
    assert ResolveStep(bucket, memories[j], memories[j + 1], calls[j], modes[j]);
  }

  lemma {:induction false} NothingKnown(bucket: (string, string) -> int, memories: seq<Memory>, calls: seq<Call>, modes: seq<Mode>,
                                        tenant: string, j: nat)
    requires ModeRun(bucket, memories, calls, modes) && j <= |calls|
    requires forall k :: 0 <= k < j ==> !(calls[k].Succeeds() && calls[k].tenant == tenant)
    ensures tenant !in memories[j]
  {
    if j > 0 {
      NothingKnown(bucket, memories, calls, modes, tenant, j - 1);
      assert ResolveStep(bucket, memories[j - 1], memories[j - 1 + 1], calls[j - 1], modes[j - 1]);
    }
  }
}
