/** core/auth_state.py: whether a session is still honoured, through two caches. */
module SessionState {
  import opened Prelude

  const TTL := 30.0

  /** `UserSessionState`; `Unread` is a relaxed-runtime lookup that failed. */
  datatype UserState = Missing | Unread | Found(status: string, watermark: Option<real>) {

    /** `rejects_token`; the watermark is compared at whole-second granularity. */
    function Rejects(issuedAt: Option<real>): Option<Reason> {
      match this
      case Unread => None
      case Missing => Some(UserMissing)
      case Found(status, watermark) =>
        if status != ACTIVE then Some(UserInactive)
        else if watermark.None? then None
        else if issuedAt.None? || issuedAt.value < watermark.value.Floor as real then Some(SessionRevoked)
        else None
    }
  }

  const ACTIVE := "active"
  const MISSING := "missing"

  datatype Reason = UserMissing | UserInactive | SessionRevoked

  /** The second after the one the session was issued in had begun by the time of the watermark. */
  predicate IssuedBefore(issuedAt: real, watermark: real) {
    (issuedAt.Floor + 1) as real <= watermark
  }

  /** A row that refuses a session, in terms of its own columns. */
  predicate RowRefuses(row: UserState, issuedAt: Option<real>) {
    || row.Missing?
    || (row.Found? && row.status != "active")
    || (row.Found? && row.watermark.Some? && (issuedAt.Some? ==> IssuedBefore(issuedAt.value, row.watermark.value)))
  }

  /** Exactly which sessions are refused, and why. */
  lemma RejectsExactly(state: UserState, issuedAt: Option<real>)
    ensures state.Rejects(issuedAt).Some? <==> RowRefuses(state, issuedAt)
    ensures state.Rejects(issuedAt) == Some(UserMissing) <==> state.Missing?
    ensures state.Rejects(issuedAt) == Some(UserInactive) <==> state.Found? && state.status != "active"
  {
    if state.Found? && state.watermark.Some? && issuedAt.Some? {
      FloorBetween(issuedAt.value, state.watermark.value);
    }
  }

  /** A session issued in the very second of a reset is honoured: its second must be over by the watermark. */
  lemma WholeSecondRevokedExactly(watermark: real, second: int)
    ensures Found("active", Some(watermark)).Rejects(Some(second as real)) == Some(SessionRevoked) <==> (second + 1) as real <= watermark
  {
    FloorBetween(second as real, watermark);
  }

  lemma FloorBetween(t: real, w: real)
    ensures t < w.Floor as real <==> IssuedBefore(t, w)
  {
    if t < w.Floor as real {
      assert t.Floor < w.Floor;
    } else {
      assert w.Floor <= t.Floor;
    }
  }

  // ----- the text kept in Redis -----

  /** Python's `repr` and `float` on floats. */
  datatype Numerals = Numerals(repr: real -> string, parse: string -> Option<real>) {
    function Print(x: real): string { repr(x) }
    function Read(text: string): Option<real> { parse(text) }
  }

  /** What is used of them: a printed float reads back, prints something, and no text with a bar is a number. */
  ghost predicate Lawful(n: Numerals) {
    && (forall x: real :: n.Print(x) != "" && n.Read(n.Print(x)) == Some(x))
    && (forall text: string :: '|' in text ==> n.Read(text) == None)
  }

  function Encode(n: Numerals, state: UserState): string {
    if !state.Found? then MISSING
    else state.status + ['|'] + if state.watermark.None? then "" else n.Print(state.watermark.value)
  }

  /** `raw.partition("|")`: the text before the first bar and the text after it. */
  function Partition(raw: string): (r: (string, string)) {
    if raw == "" then ("", "")
    else if raw[0] == '|' then ("", raw[1..])
    else var rest := Partition(raw[1..]); ([raw[0]] + rest.0, rest.1)
  }

  /** `None` when `float` raises. */
  function Decode(n: Numerals, raw: string): Option<UserState> {
    if raw == MISSING then Some(Missing)
    else
      var parts := Partition(raw);
      if parts.1 == "" then Some(Found(parts.0, None))
      else if n.Read(parts.1).None? then None
      else Some(Found(parts.0, n.Read(parts.1)))
  }

  lemma {:induction false} PartitionAtBar(status: string, rest: string)
    ensures '|' !in status ==> Partition(status + ['|'] + rest) == (status, rest)
    ensures '|' in status ==> '|' in Partition(status + ['|'] + rest).1
  {
    var raw := status + ['|'] + rest;
    if status == "" {
      assert raw[0] == '|' && raw[1..] == rest;
    } else {
      assert raw[0] == status[0] && raw[1..] == status[1..] + ['|'] + rest;
      assert status == [status[0]] + status[1..];
      if status[0] == '|' {
        assert raw[1..][|status| - 1] == '|';
      } else {
        PartitionAtBar(status[1..], rest);
      }
    }
  }

  lemma MissingHasNoBar(state: UserState, n: Numerals)
    requires state.Found?
    ensures Encode(n, state) != MISSING
  {
    var raw := Encode(n, state);
    assert raw[|state.status|] == '|';
    assert forall i :: 0 <= i < |MISSING| ==> MISSING[i] != '|';
  }

  /** The round trip: a state is read back as it was written exactly when its status has no bar; otherwise
      the read fails, and never yields another state. */
  lemma RoundTrip(n: Numerals, state: UserState)
    requires Lawful(n) && !state.Unread?
    ensures Decode(n, Encode(n, state)) == if state.Found? && '|' in state.status then None else Some(state)
  {
    if state.Found? {
      var rest := if state.watermark.None? then "" else n.Print(state.watermark.value);
      assert Encode(n, state) == state.status + ['|'] + rest;
      MissingHasNoBar(state, n);
      PartitionAtBar(state.status, rest);
    }
  }

  // ----- the lookup -----

  datatype Entry = Entry(expires: real, state: UserState, readAt: real)

  /** A Redis value: `text` is what is stored, `readAt` when its row was read. */
  datatype Cached = Cached(expires: real, text: string, readAt: real)

  /** The world a run takes place in: the users row over time, the numerals, the runtime mode, and how long
      a single lookup may take from its first instruction to its last. */
  datatype World = World(row: real -> UserState, numerals: Numerals, strict: bool, patience: real)

  ghost predicate Sane(w: World) {
    Lawful(w.numerals) && w.patience >= 0.0 && forall t: real :: !w.row(t).Unread?
  }

  /** `None` stands for the `RuntimeError` of the strict runtime. */
  datatype Answer = Answer(at: real, result: Option<UserState>, readAt: real)

  /** A lookup past the memory check: asking Redis, reading the row, or about to write it to Redis. */
  datatype Lookup =
    | Asking(replica: nat, began: real)
    | Loading(replica: nat, began: real, client: bool)
    | Storing(replica: nat, began: real, state: UserState, readAt: real)

  datatype State = State(clock: real, memory: map<nat, Entry>, redis: Option<Cached>, lookups: map<nat, Lookup>,
                         answers: seq<Answer>)

  datatype Event =
    | Begin(id: nat, replica: nat)
    | AskRedis(id: nat, client: bool, up: bool)
    | ReadRow(id: nat, ok: bool)
    | WriteRedis(id: nat, ok: bool)
    | BustMemory(replica: nat)
    | BustRedis
    | Pass

  function Alive(redis: Option<Cached>, t: real): bool {
    redis.Some? && t <= redis.value.expires
  }

  ghost predicate Enabled(w: World, s: State, e: Event, t: real) {
    && s.clock <= t
    && match e
       case Begin(id, _) => id !in s.lookups
       case AskRedis(id, _, _) => id in s.lookups && s.lookups[id].Asking? && t <= s.lookups[id].began + w.patience
       case ReadRow(id, _) => id in s.lookups && s.lookups[id].Loading? && t <= s.lookups[id].began + w.patience
       case WriteRedis(id, _) => id in s.lookups && s.lookups[id].Storing? && t <= s.lookups[id].began + w.patience
       case _ => true
  }

  ghost function Apply(w: World, s: State, e: Event, t: real): State
    requires Enabled(w, s, e, t)
  {
    var now := s.(clock := t);
    match e
    case Begin(id, replica) =>
      if replica in s.memory && s.memory[replica].expires > t then
        Replied(now, t, Some(s.memory[replica].state), s.memory[replica].readAt)
      else now.(lookups := s.lookups[id := Asking(replica, t)])
    case AskRedis(id, client, up) => AfterRedis(w, now, id, client, up, t)
    case ReadRow(id, ok) =>
      var l := s.lookups[id];
      if ok then
        var kept := now.(memory := s.memory[l.replica := Entry(l.began + TTL, w.row(t), t)]);
        if l.client then kept.(lookups := s.lookups[id := Storing(l.replica, l.began, w.row(t), t)])
        else Replied(kept.(lookups := s.lookups - {id}), t, Some(w.row(t)), t)
      else Replied(now.(lookups := s.lookups - {id}), t, if w.strict then None else Some(Unread), t)
    case WriteRedis(id, ok) =>
      var l := s.lookups[id];
      var done := Replied(now.(lookups := s.lookups - {id}), t, Some(l.state), l.readAt);
      if ok then done.(redis := Some(Cached(t + TTL, Encode(w.numerals, l.state), l.readAt))) else done
    case BustMemory(replica) => now.(memory := s.memory - {replica})
    case BustRedis => now.(redis := None)
    case Pass => now
  }

  function Replied(s: State, t: real, result: Option<UserState>, readAt: real): State {
    s.(answers := s.answers + [Answer(t, result, readAt)])
  }

  /** A hit fills this replica's memory; no client, an outage, a miss or an unreadable value go on to the row. */
  ghost function AfterRedis(w: World, s: State, id: nat, client: bool, up: bool, t: real): State
    requires id in s.lookups && s.lookups[id].Asking?
  {
    var l := s.lookups[id];
    var hit := if client && up && Alive(s.redis, t) then Decode(w.numerals, s.redis.value.text) else None;
    if hit.Some? then
      Replied(s.(memory := s.memory[l.replica := Entry(l.began + TTL, hit.value, s.redis.value.readAt)],
                 lookups := s.lookups - {id}), t, hit, s.redis.value.readAt)
    else s.(lookups := s.lookups[id := Loading(l.replica, l.began, client)])
  }

  ghost predicate Next(w: World, s: State, u: State) {
    exists e, t :: Enabled(w, s, e, t) && u == Apply(w, s, e, t)
  }

  ghost predicate Run(w: World, states: seq<State>) {
    && |states| > 0 && states[0] == State(states[0].clock, map[], None, map[], [])
    && forall i :: 0 <= i < |states| - 1 ==> Next(w, states[i], states[i + 1])
  }

  // ----- bounded staleness -----

  /** The value was the users row when it was read. */
  ghost predicate Genuine(w: World, state: UserState, readAt: real) {
    state == w.row(readAt)
  }

  ghost predicate EntryInv(w: World, e: Entry, clock: real) {
    Genuine(w, e.state, e.readAt) && e.readAt <= clock && e.expires <= clock + TTL && e.expires <= e.readAt + 2.0 * TTL + w.patience
  }

  ghost predicate RedisInv(w: World, c: Cached, clock: real) {
    && c.readAt <= clock && c.expires <= clock + TTL && c.expires <= c.readAt + TTL + w.patience
    && c.text == Encode(w.numerals, w.row(c.readAt))
  }

  ghost predicate LookupInv(w: World, l: Lookup, clock: real) {
    l.began <= clock && (l.Storing? ==> Genuine(w, l.state, l.readAt) && l.began <= l.readAt <= clock)
  }

  ghost predicate AnswerInv(w: World, a: Answer) {
    a.result.Some? && a.result.value != Unread ==>
      Genuine(w, a.result.value, a.readAt) && a.readAt <= a.at <= a.readAt + 2.0 * TTL + w.patience
  }

  ghost predicate NoUnread(w: World, a: Answer) {
    w.strict ==> a.result != Some(Unread)
  }

  ghost predicate Inv(w: World, s: State) {
    && (forall r :: r in s.memory ==> EntryInv(w, s.memory[r], s.clock))
    && (s.redis.Some? ==> RedisInv(w, s.redis.value, s.clock))
    && (forall id :: id in s.lookups ==> LookupInv(w, s.lookups[id], s.clock))
    && (forall a :: a in s.answers ==> AnswerInv(w, a) && NoUnread(w, a) && a.at <= s.clock)
  }

  lemma AskKeeps(w: World, s: State, e: Event, t: real)
    requires Sane(w) && Inv(w, s) && Enabled(w, s, e, t) && e.AskRedis?
    ensures Inv(w, Apply(w, s, e, t))
  {
    if e.client && e.up && Alive(s.redis, t) {
      RoundTrip(w.numerals, w.row(s.redis.value.readAt));
    }
  }

  lemma LoadKeeps(w: World, s: State, e: Event, t: real)
    requires Sane(w) && Inv(w, s) && Enabled(w, s, e, t) && (e.ReadRow? || e.WriteRedis?)
    ensures Inv(w, Apply(w, s, e, t))
  {}

  lemma StepKeeps(w: World, s: State, e: Event, t: real)
    requires Sane(w) && Inv(w, s) && Enabled(w, s, e, t)
    ensures Inv(w, Apply(w, s, e, t))
  {
    if e.AskRedis? {
      AskKeeps(w, s, e, t);
    } else if e.ReadRow? || e.WriteRedis? {
      LoadKeeps(w, s, e, t);
    }
  }

  lemma {:induction false} RunKeeps(w: World, states: seq<State>, i: nat)
    requires Sane(w) && Run(w, states) && i < |states|
    ensures Inv(w, states[i])
  {
    if i > 0 {
      RunKeeps(w, states, i - 1);
      assert Next(w, states[i - 1], states[i - 1 + 1]);
      var e, t :| Enabled(w, states[i - 1], e, t) && states[i] == Apply(w, states[i - 1], e, t);
      StepKeeps(w, states[i - 1], e, t);
    }
  }

  /** Whatever a lookup on any replica answers at time t was the users row at a moment in [t - 60 - d, t],
      where d bounds one lookup's duration: 60 seconds for lookups that take no time. */
  lemma BoundedStaleness(w: World, states: seq<State>, i: nat, a: Answer)
    requires Sane(w) && Run(w, states) && i < |states| && a in states[i].answers
    requires a.result.Some? && a.result.value != Unread
    ensures a.result.value == w.row(a.readAt) && a.at - 60.0 - w.patience <= a.readAt <= a.at
  {
    RunKeeps(w, states, i);
  }

  /** A session whose row is missing, inactive or watermarked past its issue from time t0 on is refused by every
      answer of the strict runtime after t0 + 60 + d, and in the relaxed one by every answer that read anything;
      and one that the row admits from t0 on is by then admitted by every answer. */
  lemma RevokedEverywhere(w: World, states: seq<State>, i: nat, a: Answer, t0: real, issuedAt: Option<real>)
    requires Sane(w) && Run(w, states) && i < |states| && a in states[i].answers && a.at >= t0 + 60.0 + w.patience
    ensures (forall t: real :: t >= t0 ==> RowRefuses(w.row(t), issuedAt)) ==>
              a.result.Some? && (w.strict || a.result.value != Unread) ==> a.result.value.Rejects(issuedAt).Some?
    ensures (forall t: real :: t >= t0 ==> !RowRefuses(w.row(t), issuedAt)) ==>
              a.result.Some? ==> a.result.value.Rejects(issuedAt).None?
  {
    RunKeeps(w, states, i);
    assert a.readAt >= t0 || a.result.None? || a.result.value == Unread;
    if a.result.Some? {
      RejectsExactly(a.result.value, issuedAt);
    }
  }

  // ----- when the documented thirty seconds hold -----

  predicate Readable(n: Numerals, text: string) {
    Decode(n, text).Some?
  }

  /** A row read before `cut` that Redis can still hand out after it. */
  predicate LingersInRedis(w: World, redis: Option<Cached>, cut: real) {
    redis.Some? && redis.value.readAt < cut < redis.value.expires && Readable(w.numerals, redis.value.text)
  }

  /** A lookup that read the row before `cut` and may still write it to Redis, or itself answers with it so late. */
  predicate LingersInLookup(w: World, l: Lookup, cut: real) {
    && l.Storing? && l.readAt < cut <= l.began + w.patience
    && (Readable(w.numerals, Encode(w.numerals, l.state)) || cut + TTL <= l.began + w.patience)
  }

  ghost predicate Lingers(w: World, s: State) {
    LingersInRedis(w, s.redis, s.clock) || exists id :: id in s.lookups && LingersInLookup(w, s.lookups[id], s.clock)
  }

  /** An answer at least thirty seconds after `cut` with a row read before it. */
  predicate Late(a: Answer, cut: real) {
    a.at >= cut + TTL && a.readAt < cut
  }

  /** Nothing read before `cut` can be answered after cut + 30. */
  ghost predicate Settled(w: World, s: State, cut: real, seen: nat) {
    && s.clock >= cut && seen <= |s.answers|
    && (forall r :: r in s.memory ==> s.memory[r].readAt >= cut || s.memory[r].expires <= cut + TTL)
    && !LingersInRedis(w, s.redis, cut)
    && (forall id :: id in s.lookups ==> !LingersInLookup(w, s.lookups[id], cut))
    && (forall k :: seen <= k < |s.answers| ==> !Late(s.answers[k], cut))
  }

  lemma SettledStep(w: World, s: State, e: Event, t: real, cut: real, seen: nat)
    requires Settled(w, s, cut, seen) && Inv(w, s) && Enabled(w, s, e, t)
    ensures Settled(w, Apply(w, s, e, t), cut, seen)
  {}

  lemma {:induction false} StaysSettled(w: World, states: seq<State>, from: nat, i: nat, cut: real, seen: nat)
    requires Sane(w) && Run(w, states) && from <= i < |states| && Settled(w, states[from], cut, seen)
    ensures Settled(w, states[i], cut, seen)
  {
    if from < i {
      StaysSettled(w, states, from, i - 1, cut, seen);
      RunKeeps(w, states, i - 1);
      assert Next(w, states[i - 1], states[i - 1 + 1]);
      var e, t :| Enabled(w, states[i - 1], e, t) && states[i] == Apply(w, states[i - 1], e, t);
      SettledStep(w, states[i - 1], e, t, cut, seen);
    }
  }

  /** Some continuation of the run answers so. */
  ghost predicate CanBeLate(w: World, states: seq<State>)
    requires |states| > 0
  {
    exists more: seq<State>, i: nat, k: nat ::
      && Run(w, more) && states <= more && i < |more|
      && |states[|states| - 1].answers| <= k < |more[i].answers| && Late(more[i].answers[k], states[|states| - 1].clock)
  }

  /** A number above all of them, so none of them. */
  lemma AboveAll(s: set<nat>) returns (n: nat)
    ensures forall k :: k in s ==> k < n
    decreases |s|
  {
    if s == {} {
      n := 0;
    } else {
      var k :| k in s;
      var rest := AboveAll(s - {k});
      n := if rest <= k then k + 1 else rest;
      assert forall x :: x in s ==> x == k || x in s - {k};
    }
  }

  /** From a lingering Redis entry: a fresh replica reads it a moment after the cut and answers thirty seconds on. */
  lemma RedisCanBeLate(w: World, states: seq<State>, cut: real) returns (more: seq<State>)
    requires Sane(w) && Run(w, states) && states[|states| - 1].clock == cut && LingersInRedis(w, states[|states| - 1].redis, cut)
    requires states[|states| - 1].redis.value.expires <= cut + TTL
    ensures Run(w, more) && states <= more
    ensures var s, t := states[|states| - 1], more[|more| - 1];
            |t.answers| > |s.answers| && Late(t.answers[|t.answers| - 1], cut)
  {
    var s := states[|states| - 1];
    var t0 := (cut + s.redis.value.expires) / 2.0;
    var id := AboveAll(s.lookups.Keys);
    var replica := AboveAll(s.memory.Keys);
    more := Extended(w, states, Begin(id, replica), t0);
    more := Extended(w, more, AskRedis(id, true, true), t0);
    assert more[|more| - 1].memory[replica].expires == t0 + TTL;
    more := Extended(w, more, Begin(id, replica), cut + TTL);
  }

  /** From a lookup that still holds an old row. */
  lemma LookupCanBeLate(w: World, states: seq<State>, id: nat) returns (more: seq<State>)
    requires Sane(w) && Run(w, states)
    requires var s := states[|states| - 1]; id in s.lookups && LingersInLookup(w, s.lookups[id], s.clock)
    ensures Run(w, more) && states <= more
    ensures var s, t := states[|states| - 1], more[|more| - 1];
            |t.answers| > |s.answers| && Late(t.answers[|t.answers| - 1], s.clock)
  {
    var s := states[|states| - 1];
    if s.clock + TTL <= s.lookups[id].began + w.patience {
      more := Extended(w, states, WriteRedis(id, true), s.clock + TTL);
    } else {
      more := Extended(w, states, WriteRedis(id, true), s.clock);
      more := RedisCanBeLate(w, more, s.clock);
    }
  }

  /** The documented thirty seconds, exactly: from a reachable moment on, no answer thirty seconds later or more
      gives a row read before it, if and only if neither Redis nor a lookup under way still holds one. */
  lemma ThirtyExactly(w: World, states: seq<State>)
    requires Sane(w) && Run(w, states)
    ensures CanBeLate(w, states) <==> Lingers(w, states[|states| - 1])
  {
    var last := |states| - 1;
    var s := states[last];
    RunKeeps(w, states, last);
    if Lingers(w, s) {
      var more: seq<State>;
      if LingersInRedis(w, s.redis, s.clock) {
        more := RedisCanBeLate(w, states, s.clock);
      } else {
        var id :| id in s.lookups && LingersInLookup(w, s.lookups[id], s.clock);
        more := LookupCanBeLate(w, states, id);
      }
      var i := |more| - 1;
      assert Late(more[i].answers[|more[i].answers| - 1], s.clock);
    } else {
      assert Settled(w, s, s.clock, |s.answers|);
      forall more: seq<State>, i: nat, k: nat | Run(w, more) && states <= more && i < |more| && |s.answers| <= k < |more[i].answers|
        ensures !Late(more[i].answers[k], s.clock)
      {
        assert more[last] == s;
        if last <= i {
          StaysSettled(w, more, last, i, s.clock, |s.answers|);
        } else {
          AnswersGrow(w, more, i, last);
        }
      }
    }
  }

  lemma {:induction false} AnswersGrow(w: World, states: seq<State>, i: nat, j: nat)
    requires Run(w, states) && i <= j < |states|
    ensures |states[i].answers| <= |states[j].answers|
  {
    if i < j {
      AnswersGrow(w, states, i, j - 1);
      assert Next(w, states[j - 1], states[j - 1 + 1]);
    }
  }

  /** So the bound holds after an `invalidate_user_session_state` that reaches Redis when no lookup is under way. */
  lemma ThirtyAfterInvalidation(w: World, states: seq<State>, from: nat, i: nat, k: nat)
    requires Sane(w) && Run(w, states) && from <= i < |states|
    requires states[from].redis == None && states[from].lookups == map[]
    requires |states[from].answers| <= k < |states[i].answers| && states[i].answers[k].at >= states[from].clock + 30.0
    ensures states[i].answers[k].readAt >= states[from].clock
  {
    RunKeeps(w, states, from);
    StaysSettled(w, states, from, i, states[from].clock, |states[from].answers|);
  }

  /** The documentation's thirty seconds are exceeded without that: a replica that fills its memory from a
      Redis entry of thirty seconds' age still answers with it 29 seconds later. */
  lemma StaleForFiftyNine(w: World)
    requires Sane(w) && w.row(0.0) == Found(ACTIVE, None)
    ensures exists states: seq<State>, i: nat, k: nat ::
              && Run(w, states) && i < |states| && k < |states[i].answers|
              && states[i].answers[k] == Answer(59.0, Some(Found(ACTIVE, None)), 0.0)
  {
    var run := OneLookup(w);
    run := Extended(w, run, Begin(1, 1), 30.0);
    RoundTrip(w.numerals, w.row(0.0));
    assert '|' !in ACTIVE;
    run := Extended(w, run, AskRedis(1, true, true), 30.0);
    assert run[|run| - 1].memory[1] == Entry(60.0, w.row(0.0), 0.0);
    run := Extended(w, run, Begin(2, 1), 59.0);
    var i, k := |run| - 1, |run[|run| - 1].answers| - 1;
    assert run[i].answers[k] == Answer(59.0, Some(Found(ACTIVE, None)), 0.0);
  }

  /** Replica 0 reads the row at time 0 and shares it. */
  lemma OneLookup(w: World) returns (run: seq<State>)
    requires w.patience >= 0.0
    ensures Run(w, run)
    ensures var s := run[|run| - 1];
            s.clock == 0.0 && s.memory.Keys == {0} && s.lookups == map[]
            && s.redis == Some(Cached(30.0, Encode(w.numerals, w.row(0.0)), 0.0))
  {
    run := [State(0.0, map[], None, map[], [])];
    run := Extended(w, run, Begin(0, 0), 0.0);
    run := Extended(w, run, AskRedis(0, true, true), 0.0);
    run := Extended(w, run, ReadRow(0, true), 0.0);
    run := Extended(w, run, WriteRedis(0, true), 0.0);
  }

  lemma Extended(w: World, states: seq<State>, e: Event, t: real) returns (run: seq<State>)
    requires Run(w, states) && Enabled(w, states[|states| - 1], e, t)
    ensures Run(w, run) && |run| == |states| + 1 && states <= run && run[|run| - 1] == Apply(w, states[|states| - 1], e, t)
  {
    run := states + [Apply(w, states[|states| - 1], e, t)];
    forall i | 0 <= i < |run| - 1 ensures Next(w, run[i], run[i + 1]) {
      if i < |states| - 1 {
        assert Next(w, states[i], states[i + 1]);
      }
    }
  }

  // ----- the same lookup as one call -----

  datatype Caches = Caches(memory: Option<Entry>, redis: Option<Cached>)

  /** What `get_user_session_state` does at one instant: the caches after it and the answer. `client` is whether
      there is a Redis client, `gets` and `sets` whether its two commands succeed, `readable` whether the row is read. */
  function LookUp(w: World, c: Caches, client: bool, gets: bool, sets: bool, readable: bool, t: real): (Caches, Option<UserState>) {
    var hit := if client && gets && Alive(c.redis, t) then Decode(w.numerals, c.redis.value.text) else None;
    if c.memory.Some? && c.memory.value.expires > t then (c, Some(c.memory.value.state))
    else if hit.Some? then (c.(memory := Some(Entry(t + TTL, hit.value, c.redis.value.readAt))), hit)
    else if !readable then (c, if w.strict then None else Some(Unread))
    else (Caches(Some(Entry(t + TTL, w.row(t), t)),
                 if client && sets then Some(Cached(t + TTL, Encode(w.numerals, w.row(t)), t)) else c.redis), Some(w.row(t)))
  }

  /** One process's memory and the Redis all processes share. */
  class SessionCache {
    var memory: map<string, Entry>
    var redis: map<string, Cached>

    function Kept(key: string): Caches
      reads this
    {
      Caches(if key in memory then Some(memory[key]) else None, if key in redis then Some(redis[key]) else None)
    }

    constructor ()
      ensures memory == map[] && redis == map[]
    {
      memory, redis := map[], map[];
    }

    /** `get_user_session_state`; the source reads its clock once, and `Undisturbed` below relates this to its steps. */
    method GetUserSessionState(w: World, key: string, client: bool, gets: bool, sets: bool, readable: bool, t: real)
      returns (r: Option<UserState>)
      modifies this
      ensures (Kept(key), r) == LookUp(w, old(Kept(key)), client, gets, sets, readable, t)
      ensures forall other :: other != key ==> Kept(other) == old(Kept(other))
    {
      if key in memory && memory[key].expires > t {
        return Some(memory[key].state);
      }
      if client && gets && key in redis && t <= redis[key].expires {
        r := Decode(w.numerals, redis[key].text);
        if r.Some? {
          memory := memory[key := Entry(t + TTL, r.value, redis[key].readAt)];
          return;
        }
      }
      if !readable {
        return if w.strict then None else Some(Unread);
      }
      r := Some(w.row(t));
      memory := memory[key := Entry(t + TTL, w.row(t), t)];
      if client && sets {
        redis := redis[key := Cached(t + TTL, Encode(w.numerals, w.row(t)), t)];
      }
    }

    /** `invalidate_user_session_state`. */
    method Invalidate(key: string, up: bool)
      modifies this
      ensures Kept(key) == Caches(None, if up then None else old(Kept(key)).redis)
      ensures forall other :: other != key ==> Kept(other) == old(Kept(other))
    {
      memory := memory - {key};
      if up {
        redis := redis - {key};
      }
    }
  }

  ghost function CachesOf(s: State, replica: nat): Caches {
    Caches(if replica in s.memory then Some(s.memory[replica]) else None, s.redis)
  }

  /** The end of a lookup that goes to the row, at time `t`. */
  ghost function FromRow(w: World, s: State, id: nat, sets: bool, readable: bool, t: real): State
    requires id in s.lookups && s.lookups[id].Loading? && s.clock <= t <= s.lookups[id].began + w.patience
  {
    var u := Apply(w, s, ReadRow(id, readable), t);
    if id !in u.lookups then u else Apply(w, u, WriteRedis(id, sets), t)
  }

  /** The events of one undisturbed lookup at time `t`. */
  ghost function Undisturbed(w: World, s: State, id: nat, replica: nat, client: bool, gets: bool, sets: bool, readable: bool, t: real): State
    requires id !in s.lookups && s.clock <= t && w.patience >= 0.0
  {
    var s1 := Apply(w, s, Begin(id, replica), t);
    if id !in s1.lookups then s1
    else
      var s2 := Apply(w, s1, AskRedis(id, client, gets), t);
      if id !in s2.lookups then s2 else FromRow(w, s2, id, sets, readable, t)
  }

  ghost predicate Answers(s: State, u: State, result: Option<UserState>) {
    |u.answers| == |s.answers| + 1 && u.answers[|s.answers|].result == result
  }

  lemma RowRefines(w: World, s: State, id: nat, replica: nat, client: bool, sets: bool, readable: bool, t: real)
    requires id in s.lookups && s.lookups[id] == Loading(replica, t, client) && s.clock <= t && w.patience >= 0.0
    ensures var u, c := FromRow(w, s, id, sets, readable, t), CachesOf(s, replica);
            && u.lookups == s.lookups - {id}
            && (if !readable then CachesOf(u, replica) == c && Answers(s, u, if w.strict then None else Some(Unread))
                else Answers(s, u, Some(w.row(t))) && CachesOf(u, replica) ==
                       Caches(Some(Entry(t + TTL, w.row(t), t)),
                              if client && sets then Some(Cached(t + TTL, Encode(w.numerals, w.row(t)), t)) else c.redis))
            && forall other :: other != replica ==> CachesOf(u, other).memory == CachesOf(s, other).memory
  {}

  /** The single call and the interleaved steps agree: an undisturbed lookup leaves the caches `LookUp` says,
      answers what it says, and touches no other replica. */
  lemma CallRefinesSteps(w: World, s: State, id: nat, replica: nat, client: bool, gets: bool, sets: bool, readable: bool, t: real)
    requires id !in s.lookups && s.clock <= t && w.patience >= 0.0
    ensures var u := Undisturbed(w, s, id, replica, client, gets, sets, readable, t);
            var call := LookUp(w, CachesOf(s, replica), client, gets, sets, readable, t);
            && CachesOf(u, replica) == call.0 && u.lookups == s.lookups && Answers(s, u, call.1)
            && forall other :: other != replica ==> CachesOf(u, other).memory == CachesOf(s, other).memory
  {
    var s1 := Apply(w, s, Begin(id, replica), t);
    if id in s1.lookups {
      var s2 := Apply(w, s1, AskRedis(id, client, gets), t);
      assert s1.lookups - {id} == s.lookups && s2.lookups - {id} == s.lookups;
      if id in s2.lookups {
        RowRefines(w, s2, id, replica, client, sets, readable, t);
      }
    }
  }

  /** What a lookup leaves behind serves the lookups after it: within thirty seconds this process answers the row it
      read whatever is reachable, and a process with nothing in memory takes it from Redis; after that the row is read. */
  lemma LookupsInARow(w: World, c: Caches, client: bool, gets: bool, sets: bool, t: real, u: real, gets2: bool, sets2: bool, readable2: bool)
    requires Sane(w) && t <= u
    requires (c.memory.None? || c.memory.value.expires <= t) && (c.redis.None? || c.redis.value.expires < t || !client || !gets)
    ensures var (kept, r) := LookUp(w, c, client, gets, sets, true, t);
            && r == Some(w.row(t))
            && (u < t + 30.0 ==> LookUp(w, kept, client, gets2, sets2, readable2, u) == (kept, r))
            && (u <= t + 30.0 && client && sets && gets2 && (w.row(t).Found? ==> '|' !in w.row(t).status) ==>
                  LookUp(w, kept.(memory := None), client, gets2, sets2, readable2, u).1 == r)
            && (u > t + 30.0 && (client && !gets && gets2 ==> sets || c.redis.None?) ==>
                  LookUp(w, kept, client, gets2, sets2, readable2, u).1 ==
                  if readable2 then Some(w.row(u)) else if w.strict then None else Some(Unread))
  {
    if !w.row(t).Unread? {
      RoundTrip(w.numerals, w.row(t));
    }
  }
}
