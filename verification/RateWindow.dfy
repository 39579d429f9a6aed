/** core/auth_state.py, `check_window_rate`: the in-memory sliding window and the Redis fixed window. */
module RateWindow {
  import opened Prelude

  /** How many of the times lie in [from, to). */
  function CountIn(times: seq<real>, from: real, to: real): nat {
    if times == [] then 0
    else CountIn(times[..|times| - 1], from, to) + if from <= times[|times| - 1] < to then 1 else 0
  }

  function Within(times: seq<real>, from: real, window: real): nat {
    CountIn(times, from, from + window)
  }

  lemma CountOneMore(times: seq<real>, t: real, from: real, to: real)
    ensures CountIn(times + [t], from, to) == CountIn(times, from, to) + if from <= t < to then 1 else 0
  {
    assert (times + [t])[..|times|] == times;
  }

  lemma {:induction false} CountAtMost(times: seq<real>, from: real, to: real)
    ensures CountIn(times, from, to) <= |times|
    ensures (forall i :: 0 <= i < |times| ==> times[i] < from || to <= times[i]) ==> CountIn(times, from, to) == 0
  {
    if times != [] {
      CountAtMost(times[..|times| - 1], from, to);
    }
  }

  lemma {:induction false} CountConcat(xs: seq<real>, ys: seq<real>, from: real, to: real)
    ensures CountIn(xs + ys, from, to) == CountIn(xs, from, to) + CountIn(ys, from, to)
  {
    if ys == [] {
      assert xs + ys == xs;
    } else {
      var init := ys[..|ys| - 1];
      CountConcat(xs, init, from, to);
      assert xs + ys == (xs + init) + [ys[|ys| - 1]] && ys == init + [ys[|ys| - 1]];
      CountOneMore(xs + init, ys[|ys| - 1], from, to);
    }
  }

  ghost predicate Monotone(times: seq<real>) {
    forall i, j :: 0 <= i < j < |times| ==> times[i] <= times[j]
  }

  // ----- in memory: a sliding window -----

  /** `[t for t in times if now - t < window]`. */
  function Recent(times: seq<real>, now: real, window: real): seq<real> {
    if times == [] then []
    else
      var last := times[|times| - 1];
      var rest := Recent(times[..|times| - 1], now, window);
      if now - last < window then rest + [last] else rest
  }

  /** One call: the stamps kept after it, and whether it is let through. */
  function MemoryCall(stamps: seq<real>, now: real, limit: int, window: real): (seq<real>, bool) {
    var recent := Recent(stamps, now, window);
    if |recent| >= limit then (recent, false) else (recent + [now], true)
  }

  class MemoryWindow {
    var stamps: map<string, seq<real>>

    function Stamps(key: string): seq<real>
      reads this
    {
      if key in stamps then stamps[key] else []
    }

    constructor ()
      ensures stamps == map[]
    {
      stamps := map[];
    }

    /** The relaxed runtime's fallback; the list comprehension is a loop over the key's stamps. */
    method CheckWindowRate(key: string, limit: int, window: real, now: real) returns (blocked: bool)
      modifies this
      ensures (Stamps(key), !blocked) == MemoryCall(old(Stamps(key)), now, limit, window)
      ensures forall other :: other != key ==> Stamps(other) == old(Stamps(other))
    {
      var all, kept := Stamps(key), [];
      for i := 0 to |all|
        invariant kept == Recent(all[..i], now, window)
      {
        assert all[..i + 1][..i] == all[..i];
        if now - all[i] < window {
          kept := kept + [all[i]];
        }
      }
      assert all[..|all|] == all;
      stamps := stamps[key := kept];
      blocked := |kept| >= limit;
      if !blocked {
        stamps := stamps[key := kept + [now]];
      }
    }
  }

  /** The stamps kept after a history of calls at the given times, and the times let through. */
  function MemoryRun(times: seq<real>, limit: int, window: real): (seq<real>, seq<real>) {
    if times == [] then ([], [])
    else
      var now := times[|times| - 1];
      var before := MemoryRun(times[..|times| - 1], limit, window);
      var call := MemoryCall(before.0, now, limit, window);
      (call.0, if call.1 then before.1 + [now] else before.1)
  }

  lemma {:induction false} RecentTwice(times: seq<real>, earlier: real, now: real, window: real)
    requires earlier <= now
    ensures Recent(Recent(times, earlier, window), now, window) == Recent(times, now, window)
  {
    if times != [] {
      var init, last := times[..|times| - 1], times[|times| - 1];
      RecentTwice(init, earlier, now, window);
      RecentOneMore(Recent(init, earlier, window), last, now, window);
    }
  }

  lemma RecentOneMore(times: seq<real>, t: real, now: real, window: real)
    ensures Recent(times + [t], now, window) == if now - t < window then Recent(times, now, window) + [t] else Recent(times, now, window)
  {
    assert (times + [t])[..|times|] == times;
  }

  lemma {:induction false} RecentCounts(times: seq<real>, from: real, now: real, window: real)
    requires now < from + window
    ensures Within(times, from, window) <= |Recent(times, now, window)|
  {
    if times != [] {
      RecentCounts(times[..|times| - 1], from, now, window);
    }
  }

  /** The stamps are exactly the admitted times still inside the window at the last call. */
  lemma {:induction false} StampsAreRecent(times: seq<real>, limit: int, window: real)
    requires Monotone(times) && times != [] && window > 0.0
    ensures MemoryRun(times, limit, window).0 == Recent(MemoryRun(times, limit, window).1, times[|times| - 1], window)
  {
    var init, now := times[..|times| - 1], times[|times| - 1];
    var before := MemoryRun(init, limit, window);
    if init != [] {
      StampsAreRecent(init, limit, window);
      RecentTwice(before.1, init[|init| - 1], now, window);
    }
    RecentOneMore(before.1, now, now, window);
  }

  /** How many of the times lie after `cut`. */
  function CountAfter(times: seq<real>, cut: real): nat {
    if times == [] then 0 else CountAfter(times[..|times| - 1], cut) + if cut < times[|times| - 1] then 1 else 0
  }

  lemma {:induction false} RecentCountsAfter(times: seq<real>, now: real, window: real)
    ensures |Recent(times, now, window)| == CountAfter(times, now - window)
  {
    if times != [] {
      RecentCountsAfter(times[..|times| - 1], now, window);
    }
  }

  /** Who is let through, exactly: a call at `now` after any history is, if and only if fewer than `limit` calls were
      let through in the window that ends at it. Refused calls do not count against anyone. */
  lemma AdmittedExactly(times: seq<real>, now: real, limit: int, window: real)
    requires Monotone(times + [now]) && window > 0.0
    ensures var admitted := MemoryRun(times, limit, window).1;
            MemoryRun(times + [now], limit, window).1 ==
            if CountAfter(admitted, now - window) < limit then admitted + [now] else admitted
  {
    var all := times + [now];
    assert all[..|times|] == times && forall i :: 0 <= i < |times| ==> all[i] == times[i];
    var before := MemoryRun(times, limit, window);
    if times != [] {
      StampsAreRecent(times, limit, window);
      assert all[|times| - 1] <= all[|times|];
      RecentTwice(before.1, times[|times| - 1], now, window);
    }
    RecentCountsAfter(before.1, now, window);
  }

  /** The sliding window keeps its promise: in any half-open interval of the window's length, over any history
      with a monotone clock, at most `limit` calls are let through (none for a limit of zero or less). */
  lemma {:induction false} SlidingWindowBound(times: seq<real>, limit: int, window: real, from: real)
    requires Monotone(times) && window > 0.0
    ensures Within(MemoryRun(times, limit, window).1, from, window) <= if limit < 0 then 0 else limit
  {
    if times != [] {
      var init, now := times[..|times| - 1], times[|times| - 1];
      SlidingWindowBound(init, limit, window, from);
      var before := MemoryRun(init, limit, window);
      CountOneMore(before.1, now, from, from + window);
      if from <= now < from + window {
        RecentCounts(before.1, from, now, window);
        if init != [] {
          StampsAreRecent(init, limit, window);
          RecentTwice(before.1, init[|init| - 1], now, window);
        }
      }
    }
  }

  // ----- in Redis: a fixed window -----

  type Positive = n: int | n >= 1 witness 1

  /** The counter of a key. It has no expiry until the caller that created it, at `creator`, has set one; if that
      caller fails before, it never gets one. */
  datatype Counter = Counter(count: Positive, expires: Option<real>, creator: Option<real>)

  predicate Alive(c: Option<Counter>, now: real) {
    c.Some? && (c.value.expires.None? || now <= c.value.expires.value)
  }

  /** What reaches Redis, from any replica: INCR (whose answer may be lost, so that the strict runtime raises), and
      EXPIRE from the caller that counted one. */
  datatype Event = Incr(now: real, answered: bool) | Expire(now: real)

  /** One command: the counter after it, and the time of a call it lets through. A call is let through by its own
      INCR, except the first, which returns only after EXPIRE; each is dated by its INCR. */
  function RedisStep(c: Option<Counter>, e: Event, limit: int, window: real): (Option<Counter>, Option<real>) {
    match e
    case Incr(now, answered) =>
      if Alive(c, now) then
        (Some(c.value.(count := c.value.count + 1)), if answered && c.value.count + 1 <= limit then Some(now) else None)
      else (Some(Counter(1, None, if answered then Some(now) else None)), None)
    case Expire(now) =>
      if Alive(c, now) && c.value.expires.None? && c.value.creator.Some? then
        (Some(c.value.(expires := Some(now + window), creator := None)), if 1 <= limit then c.value.creator else None)
      else (c, None)
  }

  /** Where the connection of one call fails, if it does. */
  datatype Fault = NoFault | BeforeIncr | AfterIncr

  class RedisWindow {
    var counters: map<string, Counter>

    function CounterOf(key: string): Option<Counter>
      reads this
    {
      if key in counters then Some(counters[key]) else None
    }

    constructor ()
      ensures counters == map[]
    {
      counters := map[];
    }

    /** `check_window_rate` in the strict runtime with no other call in between: INCR at `now`, EXPIRE at `later`
        when this call counted one; `None` is the `RuntimeError`. */
    method CheckWindowRate(key: string, limit: int, window: real, now: real, later: real, fault: Fault) returns (blocked: Option<bool>)
      requires now <= later
      modifies this
      ensures blocked.None? <==> !fault.NoFault?
      ensures fault.BeforeIncr? ==> CounterOf(key) == old(CounterOf(key))
      ensures !fault.BeforeIncr? ==>
                var first := RedisStep(old(CounterOf(key)), Incr(now, fault.NoFault?), limit, window);
                var second := RedisStep(first.0, Expire(later), limit, window);
                if fault.NoFault? && !Alive(old(CounterOf(key)), now)
                then CounterOf(key) == second.0 && (blocked == Some(false) <==> second.1 == Some(now))
                else CounterOf(key) == first.0 && (blocked == Some(false) <==> first.1 == Some(now))
      ensures forall other :: other != key ==> CounterOf(other) == old(CounterOf(other))
    {
      if fault.BeforeIncr? {
        return None;
      }
      var count := 1;
      if Alive(CounterOf(key), now) {
        count := counters[key].count + 1;
        counters := counters[key := counters[key].(count := count)];
      } else {
        counters := counters[key := Counter(1, None, if fault.NoFault? then Some(now) else None)];
      }
      if fault.AfterIncr? {
        return None;
      }
      if count == 1 {
        counters := counters[key := counters[key].(expires := Some(later + window), creator := None)];
      }
      blocked := Some(count > limit);
    }
  }

  ghost predicate InOrder(events: seq<Event>) {
    forall i, j :: 0 <= i < j < |events| ==> events[i].now <= events[j].now
  }

  /** The counter after a history of commands, and the times let through. */
  function RedisRun(events: seq<Event>, limit: int, window: real): (Option<Counter>, seq<real>) {
    if events == [] then (None, [])
    else
      var before := RedisRun(events[..|events| - 1], limit, window);
      var r := RedisStep(before.0, events[|events| - 1], limit, window);
      (r.0, before.1 + Stamp(r.1))
  }

  function Stamp(t: Option<real>): seq<real> {
    if t.Some? then [t.value] else []
  }

  /** The admitted times, split at the birth of the counter in force: those before it, that of the call that
      created it, and those since, of which there are fewer than `limit`. */
  datatype Era = Era(past: seq<real>, born: seq<real>, since: seq<real>, start: real)

  /** All that was let through; a creator's time is noted after the times of calls counted before its EXPIRE. */
  function All(e: Era): seq<real> {
    e.past + e.born + e.since
  }

  ghost function EraStep(e: Era, c: Option<Counter>, event: Event, limit: int, window: real): Era {
    var stamp := Stamp(RedisStep(c, event, limit, window).1);
    match event
    case Incr(now, _) => if Alive(c, now) then e.(since := e.since + stamp) else Era(All(e), [], [], now)
    case Expire(_) => e.(born := e.born + stamp)
  }

  ghost predicate EraInv(e: Era, c: Option<Counter>, limit: int, window: real, clock: real) {
    && (c.None? ==> All(e) == [])
    && (forall i :: 0 <= i < |e.past| ==> e.past[i] < e.start)
    && (forall i :: 0 <= i < |e.born| ==> e.born[i] == e.start)
    && (forall i :: 0 <= i < |e.since| ==> e.start <= e.since[i] <= clock)
    && |e.born| <= 1
    && (c.Some? ==> && e.start <= clock && |e.since| < c.value.count && |e.since| < limit
                    && (c.value.expires.Some? ==> forall i :: 0 <= i < |e.since| ==> e.since[i] <= c.value.expires.value)
                    && (c.value.creator.Some? ==> e.born == [] && c.value.creator.value == e.start)
                    && (c.value.expires.Some? ==> c.value.creator.None? && c.value.expires.value >= e.start + window))
  }

  ghost predicate PastInv(e: Era, limit: int, window: real) {
    && (forall from: real :: Within(e.past, from, window) <= 2 * limit - 1)
    && (forall from: real :: from + window > e.start ==> Within(e.past, from, window) <= limit - 1)
  }

  /** A counter that has lapsed leaves only earlier times behind. */
  lemma LapsedIsPast(e: Era, c: Option<Counter>, now: real, limit: int, window: real, clock: real)
    requires window > 0.0 && EraInv(e, c, limit, window, clock) && !Alive(c, now)
    ensures forall i :: 0 <= i < |All(e)| ==> All(e)[i] < now
  {
    forall i | 0 <= i < |All(e)| ensures All(e)[i] < now {
      var n, m := |e.past|, |e.past| + |e.born|;
      assert All(e)[i] == if i < n then e.past[i] else if i < m then e.born[i - n] else e.since[i - m];
    }
  }

  lemma IncrKeeps(e: Era, c: Option<Counter>, event: Event, limit: int, window: real, clock: real)
    requires limit >= 1 && EraInv(e, c, limit, window, clock) && clock <= event.now && event.Incr? && Alive(c, event.now)
    ensures EraInv(EraStep(e, c, event, limit, window), RedisStep(c, event, limit, window).0, limit, window, event.now)
  {}

  lemma ExpireKeeps(e: Era, c: Option<Counter>, event: Event, limit: int, window: real, clock: real)
    requires limit >= 1 && window > 0.0 && EraInv(e, c, limit, window, clock) && clock <= event.now && event.Expire?
    ensures EraInv(EraStep(e, c, event, limit, window), RedisStep(c, event, limit, window).0, limit, window, event.now)
  {
    assert e.past + e.born + e.since == All(e);
  }

  lemma EraStepKeeps(e: Era, c: Option<Counter>, event: Event, limit: int, window: real, clock: real)
    requires limit >= 1 && window > 0.0 && EraInv(e, c, limit, window, clock) && clock <= event.now
    ensures EraInv(EraStep(e, c, event, limit, window), RedisStep(c, event, limit, window).0, limit, window, event.now)
  {
    if event.Expire? {
      ExpireKeeps(e, c, event, limit, window, clock);
    } else if Alive(c, event.now) {
      IncrKeeps(e, c, event, limit, window, clock);
    } else {
      LapsedIsPast(e, c, event.now, limit, window, clock);
    }
  }

  /** How many of an era's calls an interval sees. */
  lemma EraCounts(e: Era, from: real, window: real)
    ensures Within(All(e), from, window) == Within(e.past, from, window) + Within(e.born, from, window) + Within(e.since, from, window)
  {
    CountConcat(e.past + e.born, e.since, from, from + window);
    CountConcat(e.past, e.born, from, from + window);
  }

  /** An interval sees at most the whole of the current era and all but the first call of the one before. */
  lemma WindowOfEra(e: Era, c: Option<Counter>, limit: int, window: real, clock: real, from: real)
    requires limit >= 1 && EraInv(e, c, limit, window, clock) && PastInv(e, limit, window)
    ensures Within(All(e), from, window) <= 2 * limit - 1
  {
    EraCounts(e, from, window);
    CountAtMost(e.born, from, from + window);
    CountAtMost(e.since, from, from + window);
    assert |All(e)| == |e.past| + |e.born| + |e.since|;
    assert Within(e.past, from, window) <= 2 * limit - 1;
  }

  lemma NewEraPast(e: Era, c: Option<Counter>, now: real, limit: int, window: real, clock: real)
    requires limit >= 1 && window > 0.0 && EraInv(e, c, limit, window, clock) && PastInv(e, limit, window) && !Alive(c, now)
    ensures PastInv(Era(All(e), [], [], now), limit, window)
  {
    forall from: real ensures Within(All(e), from, window) <= 2 * limit - 1 {
      WindowOfEra(e, c, limit, window, clock, from);
    }
    forall from: real | from + window > now ensures Within(All(e), from, window) <= limit - 1 {
      EraCounts(e, from, window);
      CountAtMost(e.past, from, from + window);
      CountAtMost(e.born, from, from + window);
      CountAtMost(e.since, from, from + window);
      assert |All(e)| == |e.past| + |e.born| + |e.since|;
    }
  }

  ghost function EraOf(events: seq<Event>, limit: int, window: real): Era {
    if events == [] then Era([], [], [], 0.0)
    else
      var init := events[..|events| - 1];
      EraStep(EraOf(init, limit, window), RedisRun(init, limit, window).0, events[|events| - 1], limit, window)
  }

  lemma EraStepCounts(e: Era, c: Option<Counter>, event: Event, limit: int, window: real, from: real)
    ensures Within(All(EraStep(e, c, event, limit, window)), from, window)
            == Within(All(e), from, window) + Within(Stamp(RedisStep(c, event, limit, window).1), from, window)
  {
    var stamp := Stamp(RedisStep(c, event, limit, window).1);
    var next := EraStep(e, c, event, limit, window);
    if event.Expire? {
      assert next == e.(born := e.born + stamp);
      StampedCounts(e, stamp, from, window);
    } else if Alive(c, event.now) {
      assert next == e.(since := e.since + stamp);
      StampedCounts(e, stamp, from, window);
    } else {
      assert All(next) == All(e) && stamp == [];
    }
  }

  lemma StampedCounts(e: Era, stamp: seq<real>, from: real, window: real)
    ensures Within(All(e.(born := e.born + stamp)), from, window) == Within(All(e), from, window) + Within(stamp, from, window)
    ensures Within(All(e.(since := e.since + stamp)), from, window) == Within(All(e), from, window) + Within(stamp, from, window)
  {
    EraCounts(e, from, window);
    EraCounts(e.(born := e.born + stamp), from, window);
    EraCounts(e.(since := e.since + stamp), from, window);
    CountConcat(e.born, stamp, from, from + window);
    CountConcat(e.since, stamp, from, from + window);
  }

  /** The era accounts for everything let through. */
  lemma {:induction false} EraAccounts(events: seq<Event>, limit: int, window: real, from: real)
    ensures Within(RedisRun(events, limit, window).1, from, window) == Within(All(EraOf(events, limit, window)), from, window)
  {
    if events != [] {
      var init, event := events[..|events| - 1], events[|events| - 1];
      EraAccounts(init, limit, window, from);
      var before := RedisRun(init, limit, window);
      EraStepCounts(EraOf(init, limit, window), before.0, event, limit, window, from);
      CountConcat(before.1, Stamp(RedisStep(before.0, event, limit, window).1), from, from + window);
    }
  }

  function Clock(events: seq<Event>): real {
    if events == [] then 0.0 else events[|events| - 1].now
  }

  lemma {:induction false} RunKeepsEra(events: seq<Event>, limit: int, window: real)
    requires InOrder(events) && limit >= 1 && window > 0.0
    ensures var c, e := RedisRun(events, limit, window).0, EraOf(events, limit, window);
            EraInv(e, c, limit, window, Clock(events)) && PastInv(e, limit, window)
  {
    if events != [] {
      var init, event := events[..|events| - 1], events[|events| - 1];
      RunKeepsEra(init, limit, window);
      var c, e := RedisRun(init, limit, window).0, EraOf(init, limit, window);
      var clock := if init == [] then event.now else Clock(init);
      EraStepKeeps(e, c, event, limit, window, clock);
      if event.Incr? && !Alive(c, event.now) {
        NewEraPast(e, c, event.now, limit, window, clock);
      }
    }
  }

  /** The fixed window, for any interleaving of commands from any replicas: any half-open interval of the window's
      length sees fewer than twice the limit, and no call at all is let through for a limit of zero or less. */
  lemma FixedWindowBound(events: seq<Event>, limit: int, window: real, from: real)
    requires InOrder(events) && window > 0.0
    ensures Within(RedisRun(events, limit, window).1, from, window) <= if limit >= 1 then 2 * limit - 1 else 0
  {
    if limit >= 1 {
      RunKeepsEra(events, limit, window);
      EraAccounts(events, limit, window, from);
      WindowOfEra(EraOf(events, limit, window), RedisRun(events, limit, window).0, limit, window, Clock(events), from);
    } else {
      NothingAtZero(events, limit, window);
    }
  }

  lemma {:induction false} NothingAtZero(events: seq<Event>, limit: int, window: real)
    requires limit <= 0
    ensures RedisRun(events, limit, window).1 == []
  {
    if events != [] {
      NothingAtZero(events[..|events| - 1], limit, window);
    }
  }

  // ----- the bound is reached, for every limit -----

  lemma RunOneMore(events: seq<Event>, e: Event, limit: int, window: real)
    ensures var before := RedisRun(events, limit, window);
            var r := RedisStep(before.0, e, limit, window);
            RedisRun(events + [e], limit, window) == (r.0, before.1 + Stamp(r.1))
  {
    assert (events + [e])[..|events|] == events;
  }

  function Seen(t: Option<real>, from: real, window: real): nat {
    if t.Some? && from <= t.value < from + window then 1 else 0
  }

  /** A claim about moments, counters and how many calls of the interval [from, from + window) have got through. */
  type Claim = (real, Option<Counter>, int) -> bool

  /** Whatever holds goes on holding as time passes and commands arrive. */
  ghost predicate Closed(holds: Claim, limit: int, window: real, from: real) {
    && (forall clock, c, seen, e: Event :: holds(clock, c, seen) && clock <= e.now ==>
          holds(e.now, RedisStep(c, e, limit, window).0, seen + Seen(RedisStep(c, e, limit, window).1, from, window)))
    && (forall clock, c, seen, later :: holds(clock, c, seen) && clock <= later ==> holds(later, c, seen))
  }

  /** A burst on a live counter with room for it goes through whole. */
  lemma {:induction false} BurstPasses(holds: Claim, n: nat, limit: int, window: real, from: real, now: real, c: Counter, seen: int)
    requires Closed(holds, limit, window, from) && holds(now, Some(c), seen)
    requires Alive(Some(c), now) && c.count + n <= limit && from <= now < from + window
    ensures holds(now, Some(c.(count := c.count + n)), seen + n)
    decreases n
  {
    if n > 0 {
      var e := Incr(now, true);
      assert RedisStep(Some(c), e, limit, window) == (Some(c.(count := c.count + 1)), Some(now));
      assert holds(e.now, RedisStep(Some(c), e, limit, window).0, seen + Seen(RedisStep(Some(c), e, limit, window).1, from, window));
      BurstPasses(holds, n - 1, limit, window, from, now, c.(count := c.count + 1), seen + 1);
    }
  }

  /** A window opens when none is in force. */
  lemma Opens(holds: Claim, limit: int, window: real, from: real, clock: real, c: Option<Counter>, seen: int, now: real)
    requires Closed(holds, limit, window, from) && holds(clock, c, seen)
    requires clock <= now < from + window && !Alive(c, now) && limit >= 1
    ensures holds(now, Some(Counter(1, Some(now + window), None)), seen + if from <= now then 1 else 0)
  {
    var incr, expire := Incr(now, true), Expire(now);
    var born := Some(Counter(1, None, Some(now)));
    assert RedisStep(c, incr, limit, window) == (born, None);
    assert holds(incr.now, RedisStep(c, incr, limit, window).0, seen + Seen(RedisStep(c, incr, limit, window).1, from, window));
    assert RedisStep(born, expire, limit, window) == (Some(Counter(1, Some(now + window), None)), Some(now));
    assert holds(expire.now, RedisStep(born, expire, limit, window).0, seen + Seen(RedisStep(born, expire, limit, window).1, from, window));
  }

  /** A window opens at `now`, and at `later`, while it is in force, every further call it allows gets through. */
  lemma Fills(holds: Claim, limit: int, window: real, from: real, clock: real, c: Option<Counter>, seen: int, now: real, later: real)
    requires Closed(holds, limit, window, from) && holds(clock, c, seen)
    requires clock <= now <= later <= now + window && !Alive(c, now) && limit >= 1 && from <= later < from + window
    ensures holds(later, Some(Counter(limit, Some(now + window), None)), seen + limit - if from <= now then 0 else 1)
  {
    Opens(holds, limit, window, from, clock, c, seen, now);
    BurstPasses(holds, limit - 1, limit, window, from, later, Counter(1, Some(now + window), None), seen + if from <= now then 1 else 0);
  }

  /** Twice the limit less one. */
  function Most(limit: int): int {
    2 * limit - 1
  }

  /** One call opens a window, at its last moment `limit - 1` more get through, and right after it `limit`. */
  lemma EdgeHolds(holds: Claim, limit: nat, window: real)
    requires limit >= 1 && window > 0.0 && Closed(holds, limit, window, window) && holds(0.0, None, 0)
    ensures exists clock, c :: holds(clock, c, Most(limit))
  {
    var late := window + window / 2.0;
    Fills(holds, limit, window, window, 0.0, None, 0, 0.0, window);
    Fills(holds, limit, window, window, window, Some(Counter(limit, Some(window), None)), limit - 1, late, late);
    assert holds(late, Some(Counter(limit, Some(late + window), None)), Most(limit));
  }

  /** A history up to `clock` after which the counter is this one and the interval has seen so many. */
  ghost predicate Witness(events: seq<Event>, limit: int, window: real, from: real, clock: real, c: Option<Counter>, seen: int) {
    && InOrder(events) && (forall i :: 0 <= i < |events| ==> events[i].now <= clock)
    && RedisRun(events, limit, window).0 == c && Within(RedisRun(events, limit, window).1, from, window) == seen
  }

  ghost predicate Reaches(limit: int, window: real, from: real, clock: real, c: Option<Counter>, seen: int) {
    exists events :: Witness(events, limit, window, from, clock, c, seen)
  }

  lemma SeenOneMore(stamps: seq<real>, t: Option<real>, from: real, window: real)
    ensures Within(stamps + Stamp(t), from, window) == Within(stamps, from, window) + Seen(t, from, window)
  {
    if t.Some? {
      CountOneMore(stamps, t.value, from, from + window);
    } else {
      assert stamps + [] == stamps;
    }
  }

  lemma OrderOneMore(events: seq<Event>, e: Event, clock: real)
    requires InOrder(events) && (forall i :: 0 <= i < |events| ==> events[i].now <= clock) && clock <= e.now
    ensures InOrder(events + [e]) && forall i :: 0 <= i < |events + [e]| ==> (events + [e])[i].now <= e.now
  {}

  lemma WitnessOneMore(events: seq<Event>, limit: int, window: real, from: real, clock: real, c: Option<Counter>, seen: int, e: Event)
    requires Witness(events, limit, window, from, clock, c, seen) && clock <= e.now
    ensures var r := RedisStep(c, e, limit, window);
            Witness(events + [e], limit, window, from, e.now, r.0, seen + Seen(r.1, from, window))
  {
    RunOneMore(events, e, limit, window);
    OrderOneMore(events, e, clock);
    SeenOneMore(RedisRun(events, limit, window).1, RedisStep(c, e, limit, window).1, from, window);
  }

  lemma ReachesOneMore(limit: int, window: real, from: real, clock: real, c: Option<Counter>, seen: int, e: Event)
    requires Reaches(limit, window, from, clock, c, seen) && clock <= e.now
    ensures var r := RedisStep(c, e, limit, window);
            Reaches(limit, window, from, e.now, r.0, seen + Seen(r.1, from, window))
  {
    var events :| Witness(events, limit, window, from, clock, c, seen);
    WitnessOneMore(events, limit, window, from, clock, c, seen, e);
  }

  lemma ReachesLater(limit: int, window: real, from: real, clock: real, c: Option<Counter>, seen: int, later: real)
    requires Reaches(limit, window, from, clock, c, seen) && clock <= later
    ensures Reaches(limit, window, from, later, c, seen)
  {
    var events :| Witness(events, limit, window, from, clock, c, seen);
    assert Witness(events, limit, window, from, later, c, seen);
  }

  /** The bound of `FixedWindowBound` is exact: for every limit and every window some history reaches it. */
  lemma EdgeOfTwoWindows(limit: nat, window: real)
    requires limit >= 1 && window > 0.0
    ensures exists events :: InOrder(events) && Within(RedisRun(events, limit, window).1, window, window) == 2 * limit - 1
  {
    var holds: Claim := (clock, c, seen) => Reaches(limit, window, window, clock, c, seen);
    var none: seq<Event> := [];
    assert Witness(none, limit, window, window, 0.0, None, 0);
    forall clock, c, seen, e: Event | holds(clock, c, seen) && clock <= e.now
      ensures holds(e.now, RedisStep(c, e, limit, window).0, seen + Seen(RedisStep(c, e, limit, window).1, window, window))
    {
      ReachesOneMore(limit, window, window, clock, c, seen, e);
    }
    forall clock, c, seen, later | holds(clock, c, seen) && clock <= later ensures holds(later, c, seen) {
      ReachesLater(limit, window, window, clock, c, seen, later);
    }
    EdgeHolds(holds, limit, window);
    var clock, c :| holds(clock, c, Most(limit));
    var events :| Witness(events, limit, window, window, clock, c, Most(limit));
  }
}
