/** auth/httpsig_keys.py: the key-fetch budget, a token bucket with an in-flight cap. */
module FetchBudget {
  import opened Prelude

  /** The bucket's settings and state; `updated` is a monotonic clock reading. */
  datatype Bucket = Bucket(burst: nat, rate: real, maxInFlight: nat, tokens: real, inFlight: nat, updated: real)

  ghost predicate Valid(b: Bucket) {
    b.rate >= 0.0 && 0.0 <= b.tokens <= b.burst as real && b.inFlight <= b.maxInFlight
  }

  function Full(burst: nat, rate: real, maxInFlight: nat, now: real): Bucket {
    Bucket(burst, rate, maxInFlight, burst as real, 0, now)
  }

  function Min(x: real, y: real): real {
    if x <= y then x else y
  }

  /** What flows in over a span of time. */
  function Inflow(rate: real, span: real): real {
    span * rate
  }

  function Refilled(b: Bucket, now: real): Bucket {
    b.(tokens := Min(b.burst as real, b.tokens + Inflow(b.rate, now - b.updated)), updated := now)
  }

  /** `try_acquire`. */
  function Acquire(b: Bucket, now: real): (Bucket, bool) {
    var r := Refilled(b, now);
    if r.inFlight >= r.maxInFlight || r.tokens < 1.0 then (r, false)
    else (r.(tokens := r.tokens - 1.0, inFlight := r.inFlight + 1), true)
  }

  /** `release`. */
  function Release(b: Bucket): Bucket {
    b.(inFlight := if b.inFlight > 0 then b.inFlight - 1 else 0)
  }

  class FetchBudgetGate {
    const burst: nat
    const rate: real
    const maxInFlight: nat
    var tokens: real
    var inFlight: nat
    var updated: real

    function State(): Bucket
      reads this
    {
      Bucket(burst, rate, maxInFlight, tokens, inFlight, updated)
    }

    constructor (burst: nat, rate: real, maxInFlight: nat, now: real)
      ensures State() == Full(burst, rate, maxInFlight, now)
    {
      this.burst, this.rate, this.maxInFlight := burst, rate, maxInFlight;
      tokens, inFlight, updated := burst as real, 0, now;
    }

    method TryAcquire(now: real) returns (ok: bool)
      modifies this
      ensures (State(), ok) == Acquire(old(State()), now)
    {
      tokens := Min(burst as real, tokens + Inflow(rate, now - updated));
      updated := now;
      if inFlight >= maxInFlight || tokens < 1.0 {
        return false;
      }
      tokens := tokens - 1.0;
      inFlight := inFlight + 1;
      return true;
    }

    method ReleaseSlot()
      modifies this`inFlight
      ensures State() == Release(old(State()))
    {
      inFlight := if inFlight > 0 then inFlight - 1 else 0;
    }
  }

  // ----- histories -----

  datatype Event = TryAcquire(now: real) | Done

  /** The bucket after a history, and the times of the successful acquisitions. */
  function After(b0: Bucket, events: seq<Event>): (Bucket, seq<real>) {
    if events == [] then (b0, [])
    else
      var before := After(b0, events[..|events| - 1]);
      match events[|events| - 1]
      case TryAcquire(now) =>
        var r := Acquire(before.0, now);
        (r.0, if r.1 then before.1 + [now] else before.1)
      case Done => (Release(before.0), before.1)
  }

  /** The clock never goes back. */
  ghost predicate OnTime(b0: Bucket, events: seq<Event>) {
    && (forall i :: 0 <= i < |events| && events[i].TryAcquire? ==> b0.updated <= events[i].now)
    && (forall i, j :: 0 <= i < j < |events| && events[i].TryAcquire? && events[j].TryAcquire? ==> events[i].now <= events[j].now)
  }

  function Releases(events: seq<Event>): nat {
    if events == [] then 0
    else Releases(events[..|events| - 1]) + if events[|events| - 1].Done? then 1 else 0
  }

  /** `release` is only ever called for a slot that was acquired: `_fetch` calls it in a `finally`. */
  ghost predicate Matched(b0: Bucket, events: seq<Event>) {
    forall n :: 0 <= n <= |events| ==> Releases(events[..n]) <= |After(b0, events[..n]).1|
  }

  lemma InflowGrows(rate: real, x: real, y: real)
    requires rate >= 0.0 && x <= y
    ensures Inflow(rate, x) <= Inflow(rate, y) && Inflow(rate, 0.0) == 0.0
  {
    assert (y - x) * rate >= 0.0;
  }

  /** The rate is what flows in over one second. */
  lemma InflowPerSecond(rate: real)
    ensures Inflow(rate, 1.0) == rate
  {}

  lemma InflowAdds(rate: real, x: real, y: real)
    ensures Inflow(rate, x) + Inflow(rate, y) == Inflow(rate, x + y)
  {}

  lemma RefillKeeps(b: Bucket, now: real)
    requires Valid(b) && b.updated <= now
    ensures Valid(Refilled(b, now)) && Refilled(b, now).tokens <= b.tokens + Inflow(b.rate, now - b.updated)
  {
    InflowGrows(b.rate, 0.0, now - b.updated);
  }

  /** In every history the tokens stay within [0, burst], the cap is never exceeded, the settings never change,
      and the last reading is the clock of some call. */
  lemma {:induction false} HistoryKeeps(b0: Bucket, events: seq<Event>)
    requires Valid(b0) && OnTime(b0, events)
    ensures var b := After(b0, events).0;
            && Valid(b) && b.burst == b0.burst && b.rate == b0.rate && b.maxInFlight == b0.maxInFlight
            && b0.updated <= b.updated
            && (b.updated == b0.updated || exists i :: 0 <= i < |events| && events[i].TryAcquire? && b.updated == events[i].now)
  {
    if events != [] {
      var init, last := events[..|events| - 1], events[|events| - 1];
      HistoryKeeps(b0, init);
      if last.TryAcquire? {
        assert After(b0, init).0.updated <= last.now;
        RefillKeeps(After(b0, init).0, last.now);
        assert events[|events| - 1].now == last.now;
      } else {
        assert forall i :: 0 <= i < |init| ==> events[i] == init[i];
      }
    }
  }

  /** Acquisitions at or after `from`. */
  function CountSince(times: seq<real>, from: real): nat {
    if times == [] then 0
    else CountSince(times[..|times| - 1], from) + if from <= times[|times| - 1] then 1 else 0
  }

  function CountBetween(times: seq<real>, from: real, to: real): nat {
    if times == [] then 0
    else CountBetween(times[..|times| - 1], from, to) + if from <= times[|times| - 1] <= to then 1 else 0
  }

  lemma SinceOneMore(times: seq<real>, t: real, from: real)
    ensures CountSince(times + [t], from) == CountSince(times, from) + if from <= t then 1 else 0
  {
    assert (times + [t])[..|times|] == times;
  }

  lemma BetweenOneMore(times: seq<real>, t: real, from: real, to: real)
    ensures CountBetween(times + [t], from, to) == CountBetween(times, from, to) + if from <= t <= to then 1 else 0
  {
    assert (times + [t])[..|times|] == times;
  }

  lemma {:induction false} BetweenAtMostSince(times: seq<real>, from: real, to: real)
    ensures CountBetween(times, from, to) <= CountSince(times, from)
  {
    if times != [] {
      BetweenAtMostSince(times[..|times| - 1], from, to);
    }
  }

  /** What has been spent since `from` was either in the bucket or flowed in since. */
  ghost predicate Paid(b: Bucket, times: seq<real>, from: real) {
    if b.updated < from then CountSince(times, from) == 0
    else CountSince(times, from) as real + b.tokens <= b.burst as real + Inflow(b.rate, b.updated - from)
  }

  lemma RefillPays(b: Bucket, times: seq<real>, from: real, now: real)
    requires Valid(b) && b.updated <= now && from <= now && Paid(b, times, from)
    ensures Paid(Refilled(b, now), times, from)
  {
    if from <= b.updated {
      InflowAdds(b.rate, b.updated - from, now - b.updated);
    } else {
      InflowGrows(b.rate, 0.0, now - from);
    }
  }

  lemma AcquirePays(b: Bucket, times: seq<real>, from: real, now: real)
    requires Valid(b) && b.updated <= now && Paid(b, times, from)
    ensures var r := Acquire(b, now); Paid(r.0, if r.1 then times + [now] else times, from)
  {
    SinceOneMore(times, now, from);
    if from <= now {
      RefillPays(b, times, from, now);
    }
  }

  lemma {:induction false} HistoryPays(b0: Bucket, events: seq<Event>, from: real)
    requires Valid(b0) && OnTime(b0, events)
    ensures Paid(After(b0, events).0, After(b0, events).1, from)
  {
    if events == [] {
      if from <= b0.updated {
        InflowGrows(b0.rate, 0.0, b0.updated - from);
      }
    } else {
      var init, last := events[..|events| - 1], events[|events| - 1];
      HistoryPays(b0, init, from);
      HistoryKeeps(b0, init);
      if last.TryAcquire? {
        AcquirePays(After(b0, init).0, After(b0, init).1, from, last.now);
      }
    }
  }

  lemma PaidBounds(b: Bucket, times: seq<real>, from: real, d: real)
    requires Valid(b) && Paid(b, times, from) && from <= b.updated <= from + d
    ensures CountBetween(times, from, from + d) as real <= b.burst as real + Inflow(b.rate, d)
  {
    BetweenAtMostSince(times, from, from + d);
    InflowGrows(b.rate, b.updated - from, d);
  }

  /** The token bucket bound: in any interval [from, from + d] at most burst + rate * d fetches start. */
  lemma {:induction false} BucketBound(b0: Bucket, events: seq<Event>, from: real, d: real)
    requires Valid(b0) && OnTime(b0, events) && d >= 0.0
    ensures CountBetween(After(b0, events).1, from, from + d) as real <= b0.burst as real + Inflow(b0.rate, d)
  {
    InflowGrows(b0.rate, 0.0, d);
    if events != [] {
      var init, last := events[..|events| - 1], events[|events| - 1];
      BucketBound(b0, init, from, d);
      if last.TryAcquire? {
        BetweenOneMore(After(b0, init).1, last.now, from, from + d);
        if from <= last.now <= from + d {
          HistoryPays(b0, events, from);
          HistoryKeeps(b0, events);
          PaidBounds(After(b0, events).0, After(b0, events).1, from, d);
        }
      }
    }
  }

  /** Since some moment `from` the bucket has taken in everything that flowed: what is left and what was spent since
      add up to a full bucket and that inflow. */
  ghost predicate Accounted(b: Bucket, times: seq<real>, start: real, from: real) {
    start <= from <= b.updated && CountSince(times, from) as real + b.tokens == b.burst as real + Inflow(b.rate, b.updated - from)
  }

  lemma AcquireAccounts(b: Bucket, times: seq<real>, start: real, from: real, now: real) returns (since: real)
    requires Valid(b) && b.updated <= now && Accounted(b, times, start, from) && Paid(b, times, now)
    ensures Accounted(Refilled(b, now), times, start, since)
    ensures var r := Acquire(b, now); Accounted(r.0, if r.1 then times + [now] else times, start, since)
  {
    if b.burst as real <= b.tokens + Inflow(b.rate, now - b.updated) {
      since := now;
      InflowGrows(b.rate, 0.0, 0.0);
      assert CountSince(times, now) == 0;
    } else {
      since := from;
      InflowAdds(b.rate, b.updated - from, now - b.updated);
    }
    SinceOneMore(times, now, since);
  }

  lemma {:induction false} HistoryAccounts(b0: Bucket, events: seq<Event>) returns (from: real)
    requires Valid(b0) && b0.tokens == b0.burst as real && OnTime(b0, events)
    ensures Accounted(After(b0, events).0, After(b0, events).1, b0.updated, from)
  {
    if events == [] {
      from := b0.updated;
      InflowGrows(b0.rate, 0.0, 0.0);
    } else {
      var init, last := events[..|events| - 1], events[|events| - 1];
      from := HistoryAccounts(b0, init);
      HistoryKeeps(b0, init);
      if last.TryAcquire? {
        HistoryPays(b0, init, last.now);
        from := AcquireAccounts(After(b0, init).0, After(b0, init).1, b0.updated, from, last.now);
      }
    }
  }

  /** One more fetch at `now` keeps the bound on every interval that ends then. */
  ghost predicate Affordable(b: Bucket, times: seq<real>, start: real, now: real) {
    forall from :: start <= from <= now ==> CountSince(times, from) as real + 1.0 <= b.burst as real + Inflow(b.rate, now - from)
  }

  /** The budget refuses nobody without cause. A fetch is let through exactly when a slot is free and one more start
      keeps burst + rate * d on every interval up to now: after a pause the bucket has refilled. */
  lemma GrantedExactly(b0: Bucket, events: seq<Event>, now: real)
    requires Valid(b0) && b0.tokens == b0.burst as real && OnTime(b0, events + [TryAcquire(now)])
    ensures var (b, times) := After(b0, events);
            Acquire(b, now).1 <==> b.inFlight < b0.maxInFlight && Affordable(b0, times, b0.updated, now)
  {
    var more := events + [TryAcquire(now)];
    assert forall i :: 0 <= i < |events| ==> more[i] == events[i];
    assert more[|events|] == TryAcquire(now);
    HistoryKeeps(b0, events);
    var (b, times) := After(b0, events);
    HistoryPays(b0, events, now);
    var from := HistoryAccounts(b0, events);
    from := AcquireAccounts(b, times, b0.updated, from, now);
    if Refilled(b, now).tokens < 1.0 {
      assert CountSince(times, from) as real + 1.0 > b0.burst as real + Inflow(b0.rate, now - from);
    } else {
      forall f | b0.updated <= f <= now ensures CountSince(times, f) as real + 1.0 <= b0.burst as real + Inflow(b0.rate, now - f) {
        HistoryPays(b0, events, f);
        RefillPays(b, times, f, now);
      }
    }
  }

  /** Slots in use are acquisitions less releases, and never more than the cap; so a slot that is never
      released (an exception between `try_acquire` and the `try`) is lost for good. */
  lemma {:induction false} InFlightExact(b0: Bucket, events: seq<Event>)
    requires Valid(b0) && OnTime(b0, events) && b0.inFlight == 0 && Matched(b0, events)
    ensures After(b0, events).0.inFlight == |After(b0, events).1| - Releases(events)
    ensures |After(b0, events).1| <= b0.maxInFlight + Releases(events)
  {
    HistoryKeeps(b0, events);
    if events != [] {
      var init := events[..|events| - 1];
      forall n | 0 <= n <= |init| ensures init[..n] == events[..n] {}
      InFlightExact(b0, init);
      assert events[..|events|] == events;
    }
  }
}
