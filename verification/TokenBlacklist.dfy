/** auth/jwt.py: revoking a token for the rest of its life. */
module TokenBlacklist {
  import opened Prelude

  const FLOOR := 3700
  const MAX_SIZE := 10_000

  /** The `exp` claim of a token: none, a number, a text that `int` accepts, or a token that does not decode. */
  datatype Expiry = Absent | Numeric(at: real) | Textual(second: int) | Unreadable

  /** `_blacklist_ttl_for`. */
  function TtlFor(exp: Expiry, now: real): (ttl: int)
    ensures ttl >= FLOOR
    ensures exp.Numeric? ==> now + ttl as real > exp.at + 1.0
    ensures exp.Numeric? && ttl > 3700 ==> now + ttl as real <= exp.at + 100.0
    ensures !exp.Numeric? ==> ttl <= 3700
  {
    if !exp.Numeric? then FLOOR
    else
      var left := Trunc(exp.at - now) + 100;
      if left > FLOOR then left else FLOOR
  }

  /** The library's expiry check: the claim is read as a whole second, and a token without one never expires. */
  predicate Unexpired(exp: Expiry, t: real) {
    match exp
    case Absent => true
    case Numeric(at) => t < Trunc(at) as real
    case Textual(second) => t < second as real
    case Unreadable => false
  }

  // ----- the relaxed runtime's bounded memory -----

  type Remembered = map<string, real>

  ghost function Live(tokens: Remembered, now: real): Remembered {
    map k | k in tokens && !(now > tokens[k]) :: tokens[k]
  }

  ghost predicate Soonest(tokens: Remembered, victim: string) {
    victim in tokens && forall k :: k in tokens ==> tokens[victim] <= tokens[k]
  }

  class Memory {
    var tokens: Remembered

    ghost predicate Valid()
      reads this
    {
      |tokens| <= MAX_SIZE
    }

    constructor ()
      ensures Valid() && tokens == map[]
    {
      tokens := map[];
    }

    method DropExpired(now: real)
      modifies this
      ensures tokens == Live(old(tokens), now)
      ensures |tokens| <= |old(tokens)|
    {
      var rest := tokens.Keys;
      while rest != {}
        invariant rest <= tokens.Keys
        invariant tokens == map k | k in old(tokens) && (k in rest || !(now > old(tokens)[k])) :: old(tokens)[k]
        invariant |tokens| <= |old(tokens)|
        decreases |rest|
      {
        var k :| k in rest;
        rest := rest - {k};
        if now > tokens[k] {
          assert (tokens - {k}).Keys == tokens.Keys - {k};
          tokens := tokens - {k};
        }
      }
    }

    method FindSoonest() returns (victim: string)
      requires tokens != map[]
      ensures Soonest(tokens, victim)
    {
      var rest := tokens.Keys;
      victim :| victim in rest;
      rest := rest - {victim};
      while rest != {}
        invariant rest <= tokens.Keys && victim in tokens
        invariant forall k :: k in tokens && k !in rest ==> tokens[victim] <= tokens[k]
        decreases |rest|
      {
        var k :| k in rest;
        if tokens[k] < tokens[victim] {
          victim := k;
        }
        rest := rest - {k};
      }
    }

    /** `_remember_blacklisted_token`: the map stays bounded; below the bound nothing is lost, at the bound
        only what has expired, and failing that the one entry that would expire first. */
    method Remember(token: string, ttl: int, now: real)
      requires Valid()
      modifies this
      ensures Valid() && token in tokens && tokens[token] == now + ttl as real
      ensures |old(tokens)| < MAX_SIZE ==> tokens == old(tokens)[token := now + ttl as real]
      ensures |old(tokens)| == MAX_SIZE > |Live(old(tokens), now)| ==> tokens == Live(old(tokens), now)[token := now + ttl as real]
      ensures |Live(old(tokens), now)| == |old(tokens)| == MAX_SIZE ==>
                exists victim :: Soonest(old(tokens), victim) && tokens == (old(tokens) - {victim})[token := now + ttl as real]
    {
      if |tokens| >= MAX_SIZE {
        DropExpired(now);
        if |tokens| >= MAX_SIZE {
          LiveAll(old(tokens), now);
          var victim := FindSoonest();
          assert (tokens - {victim}).Keys == tokens.Keys - {victim};
          tokens := tokens - {victim};
        }
      }
      assert tokens[token := now + ttl as real].Keys == tokens.Keys + {token};
      tokens := tokens[token := now + ttl as real];
    }
  }

  /** Nothing has expired when as many entries are live as there are. */
  lemma LiveAll(tokens: Remembered, now: real)
    ensures |Live(tokens, now)| <= |tokens|
    ensures |Live(tokens, now)| == |tokens| ==> Live(tokens, now) == tokens
  {
    var gone := set k | k in tokens && now > tokens[k];
    assert Live(tokens, now).Keys == tokens.Keys - gone;
    assert gone <= tokens.Keys && |tokens.Keys - gone| == |tokens.Keys| - |gone|;
  }

  // ----- the strict runtime over shared Redis -----

  /** Tokens by number: their expiry claims and whether their signature and other claims verify. */
  datatype World = World(exp: nat -> Expiry, genuine: (nat, real) -> bool)

  /** A revocation reads its clock at `now` and writes at `at`; a validation asks Redis at `at` and checks the
      token at `later`. `up` is whether Redis answers; the strict runtime raises when it does not. */
  datatype Event =
    | Blacklist(token: nat, now: real, at: real, up: bool)
    | Validate(token: nat, at: real, later: real, up: bool)

  type Blacklisted = map<nat, real>

  function Apply(w: World, redis: Blacklisted, e: Event): Blacklisted {
    if e.Blacklist? && e.up then redis[e.token := e.at + TtlFor(w.exp(e.token), e.now) as real] else redis
  }

  predicate Listed(redis: Blacklisted, token: nat, t: real) {
    token in redis && t <= redis[token]
  }

  /** `validate_token` returns the claims. */
  predicate Accepts(w: World, redis: Blacklisted, e: Event) {
    && e.Validate? && e.up && !Listed(redis, e.token, e.at)
    && Unexpired(w.exp(e.token), e.later) && w.genuine(e.token, e.later)
  }

  class SharedBlacklist {
    var redis: Blacklisted

    constructor ()
      ensures redis == map[]
    {
      redis := map[];
    }

    /** `blacklist_token` in the strict runtime; `done` is false when it raises. */
    method BlacklistToken(w: World, token: nat, now: real, at: real, up: bool) returns (done: bool)
      modifies this
      ensures redis == Apply(w, old(redis), Blacklist(token, now, at, up)) && done == up
    {
      var ttl := TtlFor(w.exp(token), now);
      if up {
        redis := redis[token := at + ttl as real];
      }
      done := up;
    }

    /** `validate_token` in the strict runtime. */
    method ValidateToken(w: World, token: nat, at: real, later: real, up: bool) returns (accepted: bool)
      ensures accepted == Accepts(w, redis, Validate(token, at, later, up))
    {
      if !up {
        return false;
      }
      if token in redis && at <= redis[token] {
        return false;
      }
      return Unexpired(w.exp(token), later) && w.genuine(token, later);
    }
  }

  function After(w: World, events: seq<Event>): Blacklisted {
    if events == [] then map[] else Apply(w, After(w, events[..|events| - 1]), events[|events| - 1])
  }

  /** Redis executes the operations in the order of the run. */
  ghost predicate Ordered(events: seq<Event>) {
    && (forall i :: 0 <= i < |events| ==> if events[i].Blacklist? then events[i].now <= events[i].at else events[i].at <= events[i].later)
    && (forall i, j :: 0 <= i < j < |events| ==> events[i].at <= events[j].at)
  }

  lemma {:induction false} EntryOutlivesToken(w: World, events: seq<Event>, i: nat, n: nat)
    requires Ordered(events) && i < n <= |events|
    requires events[i].Blacklist? && events[i].up && w.exp(events[i].token).Numeric?
    ensures var token := events[i].token;
            token in After(w, events[..n]) && After(w, events[..n])[token] > w.exp(token).at + 1.0
  {
    assert events[..n][..n - 1] == events[..n - 1] && events[..n][n - 1] == events[n - 1];
    if i + 1 < n {
      EntryOutlivesToken(w, events, i, n - 1);
    }
  }

  /** Revocation outlives the token: once `blacklist_token` has returned for a token with a numeric expiry, no
      later `validate_token` returns its claims, whatever the latencies and however often it is revoked again. */
  lemma RevokedForGood(w: World, events: seq<Event>, i: nat, j: nat)
    requires Ordered(events) && i < j < |events|
    requires events[i].Blacklist? && events[i].up && w.exp(events[i].token).Numeric?
    requires events[j].Validate? && events[j].token == events[i].token
    ensures !Accepts(w, After(w, events[..j]), events[j])
  {
    EntryOutlivesToken(w, events, i, j);
  }

  lemma {:induction false} NeverListed(w: World, events: seq<Event>, token: nat)
    requires forall i :: 0 <= i < |events| && events[i].Blacklist? && events[i].up ==> events[i].token != token
    ensures token !in After(w, events)
  {
    if events != [] {
      NeverListed(w, events[..|events| - 1], token);
    }
  }

  /** Nothing else is refused: a token that was never revoked is accepted while Redis answers, its claims verify and
      the whole second of its expiry has not come. */
  lemma UnrevokedAccepted(w: World, events: seq<Event>, j: nat)
    requires j < |events| && events[j].Validate?
    requires forall i :: 0 <= i < j && events[i].Blacklist? && events[i].up ==> events[i].token != events[j].token
    ensures var e, exp := events[j], w.exp(events[j].token);
            Accepts(w, After(w, events[..j]), e) <==>
            && e.up && w.genuine(e.token, e.later) && !exp.Unreadable?
            && (exp.Numeric? ==> e.later < Trunc(exp.at) as real) && (exp.Textual? ==> e.later < exp.second as real)
  {
    NeverListed(w, events[..j], events[j].token);
  }

  /** Which tokens come back: after one revocation written at `at`, some later moment accepts a genuine token
      again exactly when it has no expiry at all, or a textual one beyond the floor. */
  lemma ComesBackExactly(exp: Expiry, now: real, at: real)
    requires now <= at
    ensures (exists t: real :: t > at + TtlFor(exp, now) as real && Unexpired(exp, t)) <==>
            exp.Absent? || (exp.Textual? && exp.second as real > at + FLOOR as real)
  {
    var end := at + TtlFor(exp, now) as real;
    if exp.Absent? {
      assert end + 1.0 > end && Unexpired(exp, end + 1.0);
    } else if exp.Textual? && exp.second as real > end {
      var t := (end + exp.second as real) / 2.0;
      assert t > end && Unexpired(exp, t);
    }
  }

  /** A token without an expiry is honoured again once its entry lapses. */
  lemma NoExpiryComesBack(w: World, token: nat)
    requires w.exp(token) == Absent && w.genuine(token, 3701.0)
    ensures var run := [Blacklist(token, 0.0, 0.0, true), Validate(token, 3701.0, 3701.0, true)];
            Ordered(run) && Accepts(w, After(w, run[..1]), run[1])
  {
    var run := [Blacklist(token, 0.0, 0.0, true), Validate(token, 3701.0, 3701.0, true)];
    assert run[..1] == [run[0]] && [run[0]][..0] == [];
    assert After(w, [run[0]]) == map[token := 3700.0];
  }
}
