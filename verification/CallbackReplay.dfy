/** auth/aa_callback_signing.py: signed callbacks, their freshness window and the nonce store. */
module CallbackReplay {
  import opened Prelude

  const MAX_SKEW := 300
  const NONCE_TTL := 2 * MAX_SKEW
  const NONCE_MAX_LENGTH := 128

  datatype Request = Request(timestamp: Option<string>, nonce: Option<string>, signature: Option<string>, body: seq<bv8>)

  /** `Undecodable` is the `UnicodeDecodeError` raised for a body that is not UTF-8. */
  datatype Result = Ok | MissingSignature | MissingSecret | BadSignature | StaleTimestamp | Replay
    | ReplayStoreUnavailable | BadNonce | Undecodable

  /** The environment: is a secret configured, is the development bypass on, is the runtime strict; and the
      library functions used: `str.strip`, `int`, and the keyed digest of (timestamp, nonce, body), `None` for
      a body that does not decode. */
  datatype Env = Env(secret: bool, bypass: bool, strict: bool, strip: string -> string, number: string -> Option<int>,
                     sign: (int, string, seq<bv8>) -> Option<string>)

  predicate Given(header: Option<string>) {
    header.Some? && header.value != ""
  }

  predicate GoodNonce(nonce: string) {
    nonce != "" && |nonce| <= NONCE_MAX_LENGTH && forall i :: 0 <= i < |nonce| ==> nonce[i] as int < 128
  }

  predicate Fresh(ts: int, now: real) {
    -(MAX_SKEW as real) <= now - ts as real <= MAX_SKEW as real
  }

  /** Every check before the nonce store: an early result, or the timestamp and nonce to claim. */
  datatype Checked = Refused(result: Result) | Claim(ts: int, nonce: string)

  function Check(env: Env, req: Request, now: real): Checked {
    if !env.secret then Refused(if env.bypass then Ok else MissingSecret)
    else if !Given(req.timestamp) || !Given(req.nonce) || !Given(req.signature) then Refused(MissingSignature)
    else
      var nonce := env.strip(req.nonce.value);
      var ts := env.number(env.strip(req.timestamp.value));
      if !GoodNonce(nonce) then Refused(BadNonce)
      else if ts.None? || !Fresh(ts.value, now) then Refused(StaleTimestamp)
      else
        var expected := env.sign(ts.value, nonce, req.body);
        if expected.None? then Refused(Undecodable)
        else if expected.value != env.strip(req.signature.value) then Refused(BadSignature)
        else Claim(ts.value, nonce)
  }

  /** The nonce store: when each nonce expires. */
  type Nonces = map<string, real>

  predicate Held(nonces: Nonces, nonce: string, t: real) {
    nonce in nonces && t <= nonces[nonce]
  }

  /** A delivery: the request, the clock reading `now`, the moment `at` the store executes the claim, and
      whether the store answers. */
  datatype Delivery = Delivery(req: Request, now: real, at: real, up: bool)

  function Verify(env: Env, nonces: Nonces, d: Delivery): (Nonces, Result) {
    match Check(env, d.req, d.now)
    case Refused(result) => (nonces, result)
    case Claim(_, nonce) =>
      if !d.up then (nonces, if env.strict then ReplayStoreUnavailable else Ok)
      else if Held(nonces, nonce, d.at) then (nonces, Replay)
      else (nonces[nonce := d.at + NONCE_TTL as real], Ok)
  }

  class NonceStore {
    var nonces: Nonces

    constructor ()
      ensures nonces == map[]
    {
      nonces := map[];
    }

    /** `SET key 1 NX EX ttl`. */
    method SetIfAbsent(nonce: string, at: real) returns (wasSet: bool)
      modifies this
      ensures wasSet <==> !Held(old(nonces), nonce, at)
      ensures nonces == if wasSet then old(nonces)[nonce := at + NONCE_TTL as real] else old(nonces)
    {
      wasSet := !(nonce in nonces && at <= nonces[nonce]);
      if wasSet {
        nonces := nonces[nonce := at + NONCE_TTL as real];
      }
    }

    /** `verify_aa_callback`. */
    method VerifyCallback(env: Env, d: Delivery) returns (result: Result)
      modifies this
      ensures (nonces, result) == Verify(env, old(nonces), d)
    {
      var checked := Check(env, d.req, d.now);
      if checked.Refused? {
        return checked.result;
      }
      if !d.up {
        return if env.strict then ReplayStoreUnavailable else Ok;
      }
      var wasSet := SetIfAbsent(checked.nonce, d.at);
      return if wasSet then Ok else Replay;
    }
  }

  // ----- whole runs -----

  function After(env: Env, deliveries: seq<Delivery>): Nonces {
    if deliveries == [] then map[]
    else Verify(env, After(env, deliveries[..|deliveries| - 1]), deliveries[|deliveries| - 1]).0
  }

  function ResultOf(env: Env, deliveries: seq<Delivery>, i: nat): Result
    requires i < |deliveries|
  {
    Verify(env, After(env, deliveries[..i]), deliveries[i]).1
  }

  /** The store executes claims in the order of the run, each no earlier than its clock reading. */
  ghost predicate Ordered(deliveries: seq<Delivery>) {
    && (forall i :: 0 <= i < |deliveries| ==> deliveries[i].now <= deliveries[i].at)
    && (forall i, j :: 0 <= i < j < |deliveries| ==> deliveries[i].at <= deliveries[j].at)
  }

  /** A claimed nonce is kept for its whole lifetime: later claims only ever push its expiry out. */
  lemma {:induction false} ClaimIsKept(env: Env, deliveries: seq<Delivery>, i: nat, n: nat, nonce: string)
    requires Ordered(deliveries) && i < n <= |deliveries|
    requires nonce in After(env, deliveries[..i + 1]) && After(env, deliveries[..i + 1])[nonce] == deliveries[i].at + 600.0
    ensures nonce in After(env, deliveries[..n]) && After(env, deliveries[..n])[nonce] >= deliveries[i].at + 600.0
  {
    if i + 1 < n {
      ClaimIsKept(env, deliveries, i, n - 1, nonce);
      assert deliveries[..n][..n - 1] == deliveries[..n - 1] && deliveries[..n][n - 1] == deliveries[n - 1];
    }
  }

  /** A second `ok` for the same timestamp and nonce needs the second delivery to spend longer between its
      clock reading and the store than the first one's whole slack: with a secret configured and the store
      answering the first, it can only come from a store that is reached late. */
  lemma SecondOkNeedsLatency(env: Env, deliveries: seq<Delivery>, i: nat, j: nat, ts: int, nonce: string)
    requires Ordered(deliveries) && i < j < |deliveries| && env.secret
    requires Check(env, deliveries[i].req, deliveries[i].now) == Claim(ts, nonce) && deliveries[i].up
    requires Check(env, deliveries[j].req, deliveries[j].now) == Claim(ts, nonce) && deliveries[j].up
    requires ResultOf(env, deliveries, i) == Ok && ResultOf(env, deliveries, j) == Ok
    ensures deliveries[j].at - deliveries[j].now > deliveries[i].at - (ts as real - 300.0)
  {
    assert deliveries[..i + 1][..i] == deliveries[..i] && deliveries[..i + 1][i] == deliveries[i];
    ClaimIsKept(env, deliveries, i, j, nonce);
  }

  /** Delivery `i` was accepted and its nonce recorded. */
  ghost predicate Claims(env: Env, deliveries: seq<Delivery>, i: nat, nonce: string)
    requires i < |deliveries|
  {
    var c := Check(env, deliveries[i].req, deliveries[i].now);
    c.Claim? && c.nonce == nonce && deliveries[i].up && ResultOf(env, deliveries, i) == Ok
  }

  /** Whatever is in the store was put there by an accepted delivery. */
  lemma {:induction false} HeldByAClaim(env: Env, deliveries: seq<Delivery>, n: nat, nonce: string) returns (i: nat)
    requires n <= |deliveries| && nonce in After(env, deliveries[..n])
    ensures i < n && Claims(env, deliveries, i, nonce) && After(env, deliveries[..n])[nonce] == deliveries[i].at + 600.0
    decreases n
  {
    assert n > 0 && deliveries[..n][..n - 1] == deliveries[..n - 1] && deliveries[..n][n - 1] == deliveries[n - 1];
    if Claims(env, deliveries, n - 1, nonce) {
      i := n - 1;
    } else {
      i := HeldByAClaim(env, deliveries, n - 1, nonce);
    }
  }

  /** The store's answer, exactly: a well-formed delivery is accepted if and only if every earlier accepted
      claim of its nonce lies more than ten minutes back when the store is reached. */
  lemma AcceptedExactly(env: Env, deliveries: seq<Delivery>, j: nat, nonce: string)
    requires Ordered(deliveries) && j < |deliveries| && deliveries[j].up
    requires var c := Check(env, deliveries[j].req, deliveries[j].now); c.Claim? && c.nonce == nonce
    ensures ResultOf(env, deliveries, j) == Ok <==>
            forall i :: 0 <= i < j && Claims(env, deliveries, i, nonce) ==> deliveries[i].at + 600.0 < deliveries[j].at
  {
    forall i | 0 <= i < j && Claims(env, deliveries, i, nonce) && ResultOf(env, deliveries, j) == Ok
      ensures deliveries[i].at + 600.0 < deliveries[j].at
    {
      assert deliveries[..i + 1][..i] == deliveries[..i] && deliveries[..i + 1][i] == deliveries[i];
      ClaimIsKept(env, deliveries, i, j, nonce);
    }
    if nonce in After(env, deliveries[..j]) {
      var i := HeldByAClaim(env, deliveries, j, nonce);
    }
  }

  /** Replay protection: in the strict runtime, when the store is reached at the clock reading, no run accepts
      one (timestamp, nonce) twice. */
  lemma NeverTwice(env: Env, deliveries: seq<Delivery>, i: nat, j: nat, ts: int, nonce: string)
    requires Ordered(deliveries) && i < j < |deliveries| && env.secret && env.strict
    requires deliveries[j].at == deliveries[j].now
    requires Check(env, deliveries[i].req, deliveries[i].now) == Claim(ts, nonce)
    requires Check(env, deliveries[j].req, deliveries[j].now) == Claim(ts, nonce)
    ensures !(ResultOf(env, deliveries, i) == Ok && ResultOf(env, deliveries, j) == Ok)
  {
    if ResultOf(env, deliveries, i) == Ok && ResultOf(env, deliveries, j) == Ok {
      SecondOkNeedsLatency(env, deliveries, i, j, ts, nonce);
    }
  }

  /** A request signed with the secret over its own timestamp, nonce and body, whose nonce is 1 to 128 ASCII
      characters and whose timestamp lies within five minutes of the clock. */
  ghost predicate Authentic(env: Env, req: Request, now: real, ts: int, nonce: string) {
    && req.timestamp.Some? && req.timestamp.value != "" && env.number(env.strip(req.timestamp.value)) == Some(ts)
    && req.nonce.Some? && req.nonce.value != "" && nonce == env.strip(req.nonce.value)
    && req.signature.Some? && req.signature.value != "" && env.sign(ts, nonce, req.body) == Some(env.strip(req.signature.value))
    && 1 <= |nonce| <= 128 && (forall i :: 0 <= i < |nonce| ==> nonce[i] <= '\U{7f}')
    && ts as real - 300.0 <= now <= ts as real + 300.0
  }

  lemma ClaimedExactly(env: Env, req: Request, now: real, ts: int, nonce: string)
    ensures Check(env, req, now) == Claim(ts, nonce) <==> env.secret && Authentic(env, req, now, ts, nonce)
  {}

  /** What is accepted, exactly: without a secret everything under the development bypass and nothing otherwise; with
      one, authentic requests whose nonce the store does not hold, and in a relaxed runtime those it cannot check. */
  lemma OkExactly(env: Env, nonces: Nonces, d: Delivery)
    ensures Verify(env, nonces, d).1 == Ok <==>
            if !env.secret then env.bypass
            else exists ts, nonce :: Authentic(env, d.req, d.now, ts, nonce) && if d.up then !Held(nonces, nonce, d.at) else !env.strict
    ensures !env.secret && !env.bypass ==> Verify(env, nonces, d) == (nonces, MissingSecret)
    ensures Verify(env, nonces, d).1 != Ok ==> Verify(env, nonces, d).0 == nonces
  {
    var c := Check(env, d.req, d.now);
    if c.Claim? {
      ClaimedExactly(env, d.req, d.now, c.ts, c.nonce);
    }
    forall ts, nonce | env.secret && Authentic(env, d.req, d.now, ts, nonce) ensures c == Claim(ts, nonce) {
      ClaimedExactly(env, d.req, d.now, ts, nonce);
    }
  }

  /** Half a second of latency is enough for a replay of the earliest delivery. */
  lemma LateClaimIsAccepted(env: Env, req: Request, nonce: string)
    requires env.secret && env.strict
    requires Check(env, req, 700.0) == Claim(1000, nonce) && Check(env, req, 1300.0) == Claim(1000, nonce)
    ensures var run := [Delivery(req, 700.0, 700.0, true), Delivery(req, 1300.0, 1300.5, true)];
            Ordered(run) && ResultOf(env, run, 0) == Ok && ResultOf(env, run, 1) == Ok
  {
    var first := Delivery(req, 700.0, 700.0, true);
    var run := [first, Delivery(req, 1300.0, 1300.5, true)];
    assert run[..0] == [] && run[..1] == [first] && [first][..0] == [];
    assert After(env, [first]) == map[nonce := 1300.0];
  }
}
