/** auth/token_pool.py: the lifetime rule for run grants. */
module GrantTokens {
  import opened Prelude

  const MIN_REMAINING_FLOOR := 120

  datatype Source = NoSource | Supplied | AgentConfig | PoolCache | Minted | Missing

  /** `min_remaining_seconds`: the larger of 120 and a tenth of the lifetime, rounded up. */
  function MinRemaining(ttl: int): (seconds: int)
    ensures seconds >= MIN_REMAINING_FLOOR && 10 * seconds >= ttl
    ensures forall other: int :: other >= MIN_REMAINING_FLOOR && 10 * other >= ttl ==> other >= seconds
  {
    var tenth := -((-ttl) / 10);
    if tenth > MIN_REMAINING_FLOOR then tenth else MIN_REMAINING_FLOOR
  }

  datatype GrantToken = GrantToken(token: string, grantId: string, expiresAt: Option<real>, source: Source, ttl: int) {
    /** True while the grant has at least the minimum remaining lifetime. */
    predicate Usable(now: real) {
      expiresAt.Some? && expiresAt.value - now >= MinRemaining(ttl) as real
    }

    /** The last moment at which the grant is usable. */
    function UsableUntil(): real
      requires expiresAt.Some?
    {
      expiresAt.value - MinRemaining(ttl) as real
    }
  }

  /** The same grant, whichever way it was come by. */
  predicate SameGrant(a: GrantToken, b: GrantToken) {
    a.token == b.token && a.grantId == b.grantId && a.expiresAt == b.expiresAt && a.ttl == b.ttl
  }
}
