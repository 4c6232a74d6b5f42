/** The strings under which locks, cached responses and rate windows are kept in
    one Redis database. */
module RedisKeys {
  import opened Core
  import opened Protocol

  datatype RedisKey =
    | LockKey(tenant: Uuid, key: string)
    | IdempotencyKey(tenant: Uuid, key: string)
    | RateLimitKey(client: string)

  const LOCK_PREFIX: string := "ledger:lock:"
  const IDEMPOTENCY_PREFIX: string := "ledger:idempotency:"
  const RATE_LIMIT_PREFIX: string := "ledger:ratelimit:"

  function Render(k: RedisKey): string {
    match k
    case LockKey(tenant, key) => LOCK_PREFIX + (tenant + ":" + key)
    case IdempotencyKey(tenant, key) => IDEMPOTENCY_PREFIX + (tenant + ":" + key)
    case RateLimitKey(client) => RATE_LIMIT_PREFIX + client
  }

  lemma {:induction false} SamePrefix(prefix: string, a: string, b: string)
    requires prefix + a == prefix + b
    ensures a == b
  {
    assert (prefix + a)[|prefix|..] == a;
    assert (prefix + b)[|prefix|..] == b;
  }

  /** The character after "ledger:" tells the three kinds apart. */
  lemma {:induction false} KindsDiffer(a: RedisKey, b: RedisKey)
    requires Render(a) == Render(b)
    ensures (a.LockKey? <==> b.LockKey?) && (a.RateLimitKey? <==> b.RateLimitKey?)
  {
    assert Render(a)[7] == (if a.LockKey? then 'l' else if a.IdempotencyKey? then 'i' else 'r');
    assert Render(b)[7] == (if b.LockKey? then 'l' else if b.IdempotencyKey? then 'i' else 'r');
  }

  /** A UUID has a fixed width, so what follows it cannot move the boundary. */
  lemma {:induction false} FixedWidth(t: Uuid, k: string, u: Uuid, m: string)
    requires t + ":" + k == u + ":" + m
    ensures t == u && k == m
  {
    assert t == (t + ":" + k)[..UUID_WIDTH];
    assert u == (u + ":" + m)[..UUID_WIDTH];
    assert k == (t + ":" + k)[UUID_WIDTH + 1..];
    assert m == (u + ":" + m)[UUID_WIDTH + 1..];
  }

  /** Different locks, cache entries and rate windows never share a Redis key,
      whatever characters tenants put into their idempotency keys. */
  lemma {:induction false} KeysNeverCollide(a: RedisKey, b: RedisKey)
    ensures Render(a) == Render(b) <==> a == b
  {
    if Render(a) == Render(b) {
      KindsDiffer(a, b);
      match a {
        case LockKey(t, k) =>
          SamePrefix(LOCK_PREFIX, t + ":" + k, b.tenant + ":" + b.key);
          FixedWidth(t, k, b.tenant, b.key);
        case IdempotencyKey(t, k) =>
          SamePrefix(IDEMPOTENCY_PREFIX, t + ":" + k, b.tenant + ":" + b.key);
          FixedWidth(t, k, b.tenant, b.key);
        case RateLimitKey(client) =>
          SamePrefix(RATE_LIMIT_PREFIX, client, b.client);
      }
    }
  }

  lemma {:induction false} PairRead(prefix: string, tenant: Uuid, key: string)
    ensures var s, n := prefix + (tenant + ":" + key), |prefix|;
      |s| == n + 37 + |key| && s[..n] == prefix && s[n..n + 36] == tenant && s[n + 36] == ':' && s[n + 37..] == key
  {
    var s, n := prefix + (tenant + ":" + key), |prefix|;
    assert s[n..] == tenant + ":" + key;
    assert s[n..n + 36] == s[n..][..36] && s[n + 37..] == s[n..][37..];
  }

  /** What a lock's key looks like: prefix, tenant, colon, idempotency key. */
  lemma {:induction false} LockKeyRead(tenant: Uuid, key: string)
    ensures var s := Render(LockKey(tenant, key));
      |s| == 49 + |key| && s[..12] == "ledger:lock:" && s[12..48] == tenant && s[48] == ':' && s[49..] == key
  {
    PairRead("ledger:lock:", tenant, key);
  }

  lemma {:induction false} IdempotencyKeyRead(tenant: Uuid, key: string)
    ensures var s := Render(IdempotencyKey(tenant, key));
      |s| == 56 + |key| && s[..19] == "ledger:idempotency:" && s[19..55] == tenant && s[55] == ':' && s[56..] == key
  {
    PairRead("ledger:idempotency:", tenant, key);
  }

  lemma {:induction false} RateLimitKeyRead(client: string)
    ensures var s := Render(RateLimitKey(client)); |s| == 17 + |client| && s[..17] == "ledger:ratelimit:" && s[17..] == client
  {
    assert Render(RateLimitKey(client)) == "ledger:ratelimit:" + client;
  }

  /** So keeping locks and entries in maps indexed by the pair loses nothing. */
  lemma {:induction false} PairsNeverShare(p: Pair, q: Pair)
    ensures Render(LockKey(p.tenant, p.key)) == Render(LockKey(q.tenant, q.key)) <==> p == q
    ensures Render(IdempotencyKey(p.tenant, p.key)) == Render(IdempotencyKey(q.tenant, q.key)) <==> p == q
    ensures Render(LockKey(p.tenant, p.key)) != Render(IdempotencyKey(q.tenant, q.key))
  {
    KeysNeverCollide(LockKey(p.tenant, p.key), LockKey(q.tenant, q.key));
    KeysNeverCollide(IdempotencyKey(p.tenant, p.key), IdempotencyKey(q.tenant, q.key));
    KeysNeverCollide(LockKey(p.tenant, p.key), IdempotencyKey(q.tenant, q.key));
  }

  /** The width is what does it: with tenant names of any length, two different pairs
      can share a key. */
  lemma {:induction false} FreeWidthCollides()
    ensures exists t, k, u, m: string :: (t != u || k != m) && t + ":" + k == u + ":" + m
  {
    var t, k, u, m := "a", "b:c", "a:b", "c";
    assert t + ":" + k == "a:b:c" == u + ":" + m;
  }
}
