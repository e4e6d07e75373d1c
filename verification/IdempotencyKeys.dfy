/** The Redis key format of the idempotency interceptor: which client keys are accepted, and why the
    cache keys and lock keys of different (tenant, key) pairs can never collide. */
module IdempotencyKeys {

  const PREFIX: string := "idempotency:"
  const LOCK_SUFFIX: string := ":lock"

  predicate IsKeyChar(c: char) {
    'a' <= c <= 'z' || 'A' <= c <= 'Z' || '0' <= c <= '9' || c == '_' || c == '-'
  }

  /** The header pattern: 8 to 128 letters, digits, underscores and hyphens. */
  predicate WellFormedKey(key: string) {
    8 <= |key| <= 128 && forall i :: 0 <= i < |key| ==> IsKeyChar(key[i])
  }

  /** By character codes: digits, capitals, the underscore, small letters and the hyphen. */
  lemma AcceptedIff(key: string)
    ensures WellFormedKey(key) <==>
              && 8 <= |key| <= 128
              && forall i :: 0 <= i < |key| ==>
                   var n := key[i] as int; 48 <= n <= 57 || 65 <= n <= 90 || n == 95 || 97 <= n <= 122 || n == 45
  {
  }

  function CacheKey(tenant: string, key: string): string {
    PREFIX + tenant + ":" + key
  }

  function LockKey(tenant: string, key: string): string {
    CacheKey(tenant, key) + LOCK_SUFFIX
  }

  /** Everything after the last `|key| + 1` characters of a cache key is the key itself. */
  lemma CacheKeyTail(tenant: string, key: string)
    ensures var s := CacheKey(tenant, key);
            && |s| == 12 + |tenant| + 1 + |key| && s[..12] == "idempotency:" && LockKey(tenant, key) == s + ":lock"
            && s[|s| - |key|..] == key
            && s[|s| - |key| - 1] == ':'
            && s[12..|s| - |key| - 1] == tenant
  {
  }

  /** A well-formed key holds no colon, so the separator before it is the last colon of the cache key. */
  lemma NoColonInTail(tenant: string, key: string, fromEnd: nat)
    requires WellFormedKey(key) && 1 <= fromEnd <= |key|
    ensures CacheKey(tenant, key)[|CacheKey(tenant, key)| - fromEnd] != ':'
  {
    CacheKeyTail(tenant, key);
    var s := CacheKey(tenant, key);
    assert s[|s| - fromEnd] == s[|s| - |key|..][|key| - fromEnd];
    assert IsKeyChar(key[|key| - fromEnd]);
  }

  /** Tenants are arbitrary strings, colons included; still no two pairs share a cache key. */
  lemma CacheKeyInjective(t1: string, k1: string, t2: string, k2: string)
    requires WellFormedKey(k1) && WellFormedKey(k2)
    requires CacheKey(t1, k1) == CacheKey(t2, k2)
    ensures t1 == t2 && k1 == k2
  {
    CacheKeyTail(t1, k1);
    CacheKeyTail(t2, k2);
    if |k1| < |k2| {
      NoColonInTail(t2, k2, |k1| + 1);
      assert false;
    }
    if |k2| < |k1| {
      NoColonInTail(t1, k1, |k2| + 1);
      assert false;
    }
  }

  lemma LockKeyInjective(t1: string, k1: string, t2: string, k2: string)
    requires WellFormedKey(k1) && WellFormedKey(k2)
    requires LockKey(t1, k1) == LockKey(t2, k2)
    ensures t1 == t2 && k1 == k2
  {
    var c1, c2 := CacheKey(t1, k1), CacheKey(t2, k2);
    assert LockKey(t1, k1)[..|c1|] == c1 && LockKey(t2, k2)[..|c2|] == c2;
    CacheKeyInjective(t1, k1, t2, k2);
  }

  /** A lock key has a colon five places from its end; a cache key ends in at least eight non-colons. */
  lemma LockNeverCache(t1: string, k1: string, t2: string, k2: string)
    requires WellFormedKey(k2)
    ensures LockKey(t1, k1) != CacheKey(t2, k2)
  {
    var l := LockKey(t1, k1);
    assert l[|l| - 5] == LOCK_SUFFIX[0] == ':';
    NoColonInTail(t2, k2, 5);
  }

  /** The three facts above for all pairs at once, in the form the protocol proof uses. */
  lemma KeySpacesDisjoint(t1: string, k1: string, t2: string, k2: string)
    requires WellFormedKey(k1) && WellFormedKey(k2)
    ensures CacheKey(t1, k1) == CacheKey(t2, k2) <==> t1 == t2 && k1 == k2
    ensures LockKey(t1, k1) == LockKey(t2, k2) <==> t1 == t2 && k1 == k2
    ensures LockKey(t1, k1) != CacheKey(t2, k2)
    ensures CacheKey(t1, k1) != LockKey(t2, k2)
  {
    LockNeverCache(t1, k1, t2, k2);
    LockNeverCache(t2, k2, t1, k1);
    if CacheKey(t1, k1) == CacheKey(t2, k2) {
      CacheKeyInjective(t1, k1, t2, k2);
    }
    if LockKey(t1, k1) == LockKey(t2, k2) {
      LockKeyInjective(t1, k1, t2, k2);
    }
  }

  /** Both halves of the pattern are needed: without the character class two tenants can share a cache
      key, and without the minimum length a cache key can equal another request's lock key. */
  lemma PatternIsNeeded(t: string, u: string, key: string)
    ensures CacheKey(t, u + ":" + key) == CacheKey(t + ":" + u, key)
    ensures LockKey(t, key) == CacheKey(t + ":" + key, "lock")
  {
    assert PREFIX + t + ":" + (u + ":" + key) == PREFIX + (t + ":" + u) + ":" + key;
    assert ":lock" == ":" + "lock";
    assert PREFIX + t + ":" + key + ":lock" == PREFIX + (t + ":" + key) + ":" + "lock";
  }
}
