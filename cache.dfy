// The expiry rules of the two caches (service/cache/CacheConfiguration.java):
// auth tokens live for their own `expireSeconds` from creation, connected
// systems for a fixed time since their last access. Times are nanoseconds.
module Cache {
  import opened Wrappers
  import opened Strings

  /** A cached token (service/auth/TokenData.java). */
  datatype TokenData = TokenData(token: Option<string>, expireSeconds: Option<int>)

  /** `TimeUnit.SECONDS.toNanos`: saturates at the bounds of a long. */
  function SecondsToNanos(d: int): (r: int)
    ensures LongMin <= r <= LongMax
    ensures LongMin <= d * 1_000_000_000 <= LongMax ==> r == d * 1_000_000_000
    ensures d * 1_000_000_000 > LongMax ==> r == LongMax
    ensures d * 1_000_000_000 < LongMin ==> r == LongMin
  {
    if d > LongMax / 1_000_000_000 then LongMax
    else if d < -(LongMax / 1_000_000_000) then LongMin
    else d * 1_000_000_000
  }

  /** `expireAfterCreate`: the token's own lifetime, or 0 (expire at once). */
  function ExpireAfterCreate(t: TokenData): (r: int)
    ensures t.expireSeconds.None? ==> r == 0
    ensures t.expireSeconds.Some? && 0 <= t.expireSeconds.value <= 9_223_372_036 ==>
              r == t.expireSeconds.value * 1_000_000_000
  {
    if t.expireSeconds.Some? then SecondsToNanos(t.expireSeconds.value) else 0
  }

  /** `expireAfterUpdate` and `expireAfterRead`: the remaining time is kept. */
  function ExpireAfterUpdate(t: TokenData, currentDuration: int): int { currentDuration }

  function ExpireAfterRead(t: TokenData, currentDuration: int): int { currentDuration }

  /** A later operation on a cached token: a read, or an update with a new value. */
  datatype TokenOp = Read(at: int) | Update(at: int, value: TokenData)

  /** When a token entry expires after it was created at `created` and then
   *  touched by `ops` (each at a time before it expires): the cache asks the
   *  callback for the remaining duration at every operation. */
  function TokenExpiresAt(created: int, t: TokenData, ops: seq<TokenOp>): int
  {
    if |ops| == 0 then created + ExpireAfterCreate(t)
    else
      var before := TokenExpiresAt(created, t, ops[..|ops| - 1]);
      var op := ops[|ops| - 1];
      var remaining := before - op.at;
      match op
      case Read(at) => at + ExpireAfterRead(t, remaining)
      case Update(at, v) => at + ExpireAfterUpdate(v, remaining)
  }

  /** Reads and updates never extend or shorten a token's life, even when an
   *  update carries a different `expireSeconds`. */
  lemma {:induction false} TokenLifetimeFixedAtCreation(created: int, t: TokenData, ops: seq<TokenOp>)
    ensures TokenExpiresAt(created, t, ops) == created + ExpireAfterCreate(t)
  {
    if |ops| > 0 {
      TokenLifetimeFixedAtCreation(created, t, ops[..|ops| - 1]);
    }
  }

  /** The connected-system cache: an entry expires `accessExpiry` seconds
   *  after the last access (creation counts as one). */
  function SubsystemExpiresAt(created: int, accesses: seq<int>, accessExpirySeconds: int): int
  {
    (if |accesses| == 0 then created else accesses[|accesses| - 1]) + SecondsToNanos(accessExpirySeconds)
  }

  /** Each access of a connected system pushes its expiry forward. */
  lemma AccessExtendsSubsystemEntry(created: int, accesses: seq<int>, at: int, accessExpirySeconds: int)
    requires |accesses| == 0 ==> created <= at
    requires |accesses| > 0 ==> accesses[|accesses| - 1] <= at
    ensures SubsystemExpiresAt(created, accesses + [at], accessExpirySeconds) ==
            at + SecondsToNanos(accessExpirySeconds)
    ensures SubsystemExpiresAt(created, accesses + [at], accessExpirySeconds) >=
            SubsystemExpiresAt(created, accesses, accessExpirySeconds)
  {
  }
}
