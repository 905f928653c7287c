/** A pooled connection (`LdapConn`) and the expiration policy that decides
    whether it may still be handed out. */
module Connection {
  import opened Config

  /** A point in time, in nanoseconds; the clock is an input of every
      operation that reads it. */
  type Time = int

  /** Identity of the underlying LDAP session (the Go pointer). */
  type SessionId = nat

  /** `closing` is what the session's IsClosing() reports. The network sets
      it; for an idle connection that is the environment step
      LdapConnPool.SessionLost. */
  datatype LdapConn = LdapConn(session: SessionId, createdAt: Time, lastUsed: Time, closing: bool)

  /** Go's Time.Sub: the difference, clamped to the range of a Duration. */
  function Sub(t: Time, u: Time): (d: Duration)
    ensures MinDuration <= t - u <= MaxDuration ==> d == t - u
    ensures t - u > MaxDuration ==> d == MaxDuration
    ensures t - u < MinDuration ==> d == MinDuration
  {
    if t - u > MaxDuration then MaxDuration
    else if t - u < MinDuration then MinDuration
    else t - u
  }

  /** IsExpired: too old since creation, or idle for too long; a
      non-positive threshold switches its check off. */
  predicate IsExpired(c: LdapConn, maxLifetime: Duration, maxIdleTime: Duration, now: Time) {
    if maxLifetime > 0 && Sub(now, c.createdAt) > maxLifetime then true
    else if maxIdleTime > 0 && Sub(now, c.lastUsed) > maxIdleTime then true
    else false
  }

  /** The rule over raw differences: a threshold takes part only when it
      is positive and below the largest Duration, and is then exceeded iff
      the strict comparison holds; at the largest Duration Sub saturates,
      so that threshold can never be exceeded. */
  lemma IsExpiredIff(c: LdapConn, maxLifetime: Duration, maxIdleTime: Duration, now: Time)
    ensures IsExpired(c, maxLifetime, maxIdleTime, now) <==>
      (0 < maxLifetime < MaxDuration && now - c.createdAt > maxLifetime) ||
      (0 < maxIdleTime < MaxDuration && now - c.lastUsed > maxIdleTime)
  {
  }

  /** A threshold at the largest Duration behaves as if it were switched
      off, whatever the other threshold is. */
  lemma LargestThresholdNeverExceeded(c: LdapConn, maxLifetime: Duration, maxIdleTime: Duration, now: Time)
    ensures IsExpired(c, MaxDuration, maxIdleTime, now) == IsExpired(c, 0, maxIdleTime, now)
    ensures IsExpired(c, maxLifetime, MaxDuration, now) == IsExpired(c, maxLifetime, 0, now)
  {
  }

  /** Non-positive thresholds disable expiration altogether. */
  lemma DisabledNeverExpires(c: LdapConn, maxLifetime: Duration, maxIdleTime: Duration, now: Time)
    requires maxLifetime <= 0 && maxIdleTime <= 0
    ensures !IsExpired(c, maxLifetime, maxIdleTime, now)
  {
  }

  /** Once expired, a connection stays expired as the clock advances. */
  lemma ExpiredStaysExpired(c: LdapConn, maxLifetime: Duration, maxIdleTime: Duration, now: Time, later: Time)
    requires now <= later
    requires IsExpired(c, maxLifetime, maxIdleTime, now)
    ensures IsExpired(c, maxLifetime, maxIdleTime, later)
  {
  }

  /** Refreshing lastUsed to the current time resets the idle clock: only
      the lifetime check can then fire. */
  lemma RefreshResetsIdle(c: LdapConn, maxLifetime: Duration, maxIdleTime: Duration, now: Time)
    ensures IsExpired(c.(lastUsed := now), maxLifetime, maxIdleTime, now) <==>
      maxLifetime > 0 && Sub(now, c.createdAt) > maxLifetime
  {
  }

  /** The test the pool applies before keeping or reusing an idle
      connection: not closing and not expired under the pool's settings. */
  predicate Usable(c: LdapConn, config: LdapConfig, now: Time) {
    !c.closing && !IsExpired(c, config.connMaxLifetime, config.connMaxIdleTime, now)
  }

  /** Refreshing a usable connection's lastUsed keeps it usable. */
  lemma UsableRefreshed(c: LdapConn, config: LdapConfig, now: Time)
    requires Usable(c, config, now)
    ensures Usable(c.(lastUsed := now), config, now)
  {
  }
}
