/** Properties of call sequences, proved from the operations' contracts
    alone, in the way a caller of the pool would reason. */
module Scenarios {
  import opened Wrappers
  import opened Config
  import opened Connection
  import opened Transport
  import opened IdleList
  import opened Pool

  /** LIFO reuse: a usable connection released into an idle list with room
      (and no waiters) is the one the next acquisition at the same time gets
      back, and the pool ends as it started. */
  method ReleaseThenAcquire(p: LdapConnPool, c: LdapConn, now: Time, h: Handshake)
    returns (released: Released, acquired: Acquired)
    requires p.Valid() && !p.closed && p.reqConns == {}
    requires |p.conns| < p.config.maxIdle && Usable(c, p.config, now)
    modifies p
    ensures p.Valid()
    ensures released == KeptIdle && acquired == Reused(c.(lastUsed := now))
    ensures p.conns == old(p.conns) && p.openConn == old(p.openConn) && p.reqConns == {}
  {
    released := p.PutConnection(Some(c), now);
    LastReleasedFirstReused(old(p.conns), c, p.config, now);
    acquired := p.GetConnection(now, h);
    UsableRefreshed(c, p.config, now);
  }

  /** A saturated pool with nothing idle makes the caller wait; cancelling
      that wait gives the context's error and leaves the waiter table and
      the counter as they were. */
  method SaturatedAcquireThenCancel(p: LdapConnPool, now: Time, h: Handshake, err: ContextError)
    returns (acquired: Acquired, cancelled: ContextError)
    requires p.Valid() && !p.closed && p.conns == [] && |p.reqConns| < KeySpace
    requires p.openConn == p.config.maxOpen && p.config.maxOpen < 0x8000_0000
    modifies p
    ensures p.Valid()
    ensures acquired.MustWait? && acquired.key !in old(p.reqConns)
    ensures cancelled == err
    ensures p.reqConns == old(p.reqConns) && p.openConn == old(p.openConn) && p.conns == []
  {
    ToInt32Gate(p.config.maxOpen);
    acquired := p.GetConnection(now, h);
    cancelled := p.CancelWait(acquired.key, err);
  }

  /** Close is one-shot: the second Close and every later acquisition report
      the pool closed and change nothing, while a connection leased before
      the shutdown is still closed and uncounted when it comes back. */
  method CloseTwiceThenUse(p: LdapConnPool, leased: LdapConn, now: Time, h: Handshake)
    returns (first: Result<Shutdown, PoolError>, second: Result<Shutdown, PoolError>,
             acquired: Acquired, released: Released)
    requires p.Valid() && !p.closed
    modifies p
    ensures p.Valid() && p.closed
    ensures first == Ok(Shutdown(old(p.conns), old(p.reqConns)))
    ensures second == Err(ErrPoolClosed) && acquired == PoolClosed
    ensures released == ClosedAfterShutdown
    ensures p.conns == [] && p.reqConns == {} && p.openConn == old(p.openConn) - 1
  {
    first := p.Close();
    second := p.Close();
    acquired := p.GetConnection(now, h);
    released := p.PutConnection(Some(leased), now);
  }

  /** As written, the test connection NewPool makes stays counted: with
      MaxOpen = 1 the very first acquisition on a fresh pool must wait,
      although nothing is leased, and with no release to come it waits for
      ever (the caller's context gives up, or never does). */
  method SingleConnectionPoolWaits(config: LdapConfig, test: Handshake, h: Handshake, now: Time)
    returns (created: Result<LdapConnPool, PoolError>, acquired: Acquired)
    requires ValidateConfig(config) == Pass && config.maxOpen == 1
    requires Establish(PlanFor(WithDefaults(config)), test) == Pass
    ensures created.Ok? && acquired.MustWait?
  {
    created := NewPool(config, test, now);
    var pool := created.value;
    ToInt32Gate(pool.config.maxOpen);
    acquired := pool.GetConnection(now, h);
  }

  /** With the test connection uncounted, the same first acquisition on a
      fresh MaxOpen = 1 pool creates the pool's one connection. */
  method SingleConnectionPoolCreates(config: LdapConfig, test: Handshake, h: Handshake, now: Time)
    returns (created: Result<LdapConnPool, PoolError>, acquired: Acquired)
    requires ValidateConfig(config) == Pass && config.maxOpen == 1
    requires Establish(PlanFor(WithDefaults(config)), test) == Pass
    requires Establish(PlanFor(WithDefaults(config)), h) == Pass
    ensures created.Ok? && acquired == Created(LdapConn(h.session, now, now, false))
    ensures created.value.openConn == 1
  {
    created := NewPoolTestUncounted(config, test, now);
    var pool := created.value;
    ToInt32Gate(pool.config.maxOpen);
    acquired := pool.GetConnection(now, h);
  }

  /** An idle connection whose session dies is never reused: the next
      acquisition closes and uncounts it, and then goes on as with an empty
      idle list. */
  method DeadIdleSessionDiscarded(p: LdapConnPool, now: Time, h: Handshake)
    returns (acquired: Acquired)
    requires p.Valid() && !p.closed && |p.conns| == 1
    modifies p
    ensures p.Valid()
    ensures !acquired.Reused? && !acquired.PoolClosed? && p.conns == []
    ensures acquired.MustWait? ==> p.openConn == old(p.openConn) - 1
  {
    p.SessionLost(0);
    acquired := p.GetConnection(now, h);
  }
}
