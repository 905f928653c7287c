/** The connection pool (`LdapConnPool`). Each operation is modelled as
    one atomic step; the parts the source runs outside its mutex are races
    the model does not capture. The clock, the server's answers and the Go runtime's choices
    (random keys, map iteration order) are inputs or nondeterministic picks. */
module Pool {
  import opened Wrappers
  import opened Config
  import opened Connection
  import opened Transport
  import opened IdleList

  /** Waiter keys are Go uint64 values. */
  const KeySpace: int := 0x1_0000_0000_0000_0000
  type ReqKey = k: int | 0 <= k < KeySpace

  /** Go's int32(x) conversion: the low 32 bits, read as two's complement. */
  function ToInt32(x: int): (r: int)
    ensures -0x8000_0000 <= r < 0x8000_0000
    ensures (x - r) % 0x1_0000_0000 == 0
  {
    (x + 0x8000_0000) % 0x1_0000_0000 - 0x8000_0000
  }

  /** The gate compares against the converted MaxOpen. It is MaxOpen itself
      for every value an int32 can hold, never more than MaxOpen, and for
      MaxOpen = 2^32 it is 0, so an empty pool can never grow. */
  lemma ToInt32Gate(maxOpen: int)
    requires maxOpen > 0
    ensures ToInt32(maxOpen) <= maxOpen
    ensures maxOpen < 0x8000_0000 ==> ToInt32(maxOpen) == maxOpen
    ensures maxOpen == 0x1_0000_0000 ==> ToInt32(maxOpen) == 0
  {
  }

  /** Fewer than n values below n cannot cover all of them. */
  lemma {:induction false} FreeBelow(s: set<int>, n: nat)
    requires forall k :: k in s ==> 0 <= k < n
    requires |s| < n
    ensures exists k :: 0 <= k < n && k !in s
  {
    if n - 1 !in s {
      assert 0 <= n - 1 < n && n - 1 !in s;
    } else {
      var s' := s - {n - 1};
      assert |s'| == |s| - 1;
      FreeBelow(s', n - 1);
      var k :| 0 <= k < n - 1 && k !in s';
      assert k !in s;
    }
  }

  /** A waiter table with fewer than 2^64 entries leaves a key free. */
  lemma FreshKeyExists(s: set<ReqKey>)
    requires |s| < KeySpace
    ensures exists k: ReqKey :: k !in s
  {
    var ints: set<int> := set k | k in s :: k as int;
    assert ints == s;
    FreeBelow(ints, KeySpace);
  }

  /** Errors reported by NewPool and Close. */
  datatype PoolError =
    | ErrPoolClosed
    | ErrInvalidConfig(reason: ConfigError)
    | ErrTestConnection(cause: CreateError)

  /** What a cancelled or timed-out context reports. */
  datatype ContextError = Canceled | DeadlineExceeded

  /** The outcome of GetConnection's critical section. PoolClosed is Go's
      (nil, ErrPoolClosed); FactoryFailed is (nil, the wrapped error). MustWait stands for
      the caller blocking on the channel registered under `key`: it is
      completed by a HandedOff release (connection, nil), by Close (nil,
      nil) or by CancelWait (nil, the context's error). */
  datatype Acquired =
    | PoolClosed
    | Reused(conn: LdapConn)
    | Created(conn: LdapConn)
    | FactoryFailed(error: CreateError)
    | MustWait(key: ReqKey)

  /** Which of PutConnection's branches was taken. */
  datatype Released =
    | NothingToRelease
    | ClosedAfterShutdown
    | HandedOff(key: ReqKey, conn: LdapConn)
    | KeptIdle
    | Discarded

  /** What the first Close tears down: the idle connections whose sessions
      it closes and the waiters whose channels it closes. */
  datatype Shutdown = Shutdown(closedIdle: seq<LdapConn>, signalled: set<ReqKey>)

  class LdapConnPool {
    const config: LdapConfig
    /** Idle connections; the last element is the most recently released. */
    var conns: seq<LdapConn>
    /** Keys of the registered waiters. */
    var reqConns: set<ReqKey>
    /** Open connections as the pool counts them. */
    var openConn: int
    var closed: bool

    /** The pool's invariant: settings are defaulted, the idle list never
        outgrows MaxIdle, a closed pool holds nothing, (one step at a time)
        the counter never passes MaxOpen, and waiters exist only while
        nothing is idle, so a hand-off never bypasses an idle entry. */
    ghost predicate Valid()
      reads this
    {
      Defaulted(config) &&
      |conns| <= config.maxIdle &&
      openConn <= config.maxOpen &&
      (closed ==> conns == [] && reqConns == {}) &&
      (reqConns != {} ==> conns == [])
    }

    /** The struct literal NewPool builds before its test connection. */
    constructor (config: LdapConfig)
      ensures this.config == config
      ensures conns == [] && reqConns == {} && openConn == 0 && !closed
    {
      this.config := config;
      conns := [];
      reqConns := {};
      openConn := 0;
      closed := false;
    }

    /** createConnection: follow the plan for this configuration; only a
        completed dial and bind yields a connection, stamped with the
        current time, and only then is the counter incremented. */
    method CreateConnection(h: Handshake, now: Time) returns (r: Result<LdapConn, CreateError>)
      modifies this`openConn
      ensures r.Ok? <==> Establish(PlanFor(config), h) == Pass
      ensures r.Ok? ==> r.value == LdapConn(h.session, now, now, false) && openConn == old(openConn) + 1
      ensures r.Err? ==> Establish(PlanFor(config), h) == Fail(r.error) && openConn == old(openConn)
    {
      var outcome := Establish(PlanFor(config), h);
      if outcome.Fail? {
        return Err(outcome.error);
      }
      r := Ok(LdapConn(h.session, now, now, false));
      openConn := openConn + 1;
    }

    /** nextRequestKeyLocked: any key not already registered. */
    method NextRequestKey() returns (key: ReqKey)
      requires |reqConns| < KeySpace
      ensures key !in reqConns
    {
      FreshKeyExists(reqConns);
      key :| key !in reqConns;
    }

    /** GetConnection. A closed pool refuses at once and changes nothing.
        Otherwise stale idle connections are popped and closed, one counter
        decrement each, until a usable one is found and returned refreshed;
        with the idle list drained, a counter below the (int32) MaxOpen
        calls the factory, and a counter at or above it registers a waiter
        under a fresh key. */
    method GetConnection(now: Time, h: Handshake) returns (r: Acquired)
      requires Valid()
      requires |reqConns| < KeySpace
      modifies this
      ensures Valid()
      ensures old(closed) ==> r == PoolClosed && unchanged(this)
      ensures closed == old(closed)
      ensures !old(closed) ==> conns == ReuseScan(old(conns), config, now).rest
      ensures !old(closed) && ReuseScan(old(conns), config, now).found.Some? ==>
        r == Reused(ReuseScan(old(conns), config, now).found.value.(lastUsed := now)) &&
        openConn == old(openConn) - ReuseScan(old(conns), config, now).discarded &&
        reqConns == old(reqConns)
      ensures !old(closed) && ReuseScan(old(conns), config, now).found.None? ==>
        var drained := old(openConn) - |old(conns)|;
        if drained >= ToInt32(config.maxOpen) then
          r.MustWait? && r.key !in old(reqConns) && reqConns == old(reqConns) + {r.key} &&
          openConn == drained
        else
          reqConns == old(reqConns) &&
          (r.Created? || r.FactoryFailed?) &&
          (r.Created? <==> Establish(PlanFor(config), h) == Pass) &&
          (r.Created? ==> r.conn == LdapConn(h.session, now, now, false) && openConn == drained + 1) &&
          (r.FactoryFailed? ==> Establish(PlanFor(config), h) == Fail(r.error) && openConn == drained)
    {
      if closed {
        return PoolClosed;
      }
      while |conns| > 0
        invariant |conns| <= |old(conns)|
        invariant ReuseScan(old(conns), config, now) ==
          var s := ReuseScan(conns, config, now); s.(discarded := s.discarded + |old(conns)| - |conns|)
        invariant openConn == old(openConn) - (|old(conns)| - |conns|)
        invariant reqConns == old(reqConns) && !closed
        invariant Valid()
        decreases |conns|
      {
        var conn := conns[|conns| - 1];
        conns := conns[..|conns| - 1];
        if Usable(conn, config, now) {
          return Reused(conn.(lastUsed := now));
        }
        openConn := openConn - 1;
      }
      ToInt32Gate(config.maxOpen);
      if openConn >= ToInt32(config.maxOpen) {
        var key := NextRequestKey();
        reqConns := reqConns + {key};
        return MustWait(key);
      }
      var created := CreateConnection(h, now);
      r := if created.Ok? then Created(created.value) else FactoryFailed(created.error);
    }

    /** The cancellation branch of GetConnection's wait: the caller's key is
        deleted (a no-op if it is gone already) and the context's error is
        what the caller gets. */
    method CancelWait(key: ReqKey, err: ContextError) returns (r: ContextError)
      requires Valid()
      modifies this`reqConns
      ensures Valid()
      ensures reqConns == old(reqConns) - {key}
      ensures r == err
    {
      reqConns := reqConns - {key};
      r := err;
    }

    /** PutConnection. Nil changes nothing; on a closed pool the connection
        is closed and uncounted; otherwise it goes to some waiter (refreshed,
        not re-checked), else onto the idle list if there is room and it is
        usable, else it is closed and uncounted. */
    method PutConnection(conn: Option<LdapConn>, now: Time) returns (r: Released)
      requires Valid()
      modifies this
      ensures Valid()
      ensures closed == old(closed)
      ensures conn.None? ==> r == NothingToRelease && unchanged(this)
      ensures conn.Some? && old(closed) ==>
        r == ClosedAfterShutdown && openConn == old(openConn) - 1 &&
        conns == old(conns) && reqConns == old(reqConns)
      ensures conn.Some? && !old(closed) && old(reqConns) != {} ==>
        r.HandedOff? && r.key in old(reqConns) && r.conn == conn.value.(lastUsed := now) &&
        reqConns == old(reqConns) - {r.key} &&
        conns == old(conns) && openConn == old(openConn)
      ensures conn.Some? && !old(closed) && old(reqConns) == {} ==>
        reqConns == {} &&
        if |old(conns)| < config.maxIdle && Usable(conn.value, config, now) then
          r == KeptIdle && conns == old(conns) + [conn.value.(lastUsed := now)] && openConn == old(openConn)
        else
          r == Discarded && conns == old(conns) && openConn == old(openConn) - 1
    {
      if conn.None? {
        return NothingToRelease;
      }
      var c := conn.value;
      if closed {
        openConn := openConn - 1;
        return ClosedAfterShutdown;
      }
      if |reqConns| > 0 {
        var key :| key in reqConns;
        reqConns := reqConns - {key};
        return HandedOff(key, c.(lastUsed := now));
      }
      if |conns| < config.maxIdle && Usable(c, config, now) {
        conns := conns + [c.(lastUsed := now)];
        return KeptIdle;
      }
      openConn := openConn - 1;
      return Discarded;
    }

    /** cleanupExpiredConnections: the reaper's sweep. The idle list becomes
        its usable entries in their order, each removed entry costs one
        counter decrement, and the waiters are not touched. */
    method CleanupExpiredConnections(now: Time)
      requires Valid()
      modifies this`conns, this`openConn
      ensures Valid()
      ensures conns == KeepUsable(old(conns), config, now)
      ensures openConn == old(openConn) - (|old(conns)| - |conns|)
    {
      var valid: seq<LdapConn> := [];
      var i := 0;
      while i < |conns|
        invariant conns == old(conns)
        invariant 0 <= i <= |conns|
        invariant valid == KeepUsable(conns[..i], config, now)
        invariant |valid| <= i
        invariant openConn == old(openConn) - (i - |valid|)
      {
        var conn := conns[i];
        assert conns[..i + 1][..i] == conns[..i];
        if Usable(conn, config, now) {
          valid := valid + [conn];
        } else {
          openConn := openConn - 1;
        }
        i := i + 1;
      }
      assert conns[..i] == conns;
      KeepUsableMembers(conns, config, now);
      conns := valid;
    }

    /** Close: one-shot. The first call marks the pool closed, empties the
        idle list (closing each session) and the waiter table (closing each
        channel) and leaves the counter as it is; every later call reports
        ErrPoolClosed and changes nothing. */
    method Close() returns (r: Result<Shutdown, PoolError>)
      requires Valid()
      modifies this
      ensures Valid()
      ensures closed
      ensures old(closed) ==> r == Err(ErrPoolClosed) && unchanged(this)
      ensures !old(closed) ==>
        r == Ok(Shutdown(old(conns), old(reqConns))) &&
        conns == [] && reqConns == {} && openConn == old(openConn)
    {
      if closed {
        return Err(ErrPoolClosed);
      }
      closed := true;
      r := Ok(Shutdown(conns, reqConns));
      conns := [];
      reqConns := {};
    }

    /** Not an operation of the pool: the server or the network ends the
        session of the idle connection at index i, so its IsClosing() now
        reports true. Nothing else changes. */
    method SessionLost(i: nat)
      requires Valid() && i < |conns|
      modifies this`conns
      ensures Valid()
      ensures conns == old(conns)[i := old(conns)[i].(closing := true)]
    {
      conns := conns[i := conns[i].(closing := true)];
    }

    /** Stats: the counter and the idle-list length, which never exceeds
        MaxIdle. */
    method Stats() returns (open: int, idle: nat)
      requires Valid()
      ensures open == openConn && idle == |conns|
      ensures idle <= config.maxIdle
    {
      open, idle := openConn, |conns|;
    }
  }

  /** NewPool: validate, default, build, and make one test connection. The
      test session is closed without touching the counter, so a new pool
      starts with openConn = 1 and nothing idle. */
  method NewPool(config: LdapConfig, h: Handshake, now: Time) returns (r: Result<LdapConnPool, PoolError>)
    ensures ValidateConfig(config).Fail? ==> r == Err(ErrInvalidConfig(ValidateConfig(config).error))
    ensures ValidateConfig(config) == Pass ==>
      var plan := PlanFor(WithDefaults(config));
      if Establish(plan, h) == Pass then
        r.Ok? && fresh(r.value) && r.value.Valid() &&
        r.value.config == WithDefaults(config) &&
        r.value.conns == [] && r.value.reqConns == {} &&
        r.value.openConn == 1 && !r.value.closed
      else
        r == Err(ErrTestConnection(Establish(plan, h).error))
  {
    var valid := ValidateConfig(config);
    if valid.Fail? {
      return Err(ErrInvalidConfig(valid.error));
    }
    var defaulted := SetDefaults(config);
    var pool := new LdapConnPool(defaulted);
    var test := pool.CreateConnection(h, now);
    if test.Err? {
      return Err(ErrTestConnection(test.error));
    }
    return Ok(pool);
  }

  /** NewPool as evidently intended: identical, except that closing the
      test connection also uncounts it, so a new pool starts at openConn = 0
      and can create MaxOpen connections of its own. */
  method NewPoolTestUncounted(config: LdapConfig, h: Handshake, now: Time) returns (r: Result<LdapConnPool, PoolError>)
    ensures ValidateConfig(config).Fail? ==> r == Err(ErrInvalidConfig(ValidateConfig(config).error))
    ensures ValidateConfig(config) == Pass ==>
      var plan := PlanFor(WithDefaults(config));
      if Establish(plan, h) == Pass then
        r.Ok? && fresh(r.value) && r.value.Valid() &&
        r.value.config == WithDefaults(config) &&
        r.value.conns == [] && r.value.reqConns == {} &&
        r.value.openConn == 0 && !r.value.closed
      else
        r == Err(ErrTestConnection(Establish(plan, h).error))
  {
    var valid := ValidateConfig(config);
    if valid.Fail? {
      return Err(ErrInvalidConfig(valid.error));
    }
    var defaulted := SetDefaults(config);
    var pool := new LdapConnPool(defaulted);
    var test := pool.CreateConnection(h, now);
    if test.Err? {
      return Err(ErrTestConnection(test.error));
    }
    pool.openConn := pool.openConn - 1;
    return Ok(pool);
  }
}
