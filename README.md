# ldapool connection pool, modelled in Dafny

A model of the connection pool in `ldapool.go` (package `ldapool`): a pool of
bound LDAP connections. It has an idle stack (`conns`), a table of blocked
acquirers keyed by random `uint64` (`reqConns`), an open-connection counter
(`openConn`) and a one-shot `closed` flag. The model covers these pieces:

- the expiration rule and the "usable" test (not closing, not expired);
- the required-field check and the defaulting of the numeric settings;
- how `createConnection` picks LDAPS or plain with optional StartTLS, which
  TLS settings it uses, and which phase fails;
- the pool operations `NewPool`, `GetConnection` (and the cancellation of
  its wait), `PutConnection`, the reaper's sweep, `Close`, `Stats` and the
  key generator.

Each pool operation is modelled as one atomic method of the class
`Pool.LdapConnPool`. The source runs some parts outside its mutex: the
closed checks of `GetConnection` and `PutConnection`, the dial after
`GetConnection` unlocks, and the compare-and-swap of `Close`. The races
this allows are listed under "## Left out". The following become inputs of
the operations:

- the clock (`now`, in nanoseconds);
- the server's answers to dial, StartTLS and bind (`Transport.Handshake`);
- the context's error (`Pool.ContextError`).

Go's random key draw and its map iteration order become nondeterministic
choices (`:|`).

A `GetConnection` that has to block returns `MustWait(key)`. The wait then
ends in one of three ways:

- a `PutConnection` returns `HandedOff(key, conn)`: the waiter gets the
  connection, with a nil error;
- `Close` lists the key in `Shutdown.signalled`: the closed channel gives the
  waiter a nil connection and a nil error (ldapool.go:235-236);
- `CancelWait(key, err)` runs: the waiter gets the context's error.

Behaviour modelled as the code has it:

- `openConn` is incremented only after a successful dial and bind.
- The test connection of `NewPool` is closed without a decrement, so a new
  pool starts at `openConn = 1` with nothing idle.
- After defaulting, `MaxOpen` is always positive. There is no unbounded
  setting.
- The admission gate compares against `int32(MaxOpen)` (`Pool.ToInt32`).
  This equals `MaxOpen` below 2^31. At `MaxOpen = 2^32` it is 0.
- Because the test connection stays counted, a pool can create at most
  MaxOpen - 1 connections of its own with no release in between; with
  MaxOpen = 1 the first acquisition on a fresh pool must wait (see
  "## Findings").
- `Close` does not decrement `openConn` for the idle connections it closes.
- A handed-off connection is not re-validated.
- `PutConnection` on a closed pool always decrements, even for a connection
  released twice. So the counter is not proved to stay non-negative.

Behaviour a reader might expect of a pool like this but that the code does
not have, and so the model does not have either:

- a MaxOpen of 0 meaning "unbounded";
- incrementing the counter before the dial;
- rejecting a context that is already cancelled on entry;
- an idempotent release;
- a "pool closed" error for waiters woken by shutdown (they get `(nil, nil)`);
- recovering a connection handed to a waiter that is cancelling at the same
  moment.

Modules: `Wrappers` (Option, Result, Outcome), `Config`, `Connection`,
`Transport`, `IdleList` (the two walks over the idle list as functions on
sequences), `Pool` (the class and `NewPool`) and `Scenarios` (call sequences
proved from the contracts alone).

## Model

| member | source | states |
|---|---|---|
| `Config.ValidateConfig` | ldapool.go:146-157 | Fails iff Url, AdminDN or AdminPass is empty. The error names the first missing field in the order Url, AdminDN, AdminPass. |
| `Config.ValidateIgnoresOtherFields` | ldapool.go:146-157 | BaseDN, the limits, the durations and the TLS options never affect validation. |
| `Config.SetDefaults` | ldapool.go:160-176 | The field-by-field defaulting produces `WithDefaults(config)`, and all five numeric settings are then positive. |
| `Config.WithDefaults` | ldapool.go:160-176 | The configuration setDefaults leaves, as a value: all five numeric settings positive. |
| `Config.WithDefaultsSpec` | ldapool.go:160-176 | About `WithDefaults`: a positive setting is kept. A non-positive one becomes 10, 5, 30s, 1h or 30m (in ns). Every other field is unchanged. |
| `Config.WithDefaultsIdempotent` | ldapool.go:160-176 | Defaulting twice equals defaulting once. A fully positive config is a fixed point. |
| `Connection.Sub` | ldapool.go:72-75 | Go's Time.Sub: the exact difference when it fits in a Duration, otherwise clamped to the Duration bounds. |
| `Connection.IsExpiredIff` | ldapool.go:70-79 | The predicate `IsExpired`, for all inputs: expired iff (0 < maxLifetime < MaxDuration and now - createdAt > maxLifetime) or (0 < maxIdleTime < MaxDuration and now - lastUsed > maxIdleTime), with strict comparisons. |
| `Connection.LargestThresholdNeverExceeded` | ldapool.go:72-75 | Either threshold at the largest Duration behaves as if switched off, whatever the other is, because the difference saturates. |
| `Connection.DisabledNeverExpires` | ldapool.go:70-79 | Non-positive thresholds switch both checks off. |
| `Connection.ExpiredStaysExpired` | ldapool.go:70-79 | Expiry is monotone in the clock. |
| `Connection.RefreshResetsIdle` | ldapool.go:70-79 | Once lastUsed is set to now, only the lifetime check can fire. |
| `Connection.UsableRefreshed` | ldapool.go:280-284 | About `Usable` (not closing and not `IsExpired`, the test of ldapool.go:214, :281-282 and :388): a usable connection stays usable after its lastUsed is refreshed. |
| `Transport.IsLdapsSpec` | ldapool.go:315 | The predicate `IsLdaps`: LDAPS iff `ldaps://` is a proper prefix of the URL. The bare prefix counts as plain; any non-empty rest after it makes the URL LDAPS. |
| `Transport.PreparedTls` | ldapool.go:307-312 | The caller's TLS config is used when given. Otherwise a config carrying InsecureSkipVerify is built, exactly when that flag or StartTLS is set. |
| `Transport.DialTimeout` | ldapool.go:295-298 | The dial timeout equals ConnTimeout when that is positive and 30s otherwise. |
| `Transport.PlanSpec` | ldapool.go:307-341 | About `PlanFor`: LDAPS iff the scheme test holds. StartTLS only on the plain branch, and there iff UseStartTLS. A supplied TLS config is used unchanged. Otherwise InsecureSkipVerify is carried. |
| `Transport.Establish` | ldapool.go:315-352 | Succeeds iff dial and bind succeed and, when StartTLS is planned, so does StartTLS. A dial failure is reported first. A StartTLS failure is possible only on a plain plan with StartTLS. |
| `IdleList.ReuseScan` | ldapool.go:209-223 | Popping from the tail finds the top-most usable entry. Every entry above it is unusable and is discarded. The entries beneath it are kept in order. With no usable entry the list empties and all entries are discarded. |
| `IdleList.LastReleasedFirstReused` | ldapool.go:209-218 | A usable connection just pushed with a refreshed lastUsed is the next one reused, with nothing discarded. |
| `IdleList.KeepUsableMembers` | ldapool.go:386-395 | About `KeepUsable`, the sweep as a function: its result holds exactly the usable entries and is never longer than the input. |
| `IdleList.KeepUsableAppend` | ldapool.go:386-395 | The sweep preserves order: filtering a concatenation concatenates the filtered parts. |
| `IdleList.KeepUsableAllUsable` | ldapool.go:386-395 | A list of only usable entries is left unchanged. |
| `IdleList.KeepUsableShrinksIffStale` | ldapool.go:386-395 | The list is unchanged iff every entry is usable. |
| `IdleList.KeepUsableIdempotent` | ldapool.go:386-395 | A second sweep at the same time removes nothing. |
| `Pool.ToInt32` | ldapool.go:227 | Go's int32 conversion: in int32 range and congruent to the input modulo 2^32. |
| `Pool.ToInt32Gate` | ldapool.go:226-227 | The converted MaxOpen never exceeds MaxOpen. It equals MaxOpen below 2^31 and is 0 at 2^32. |
| `Pool.FreeBelow` | ldapool.go:434-441 | Fewer than n values below n leave one of them free. |
| `Pool.FreshKeyExists` | ldapool.go:434-441 | A waiter table with fewer than 2^64 keys leaves a uint64 key free. |
| `Pool.LdapConnPool.constructor` | ldapool.go:106-111 | The pool literal: the given config, empty stack and table, counter 0, open. |
| `Pool.LdapConnPool.CreateConnection` | ldapool.go:294-364 | A connection stamped createdAt = lastUsed = now is returned iff the handshake succeeds. Only then is the counter incremented. A failure reports its phase and leaves the counter unchanged. |
| `Pool.LdapConnPool.NextRequestKey` | ldapool.go:434-441 | Returns a key not in the waiter table. |
| `Pool.LdapConnPool.GetConnection` | ldapool.go:201-249 | On a closed pool: ErrPoolClosed, no change. Otherwise the idle list becomes `ReuseScan(...).rest`. A found entry is returned refreshed, with one decrement per discarded entry. When the list is drained, a counter below int32(MaxOpen) calls the factory and only success increments. At or above it, a fresh key is added. Preserves `Valid()`: idle length ≤ MaxIdle, counter ≤ MaxOpen, and waiters only while nothing is idle. |
| `Pool.LdapConnPool.CancelWait` | ldapool.go:237-242 | Removes exactly the caller's key and returns the context's error. Nothing else changes. |
| `Pool.LdapConnPool.PutConnection` | ldapool.go:252-291 | Nil changes nothing. A closed pool decrements only. Otherwise exactly one branch runs. (1) If there are waiters, one of them is removed and handed the connection refreshed, not re-validated; the counter and stack are unchanged. (2) Else the connection is appended refreshed iff the stack has room and it is usable. (3) Else the counter is decremented. Preserves idle length ≤ MaxIdle. |
| `Pool.LdapConnPool.CleanupExpiredConnections` | ldapool.go:382-396 | The idle list becomes `KeepUsable(old list)`. The counter drops by the number removed. Waiters and the flag are not in the frame. |
| `Pool.LdapConnPool.Close` | ldapool.go:399-424 | The first call sets closed. It returns the idle connections closed and the waiter keys signalled, empties both, and leaves the counter unchanged. Later calls return ErrPoolClosed and change nothing. |
| `Pool.LdapConnPool.SessionLost` | ldapool.go:214 | Environment step, not a pool operation: the idle connection at one index now reports IsClosing(); nothing else changes and the invariant holds. |
| `Pool.LdapConnPool.Stats` | ldapool.go:427-431 | Reports the counter and the idle-list length; the reported idle count never exceeds MaxIdle. |
| `Pool.NewPool` | ldapool.go:99-124 | An invalid config gives ErrInvalidConfig with the reason. A failed test connection gives a wrapped error. Otherwise a fresh valid pool with the defaulted config, counter 1, nothing idle, no waiters, open. |
| `Pool.NewPoolTestUncounted` | ldapool.go:114-118 | The corrected NewPool: same errors and same resulting pool, except that the closed test connection is uncounted, so the counter starts at 0. |
| `Scenarios.ReleaseThenAcquire` | ldapool.go:209-285 | LIFO: releasing a usable connection with room and no waiters, then acquiring at the same time, returns that connection refreshed. The pool's stack and counter end as they began. |
| `Scenarios.SaturatedAcquireThenCancel` | ldapool.go:226-243 | At counter = MaxOpen with nothing idle, the acquirer must wait. Cancelling returns the context error and restores the waiter table, with the counter unchanged. On a fresh pool with MaxOpen = 1 this state holds from the start, so the wait is all that happens. |
| `Scenarios.SingleConnectionPoolWaits` | ldapool_test.go:190-201 | As written: a freshly created pool with MaxOpen = 1 makes its first acquisition wait, although nothing is leased. |
| `Scenarios.SingleConnectionPoolCreates` | ldapool_test.go:190-201 | With the corrected NewPool, the same first acquisition creates the pool's one connection and the counter becomes 1. |
| `Scenarios.DeadIdleSessionDiscarded` | ldapool.go:209-223 | An idle connection whose session died is not reused: the next acquisition discards it, and when it then has to wait the counter has dropped by one. |
| `Scenarios.CloseTwiceThenUse` | ldapool_test.go:376-391 | The first Close succeeds. The second returns ErrPoolClosed, and so does a later acquisition. A connection leased earlier is closed and uncounted on release. |

## Findings

| source | as written | input that shows it | evidently intended | confidence | as-written member | corrected member |
|---|---|---|---|---|---|---|
| ldapool.go:114-118 | The test connection is closed with `testConn.Conn.Close()` but stays counted, so a new pool starts at openConn = 1 | A valid config with MaxOpen = 1 and a reachable server: `NewPool` succeeds, then the first `GetConnection` must wait (with `context.Background()` for ever, as at ldapool_test.go:198) | The test connection is uncounted when closed, so a new pool starts at openConn = 0 and the first acquisition creates a connection | not executed | `Scenarios.SingleConnectionPoolWaits` (over `Pool.NewPool`) | `Scenarios.SingleConnectionPoolCreates` (over `Pool.NewPoolTestUncounted`) |

`Pool.NewPool` stays the model of the code as written. The pool's
operations work on either constructor's result, since both establish
`Valid()`.

## Left out

- Dialing, the TLS handshake, StartTLS and Bind (go-ldap, `net`, `crypto/tls`). They are foreign calls whose answers are the fields of `Transport.Handshake`. A new connection's `closing` flag is taken to be false. The network setting it on an idle connection is the environment step `Pool.LdapConnPool.SessionLost`; a leased connection's flag is the caller's business and is read only when the connection is released.
- The `cleanup` goroutine, its one-minute ticker, `stopCleanup` and `cleanupOnce`. They are timers and goroutine signalling; only the sweep body is modelled.
- The mutex, the atomics, the channels and `select`. Each method is one atomic step, so these races are not captured:
  - the unlocked closed checks (ldapool.go:202, :253) racing `Close`;
  - `Close` flagging the pool closed (ldapool.go:400) before it takes the lock (:408);
  - `MaxOpen` overshoot from dials that run outside the lock (ldapool.go:247-248).
- The blocked wait itself. Its three possible endings are the outputs described above. The model does not track what a waiter has received, so it allows `PutConnection` returning `HandedOff(k, c)` followed by `CancelWait(k, err)`: `c` is then dropped with the counter unchanged, which is the source's leak when a waiter cancels during a hand-off.
- Each operation reads the clock once (`now`). The source calls `time.Now()` separately in every `IsExpired` check, for each `lastUsed` refresh and for `createdAt` after the dial and bind, so its timestamps within one call can differ slightly.
- The per-item close calls in `GetConnection`, `PutConnection`, the sweep and `Close`. They are foreign I/O. `Close` returns what it closes and signals, and the other operations report it through the counter and their outcome.
- The process-wide default pool: `InitDefault`, `GetDefault`, `Open`, `GetLDAPConn`, `PutLADPConn` and `sync.Once`. They are thin global wrappers over `NewPool`, `GetConnection` and, through `LdapConn.Close`, `PutConnection`.
- `LdapConn.Close`. For a pooled connection it is `PutConnection(Some(conn))`. The pool back-reference is not modelled, because every modelled connection belongs to its pool.
- `NewTLSConfig` and `NewClientCertTLSConfig`. They are struct literals over `crypto/tls`.
- Pointer identity and in-place updates of `LdapConn`. A connection is a value with a `session` id. Refreshing `lastUsed` yields the updated value that is returned, so aliasing between copies is not captured.
- Wrap-around of the int32 `openConn` counter. It would take 2^31 live connections. Go's 64-bit `int` settings are unbounded integers.
- Error message texts and `%w` wrapping. Only the error kinds are modelled. `ErrConnClosed` and `ErrTimeout` are declared in the source but never returned.
- URLs are character sequences, not bytes. For the ASCII prefix `ldaps://` this gives the same answer as Go's byte slicing.
- Pool.LdapConnPool.GetConnection: requires fewer than 2^64 registered waiters. With a full table the source's key loop would never end.
- Pool.LdapConnPool.NextRequestKey: picks any free key instead of drawing random numbers until one is free. It has the same precondition as `GetConnection`.
