# Peer-connection cache, as a verified state machine

This project models the peer-connection cache of `netcache/netcache.go`. The cache keeps one
`ConnectionHolder` per `PeerAddress`. A holder is a single-assignment connection slot with a
one-shot `ready` signal. Every caller of `GetConnection` for a peer shares one dial, and
`OnNewRemoteConnection` reconciles an inbound connection with a dial that may be in flight:
the first connection committed wins and every later one is closed. `Shutdown` sets a flag,
waits until every holder is ready, and then closes every installed connection.

Nearly all of the cache's logic runs inside mutex-protected critical sections. The model
treats each critical section as one atomic event on an immutable state (`NetCache.State`).
Three parts run without any lock:

- the dial goroutine's `factory.New(h.peer)` and `c.Open()` (`netcache/netcache.go:26-27`);
- `GetConnection`'s wait `<-c.ready` and its read of `c.connection`
  (`netcache/netcache.go:69-70`);
- `Shutdown`'s wait on the wait group and its closing loop (`netcache/netcache.go:114-119`).

The model folds the first into `DialComplete` and the second into `Await`, and treats the
third as a single step too. "## Left out" explains why each is safe.

The state holds:

- the holder map;
- the shutdown flag;
- the set of peers with a dial in flight;
- the inbound candidates registered but not yet delivered;
- one entry per `Shutdown` call that is still waiting;
- a log of factory calls;
- a log of `Close()` calls.

Modules:

- `Common`: peer addresses (32-bit signed, as in netcache.go), connection identities, `Option`.
- `ConnectionHolder`: the holder and its first-committer-wins `Resolve` step.
- `NetCache`: one function per critical section. A panic "network cache is not available"
  becomes `Err(Unavailable)` and leaves the state unchanged.
- `NetCacheMachine`: events, their enabling conditions, runs over event sequences, the
  invariant and its preservation, and the lifetime properties.
- `NetCacheScenarios`: the scenarios of `netcache/netcache_test.go` and some edge cases, as
  concrete step sequences.

How the Go code maps onto events:

- `GetConnection` is two steps. `GetConnection` is the locked lookup-or-create that launches
  at most one dial. `Await` is the wait on `ready`: it returns `None` while the caller would
  still be blocked.
- `OnNewRemoteConnection` is two steps, because the Go code releases the registry lock before
  it takes the holder lock. `ReportInbound` registers the holder without dialling.
  `ResolveInbound` offers the candidate to the holder. `NetCache.OnNewRemoteConnection`
  composes the two, which is what a caller sees once the call returns.
- `ConnectionHolder.Open` is one step, `DialComplete`. The factory call inside the dial
  goroutine is logged when the goroutine is launched, because each launched goroutine calls
  `factory.New` exactly once.
- `Shutdown` is two steps. `ShutdownBegin` sets the flag and records the holders this call
  waits for. `ShutdownFinish` is enabled once those holders are ready. It then closes the
  connections of the holders in an `order` argument, which is any ordering of the map's keys
  and stands in for Go's unspecified map iteration order.

Two behaviours of the code are shown as scenarios rather than ruled out, because nothing in
the code prevents them. The model records the code as written and does not repair it:

- Nothing in `Shutdown` (`netcache/netcache.go:102-119`) records that it has already run. A
  second call waits again and closes every connection again
  (`NetCacheScenarios.ShutdownTwiceClosesTwice`).
- The second departs from the comment on `Shutdown` (`netcache/netcache.go:100`), which promises
  that all background workers are stopped before it returns. The wait in lines 108-114 is only
  on each holder's `ready` channel. A dial goroutine that lost the race (lines 26-31) can still be running when
  `Shutdown` returns, and it closes its own connection later
  (`NetCacheScenarios.ShutdownReturnsWithLosingDialInFlight`).

## Model

| member | source | states |
|---|---|---|
| `ConnectionHolder.Fresh` | netcache/netcache.go:64 | A newly allocated holder has no connection and an open ready channel. |
| `ConnectionHolder.Resolve` | netcache/netcache.go:28-35 | If the holder is empty, the candidate is installed and the signal fires. Otherwise the holder is unchanged and the candidate is returned as the loser to close. A well-formed holder stays well-formed. |
| `ConnectionHolder.ResolveSettles` | netcache/netcache.go:30-32 | Resolving a resolved holder changes nothing and closes the new candidate, so the connection is assigned at most once. |
| `ConnectionHolder.FirstCommitterWins` | netcache/netcache.go:91-96 | Of two candidates offered to a fresh holder, the first one committed is kept and the second is closed. |
| `NetCache.New` | netcache/netcache.go:45-50 | The cache starts empty and open, with no dials, candidates, waiting shutdowns or logged calls. |
| `NetCache.ResolveAt` | netcache/netcache.go:30-35 | Offering a candidate to one peer's holder leaves every other holder and the key set unchanged. It either installs the candidate or logs exactly one loser close. |
| `NetCache.GetConnection` | netcache/netcache.go:57-68 | Fails exactly when shut down. Otherwise it keeps every existing holder. The state is unchanged when the peer already has a holder. Otherwise it adds a fresh holder and exactly one dial and factory call. |
| `NetCache.DialComplete` | netcache/netcache.go:25-36 | The dial result is installed if the holder is empty and closed otherwise. The dial leaves the in-flight set. Other peers and the holder's peer are untouched, and so is everything else in the state. |
| `NetCache.ReportInbound` | netcache/netcache.go:78-88 | Fails exactly when shut down. Otherwise it finds or creates the holder and registers the candidate. No dial is launched and nothing else changes. |
| `NetCache.ResolveInbound` | netcache/netcache.go:89-96 | The registered candidate is delivered once. It is installed if the holder is empty and closed otherwise. No other peer changes, the holder keeps its peer, and nothing else in the state changes. |
| `NetCache.OnNewRemoteConnection` | netcache/netcache.go:77-97 | Fails exactly when shut down. Otherwise the peer is ready on return and no other peer's holder changes. An earlier connection is kept and the new one closed, or else the new one is installed. No dial is launched, and only the map and the close log change. |
| `NetCache.Await` | netcache/netcache.go:69-70 | A waiter gets a connection only from a ready holder, and it is that holder's installed connection. A well-formed holder yields one exactly when ready. |
| `NetCache.ShutdownBegin` | netcache/netcache.go:103-113 | Sets the flag and records the current holders as the ones this call waits for. Nothing else changes. |
| `NetCache.DrainCloses` | netcache/netcache.go:115-119 | The closing loop closes only installed connections of holders in the map, each under its own peer. |
| `NetCache.ShutdownFinish` | netcache/netcache.go:114-119 | Retires exactly the finishing call's entry, keeping the other waiting calls in order, and appends the drain closes to the log. Nothing else changes. |
| `NetCache.DrainClosesCount` | netcache/netcache.go:115-119 | Along an order without repeats over resolved holders, a peer is closed once if visited and never otherwise. |
| `NetCache.DrainClosesEachHolderOnce` | netcache/netcache.go:115-119 | Over any iteration order of the map, each holder's connection is closed exactly once and no other peer is closed. |
| `NetCache.OrderingExists` | netcache/netcache.go:115 | Every finite key set has an iteration order, so the closing loop is never stuck. |
| `NetCacheMachine.InitInv` | netcache/netcache.go:45-50 | The fresh cache satisfies the invariant. |
| `NetCacheMachine.RequestPreservesInv` | netcache/netcache.go:57-68 | A request keeps the invariant. In particular, a peer is dialled only if it was never dialled before. |
| `NetCacheMachine.DialDonePreservesInv` | netcache/netcache.go:28-35 | A dial completion keeps the invariant. |
| `NetCacheMachine.ReportPreservesInv` | netcache/netcache.go:78-88 | An inbound registration keeps the invariant. A holder it creates has its candidate in flight. |
| `NetCacheMachine.DeliverPreservesInv` | netcache/netcache.go:89-96 | An inbound delivery keeps the invariant. |
| `NetCacheMachine.FinishPreservesInv` | netcache/netcache.go:114-119 | Finishing a shutdown keeps the invariant. |
| `NetCacheMachine.NextPreservesInv` | netcache/netcache.go:56-119 | Every enabled event keeps the invariant. |
| `NetCacheMachine.RunPreservesInv` | netcache/netcache.go:56-119 | After any sequence of events, the following hold: <br>- each holder is ready exactly when its connection is set; <br>- the factory was called at most once per peer; <br>- every unready holder has a dial or inbound candidate in flight; <br>- every waiting shutdown waits for exactly the current holders. |
| `NetCacheMachine.DialsOncePerPeer` | netcache/netcache.go:62-67 | Over the cache's lifetime, the factory is called at most once per peer, and only for peers that have a holder. |
| `NetCacheMachine.NextIsLater` | netcache/netcache.go:56-119 | No event removes or replaces a holder, changes an installed connection or un-fires a signal. The logs only grow and the flag never resets. |
| `NetCacheMachine.RunIsLater` | netcache/netcache.go:56-119 | The same holds across any sequence of events: the map only grows and each holder's connection is single-assigned. |
| `NetCacheMachine.RunAwaitShared` | netcache/netcache.go:69-70 | Once a peer's holder hands out a connection, every later waiter gets that same connection. |
| `NetCacheMachine.NextAfterShutdown` | netcache/netcache.go:58-61 | After the flag is set, requests and reports fail and change nothing. No event adds a holder, launches a dial or registers a candidate. |
| `NetCacheMachine.RunAfterShutdown` | netcache/netcache.go:79-82 | After the flag is set, no sequence of events adds a holder or a dial, and the flag stays set. |
| `NetCacheMachine.ShutdownClosesEachHolderOnce` | netcache/netcache.go:105-119 | When a shutdown finishes, every holder is ready, and that call closes each holder's installed connection exactly once and nothing else. |
| `NetCacheScenarios.OneConnection` | netcache/netcache_test.go:58-62 | One request, its dial and a shutdown: one factory call, and the connection is closed once. |
| `NetCacheScenarios.ConcurrentConnections` | netcache/netcache_test.go:64-72 | Requests for 1, 2, 2 give one dial per peer, and both requesters of peer 2 share its connection. |
| `NetCacheScenarios.Callback` | netcache/netcache_test.go:74-87 | Inbound reports make peers 2 and 1 ready at once while peer 3 is not ready. The late dials lose and are closed. |
| `NetCacheScenarios.InboundTwice` | netcache/netcache.go:91-92 | Two inbound reports for one peer keep the first connection, close the second, and dial nothing. |
| `NetCacheScenarios.DialBeatsLateDelivery` | netcache/netcache.go:89-96 | An inbound candidate delivered after the dial committed loses and is closed. |
| `NetCacheScenarios.RequestJoinsInboundHolder` | netcache/netcache.go:62-67 | A request that finds a holder created by an inbound report launches no dial and gets the inbound connection. |
| `NetCacheScenarios.UnavailableAfterShutdown` | netcache/netcache.go:58-61 | Requests and inbound reports after the flag is set fail. |
| `NetCacheScenarios.ShutdownWaitsForDial` | netcache/netcache.go:105-114 | The drain cannot finish while a holder is still dialling, and it can once the dial completes. |
| `NetCacheScenarios.ShutdownReturnsWithLosingDialInFlight` | netcache/netcache.go:99-120 | As written, a shutdown can finish with a losing dial still in flight, and that dial closes its connection afterwards. |
| `NetCacheScenarios.ShutdownTwiceClosesTwice` | netcache/netcache.go:102-119 | As written, two shutdown calls close the same connection twice. |

## Left out

- Goroutines, channels, `sync.Mutex` and `sync.WaitGroup` are not modelled as such. Each
  critical section is one atomic event. A blocked wait is an event that is not enabled
  (`ShutdownFinish`), or a `None` from `Await`.
- `NetCache.ShutdownFinish`: the unlocked part of `Shutdown` (`wg.Wait()` and the closing loop,
  `netcache/netcache.go:114-119`) is one atomic step. This is safe for two reasons. Once the
  flag is set, no holder can be added. Every connection the loop reads was installed before the
  wait ended and can no longer change. The only difference is the order of the close log: in
  Go, a losing dial can log its `Loser` close between two `Drained` closes of the loop. The
  last conjunct of `NetCacheMachine.ShutdownClosesEachHolderOnce` (the new log entries are all
  drain closes) relies on this atomicity.
- The two lock levels (registry lock, holder lock) are not told apart. Both are atomic steps
  of one sequential machine.
- Liveness is left out: "callers eventually unblock" and "Shutdown eventually returns". Both
  depend on the external `Open()`, which may block forever. The invariant does prove the
  safety half: every unready holder has a dial or an inbound candidate in flight.
- The bodies of `Connection.Open` and `Connection.Close`, and the `ConnectionFactory`, are
  left out. They are opaque collaborators. Connections are abstract identities. Calls to
  `New` and `Close()` are logged instead.
- Nil connections are left out: a nil inbound connection, or a factory that returns nil.
  Identities are never nil. In Go, a nil candidate would be installed and the next resolve
  would close the closed `ready` channel a second time.
- `NetCache.DialComplete`: the factory call is logged when the dial is launched, not inside
  the goroutine. Each launched goroutine makes exactly one such call. In Go that call, and
  `c.Open()`, run outside any lock (`netcache/netcache.go:26-27`). So a dial launched before
  the flag was set can call `factory.New` after the flag, even after `Shutdown` returns.
  `NetCacheMachine.RunAfterShutdown`'s `t.dials == s.dials` is therefore about dial launches,
  not the moment of the factory call.
- `NetCache.Await`: the wait and the read of `c.connection` (`netcache/netcache.go:69-70`) take
  no lock. The channel close happens after the connection is installed (lines 33-34, 94-95),
  and the connection never changes afterwards. So reading it at any later point gives the
  same value that `Await` returns.
- The test helpers `isready`/`isnotready`, `time.Sleep` and `fmt.Println` are left out. The
  scenarios read readiness from the state directly.
