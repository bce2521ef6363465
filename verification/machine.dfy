/** The cache as a transition system: every critical section of
    netcache/netcache.go is one atomic event, and the properties the locks
    are there to guarantee are invariants over arbitrary event sequences. */
module NetCacheMachine {
  import opened Common
  import opened ConnectionHolder
  import opened NetCache

  /** The atomic steps. `Request` and `Report` stand for calls that may fail
      because the cache is shut down; `FinishShutdown` names the waiting
      `Shutdown` call and the iteration order of its closing loop. */
  datatype Event =
    | Request(peer: PeerAddress)
    | DialDone(peer: PeerAddress, conn: ConnId)
    | Report(peer: PeerAddress, conn: ConnId)
    | Deliver(candidate: Candidate)
    | BeginShutdown
    | FinishShutdown(call: nat, order: seq<PeerAddress>)

  /** An event can happen: a dial completes only if it was launched, an inbound
      candidate is delivered only if it was registered, and a shutdown finishes
      only once every holder it waits for is ready. */
  predicate Enabled(s: State, e: Event) {
    match e
    case Request(_) => true
    case DialDone(p, _) => p in s.dialing && p in s.cache
    case Report(_, _) => true
    case Deliver(c) => c in s.resolving && c.peer in s.cache
    case BeginShutdown => true
    case FinishShutdown(call, order) => DrainEnabled(s, call, order)
  }

  /** The state after an event. A call that fails with `Unavailable` (a panic
      in the Go code) leaves the state as it was. */
  function Next(s: State, e: Event): (t: State)
    requires Enabled(s, e)
  {
    match e
    case Request(p) => (match GetConnection(s, p) case Ok(t) => t case Err(_) => s)
    case DialDone(p, c) => DialComplete(s, p, c)
    case Report(p, c) => (match ReportInbound(s, p, c) case Ok(t) => t case Err(_) => s)
    case Deliver(c) => ResolveInbound(s, c)
    case BeginShutdown => ShutdownBegin(s)
    case FinishShutdown(call, order) => ShutdownFinish(s, call, order)
  }

  /** The final state of running `es` from `s`, or `None` if some event of
      `es` is not enabled when its turn comes. */
  function Run(s: State, es: seq<Event>): (r: Option<State>)
    decreases |es|
  {
    if es == [] then Some(s)
    else if Enabled(s, es[0]) then Run(Next(s, es[0]), es[1..])
    else None
  }

  /** Some registered inbound candidate is on its way to `peer`'s holder. */
  ghost predicate InboundPending(s: State, peer: PeerAddress) {
    exists x :: x in s.resolving && x.peer == peer
  }

  /** What every reachable state satisfies. */
  ghost predicate Inv(s: State) {
    // each key has its own holder, ready exactly when its connection is set
    && (forall p :: p in s.cache ==> s.cache[p].peer == p && WellFormed(s.cache[p]))
    // in-flight dials and inbound candidates target existing holders
    && s.dialing <= s.cache.Keys
    && (forall x :: x in s.resolving ==> x.peer in s.cache)
    // the factory was called at most once per peer, only for peers with a holder
    && NoDuplicates(s.dials)
    && (forall i :: 0 <= i < |s.dials| ==> s.dials[i] in s.cache)
    && (forall p :: p in s.dialing ==> p in s.dials)
    // a holder that is not ready has a dial or an inbound candidate in flight
    && (forall p :: p in s.cache && !s.cache[p].ready ==> p in s.dialing || InboundPending(s, p))
    // a waiting shutdown has set the flag, and waits for exactly the current holders
    && (|s.drains| > 0 ==> s.shutdown)
    && (forall i :: 0 <= i < |s.drains| ==> s.drains[i] == s.cache.Keys)
  }

  lemma InitInv()
    ensures Inv(New())
  {
  }

  lemma RequestPreservesInv(s: State, p: PeerAddress)
    requires Inv(s)
    ensures Inv(Next(s, Request(p)))
  {
  }

  lemma DialDonePreservesInv(s: State, p: PeerAddress, c: ConnId)
    requires Inv(s) && Enabled(s, DialDone(p, c))
    ensures Inv(Next(s, DialDone(p, c)))
  {
  }

  lemma ReportPreservesInv(s: State, p: PeerAddress, c: ConnId)
    requires Inv(s)
    ensures Inv(Next(s, Report(p, c)))
  {
  }

  lemma DeliverPreservesInv(s: State, cand: Candidate)
    requires Inv(s) && Enabled(s, Deliver(cand))
    ensures Inv(Next(s, Deliver(cand)))
  {
  }

  lemma FinishPreservesInv(s: State, call: nat, order: seq<PeerAddress>)
    requires Inv(s) && Enabled(s, FinishShutdown(call, order))
    ensures Inv(Next(s, FinishShutdown(call, order)))
  {
  }

  /** Every event preserves the invariant. */
  lemma NextPreservesInv(s: State, e: Event)
    requires Inv(s) && Enabled(s, e)
    ensures Inv(Next(s, e))
  {
    match e
    case Request(p) => RequestPreservesInv(s, p);
    case DialDone(p, c) => DialDonePreservesInv(s, p, c);
    case Report(p, c) => ReportPreservesInv(s, p, c);
    case Deliver(c) => DeliverPreservesInv(s, c);
    case BeginShutdown =>
    case FinishShutdown(call, order) => FinishPreservesInv(s, call, order);
  }

  /** The invariant holds after any sequence of events. */
  lemma {:induction false} RunPreservesInv(s: State, es: seq<Event>)
    requires Inv(s)
    ensures Run(s, es).Some? ==> Inv(Run(s, es).value)
    decreases |es|
  {
    if es != [] && Enabled(s, es[0]) {
      NextPreservesInv(s, es[0]);
      RunPreservesInv(Next(s, es[0]), es[1..]);
    }
  }

  /** Over the cache's whole lifetime, the factory is called at most once per
      peer, and only for peers that have a holder. */
  lemma DialsOncePerPeer(es: seq<Event>)
    ensures Run(New(), es).Some? ==>
              var t := Run(New(), es).value;
              NoDuplicates(t.dials) && (forall i :: 0 <= i < |t.dials| ==> t.dials[i] in t.cache)
  {
    InitInv();
    RunPreservesInv(New(), es);
  }

  /** `t` is a later state than `s`: no holder has been removed or replaced,
      an installed connection is still installed, a fired signal stays fired,
      the logs only grow, and the flag never goes back. */
  ghost predicate Later(s: State, t: State) {
    && s.cache.Keys <= t.cache.Keys
    && (forall p :: p in s.cache ==> t.cache[p].peer == s.cache[p].peer)
    && (forall p :: p in s.cache && s.cache[p].connection.Some? ==> t.cache[p].connection == s.cache[p].connection)
    && (forall p :: p in s.cache && s.cache[p].ready ==> t.cache[p].ready)
    && s.dials <= t.dials
    && s.closes <= t.closes
    && (s.shutdown ==> t.shutdown)
  }

  lemma NextIsLater(s: State, e: Event)
    requires Enabled(s, e)
    ensures Later(s, Next(s, e))
  {
  }

  /** Holders are never removed or replaced and single assignment holds over
      any sequence of events. */
  lemma {:induction false} RunIsLater(s: State, es: seq<Event>)
    ensures Run(s, es).Some? ==> Later(s, Run(s, es).value)
    decreases |es|
  {
    if es != [] && Enabled(s, es[0]) {
      var s1 := Next(s, es[0]);
      NextIsLater(s, es[0]);
      RunIsLater(s1, es[1..]);
    }
  }

  /** Every caller waiting on a peer gets the same connection: once the
      holder has delivered a connection, it delivers that one forever. */
  lemma RunAwaitShared(s: State, es: seq<Event>, peer: PeerAddress)
    requires Await(s, peer).Some?
    ensures Run(s, es).Some? ==> Await(Run(s, es).value, peer) == Await(s, peer)
  {
    RunIsLater(s, es);
  }

  /** After the flag is set, nothing enters the cache: no holder is created
      and no dial is launched; requests and reports fail. */
  lemma NextAfterShutdown(s: State, e: Event)
    requires s.shutdown && Enabled(s, e)
    ensures Next(s, e).cache.Keys == s.cache.Keys
    ensures Next(s, e).dials == s.dials && Next(s, e).dialing <= s.dialing
    ensures Next(s, e).resolving <= s.resolving
    ensures e.Request? ==> GetConnection(s, e.peer).Err? && Next(s, e) == s
    ensures e.Report? ==> ReportInbound(s, e.peer, e.conn).Err? && Next(s, e) == s
  {
    match e
    case Deliver(c) =>
      assert Next(s, e).resolving + multiset{c} == s.resolving;
    case _ =>
  }

  lemma {:induction false} RunAfterShutdown(s: State, es: seq<Event>)
    requires s.shutdown
    ensures Run(s, es).Some? ==>
              var t := Run(s, es).value;
              t.shutdown && t.cache.Keys == s.cache.Keys && t.dials == s.dials
              && t.dialing <= s.dialing && t.resolving <= s.resolving
    decreases |es|
  {
    if es != [] && Enabled(s, es[0]) {
      NextAfterShutdown(s, es[0]);
      RunAfterShutdown(Next(s, es[0]), es[1..]);
    }
  }

  /** When a waiting `Shutdown` call finishes, every holder is ready and has
      its installed connection closed exactly once by this call; no loser and
      no other peer is closed by it. */
  lemma ShutdownClosesEachHolderOnce(s: State, call: nat, order: seq<PeerAddress>)
    requires Inv(s) && DrainEnabled(s, call, order)
    ensures var t := ShutdownFinish(s, call, order);
            && (forall p :: p in s.cache ==> s.cache[p].ready)
            && (forall p :: p in s.cache ==> DrainedCount(t.closes, p) == DrainedCount(s.closes, p) + 1)
            && (forall p :: p !in s.cache ==> DrainedCount(t.closes, p) == DrainedCount(s.closes, p))
            && (forall k :: |s.closes| <= k < |t.closes| ==>
                  t.closes[k].Drained? && t.closes[k].peer in s.cache
                  && s.cache[t.closes[k].peer].connection == Some(t.closes[k].conn))
  {
    assert s.drains[call] == s.cache.Keys;
    var log := DrainCloses(s.cache, order);
    DrainClosesEachHolderOnce(s.cache, order);
    forall p ensures DrainedCount(s.closes + log, p) == DrainedCount(s.closes, p) + DrainedCount(log, p) {
      DrainedCountAppend(s.closes, log, p);
    }
  }
}
