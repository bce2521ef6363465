/** The registry (`NetCache` in netcache/netcache.go) as an immutable state;
    every critical section of the Go code is one function from state to state. */
module NetCache {
  import opened Common
  import opened ConnectionHolder

  /** One call of `Close()`: on a candidate that lost a race for `peer`, or on
      the installed connection of `peer` during a shutdown drain. */
  datatype CloseCall = Loser(peer: PeerAddress, conn: ConnId) | Drained(peer: PeerAddress, conn: ConnId)

  /** An inbound connection that has been registered but not yet offered to its holder. */
  datatype Candidate = Candidate(peer: PeerAddress, conn: ConnId)

  /** The panic "network cache is not available" of netcache.go, as a value. */
  datatype Error = Unavailable

  datatype Result<+T> = Ok(value: T) | Err(error: Error)

  /** The abstract registry.
      - `cache`: the map from peer to holder;
      - `shutdown`: the lifecycle flag;
      - `dialing`: peers whose dial goroutine has been launched and has not yet resolved;
      - `resolving`: inbound reports past the registry lock, not yet past the holder lock;
      - `drains`: one entry per `Shutdown` call past its first critical section, holding
        the peers whose readiness that call waits for;
      - `dials`: log of `factory.New` calls, one per launched dial;
      - `closes`: log of `Close()` calls made by the cache. */
  datatype State = State(
    cache: map<PeerAddress, Holder>,
    shutdown: bool,
    dialing: set<PeerAddress>,
    resolving: multiset<Candidate>,
    drains: seq<set<PeerAddress>>,
    dials: seq<PeerAddress>,
    closes: seq<CloseCall>)

  /** `New`: an empty, open cache. The factory is not part of the state: the
      connections it builds arrive as the arguments of `DialComplete`. */
  function New(): (s: State)
    ensures s.cache == map[] && !s.shutdown
    ensures s.dialing == {} && s.resolving == multiset{} && s.drains == []
    ensures s.dials == [] && s.closes == []
  {
    State(map[], false, {}, multiset{}, [], [], [])
  }

  /** Offer `conn` to the holder of `peer`, logging the close of a loser. */
  function ResolveAt(s: State, peer: PeerAddress, conn: ConnId): (t: State)
    requires peer in s.cache
    ensures t.cache.Keys == s.cache.Keys
    ensures forall q :: q in s.cache && q != peer ==> t.cache[q] == s.cache[q]
    ensures t.cache[peer].peer == s.cache[peer].peer
    ensures WellFormed(s.cache[peer]) ==> t.cache[peer].ready && WellFormed(t.cache[peer])
    ensures s.cache[peer].connection.Some? ==>
              t.cache[peer] == s.cache[peer] && t.closes == s.closes + [Loser(peer, conn)]
    ensures s.cache[peer].connection.None? ==>
              t.cache[peer].connection == Some(conn) && t.closes == s.closes
    ensures t.(cache := s.cache, closes := s.closes) == s
  {
    var r := Resolve(s.cache[peer], conn);
    var closed := match r.loser case None => [] case Some(c) => [Loser(peer, c)];
    s.(cache := s.cache[peer := r.holder], closes := s.closes + closed)
  }

  /** The critical section of `GetConnection`: fail after shutdown; otherwise
      find the peer's holder, or create it and launch one dial (one factory call). */
  function GetConnection(s: State, peer: PeerAddress): (r: Result<State>)
    ensures r.Err? <==> s.shutdown
    ensures r.Ok? ==> r.value.cache.Keys == s.cache.Keys + {peer}
    ensures r.Ok? ==> forall q :: q in s.cache ==> r.value.cache[q] == s.cache[q]
    ensures r.Ok? && peer in s.cache ==> r.value == s
    ensures r.Ok? && peer !in s.cache ==>
              && r.value.cache[peer] == Fresh(peer)
              && r.value.dialing == s.dialing + {peer}
              && r.value.dials == s.dials + [peer]
              && r.value.(cache := s.cache, dialing := s.dialing, dials := s.dials) == s
  {
    if s.shutdown then Err(Unavailable)
    else if peer in s.cache then Ok(s)
    else Ok(s.(cache := s.cache[peer := Fresh(peer)],
               dialing := s.dialing + {peer},
               dials := s.dials + [peer]))
  }

  /** The locked tail of `ConnectionHolder.Open`: the dial for `peer` has built
      and opened `conn` and now offers it to the holder. */
  function DialComplete(s: State, peer: PeerAddress, conn: ConnId): (t: State)
    requires peer in s.dialing && peer in s.cache
    ensures t.cache.Keys == s.cache.Keys
    ensures forall q :: q in s.cache && q != peer ==> t.cache[q] == s.cache[q]
    ensures WellFormed(s.cache[peer]) ==> t.cache[peer].ready
    ensures s.cache[peer].connection.Some? ==>
              t.cache[peer] == s.cache[peer] && t.closes == s.closes + [Loser(peer, conn)]
    ensures s.cache[peer].connection.None? ==>
              t.cache[peer].connection == Some(conn) && t.closes == s.closes
    ensures t.cache[peer].peer == s.cache[peer].peer
    ensures t.dialing == s.dialing - {peer}
    ensures t.(cache := s.cache, closes := s.closes, dialing := s.dialing) == s
  {
    ResolveAt(s.(dialing := s.dialing - {peer}), peer, conn)
  }

  /** The registry-locked part of `OnNewRemoteConnection`: fail after shutdown;
      otherwise find or create the peer's holder, without dialling. */
  function ReportInbound(s: State, peer: PeerAddress, conn: ConnId): (r: Result<State>)
    ensures r.Err? <==> s.shutdown
    ensures r.Ok? ==> r.value.cache.Keys == s.cache.Keys + {peer}
    ensures r.Ok? ==> forall q :: q in s.cache ==> r.value.cache[q] == s.cache[q]
    ensures r.Ok? && peer !in s.cache ==> r.value.cache[peer] == Fresh(peer)
    ensures r.Ok? ==> r.value.resolving == s.resolving + multiset{Candidate(peer, conn)}
    ensures r.Ok? ==> r.value.(cache := s.cache, resolving := s.resolving) == s
  {
    if s.shutdown then Err(Unavailable)
    else
      var cache := if peer in s.cache then s.cache else s.cache[peer := Fresh(peer)];
      Ok(s.(cache := cache, resolving := s.resolving + multiset{Candidate(peer, conn)}))
  }

  /** The holder-locked part of `OnNewRemoteConnection`: a registered inbound
      candidate is offered to its holder. */
  function ResolveInbound(s: State, c: Candidate): (t: State)
    requires c in s.resolving && c.peer in s.cache
    ensures t.cache.Keys == s.cache.Keys
    ensures forall q :: q in s.cache && q != c.peer ==> t.cache[q] == s.cache[q]
    ensures WellFormed(s.cache[c.peer]) ==> t.cache[c.peer].ready
    ensures s.cache[c.peer].connection.Some? ==>
              t.cache[c.peer] == s.cache[c.peer] && t.closes == s.closes + [Loser(c.peer, c.conn)]
    ensures s.cache[c.peer].connection.None? ==>
              t.cache[c.peer].connection == Some(c.conn) && t.closes == s.closes
    ensures t.cache[c.peer].peer == s.cache[c.peer].peer
    ensures t.resolving + multiset{c} == s.resolving
    ensures t.(cache := s.cache, closes := s.closes, resolving := s.resolving) == s
  {
    ResolveAt(s.(resolving := s.resolving - multiset{c}), c.peer, c.conn)
  }

  /** A whole `OnNewRemoteConnection` call with nothing interleaved between
      its two critical sections, as a caller sees it when the call returns. */
  function OnNewRemoteConnection(s: State, peer: PeerAddress, conn: ConnId): (r: Result<State>)
    ensures r.Err? <==> s.shutdown
    ensures r.Ok? ==> r.value.cache.Keys == s.cache.Keys + {peer}
    ensures r.Ok? ==> forall q :: q in s.cache && q != peer ==> r.value.cache[q] == s.cache[q]
    ensures r.Ok? && (peer in s.cache ==> WellFormed(s.cache[peer])) ==> r.value.cache[peer].ready
    ensures r.Ok? && peer in s.cache && s.cache[peer].connection.Some? ==>
              r.value.cache[peer] == s.cache[peer] && r.value.closes == s.closes + [Loser(peer, conn)]
    ensures r.Ok? && (peer !in s.cache || s.cache[peer].connection.None?) ==>
              r.value.cache[peer].connection == Some(conn) && r.value.closes == s.closes
    ensures r.Ok? ==> r.value.cache[peer].peer == if peer in s.cache then s.cache[peer].peer else peer
    ensures r.Ok? ==> r.value.(cache := s.cache, closes := s.closes) == s
  {
    match ReportInbound(s, peer, conn)
    case Err(e) => Err(e)
    case Ok(t) =>
      var u := ResolveInbound(t, Candidate(peer, conn));
      assert u.resolving + multiset{Candidate(peer, conn)} == s.resolving + multiset{Candidate(peer, conn)};
      Ok(u)
  }

  /** The wait at the end of `GetConnection`: the installed connection once
      the holder is ready, `None` while the caller would still be blocked. */
  function Await(s: State, peer: PeerAddress): (r: Option<ConnId>)
    ensures r.Some? ==> peer in s.cache && s.cache[peer].ready && s.cache[peer].connection == r
    ensures peer in s.cache && WellFormed(s.cache[peer]) ==> (r.Some? <==> s.cache[peer].ready)
  {
    if peer in s.cache && s.cache[peer].ready then s.cache[peer].connection else None
  }

  /** The first critical section of `Shutdown`: set the flag and take the set
      of holders this call will wait for. */
  function ShutdownBegin(s: State): (t: State)
    ensures t.shutdown
    ensures t.drains == s.drains + [s.cache.Keys]
    ensures t.(shutdown := s.shutdown, drains := s.drains) == s
  {
    s.(shutdown := true, drains := s.drains + [s.cache.Keys])
  }

  /** `order` visits every key of `keys` exactly once: an iteration order of a Go map. */
  predicate IsOrdering(order: seq<PeerAddress>, keys: set<PeerAddress>) {
    && NoDuplicates(order)
    && (forall i :: 0 <= i < |order| ==> order[i] in keys)
    && (forall p :: p in keys ==> p in order)
  }

  /** Shutdown call number `call` has seen every holder it waits for become
      ready, and will close the holders in `order`. */
  predicate DrainEnabled(s: State, call: nat, order: seq<PeerAddress>) {
    && call < |s.drains|
    && (forall p :: p in s.drains[call] ==> p in s.cache && s.cache[p].ready)
    && IsOrdering(order, s.cache.Keys)
  }

  /** The closing loop of `Shutdown`: every holder in iteration order whose
      connection is set has `Close()` called on it. */
  function DrainCloses(cache: map<PeerAddress, Holder>, order: seq<PeerAddress>): (log: seq<CloseCall>)
    ensures |log| <= |order|
    ensures forall k :: 0 <= k < |log| ==>
              log[k].Drained? && log[k].peer in cache && log[k].peer in order
              && cache[log[k].peer].connection == Some(log[k].conn)
  {
    if order == [] then []
    else
      var p := order[0];
      var head := if p in cache && cache[p].connection.Some?
                  then [Drained(p, cache[p].connection.value)] else [];
      head + DrainCloses(cache, order[1..])
  }

  /** The tail of `Shutdown`, once the wait group has drained: close every
      holder's connection. The cache and the flag stay as they are. */
  function ShutdownFinish(s: State, call: nat, order: seq<PeerAddress>): (t: State)
    requires DrainEnabled(s, call, order)
    ensures t.drains == s.drains[..call] + s.drains[call + 1..]
    ensures t.closes == s.closes + DrainCloses(s.cache, order)
    ensures t.(drains := s.drains, closes := s.closes) == s
  {
    s.(drains := s.drains[..call] + s.drains[call + 1..],
       closes := s.closes + DrainCloses(s.cache, order))
  }

  /** Number of drain closes of `peer` in a close log. */
  function DrainedCount(log: seq<CloseCall>, peer: PeerAddress): (n: nat)
  {
    if log == [] then 0
    else (if log[0].Drained? && log[0].peer == peer then 1 else 0) + DrainedCount(log[1..], peer)
  }

  /** Drain closes of a peer in a concatenated log add up. */
  lemma {:induction false} DrainedCountAppend(a: seq<CloseCall>, b: seq<CloseCall>, peer: PeerAddress)
    ensures DrainedCount(a + b, peer) == DrainedCount(a, peer) + DrainedCount(b, peer)
  {
    if a == [] {
      assert a + b == b;
    } else {
      assert (a + b)[1..] == a[1..] + b;
      DrainedCountAppend(a[1..], b, peer);
    }
  }

  /** Along an order without repetitions, each fully resolved holder is closed
      once if the order visits it and not at all otherwise. */
  lemma {:induction false} DrainClosesCount(cache: map<PeerAddress, Holder>, order: seq<PeerAddress>, peer: PeerAddress)
    requires NoDuplicates(order)
    requires forall i :: 0 <= i < |order| ==> order[i] in cache && cache[order[i]].connection.Some?
    ensures DrainedCount(DrainCloses(cache, order), peer) == if peer in order then 1 else 0
  {
    if order != [] {
      var p := order[0];
      var head := [Drained(p, cache[p].connection.value)];
      var rest := order[1..];
      assert NoDuplicates(rest) by {
        forall i, j | 0 <= i < j < |rest| ensures rest[i] != rest[j] {
          assert rest[i] == order[i + 1] && rest[j] == order[j + 1];
        }
      }
      assert forall i :: 0 <= i < |rest| ==> rest[i] == order[i + 1];
      DrainClosesCount(cache, rest, peer);
      DrainedCountAppend(head, DrainCloses(cache, rest), peer);
      assert DrainedCount(head, peer) == if p == peer then 1 else 0 by {
        assert head[1..] == [];
      }
      assert peer in order <==> peer == p || peer in rest by {
        assert order == [p] + rest;
      }
      if p == peer {
        assert peer !in rest;
      }
    }
  }

  /** A shutdown drain over an ordering of the keys closes each holder's
      installed connection exactly once, and nothing else. */
  lemma DrainClosesEachHolderOnce(cache: map<PeerAddress, Holder>, order: seq<PeerAddress>)
    requires IsOrdering(order, cache.Keys)
    requires forall p :: p in cache ==> cache[p].connection.Some?
    ensures forall p :: p in cache ==> DrainedCount(DrainCloses(cache, order), p) == 1
    ensures forall p :: p !in cache ==> DrainedCount(DrainCloses(cache, order), p) == 0
  {
    forall p
      ensures DrainedCount(DrainCloses(cache, order), p) == if p in cache then 1 else 0
    {
      DrainClosesCount(cache, order, p);
    }
  }

  /** Every finite set of peers has an iteration order, so the closing loop of
      `Shutdown` is never stuck for want of one. */
  lemma {:induction false} OrderingExists(keys: set<PeerAddress>) returns (order: seq<PeerAddress>)
    ensures IsOrdering(order, keys)
    decreases keys
  {
    if keys == {} {
      order := [];
    } else {
      var p :| p in keys;
      var rest := OrderingExists(keys - {p});
      order := [p] + rest;
      assert forall i :: 0 < i < |order| ==> order[i] == rest[i - 1];
    }
  }
}
