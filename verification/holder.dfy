/** The per-peer slot of the cache (`ConnectionHolder` in netcache/netcache.go):
    a single-assignment connection field plus a one-shot readiness signal. */
module ConnectionHolder {
  import opened Common

  /** `ready` is true once the holder's `ready` channel has been closed. */
  datatype Holder = Holder(peer: PeerAddress, connection: Option<ConnId>, ready: bool)

  /** The signal fires together with the installation of the connection, and only then. */
  predicate WellFormed(h: Holder) {
    h.ready <==> h.connection.Some?
  }

  /** A holder as the cache allocates it: no connection, channel still open. */
  function Fresh(peer: PeerAddress): (h: Holder)
    ensures h.peer == peer && !h.ready
    ensures WellFormed(h)
  {
    Holder(peer, None, false)
  }

  /** Outcome of offering a candidate to a holder: the holder afterwards, and
      the candidate when it lost and had `Close()` called on it. */
  datatype Resolution = Resolution(holder: Holder, loser: Option<ConnId>)

  /** The locked part of resolving a candidate, shared by the tail of
      `ConnectionHolder.Open` and the tail of `OnNewRemoteConnection`:
      the first committer installs its connection and fires the signal;
      any later candidate is closed and the holder stays as it was. */
  function Resolve(h: Holder, candidate: ConnId): (r: Resolution)
    ensures r.holder.peer == h.peer
    ensures r.holder.connection.Some?
    ensures WellFormed(h) ==> r.holder.ready && WellFormed(r.holder)
    ensures h.connection.None? ==> r.holder.connection == Some(candidate) && r.loser == None
    ensures h.connection.Some? ==> r.holder == h && r.loser == Some(candidate)
  {
    if h.connection.Some? then Resolution(h, Some(candidate))
    else Resolution(h.(connection := Some(candidate), ready := true), None)
  }

  /** Once a holder has been resolved, resolving it again changes nothing but
      closes the new candidate: the connection is assigned at most once. */
  lemma ResolveSettles(h: Holder, first: ConnId, later: ConnId)
    ensures var settled := Resolve(h, first).holder;
            Resolve(settled, later) == Resolution(settled, Some(later))
  {
  }

  /** Of two candidates racing on a fresh holder, the one committed first is
      kept and the other is closed, whichever of them came from a dial. */
  lemma FirstCommitterWins(peer: PeerAddress, a: ConnId, b: ConnId)
    ensures var r := Resolve(Resolve(Fresh(peer), a).holder, b);
            r.holder.connection == Some(a) && r.loser == Some(b)
  {
  }
}
