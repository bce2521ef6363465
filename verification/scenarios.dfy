/** The scenarios of netcache/netcache_test.go and a few edge cases of the
    Go code, replayed as concrete sequences of atomic steps. Connection
    identities are arbitrary numbers: 10*p for a dial result for peer p,
    10*p + 1 for an inbound connection from p. */
module NetCacheScenarios {
  import opened Common
  import opened ConnectionHolder
  import opened NetCache

  /** One request, its dial, then a shutdown that closes the one connection. */
  lemma OneConnection()
    ensures var s1 := GetConnection(New(), 1).value;
            var s2 := DialComplete(s1, 1, 10);
            var s3 := ShutdownBegin(s2);
            && s1.dials == [1]
            && Await(s1, 1) == None
            && Await(s2, 1) == Some(10)
            && DrainEnabled(s3, 0, [1])
            && ShutdownFinish(s3, 0, [1]).closes == [Drained(1, 10)]
  {
  }

  /** Requests for peers 1, 2, 2: one dial per peer, and both callers for
      peer 2 are handed the same connection. */
  lemma ConcurrentConnections()
    ensures var s1 := GetConnection(New(), 1).value;
            var s2 := GetConnection(s1, 2).value;
            var s3 := GetConnection(s2, 2).value;
            var s4 := DialComplete(DialComplete(s3, 2, 20), 1, 10);
            && s3 == s2
            && s3.dials == [1, 2]
            && Await(s4, 1) == Some(10)
            && Await(s4, 2) == Some(20)
            && s4.closes == []
  {
  }

  /** Requests for 1, 2, 3 still dialling; inbound connections from 2 and
      then 1 make those peers ready at once, peer 3 stays not ready; the
      dials for 1 and 2 lose when they complete and are closed. */
  lemma Callback()
    ensures var s1 := GetConnection(GetConnection(GetConnection(New(), 1).value, 2).value, 3).value;
            var s2 := OnNewRemoteConnection(s1, 2, 21).value;
            var s3 := OnNewRemoteConnection(s2, 1, 11).value;
            var s4 := DialComplete(DialComplete(s3, 2, 20), 1, 10);
            && s2.cache[2].ready
            && s3.cache[1].ready && s3.cache[2].ready && !s3.cache[3].ready
            && s3.dials == [1, 2, 3]
            && Await(s4, 1) == Some(11) && Await(s4, 2) == Some(21)
            && s4.closes == [Loser(2, 20), Loser(1, 10)]
  {
  }

  /** Two inbound reports for the same peer: the first is kept, the second closed. */
  lemma InboundTwice()
    ensures var s1 := OnNewRemoteConnection(New(), 5, 51).value;
            var s2 := OnNewRemoteConnection(s1, 5, 52).value;
            && s1.dials == [] && s1.dialing == {}
            && Await(s2, 5) == Some(51)
            && s2.closes == [Loser(5, 52)]
  {
  }

  /** An inbound report registered during a dial but delivered after the
      dial commits loses, and is the one closed. */
  lemma DialBeatsLateDelivery()
    ensures var s1 := GetConnection(New(), 4).value;
            var s2 := ReportInbound(s1, 4, 41).value;
            var s3 := ResolveInbound(DialComplete(s2, 4, 40), Candidate(4, 41));
            && s2.dials == [4]
            && Await(s3, 4) == Some(40)
            && s3.closes == [Loser(4, 41)]
            && s3.resolving == multiset{}
  {
  }

  /** A request arriving between the two halves of an inbound report finds
      the holder already there: it launches no dial and gets the inbound
      connection once delivered. */
  lemma RequestJoinsInboundHolder()
    ensures var s1 := ReportInbound(New(), 4, 41).value;
            var s2 := GetConnection(s1, 4).value;
            var s3 := ResolveInbound(s2, Candidate(4, 41));
            && s2 == s1 && s2.dials == [] && Await(s2, 4) == None
            && Await(s3, 4) == Some(41)
            && s3.closes == []
  {
  }

  /** After the flag is set, a request and an inbound report fail. */
  lemma UnavailableAfterShutdown()
    ensures var s := ShutdownBegin(GetConnection(New(), 1).value);
            GetConnection(s, 1) == Err(Unavailable)
            && GetConnection(s, 2) == Err(Unavailable)
            && OnNewRemoteConnection(s, 3, 31) == Err(Unavailable)
  {
  }

  /** `Shutdown` waits for a holder that is still dialling: its drain is not
      enabled until the dial completes. */
  lemma ShutdownWaitsForDial()
    ensures var s1 := ShutdownBegin(GetConnection(New(), 1).value);
            var s2 := DialComplete(s1, 1, 10);
            && !DrainEnabled(s1, 0, [1])
            && DrainEnabled(s2, 0, [1])
            && ShutdownFinish(s2, 0, [1]).closes == [Drained(1, 10)]
  {
  }

  /** As written, `Shutdown` can return while a losing dial is still in
      flight (the inbound connection won first); that dial closes its
      connection only afterwards. */
  lemma ShutdownReturnsWithLosingDialInFlight()
    ensures var s1 := OnNewRemoteConnection(GetConnection(New(), 2).value, 2, 21).value;
            var s2 := ShutdownFinish(ShutdownBegin(s1), 0, [2]);
            var s3 := DialComplete(s2, 2, 20);
            && DrainEnabled(ShutdownBegin(s1), 0, [2])
            && s2.drains == [] && 2 in s2.dialing
            && s2.closes == [Drained(2, 21)]
            && s3.closes == [Drained(2, 21), Loser(2, 20)]
  {
  }

  /** As written, calling `Shutdown` twice closes each connection twice. */
  lemma ShutdownTwiceClosesTwice()
    ensures var s1 := DialComplete(GetConnection(New(), 1).value, 1, 10);
            var s2 := ShutdownBegin(ShutdownBegin(s1));
            var s3 := ShutdownFinish(ShutdownFinish(s2, 1, [1]), 0, [1]);
            && DrainEnabled(s2, 1, [1])
            && s3.closes == [Drained(1, 10), Drained(1, 10)]
            && DrainedCount(s3.closes, 1) == 2
  {
    var log := [Drained(1, 10), Drained(1, 10)];
    assert log[1..] == [Drained(1, 10)];
    assert log[1..][1..] == [];
  }
}
