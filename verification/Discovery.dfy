/** One discovery round: dial the peers found, at most five of them with success. */
module Discovery {
  type PeerId = nat

  const MAX_PER_ROUND := 5

  /** A peer found, the connections lost and gained by others since the entry before it, and whether it answers. */
  datatype Found = Found(id: PeerId, lost: set<PeerId>, gained: set<PeerId>, answers: bool)

  /** Neither this node nor a connected peer. */
  predicate Dialable(self: PeerId, id: PeerId, connected: set<PeerId>) {
    id != self && id !in connected
  }

  /** Who is connected once the first n entries have all been gone through. */
  function ConnectedAfter(self: PeerId, found: seq<Found>, connected: set<PeerId>, n: nat): set<PeerId>
    requires n <= |found|
  {
    if n == 0 then connected
    else
      var peer := found[n - 1];
      var now := ConnectedAfter(self, found, connected, n - 1) - peer.lost + peer.gained;
      if Dialable(self, peer.id, now) && peer.answers then now + {peer.id} else now
  }

  /** ... and when entry i is looked at. */
  function ConnectedAt(self: PeerId, found: seq<Found>, connected: set<PeerId>, i: nat): set<PeerId>
    requires i < |found|
  {
    ConnectedAfter(self, found, connected, i) - found[i].lost + found[i].gained
  }

  predicate Eligible(self: PeerId, found: seq<Found>, connected: set<PeerId>, i: nat)
    requires i < |found|
  {
    Dialable(self, found[i].id, ConnectedAt(self, found, connected, i))
  }

  predicate Joins(self: PeerId, found: seq<Found>, connected: set<PeerId>, i: nat)
    requires i < |found|
  {
    Eligible(self, found, connected, i) && found[i].answers
  }

  function EligibleBelow(self: PeerId, found: seq<Found>, connected: set<PeerId>, n: nat): seq<nat>
    requires n <= |found|
  {
    if n == 0 then []
    else EligibleBelow(self, found, connected, n - 1) + if Eligible(self, found, connected, n - 1) then [n - 1] else []
  }

  function JoinsBelow(self: PeerId, found: seq<Found>, connected: set<PeerId>, n: nat): (joins: seq<nat>)
    requires n <= |found|
    ensures forall i <- joins :: i < n && Joins(self, found, connected, i)
  {
    if n == 0 then []
    else JoinsBelow(self, found, connected, n - 1) + if Joins(self, found, connected, n - 1) then [n - 1] else []
  }

  /** The shortest prefix with five joins, or the whole list. */
  ghost predicate RoundLength(self: PeerId, found: seq<Found>, connected: set<PeerId>, n: nat) {
    && n <= |found|
    && (forall m | 0 <= m < n :: |JoinsBelow(self, found, connected, m)| < MAX_PER_ROUND)
    && (n < |found| ==> |JoinsBelow(self, found, connected, n)| == MAX_PER_ROUND)
    && |JoinsBelow(self, found, connected, n)| <= MAX_PER_ROUND
  }

  class Host {
    const self: PeerId
    var connected: set<PeerId>

    constructor (self: PeerId)
      ensures this.self == self && connected == {}
    {
      this.self := self;
      connected := {};
    }

    method Connect(id: PeerId, answers: bool)
      modifies this
      ensures connected == old(connected) + if answers then {id} else {}
    {
      if answers {
        connected := connected + {id};
      }
    }

    /** The entries dialed are exactly the eligible ones of the shortest prefix with five joins, and the joins are
        those of them that answer. */
    method ProcessPeers(found: seq<Found>) returns (dialed: seq<nat>, joined: seq<nat>, n: nat)
      modifies this
      ensures RoundLength(self, found, old(connected), n)
      ensures dialed == EligibleBelow(self, found, old(connected), n)
      ensures joined == JoinsBelow(self, found, old(connected), n)
      ensures connected == ConnectedAfter(self, found, old(connected), n)
      // The same, entry by entry.
      ensures |joined| <= 5 && (n < |found| ==> |joined| == 5) && n <= |found|
      ensures forall m | 0 <= m < n :: |JoinsBelow(self, found, old(connected), m)| < 5
      ensures forall i | 0 <= i < |found| ::
                && (i in dialed <==> i < n && found[i].id != self
                                     && found[i].id !in ConnectedAt(self, found, old(connected), i))
                && (i in joined <==> i in dialed && found[i].answers)
      ensures forall a, b | 0 <= a < b < |joined| :: DistinctUnlessLost(found, joined[a], joined[b])
    {
      ghost var before := connected;
      dialed, joined, n := [], [], 0;
      while n < |found|
        invariant n <= |found|
        invariant |joined| < MAX_PER_ROUND
        invariant dialed == EligibleBelow(self, found, before, n)
        invariant joined == JoinsBelow(self, found, before, n)
        invariant connected == ConnectedAfter(self, found, before, n)
        invariant n > 0 ==> |JoinsBelow(self, found, before, n - 1)| < MAX_PER_ROUND
      {
        var peer := found[n];
        connected := connected - peer.lost + peer.gained;
        NextEntry(self, found, before, n);
        n := n + 1;
        if peer.id == self {
          continue;
        }
        if peer.id in connected {
          continue;
        }
        dialed := dialed + [n - 1];
        Connect(peer.id, peer.answers);
        if !peer.answers {
          continue;
        }
        joined := joined + [n - 1];
        if |joined| >= MAX_PER_ROUND {
          break;
        }
      }
      ShortestPrefix(self, found, before, n);
      EntryByEntry(self, found, before, n);
      JoinedPeersAreDistinct(self, found, before, n);
    }
  }

  /** What going through one more entry adds. */
  lemma NextEntry(self: PeerId, found: seq<Found>, connected: set<PeerId>, n: nat)
    requires n < |found|
    ensures var now := ConnectedAfter(self, found, connected, n) - found[n].lost + found[n].gained;
            var dials := found[n].id != self && found[n].id !in now;
            var joins := dials && found[n].answers;
            && ConnectedAfter(self, found, connected, n + 1) == (if joins then now + {found[n].id} else now)
            && EligibleBelow(self, found, connected, n + 1)
               == EligibleBelow(self, found, connected, n) + (if dials then [n] else [])
            && JoinsBelow(self, found, connected, n + 1)
               == JoinsBelow(self, found, connected, n) + (if joins then [n] else [])
  {
  }

  lemma {:induction false} EntryByEntry(self: PeerId, found: seq<Found>, connected: set<PeerId>, n: nat)
    requires n <= |found|
    ensures forall i | 0 <= i < |found| ::
              && (i in EligibleBelow(self, found, connected, n)
                  <==> i < n && found[i].id != self && found[i].id !in ConnectedAt(self, found, connected, i))
              && (i in JoinsBelow(self, found, connected, n)
                  <==> i in EligibleBelow(self, found, connected, n) && found[i].answers)
  {
    if n > 0 {
      EntryByEntry(self, found, connected, n - 1);
    }
  }

  /** What a round did does not depend on what comes after. */
  lemma {:induction false} SamePrefix(self: PeerId, found: seq<Found>, more: seq<Found>, connected: set<PeerId>, n: nat)
    requires n <= |found|
    ensures ConnectedAfter(self, found + more, connected, n) == ConnectedAfter(self, found, connected, n)
    ensures EligibleBelow(self, found + more, connected, n) == EligibleBelow(self, found, connected, n)
    ensures JoinsBelow(self, found + more, connected, n) == JoinsBelow(self, found, connected, n)
  {
    if n > 0 {
      SamePrefix(self, found, more, connected, n - 1);
      assert (found + more)[n - 1] == found[n - 1];
    }
  }

  lemma {:induction false} ShortestPrefix(self: PeerId, found: seq<Found>, connected: set<PeerId>, n: nat)
    requires n <= |found| && |JoinsBelow(self, found, connected, n)| <= MAX_PER_ROUND
    requires n > 0 ==> |JoinsBelow(self, found, connected, n - 1)| < MAX_PER_ROUND
    ensures forall m | 0 <= m < n :: |JoinsBelow(self, found, connected, m)| < MAX_PER_ROUND
  {
    if n > 1 {
      ShortestPrefix(self, found, connected, n - 1);
    }
  }

  /** The prefix a round goes through is determined by what it finds. */
  lemma RoundLengthUnique(self: PeerId, found: seq<Found>, connected: set<PeerId>, n: nat, m: nat)
    requires RoundLength(self, found, connected, n) && RoundLength(self, found, connected, m)
    ensures n == m
  {
  }

  lemma {:induction false} ConnectionLasts(self: PeerId, found: seq<Found>, connected: set<PeerId>, i: nat, n: nat)
    requires i < n <= |found| && Joins(self, found, connected, i)
    requires forall k | i < k < n :: found[i].id !in found[k].lost
    ensures found[i].id in ConnectedAfter(self, found, connected, n)
    decreases n
  {
    if i + 1 < n {
      ConnectionLasts(self, found, connected, i, n - 1);
    }
  }

  /** The connection made at entry i is lost after it and by the time entry j is looked at. */
  ghost predicate LostBetween(found: seq<Found>, i: nat, j: nat)
    requires i < j < |found|
  {
    exists k :: i < k <= j && found[i].id in found[k].lost
  }

  /** A round joins a peer again only if it lost the connection in between. */
  lemma RejoinedPeerWasLost(self: PeerId, found: seq<Found>, connected: set<PeerId>, i: nat, j: nat)
    requires i < j < |found| && Joins(self, found, connected, i) && Joins(self, found, connected, j)
    requires found[i].id == found[j].id
    ensures LostBetween(found, i, j)
  {
    if !LostBetween(found, i, j) {
      ConnectionLasts(self, found, connected, i, j);
    }
  }

  lemma {:induction false} JoinsAscend(self: PeerId, found: seq<Found>, connected: set<PeerId>, n: nat, a: nat, b: nat)
    requires n <= |found| && a < b < |JoinsBelow(self, found, connected, n)|
    ensures JoinsBelow(self, found, connected, n)[a] < JoinsBelow(self, found, connected, n)[b]
  {
    var before := JoinsBelow(self, found, connected, n - 1);
    assert before[a] in before;
    if b < |before| {
      JoinsAscend(self, found, connected, n - 1, a, b);
    }
  }

  /** Two connections, the first before the second, are to different peers, or the first was lost in between. */
  ghost predicate DistinctUnlessLost(found: seq<Found>, i: nat, j: nat) {
    i < j < |found| && (found[i].id == found[j].id ==> LostBetween(found, i, j))
  }

  /** So it is with any two of a round's connections. */
  lemma JoinedPeersAreDistinct(self: PeerId, found: seq<Found>, connected: set<PeerId>, n: nat)
    requires n <= |found|
    ensures var joins := JoinsBelow(self, found, connected, n);
            forall a, b | 0 <= a < b < |joins| :: DistinctUnlessLost(found, joins[a], joins[b])
  {
    var joins := JoinsBelow(self, found, connected, n);
    forall a, b | 0 <= a < b < |joins|
      ensures DistinctUnlessLost(found, joins[a], joins[b])
    {
      JoinsAscend(self, found, connected, n, a, b);
      assert joins[a] in joins && joins[b] in joins;
      if found[joins[a]].id == found[joins[b]].id {
        RejoinedPeerWasLost(self, found, connected, joins[a], joins[b]);
      }
    }
  }

  /** The connection made at entry i is not lost, or regained by others, by the time entry n has been gone through. */
  predicate Kept(found: seq<Found>, i: nat, n: nat)
    requires i < n <= |found|
  {
    n == i + 1
    || (Kept(found, i, n - 1) && found[i].id !in found[n - 1].lost)
    || found[i].id in found[n - 1].gained
  }

  lemma {:induction false} ConnectedIffKept(self: PeerId, found: seq<Found>, connected: set<PeerId>, i: nat, n: nat)
    requires i < n <= |found| && Joins(self, found, connected, i)
    requires forall k | i < k < n && found[k].id == found[i].id :: !Joins(self, found, connected, k)
    ensures found[i].id in ConnectedAfter(self, found, connected, n) <==> Kept(found, i, n)
    decreases n
  {
    if i + 1 < n {
      ConnectedIffKept(self, found, connected, i, n - 1);
    }
  }

  /** A peer joined at entry i is joined again, first at entry j, exactly if it answers there and was not kept. */
  lemma RejoinedExactly(self: PeerId, found: seq<Found>, connected: set<PeerId>, i: nat, j: nat)
    requires i < j < |found| && Joins(self, found, connected, i) && found[j].id == found[i].id
    requires forall k | i < k < j && found[k].id == found[i].id :: !Joins(self, found, connected, k)
    ensures Joins(self, found, connected, j)
            <==> found[j].answers
                 && !(Kept(found, i, j) && found[i].id !in found[j].lost) && found[i].id !in found[j].gained
  {
    ConnectedIffKept(self, found, connected, i, j);
  }

  /** That does happen. */
  lemma LostPeerIsJoinedAgain()
    ensures var found := [Found(1, {}, {}, true), Found(1, {1}, {}, true)];
            JoinsBelow(0, found, {}, 2) == [0, 1]
  {
    var found := [Found(1, {}, {}, true), Found(1, {1}, {}, true)];
    assert Joins(0, found, {}, 0);
    assert Joins(0, found, {}, 1);
    assert JoinsBelow(0, found, {}, 1) == [0];
  }
}
