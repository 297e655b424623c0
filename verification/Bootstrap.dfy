/** Connecting to bootstrap nodes: one attempt, the initial call, and the retry loop. */
module Bootstrap {
  import opened Results

  /** A bootstrap node with what becomes of each of the four things done with it. */
  datatype Node = Node(id: nat, quicAddr: bool, tcpAddr: bool, peerId: bool, connects: bool) {
    predicate Dialed() {
      quicAddr && tcpAddr && peerId
    }

    predicate Reached() {
      Dialed() && connects
    }
  }

  datatype Error = DhtFailed | FetchFailed | NoneConnected

  type Fetch = Result<seq<Node>, Error>

  function Dials(nodes: seq<Node>): seq<Node> {
    if nodes == [] then []
    else (if nodes[0].Dialed() then [nodes[0]] else []) + Dials(nodes[1..])
  }

  function Reachable(nodes: seq<Node>): nat {
    if nodes == [] then 0 else (if nodes[0].Reached() then 1 else 0) + Reachable(nodes[1..])
  }

  ghost predicate Succeeds(dhtOk: bool, fetch: Fetch) {
    dhtOk && fetch.Ok? && (fetch.value == [] || exists n <- fetch.value :: n.Reached())
  }

  /** bootstrapNetwork: nil exactly if the DHT and the fetch work and the list is empty or some node is reached. */
  method BootstrapNetwork(dhtOk: bool, fetch: Fetch)
    returns (err: Option<Error>, connectedCount: nat, dialed: seq<Node>)
    ensures err.None? <==> Succeeds(dhtOk, fetch)
    ensures err == Some(DhtFailed) <==> !dhtOk
    ensures err == Some(NoneConnected) ==> fetch.Ok? && dialed == Dials(fetch.value)
    ensures connectedCount == (if dhtOk && fetch.Ok? then Reachable(fetch.value) else 0)
    ensures dialed == (if dhtOk && fetch.Ok? then Dials(fetch.value) else [])
    // The same, flag by flag.
    ensures err.None?
            <==> && dhtOk && fetch.Ok?
                 && (fetch.value == [] || exists n <- fetch.value :: n.quicAddr && n.tcpAddr && n.peerId && n.connects)
    ensures dhtOk && fetch.Ok? ==>
              connectedCount == |set i | 0 <= i < |fetch.value| && fetch.value[i].quicAddr && fetch.value[i].tcpAddr
                                       && fetch.value[i].peerId && fetch.value[i].connects|
    ensures dhtOk && fetch.Ok? ==>
              forall n :: n in dialed <==> n in fetch.value && n.quicAddr && n.tcpAddr && n.peerId
  {
    connectedCount, dialed := 0, [];
    if !dhtOk {
      return Some(DhtFailed), 0, [];
    }
    if fetch.Err? {
      return Some(FetchFailed), 0, [];
    }
    var nodes := fetch.value;
    ReachableIsCount(nodes);
    DialsExactly(nodes);
    if |nodes| == 0 {
      return None, 0, [];
    }
    connectedCount, dialed := ConnectToAll(nodes);
    assert connectedCount > 0 <==> Reachable(nodes) > 0;
    ReachedCounts(nodes);
    err := if connectedCount == 0 then Some(NoneConnected) else None;
  }

  /** The loop over the nodes. */
  method ConnectToAll(nodes: seq<Node>) returns (connectedCount: nat, dialed: seq<Node>)
    ensures connectedCount == Reachable(nodes) && dialed == Dials(nodes)
  {
    connectedCount, dialed := 0, [];
    for i := 0 to |nodes|
      invariant connectedCount + Reachable(nodes[i..]) == Reachable(nodes)
      invariant dialed + Dials(nodes[i..]) == Dials(nodes)
    {
      var node := nodes[i];
      assert nodes[i..][1..] == nodes[i + 1..];
      if !node.quicAddr {
        continue;
      }
      if !node.tcpAddr {
        continue;
      }
      if !node.peerId {
        continue;
      }
      dialed := dialed + [node];
      if !node.connects {
        continue;
      }
      connectedCount := connectedCount + 1;
    }
  }

  /** The places of the nodes that are reached. */
  ghost function ReachedAt(nodes: seq<Node>): set<nat> {
    set i | 0 <= i < |nodes| && nodes[i].quicAddr && nodes[i].tcpAddr && nodes[i].peerId && nodes[i].connects
  }

  lemma {:induction false} ReachableIsCount(nodes: seq<Node>)
    ensures Reachable(nodes) == |ReachedAt(nodes)|
  {
    if nodes != [] {
      var m := |nodes| - 1;
      var last := nodes[m];
      ReachableIsCount(nodes[..m]);
      NodesAreIndependent(nodes[..m], last, []);
      assert nodes[..m] + [last] + [] == nodes && nodes[..m] + [] == nodes[..m];
      ReachedAtLast(nodes);
    }
  }

  lemma ReachedAtLast(nodes: seq<Node>)
    requires nodes != []
    ensures var m := |nodes| - 1; |ReachedAt(nodes)| == |ReachedAt(nodes[..m])| + if nodes[m].Reached() then 1 else 0
  {
    var m := |nodes| - 1;
    assert m !in ReachedAt(nodes[..m]);
    assert ReachedAt(nodes) == ReachedAt(nodes[..m]) + if nodes[m].Reached() then {m} else {};
  }

  lemma {:induction false} DialsExactly(nodes: seq<Node>)
    ensures forall n :: n in Dials(nodes) <==> n in nodes && n.quicAddr && n.tcpAddr && n.peerId
  {
    if nodes != [] {
      DialsExactly(nodes[1..]);
      assert forall n :: n in nodes <==> n == nodes[0] || n in nodes[1..];
    }
  }

  /** Each node counts for itself: adding one anywhere in the list changes the count by that node alone. */
  lemma {:induction false} NodesAreIndependent(before: seq<Node>, node: Node, after: seq<Node>)
    ensures Reachable(before + [node] + after) == Reachable(before + after) + if node.Reached() then 1 else 0
  {
    if before == [] {
      assert [] + [node] + after == [node] + after && [] + after == after;
    } else {
      NodesAreIndependent(before[1..], node, after);
      assert (before + [node] + after)[1..] == before[1..] + [node] + after;
      assert (before + after)[1..] == before[1..] + after;
    }
  }

  /** The count does not depend on the order of the list. */
  lemma {:induction false} OrderDoesNotMatter(a: seq<Node>, b: seq<Node>)
    requires multiset(a) == multiset(b)
    ensures Reachable(a) == Reachable(b)
  {
    if a == [] {
      assert |multiset(b)| == 0;
    } else {
      assert a[0] in multiset(b);
      var i :| 0 <= i < |b| && b[i] == a[0];
      assert a == [a[0]] + a[1..];
      assert b == b[..i] + [b[i]] + b[i + 1..];
      assert multiset(a) == multiset{a[0]} + multiset(a[1..]);
      assert multiset(b) == multiset(b[..i] + b[i + 1..]) + multiset{b[i]};
      assert multiset(a[1..]) == multiset(a) - multiset{a[0]};
      OrderDoesNotMatter(a[1..], b[..i] + b[i + 1..]);
      NodesAreIndependent(b[..i], b[i], b[i + 1..]);
    }
  }

  /** nil can mean that not one node was dialed: the list was empty at the second fetch. */
  lemma SuccessWithoutAPeer()
    ensures Succeeds(true, Ok([])) && Reachable([]) == 0
    ensures forall fetch: Fetch :: Succeeds(true, fetch) && Reachable(fetch.value) == 0 ==> fetch == Ok([])
  {
    forall fetch: Fetch | Succeeds(true, fetch) && fetch.value != []
      ensures Reachable(fetch.value) > 0
    {
      ReachedCounts(fetch.value);
    }
  }

  lemma {:induction false} ReachedCounts(nodes: seq<Node>)
    ensures Reachable(nodes) > 0 <==> exists n <- nodes :: n.Reached()
  {
    if nodes != [] {
      ReachedCounts(nodes[1..]);
      assert forall n :: n in nodes <==> n == nodes[0] || n in nodes[1..];
    }
  }

  /** bootstrapNetworkWithRetry fetches once to look, and again inside bootstrapNetwork. */
  method BootstrapNetworkWithRetry(first: Fetch, dhtOk: bool, second: Fetch)
    returns (err: Option<Error>, retryRequested: bool)
    ensures err.Some? <==> first.Err?
    ensures retryRequested <==> first.Ok? && (first.value == [] || !Succeeds(dhtOk, second))
    ensures retryRequested
            <==> && first.Ok?
                 && (first.value == [] || !dhtOk || second.Err?
                     || (second.value != []
                         && forall n <- second.value :: !(n.quicAddr && n.tcpAddr && n.peerId && n.connects)))
  {
    if first.Err? {
      return Some(FetchFailed), false;
    }
    if |first.value| == 0 {
      return None, true;
    }
    var failure, _, _ := BootstrapNetwork(dhtOk, second);
    return None, failure.Some?;
  }

  // ------------------------------------------------------------------ the retry loop

  /** What the loop meets each time its select returns. */
  datatype Wake =
    | ContextDone
    | Tick(ready: bool, fetch: Fetch, dhtOk: bool, second: Fetch)
  {
    /** bootstrapNetwork is called at this tick. */
    predicate Attempts() {
      Tick? && !ready && fetch.Ok? && fetch.value != []
    }

    ghost predicate Connects() {
      Attempts() && Succeeds(dhtOk, second)
    }

    ghost predicate Stops() {
      ContextDone? || ready || Connects()
    }
  }

  datatype Outcome = Waiting | Cancelled | SawReady | Bootstrapped

  ghost predicate FirstStop(wakes: seq<Wake>, n: nat) {
    n < |wakes| && wakes[n].Stops() && forall i | 0 <= i < n :: !wakes[i].Stops()
  }

  ghost function Attempts(wakes: seq<Wake>): nat {
    if wakes == [] then 0
    else Attempts(wakes[..|wakes| - 1]) + if wakes[|wakes| - 1].Attempts() then 1 else 0
  }

  /** The loop stops at the first wake that finds the context done, finds the node ready, or connects. It calls
      bootstrapNetwork at the earlier ticks that fetched nodes while not ready, and at that one if it connects. */
  method RetryLoop(wakes: seq<Wake>) returns (outcome: Outcome, n: nat, calls: nat)
    ensures outcome.Waiting? <==> forall w <- wakes :: !w.Stops()
    ensures outcome.Waiting? ==> n == |wakes| && calls == Attempts(wakes)
    ensures !outcome.Waiting? ==> FirstStop(wakes, n)
    ensures !outcome.Waiting? ==> calls == Attempts(wakes[..n]) + if wakes[n].Connects() then 1 else 0
    ensures outcome.Cancelled? ==> wakes[n].ContextDone?
    ensures outcome.SawReady? ==> wakes[n].Tick? && wakes[n].ready
    ensures outcome.Bootstrapped? ==> wakes[n].Connects()
    // The same, field by field.
    ensures forall i | 0 <= i < n :: wakes[i].Tick? && !wakes[i].ready
    ensures forall i | 0 <= i < n && wakes[i].fetch.Ok? && wakes[i].fetch.value != [] && wakes[i].dhtOk ::
              wakes[i].second.Ok? ==>
                && wakes[i].second.value != []
                && forall x <- wakes[i].second.value :: !(x.quicAddr && x.tcpAddr && x.peerId && x.connects)
    ensures outcome.Bootstrapped? ==>
              var w := wakes[n];
              && w.Tick? && !w.ready && w.fetch.Ok? && w.fetch.value != [] && w.dhtOk && w.second.Ok?
              && (w.second.value == []
                  || exists x <- w.second.value :: x.quicAddr && x.tcpAddr && x.peerId && x.connects)
  {
    n, calls := 0, 0;
    while n < |wakes|
      invariant 0 <= n <= |wakes|
      invariant forall i | 0 <= i < n :: !wakes[i].Stops()
      invariant calls == Attempts(wakes[..n])
    {
      var w := wakes[n];
      assert wakes[..n + 1][..n] == wakes[..n];
      assert w in wakes;
      if w.ContextDone? {
        return Cancelled, n, calls;
      }
      if w.ready {
        return SawReady, n, calls;
      }
      if w.fetch.Err? {
        n := n + 1;
        continue;
      }
      if |w.fetch.value| == 0 {
        n := n + 1;
        continue;
      }
      var err, _, _ := BootstrapNetwork(w.dhtOk, w.second);
      calls := calls + 1;
      if err.Some? {
        n := n + 1;
        continue;
      }
      return Bootstrapped, n, calls;
    }
    assert wakes[..n] == wakes;
    outcome := Waiting;
  }

  /** Where the loop stops is unique and does not depend on how much of the future is shown. */
  lemma StopIsDetermined(wakes: seq<Wake>, more: seq<Wake>, n: nat, m: nat)
    requires FirstStop(wakes, n) && FirstStop(wakes + more, m)
    ensures m == n && (wakes + more)[..m] == wakes[..n]
  {
    assert forall i | 0 <= i < |wakes| :: (wakes + more)[i] == wakes[i];
  }
}
