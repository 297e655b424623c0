/** Pieces of concrete runs, for the lemmas that show what the code does allow. */
module RetryScenarios {
  import opened Results
  import opened Infrastructure
  import opened RetryInvariant
  import opened RetrySystem

  /** The peers change, and the notification counts them. */
  lemma Counted(s: Sys, peers: set<Peer>) returns (s': Sys)
    requires Reachable(s)
    ensures Reachable(s')
    ensures s' == s.(peers := peers, next := s.next + 1, threads := s.threads[s.next := ToCommit(|peers|)])
    ensures s.next !in s.threads
  {
    ReachableInv(s);
    s' := Do(s, NetworkChange(peers));
    s' := Do(s', CountPeers(s.next));
  }

  /** A first peer connects and its notification is handled before anything else happens. */
  lemma BecomeReady(s: Sys) returns (s': Sys)
    requires Reachable(s) && !s.fields.isReady
    ensures Reachable(s')
    ensures s' == s.(peers := {7}, next := s.next + 1, fields := s.fields.SetReadiness(1))
  {
    s' := Counted(s, {7});
    s' := Do(s', Commit(s.next));
    assert s'.threads == s.threads;
  }

  /** All peers are lost; the notification spawns a delayed starter. */
  lemma LosePeers(s: Sys) returns (s': Sys)
    requires Reachable(s) && s.fields.isReady
    ensures Reachable(s')
    ensures s' == s.(peers := {}, next := s.next + 2, threads := s.threads[s.next + 1 := ToCheckRunning],
                     fields := s.fields.SetReadiness(0), edges := s.edges + 1, delayed := s.delayed + {s.next + 1})
  {
    s' := Counted(s, {});
    s' := Do(s', Commit(s.next));
    assert s'.threads == s.threads[s.next + 1 := ToCheckRunning];
  }

  /** A peer comes and goes. */
  lemma OneMoreStarter(s: Sys) returns (s': Sys)
    requires Reachable(s) && !s.fields.isReady
    ensures Reachable(s')
    ensures s' == s.(peers := {}, next := s.next + 3, threads := s.threads[s.next + 2 := ToCheckRunning],
                     edges := s.edges + 1, delayed := s.delayed + {s.next + 2})
  {
    s' := BecomeReady(s);
    s' := LosePeers(s');
  }

  /** The initial bootstrap found no nodes, and its retry loop is running. */
  lemma InitialLoop() returns (s: Sys)
    ensures Reachable(s)
    ensures s == Initially({}).(fields := INITIAL.Register(SHUTDOWN), threads := map[1 := ToSelect(1)], next := 2,
                                initial := AskedForRetry)
  {
    ReachableInitially({});
    s := Do(Initially({}), FirstFetch(CONNECT, NoNodes));
    s := Do(s, CheckShutdown(CONNECT));
    s := Do(s, Register(CONNECT));
    assert s.threads == map[1 := ToSelect(1)];
  }

  /** The initial bootstrap reached a node, and Connect has returned. */
  lemma InitialSuccess() returns (s: Sys)
    ensures Reachable(s)
    ensures s == Initially({}).(threads := map[], initial := Succeeded)
  {
    ReachableInitially({});
    s := Do(Initially({}), FirstFetch(CONNECT, SomeNodes));
    s := Do(s, FirstConnect(CONNECT, NodeReached));
    assert s.threads == map[];
  }

  /** A delayed starter goes on to register, as nothing is registered, the node is not ready and nobody shuts down. */
  lemma StarterPastTheCheck(s: Sys, t: Tid) returns (s': Sys)
    requires Reachable(s) && s.At(t, ToCheckRunning)
    requires s.fields.retryCancel.None? && !s.fields.isReady && !s.fields.ShuttingDown()
    ensures Reachable(s') && s' == s.Goto(t, ToRegister)
  {
    s' := Do(s, CheckRunning(t));
    s' := Do(s', Wake(t));
    s' := Do(s', CheckShutdown(t));
    assert s'.threads == s.threads[t := ToRegister];
  }

  /** Disconnect runs from start to end. */
  lemma Disconnected(s: Sys) returns (s': Sys)
    requires Reachable(s) && CONNECT !in s.threads
    ensures Reachable(s')
    ensures s' == s.(next := s.next + 1, fields := s.fields.CancelCtx(SHUTDOWN).Stop(),
                     stolen := s.stolen || s.fields.retryCancel.Some?)
  {
    ReachableInv(s);
    s' := ShuttingDown(s);
    s' := Do(s', StopRetry(s.next));
    assert s'.threads == s.threads;
  }

  /** ... up to its call of stopBootstrapRetry. */
  lemma ShuttingDown(s: Sys) returns (s': Sys)
    requires Reachable(s) && CONNECT !in s.threads
    ensures Reachable(s')
    ensures s' == s.(next := s.next + 1, fields := s.fields.CancelCtx(SHUTDOWN),
                     threads := s.threads[s.next := ToStopRetry])
  {
    s' := Do(s, Disconnect);
    s' := Do(s', CancelShutdown(s.next));
  }

  /** A loop that has returned runs its deferred function. */
  lemma LoopFinished(s: Sys, t: Tid) returns (s': Sys)
    requires Reachable(s) && t in s.threads && s.threads[t].ToCancelOwn?
    ensures Reachable(s')
    ensures s' == s.(threads := s.threads - {t}, fields := s.fields.CancelCtx(s.threads[t].ctx).Unregister(),
                     lastExit := Some(Exit(s.threads[t].why, s.edges)))
  {
    s' := Do(s, CancelOwn(t));
    s' := Do(s', ClearOwn(t));
    assert s'.threads == s.threads - {t};
  }
}
