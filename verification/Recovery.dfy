/** Whether a node that is not ready is being recovered, and the only ways in which it is not. */
module Recovery {
  import opened Results
  import opened Infrastructure
  import opened RetryScenarios
  import opened RetryInvariant
  import opened RetrySystem
  import opened RetryLoopSteps
  import opened Starters
  import B = Bootstrap

  ghost predicate StarterPending(s: Sys) {
    exists t :: t in s.threads && s.threads[t].Starter()
  }

  ghost predicate Recovering(s: Sys) {
    StarterPending(s) || s.fields.retryCancel.Some?
  }

  /** The last loop ended after the latest falling edge, because bootstrapNetwork returned nil or because of a
      ready observation made before that edge. */
  ghost predicate LastLoopEndedAfterEdge(s: Sys) {
    && s.lastExit.Some?
    && s.lastExit.value.edge == s.edges
    && (s.lastExit.value.why.Bootstrapped?
        || (s.lastExit.value.why.SawReady? && s.lastExit.value.why.edge < s.edges))
  }

  /** The node has never been ready, and its initial bootstrap did not ask for a retry loop. */
  ghost predicate OnlyInitialBootstrap(s: Sys) {
    s.edges == 0 && !s.initial.AskedForRetry?
  }

  ghost predicate Covered(s: Sys) {
    !s.fields.isReady && !s.fields.ShuttingDown() ==>
      Recovering(s) || LastLoopEndedAfterEdge(s) || OnlyInitialBootstrap(s)
  }

  lemma NextKeepsCovered(s: Sys, e: Event)
    requires Inv(s) && Enabled(s, e) && Covered(s)
    ensures Covered(Next(s, e))
  {
    match e
    case CheckRunning(t) => StarterStepKeepsCovered(s, e);
    case Wake(t) => StarterStepKeepsCovered(s, e);
    case CheckShutdown(t) => StarterStepKeepsCovered(s, e);
    case Register(t) => assert Recovering(Next(s, e));
    case Commit(t) => CommitKeepsCovered(s, t);
    case ClearOwn(t) => ClearKeepsCovered(s, t);
    case FirstFetch(t, fetched) => InitialStepKeepsCovered(s, e);
    case FirstConnect(t, ok) => InitialStepKeepsCovered(s, e);
    case NetworkChange(peers) => OtherStepKeepsCovered(s, e, s.next);
    case Disconnect => OtherStepKeepsCovered(s, e, s.next);
    case StopRetry(t) => assert s.fields.ShuttingDown();
    case _ => OtherStepKeepsCovered(s, e, e.t);
  }

  lemma StarterStepKeepsCovered(s: Sys, e: Event)
    requires Enabled(s, e) && Covered(s)
    requires e.CheckRunning? || e.Wake? || e.CheckShutdown?
    ensures Covered(Next(s, e))
  {
    var s' := Next(s, e);
    if e.t in s'.threads {
      assert s'.threads[e.t].Starter();
    }
  }

  lemma CommitKeepsCovered(s: Sys, t: Tid)
    requires Inv(s) && Enabled(s, Commit(t)) && Covered(s)
    ensures Covered(Next(s, Commit(t)))
  {
    var s' := Next(s, Commit(t));
    if s.fields.FallsOn(s.threads[t].count) {
      assert s'.threads[s.next].Starter();
    } else if StarterPending(s) {
      var u :| u in s.threads && s.threads[u].Starter();
      assert u in s'.threads && s'.threads[u].Starter();
    }
  }

  /** A loop that clears its registration while the node is not ready saw it ready before the latest edge, or
      bootstrapped. */
  lemma ClearKeepsCovered(s: Sys, t: Tid)
    requires Inv(s) && Enabled(s, ClearOwn(t))
    ensures Covered(Next(s, ClearOwn(t)))
  {
    assert LiveThread(s, t);
  }

  lemma InitialStepKeepsCovered(s: Sys, e: Event)
    requires Enabled(s, e) && Covered(s)
    requires e.FirstFetch? || e.FirstConnect?
    ensures Covered(Next(s, e))
  {
    var s' := Next(s, e);
    if s'.initial.AskedForRetry? && e.t in s'.threads && !s'.threads[e.t].ToFirstConnect? {
      assert s'.threads[e.t].Starter();
    } else if StarterPending(s) {
      var u :| u in s.threads && s.threads[u].Starter();
      assert u in s'.threads && s'.threads[u].Starter();
    }
  }

  /** Steps of goroutines that are not starters, and that neither register nor clear. */
  lemma OtherStepKeepsCovered(s: Sys, e: Event, t: Tid)
    requires Inv(s) && Enabled(s, e) && Covered(s)
    requires t == if e.NetworkChange? || e.Disconnect? then s.next else e.t
    requires !(e.CheckRunning? || e.Wake? || e.CheckShutdown? || e.Register? || e.Commit? || e.ClearOwn?
               || e.FirstFetch? || e.FirstConnect? || e.StopRetry?)
    ensures Covered(Next(s, e))
  {
    var s' := Next(s, e);
    if StarterPending(s) {
      var u :| u in s.threads && s.threads[u].Starter();
      assert u != t && u in s'.threads && s'.threads[u].Starter();
    }
  }

  lemma {:induction false} RunKeepsCovered(s: Sys, es: seq<Event>)
    requires Inv(s) && Covered(s) && Runs(s, es)
    ensures Covered(Run(s, es))
    decreases |es|
  {
    if es != [] {
      NextKeepsInv(s, es[0]);
      NextKeepsCovered(s, es[0]);
      RunKeepsCovered(Next(s, es[0]), es[1..]);
    }
  }

  /** In every reachable state that is not ready and not shutting down, recovery is under way, or the last loop
      ended after the latest falling edge for one of two reasons, or there has only been the initial bootstrap. */
  lemma RecoveryCoverage(s: Sys)
    requires Reachable(s) && !s.fields.isReady && !s.fields.ShuttingDown()
    ensures Recovering(s) || LastLoopEndedAfterEdge(s) || OnlyInitialBootstrap(s)
  {
    var peers, es :| Runs(Initially(peers), es) && Run(Initially(peers), es) == s;
    InitiallyInv(peers);
    RunKeepsCovered(Initially(peers), es);
  }

  /** Not ready, and nothing is under way to change that. */
  ghost predicate Idle(s: Sys) {
    !s.fields.isReady && !s.fields.ShuttingDown() && !Recovering(s)
  }

  /** A node that is neither ready nor shutting down is idle exactly if there was only an initial bootstrap that asked
      for no retry, or no starter is pending and the last loop ended after the latest falling edge. */
  lemma IdleExactly(s: Sys)
    requires Reachable(s) && !s.fields.isReady && !s.fields.ShuttingDown()
    ensures Idle(s) <==> OnlyInitialBootstrap(s)
                         || (!StarterPending(s) && s.lastExit.Some? && s.lastExit.value.edge == s.edges)
    ensures Idle(s) && !OnlyInitialBootstrap(s) ==> LastLoopEndedAfterEdge(s)
  {
    ReachableInv(s);
    ReachableOrigins(s);
    RecoveryCoverage(s);
  }

  /** The one step that leaves a node idle: the deferred clear of a loop, while the node is not ready, not shutting
      down, and no starter is pending. */
  lemma BecomesIdleExactly(s: Sys, e: Event)
    requires Inv(s) && Enabled(s, e) && !Idle(s)
    ensures Idle(Next(s, e)) <==> e.ClearOwn? && !s.fields.isReady && !s.fields.ShuttingDown() && !StarterPending(s)
  {
    var s' := Next(s, e);
    var m := Mover(s, e);
    if StarterPending(s) {
      var u :| u in s.threads && s.threads[u].Starter();
      StarterStays(s, e, u);
    }
    if e.Commit? && s.fields.FallsOn(s.threads[e.t].count) {
      assert s'.threads[s.next].Starter();
    }
    if e.ClearOwn? {
      ClearStartsNothing(s, e.t);
    }
  }

  lemma ClearStartsNothing(s: Sys, t: Tid)
    requires Enabled(s, ClearOwn(t))
    ensures StarterPending(Next(s, ClearOwn(t))) ==> StarterPending(s)
  {
  }

  /** A starter that a step ends leaves a registered loop, a ready node or a shutdown. */
  lemma StarterStays(s: Sys, e: Event, u: Tid)
    requires Inv(s) && Enabled(s, e) && u in s.threads && s.threads[u].Starter()
    ensures var s' := Next(s, e);
            || StarterPending(s') || s'.fields.retryCancel.Some? || s'.fields.isReady || s'.fields.ShuttingDown()
  {
    var s' := Next(s, e);
    if u != Mover(s, e) {
      OthersStay(s, e, u);
    }
    if u in s'.threads {
      assert s'.threads[u].Starter();
    }
  }

  /** Once its first bootstrap is over, an idle node stays without any recovery until it has been ready and has lost its
      peers again. */
  lemma IdleUntilNextFall(s: Sys, es: seq<Event>)
    requires Reachable(s) && Idle(s) && !s.initial.Running? && Runs(s, es) && Run(s, es).edges == s.edges
    ensures Registrations(s, es) == 0 && !Recovering(Run(s, es))
  {
    ReachableInv(s);
    ReachableOrigins(s);
    assert PendingStarters(s) == {};
    StartersAccounted(s, es);
    BootstrapEndsOnce(s, es);
    NothingRegistered(s, es);
    assert forall t :: t in Run(s, es).threads && Run(s, es).threads[t].Starter() ==> t in PendingStarters(Run(s, es));
  }

  lemma {:induction false} NothingRegistered(s: Sys, es: seq<Event>)
    requires Runs(s, es) && s.fields.retryCancel.None? && Registrations(s, es) == 0
    ensures Run(s, es).fields.retryCancel.None?
    decreases |es|
  {
    if es != [] {
      NothingRegistered(Next(s, es[0]), es[1..]);
    }
  }

  // All three ways of being left idle do occur.

  /** The loop sees the node ready, the peers go, the new starter skips because of that loop, and the loop ends. */
  lemma IdleAfterStaleReadyObservation()
    ensures exists s :: Reachable(s) && !s.fields.isReady && !s.fields.ShuttingDown() && s.edges == 1
                        && Idle(s) && s.lastExit == Some(Exit(SawReady(0), 1))
  {
    var s := LoopSawReady();
    s := LosePeers(s);
    s := Do(s, CheckRunning(4));
    s := LoopFinished(s, 1);
    assert s.threads == map[];
  }

  lemma LoopSawReady() returns (s: Sys)
    ensures Reachable(s)
    ensures s == Initially({}).(fields := INITIAL.Register(SHUTDOWN).SetReadiness(1), peers := {7}, next := 3,
                                threads := map[1 := ToCancelOwn(1, SawReady(0))], initial := AskedForRetry)
  {
    s := InitialLoop();
    s := BecomeReady(s);
    s := Do(s, Tick(1));
    s := Do(s, ReadReady(1));
    assert s.threads == map[1 := ToCancelOwn(1, SawReady(0))];
  }

  /** A loop fetches nodes at its tick, but bootstrapNetwork's own fetch finds none: it returns nil, and the loop ends
      without a peer. */
  lemma IdleAfterNilBootstrap(first: seq<B.Node>)
    requires first != []
    ensures exists s :: Reachable(s) && s.peers == {} && s.edges == 0 && s.initial.AskedForRetry?
                        && Idle(s) && s.lastExit == Some(Exit(Bootstrapped(NothingToDial), 0))
  {
    var s := LoopFoundNothing(first);
    s := LoopFinished(s, 1);
    assert s.threads == map[];
  }

  lemma LoopFoundNothing(first: seq<B.Node>) returns (s: Sys)
    requires first != []
    ensures Reachable(s)
    ensures s == Initially({}).(fields := INITIAL.Register(SHUTDOWN), next := 2, initial := AskedForRetry,
                                threads := map[1 := ToCancelOwn(1, Bootstrapped(NothingToDial))])
  {
    s := InitialLoop();
    s := WakeInOneGo(s, 1, B.Tick(false, Ok(first), true, Ok([])));
    assert s.threads == map[1 := ToCancelOwn(1, Bootstrapped(NothingToDial))];
  }

  /** An error from the very first fetch starts no retry at all. */
  lemma IdleAfterFirstFetchError()
    ensures exists s :: Reachable(s) && Idle(s) && s.threads == map[] && s.initial.FetchError? && s.lastExit.None?
  {
    ReachableInitially({});
    var s := Do(Initially({}), FirstFetch(CONNECT, FetchFailed));
    assert s.threads == map[];
  }
}
