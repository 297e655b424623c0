/** What every interleaving of notifications, starters, loops and shutdowns keeps. */
module RetryInvariant {
  import opened Results
  import opened Infrastructure
  import opened RetrySystem

  ghost predicate LiveThread(s: Sys, t: Tid) {
    t in s.threads && s.threads[t].Live()
  }

  ghost predicate Fresh(s: Sys) {
    && (forall t <- s.threads :: t < s.next)
    && (forall t <- s.delayed :: t < s.next)
    && 0 < s.fields.nextCtx
    && SHUTDOWN !in s.fields.ctxs.parents
    && (forall c <- s.fields.ctxs.parents :: c < s.fields.nextCtx)
    && (forall c <- s.fields.ctxs.cancelled :: c < s.fields.nextCtx)
  }

  /** Every loop has its own context, a child of the shutdown context. */
  ghost predicate OwnContexts(s: Sys) {
    && (forall t | LiveThread(s, t) ::
          && 0 < s.threads[t].ctx < s.fields.nextCtx
          && s.threads[t].ctx in s.fields.ctxs.parents
          && s.fields.ctxs.parents[s.threads[t].ctx] == SHUTDOWN)
    && (forall t, u | LiveThread(s, t) && LiveThread(s, u) && s.threads[t].ctx == s.threads[u].ctx :: t == u)
  }

  /** A registration is always that of a live loop, and of the newest. */
  ghost predicate RegisteredIsLive(s: Sys) {
    s.fields.retryCancel.Some? ==>
      && s.fields.retryCancel == Some(s.fields.nextCtx - 1)
      && exists t :: LiveThread(s, t) && s.threads[t].ctx == s.fields.retryCancel.value
  }

  /** A live loop is registered, until stopBootstrapRetry takes a registration away. */
  ghost predicate LiveIsRegistered(s: Sys) {
    !s.stolen ==> forall t | LiveThread(s, t) :: s.fields.retryCancel == Some(s.threads[t].ctx)
  }

  /** Nothing but a loop's own deferred cancel ends its context before the shutdown. */
  ghost predicate CancelsInOrder(s: Sys) {
    && (s.stolen ==> s.fields.ShuttingDown())
    && (forall t | t in s.threads && s.threads[t].ToStopRetry? :: s.fields.ShuttingDown())
    && (!s.fields.ShuttingDown() ==>
          forall t | LiveThread(s, t) ::
            && (s.threads[t].ctx in s.fields.ctxs.cancelled ==> s.threads[t].ToClearOwn?)
            && (s.threads[t].Returned() ==> !s.threads[t].why.Cancelled?))
  }

  /** A ready observation belongs to an earlier edge once the node is no longer ready. */
  ghost predicate ObservationsAge(s: Sys) {
    && (forall t | LiveThread(s, t) && s.threads[t].Returned() :: Aged(s, s.threads[t].why))
    && (s.lastExit.Some? ==>
          s.fields.retryCancel.None? && s.lastExit.value.edge <= s.edges && Aged(s, s.lastExit.value.why))
  }

  ghost predicate Aged(s: Sys, why: Why) {
    why.SawReady? ==> why.edge <= s.edges && (!s.fields.isReady ==> why.edge < s.edges)
  }

  ghost predicate Inv(s: Sys) {
    && Fresh(s)
    && OwnContexts(s)
    && RegisteredIsLive(s)
    && LiveIsRegistered(s)
    && CancelsInOrder(s)
    && ObservationsAge(s)
  }

  lemma InitiallyInv(peers: set<Peer>)
    ensures Inv(Initially(peers))
  {
    assert !Initially(peers).fields.ShuttingDown();
  }

  // What the pieces of a step keep.

  lemma GotoKeepsInv(s: Sys, t: Tid, pc: Pc)
    requires Inv(s) && t in s.threads && !s.threads[t].Live()
    requires !pc.Live() && (pc.ToStopRetry? ==> s.fields.ShuttingDown())
    ensures Inv(s.Goto(t, pc))
  {
    SameLoopsKeepInv(s, s.Goto(t, pc));
  }

  lemma FinishKeepsInv(s: Sys, t: Tid)
    requires Inv(s) && t in s.threads && !s.threads[t].Live()
    ensures Inv(s.Finish(t))
  {
    SameLoopsKeepInv(s, s.Finish(t));
  }

  lemma SpawnKeepsInv(s: Sys, pc: Pc)
    requires Inv(s) && !pc.Live() && !pc.ToStopRetry?
    ensures Inv(s.Spawn(pc))
  {
    SameLoopsKeepInv(s, s.Spawn(pc));
  }

  /** A step that neither touches contexts and registration nor moves a live loop. */
  lemma SameLoopsKeepInv(s: Sys, s': Sys)
    requires Inv(s) && Fresh(s')
    requires s'.fields == s.fields.(isReady := s'.fields.isReady)
    requires s'.stolen == s.stolen && s'.lastExit == s.lastExit
    requires s.edges <= s'.edges && (s.fields.isReady && !s'.fields.isReady ==> s.edges < s'.edges)
    requires forall t :: LiveThread(s', t) <==> LiveThread(s, t)
    requires forall t | LiveThread(s, t) && LiveThread(s', t) :: s'.threads[t] == s.threads[t]
    requires forall t | t in s'.threads && s'.threads[t].ToStopRetry? ::
               s.fields.ShuttingDown() || (t in s.threads && s.threads[t].ToStopRetry?)
    ensures Inv(s')
  {
    if s.fields.retryCancel.Some? {
      var t :| LiveThread(s, t) && s.threads[t].ctx == s.fields.retryCancel.value;
      assert LiveThread(s', t);
    }
  }

  /** A live loop moves on with its context. */
  lemma LoopGotoKeepsInv(s: Sys, t: Tid, pc: Pc)
    requires Inv(s) && LiveThread(s, t) && !s.threads[t].Returned()
    requires pc.Live() && !pc.ToClearOwn? && pc.ctx == s.threads[t].ctx
    requires pc.Returned() ==> Aged(s, pc.why) && (pc.why.Cancelled? ==> s.fields.ShuttingDown())
    ensures Inv(s.Goto(t, pc))
  {
    LoopsInPlaceKeepRegistration(s, s.Goto(t, pc));
  }

  lemma SetReadinessKeepsInv(s: Sys, count: nat)
    requires Inv(s)
    ensures s.fields.FallsOn(count) ==> Inv(s.With(s.fields.SetReadiness(count)).(edges := s.edges + 1))
    ensures !s.fields.FallsOn(count) ==> Inv(s.With(s.fields.SetReadiness(count)))
  {
    var u := s.With(s.fields.SetReadiness(count));
    var s' := if s.fields.FallsOn(count) then u.(edges := s.edges + 1) else u;
    assert forall t :: LiveThread(s', t) <==> LiveThread(s, t);
    SameLoopsKeepInv(s, s');
  }

  lemma BookkeepingKeepsInv(s: Sys, peers: set<Peer>, initial: Initial, delayed: set<Tid>)
    requires Inv(s) && forall t <- delayed :: t < s.next
    ensures Inv(s.(peers := peers, initial := initial, delayed := delayed))
  {
    var s' := s.(peers := peers, initial := initial, delayed := delayed);
    assert forall t :: LiveThread(s', t) <==> LiveThread(s, t);
    SameLoopsKeepInv(s, s');
  }

  lemma NextKeepsInv(s: Sys, e: Event)
    requires Inv(s) && Enabled(s, e)
    ensures Inv(Next(s, e))
  {
    match e
    case NetworkChange(_) => SpawningStepKeepsInv(s, e);
    case Disconnect => SpawningStepKeepsInv(s, e);
    case CountPeers(t) => GotoKeepsInv(s, t, ToCommit(|s.peers|));
    case Commit(t) => CommitKeepsInv(s, t);
    case CheckRunning(_) => StarterStepKeepsInv(s, e);
    case Wake(_) => StarterStepKeepsInv(s, e);
    case CheckShutdown(_) => StarterStepKeepsInv(s, e);
    case Register(t) => RegisterKeepsInv(s, t);
    case FirstFetch(_, _) => InitialStepKeepsInv(s, e);
    case FirstConnect(_, _) => InitialStepKeepsInv(s, e);
    case CancelShutdown(t) => CancelShutdownKeepsInv(s, t);
    case StopRetry(t) => StopRetryKeepsInv(s, t);
    case CancelOwn(t) => CancelOwnKeepsInv(s, t);
    case ClearOwn(t) => ClearOwnKeepsInv(s, t);
    case _ => LoopStepKeepsInv(s, e);
  }

  lemma SpawningStepKeepsInv(s: Sys, e: Event)
    requires Inv(s) && Enabled(s, e) && (e.NetworkChange? || e.Disconnect?)
    ensures Inv(Next(s, e))
  {
    if e.NetworkChange? {
      BookkeepingKeepsInv(s, e.peers, s.initial, s.delayed);
      SpawnKeepsInv(s.(peers := e.peers), ToCount);
    } else {
      SpawnKeepsInv(s, ToCancelShutdown);
    }
  }

  lemma StarterStepKeepsInv(s: Sys, e: Event)
    requires Inv(s) && Enabled(s, e) && (e.CheckRunning? || e.Wake? || e.CheckShutdown?)
    ensures Inv(Next(s, e))
  {
    FinishKeepsInv(s, e.t);
    GotoKeepsInv(s, e.t, if e.CheckRunning? then Sleeping else if e.Wake? then ToCheckShutdown else ToRegister);
  }

  lemma InitialStepKeepsInv(s: Sys, e: Event)
    requires Inv(s) && Enabled(s, e) && (e.FirstFetch? || e.FirstConnect?)
    ensures Inv(Next(s, e))
  {
    InitialKeepsInv(s, e.t, Next(s, e).initial);
  }

  lemma CommitKeepsInv(s: Sys, t: Tid)
    requires Inv(s) && Enabled(s, Commit(t))
    ensures Inv(Next(s, Commit(t)))
  {
    var count := s.threads[t].count;
    SetReadinessKeepsInv(s, count);
    if s.fields.FallsOn(count) {
      var u := s.With(s.fields.SetReadiness(count)).(edges := s.edges + 1);
      FinishKeepsInv(u, t);
      SpawnKeepsInv(u.Finish(t), ToCheckRunning);
      var v := u.Finish(t).Spawn(ToCheckRunning);
      BookkeepingKeepsInv(v, v.peers, v.initial, v.delayed + {s.next});
      assert Next(s, Commit(t)) == v.(delayed := v.delayed + {s.next});
    } else {
      FinishKeepsInv(s.With(s.fields.SetReadiness(count)), t);
    }
  }

  /** The initial bootstrap ends, asks for a retry loop, or goes on to connect. */
  lemma InitialKeepsInv(s: Sys, t: Tid, initial: Initial)
    requires Inv(s) && t in s.threads && !s.threads[t].Live()
    ensures Inv(s.Finish(t).(initial := initial))
    ensures Inv(s.Goto(t, ToCheckShutdown).(initial := initial))
    ensures Inv(s.Goto(t, ToFirstConnect))
  {
    BookkeepingKeepsInv(s, s.peers, initial, s.delayed);
    var u := s.(initial := initial);
    FinishKeepsInv(u, t);
    GotoKeepsInv(u, t, ToCheckShutdown);
    GotoKeepsInv(s, t, ToFirstConnect);
    assert u.Goto(t, ToCheckShutdown) == s.Goto(t, ToCheckShutdown).(initial := initial);
    assert u.Finish(t) == s.Finish(t).(initial := initial);
  }

  /** A loop's context is done once it, or the shutdown context above it, is cancelled. */
  lemma DoneMeansCancelled(s: Sys, t: Tid)
    requires Inv(s) && LiveThread(s, t)
    ensures s.fields.ctxs.Done(s.threads[t].ctx)
            <==> s.threads[t].ctx in s.fields.ctxs.cancelled || s.fields.ShuttingDown()
  {
    assert s.fields.ctxs.parents[s.threads[t].ctx] == SHUTDOWN;
    assert s.fields.ctxs.Done(SHUTDOWN) <==> s.fields.ShuttingDown();
  }

  lemma LoopStepKeepsInv(s: Sys, e: Event)
    requires Inv(s) && Enabled(s, e)
    requires e.Tick? || e.SeeCancel? || e.ReadReady? || e.FetchNodes? || e.Connect?
    ensures Inv(Next(s, e))
  {
    assert LiveThread(s, e.t);
    DoneMeansCancelled(s, e.t);
    LoopGotoKeepsInv(s, e.t, Next(s, e).threads[e.t]);
  }

  lemma RegisterKeepsInv(s: Sys, t: Tid)
    requires Inv(s) && Enabled(s, Register(t))
    ensures Inv(Next(s, Register(t)))
  {
    FinishKeepsInv(s, t);
    if s.fields.retryCancel.None? {
      NewLoopKeepsInv(s.Finish(t));
    }
  }

  lemma NewLoopKeepsInv(s: Sys)
    requires Inv(s) && s.fields.retryCancel.None?
    ensures Inv(s.With(s.fields.Register(SHUTDOWN)).Spawn(ToSelect(s.fields.nextCtx)).(lastExit := None))
  {
    var c := s.fields.nextCtx;
    var s' := s.With(s.fields.Register(SHUTDOWN)).Spawn(ToSelect(c)).(lastExit := None);
    assert LiveThread(s', s.next) && s'.threads[s.next].ctx == c;
    forall u
      ensures LiveThread(s', u) <==> u == s.next || LiveThread(s, u)
      ensures LiveThread(s, u) ==> s'.threads[u] == s.threads[u] && s.stolen
    {
    }
    assert Fresh(s');
    assert OwnContexts(s');
    assert CancelsInOrder(s');
  }

  lemma ClearOwnKeepsInv(s: Sys, t: Tid)
    requires Inv(s) && Enabled(s, ClearOwn(t))
    ensures Inv(Next(s, ClearOwn(t)))
  {
    var s' := Next(s, ClearOwn(t));
    assert LiveThread(s, t);
    assert forall u :: LiveThread(s', u) ==> u != t && LiveThread(s, u) && s.stolen;
  }

  lemma CancelOwnKeepsInv(s: Sys, t: Tid)
    requires Inv(s) && Enabled(s, CancelOwn(t))
    ensures Inv(Next(s, CancelOwn(t)))
  {
    var s' := Next(s, CancelOwn(t));
    assert LiveThread(s, t);
    LoopsInPlaceKeepRegistration(s, s');
    CancelOwnKeepsOrder(s, t);
  }

  /** A step that moves loops along with their contexts, and registers and clears nothing. */
  lemma LoopsInPlaceKeepRegistration(s: Sys, s': Sys)
    requires Inv(s) && Fresh(s') && s'.stolen == s.stolen
    requires s'.fields.retryCancel == s.fields.retryCancel && s'.fields.nextCtx == s.fields.nextCtx
    requires s'.fields.ctxs.parents == s.fields.ctxs.parents
    requires forall u :: LiveThread(s', u) <==> LiveThread(s, u)
    requires forall u | LiveThread(s, u) && LiveThread(s', u) :: s'.threads[u].ctx == s.threads[u].ctx
    ensures OwnContexts(s') && RegisteredIsLive(s') && LiveIsRegistered(s')
  {
    if s.fields.retryCancel.Some? {
      var u :| LiveThread(s, u) && s.threads[u].ctx == s.fields.retryCancel.value;
      assert LiveThread(s', u) && s'.threads[u].ctx == s.fields.retryCancel.value;
    }
  }

  lemma CancelOwnKeepsOrder(s: Sys, t: Tid)
    requires Inv(s) && Enabled(s, CancelOwn(t))
    ensures CancelsInOrder(Next(s, CancelOwn(t))) && ObservationsAge(Next(s, CancelOwn(t)))
  {
    var s' := Next(s, CancelOwn(t));
    assert LiveThread(s, t);
    assert forall u :: LiveThread(s', u) <==> LiveThread(s, u);
    assert SHUTDOWN < s.threads[t].ctx;
    assert s'.fields.ShuttingDown() <==> s.fields.ShuttingDown();
  }

  lemma StopRetryKeepsInv(s: Sys, t: Tid)
    requires Inv(s) && Enabled(s, StopRetry(t))
    ensures Inv(Next(s, StopRetry(t)))
  {
    FinishKeepsInv(s, t);
    assert s.fields.ShuttingDown();
    if s.fields.retryCancel.Some? {
      StealKeepsInv(s.Finish(t));
    }
  }

  lemma StealKeepsInv(s: Sys)
    requires Inv(s) && s.fields.ShuttingDown() && s.fields.retryCancel.Some?
    ensures Inv(s.With(s.fields.Stop()).(stolen := true))
  {
    var s' := s.With(s.fields.Stop()).(stolen := true);
    assert forall u :: LiveThread(s', u) <==> LiveThread(s, u);
    var u :| LiveThread(s, u) && s.threads[u].ctx == s.fields.retryCancel.value;
  }

  lemma CancelShutdownKeepsInv(s: Sys, t: Tid)
    requires Inv(s) && Enabled(s, CancelShutdown(t))
    ensures Inv(Next(s, CancelShutdown(t)))
  {
    var u := s.With(s.fields.CancelCtx(SHUTDOWN));
    assert forall x :: LiveThread(u, x) <==> LiveThread(s, x);
    LoopsInPlaceKeepRegistration(s, u);
    assert CancelsInOrder(u) && ObservationsAge(u);
    GotoKeepsInv(u, t, ToStopRetry);
  }

  lemma {:induction false} RunKeepsInv(s: Sys, es: seq<Event>)
    requires Inv(s) && Runs(s, es)
    ensures Inv(Run(s, es))
    decreases |es|
  {
    if es != [] {
      NextKeepsInv(s, es[0]);
      RunKeepsInv(Next(s, es[0]), es[1..]);
    }
  }

  lemma ReachableInv(s: Sys)
    requires Reachable(s)
    ensures Inv(s)
  {
    var peers, es :| Runs(Initially(peers), es) && Run(Initially(peers), es) == s;
    InitiallyInv(peers);
    RunKeepsInv(Initially(peers), es);
  }

  lemma {:induction false} TraceInv(s: Sys, es: seq<Event>, i: nat)
    requires Inv(s) && Runs(s, es) && i <= |es|
    ensures Inv(Trace(s, es)[i])
    decreases i
  {
    if i > 0 {
      TraceInv(s, es, i - 1);
      TraceStep(s, es, i - 1);
      NextKeepsInv(Trace(s, es)[i - 1], es[i - 1]);
    }
  }
}
