/** At most one retry loop, and retryCancel tells whether there is one, until stopBootstrapRetry takes it away. */
module SingleLoop {
  import opened Results
  import opened Infrastructure
  import opened RetryScenarios
  import opened RetryInvariant
  import opened RetrySystem

  /** retryCancel is set exactly while one goroutine is between registering and its deferred clear. */
  ghost predicate OneRegisteredLoop(s: Sys) {
    if s.fields.retryCancel.None?
    then forall t :: !LiveThread(s, t)
    else exists t :: OnlyLoop(s, t) && s.threads[t].ctx == s.fields.retryCancel.value
  }

  ghost predicate OnlyLoop(s: Sys, t: Tid) {
    LiveThread(s, t) && forall u | LiveThread(s, u) :: u == t
  }

  ghost predicate Steals(s: Sys, e: Event) {
    e.StopRetry? && s.fields.retryCancel.Some?
  }

  lemma UnstolenMeansOneLoop(s: Sys)
    requires Inv(s) && !s.stolen
    ensures OneRegisteredLoop(s)
  {
    if s.fields.retryCancel.Some? {
      var t :| LiveThread(s, t) && s.threads[t].ctx == s.fields.retryCancel.value;
      assert OnlyLoop(s, t);
    }
  }

  /** In any run, every state has one registered loop or none exactly if no stopBootstrapRetry found a registration. */
  lemma OneLoopIffNothingStolen(peers: set<Peer>, es: seq<Event>)
    requires Runs(Initially(peers), es)
    ensures var states := Trace(Initially(peers), es);
            (forall i | 0 <= i <= |es| :: OneRegisteredLoop(states[i]))
            <==> (forall i | 0 <= i < |es| :: !Steals(states[i], es[i]))
  {
    var s := Initially(peers);
    InitiallyInv(peers);
    if i :| 0 <= i < |es| && Steals(Trace(s, es)[i], es[i]) {
      TraceInv(s, es, i);
      TraceStep(s, es, i);
      StealOrphansALoop(Trace(s, es)[i], es[i]);
      assert !OneRegisteredLoop(Trace(s, es)[i + 1]);
    } else {
      forall i | 0 <= i <= |es|
        ensures OneRegisteredLoop(Trace(s, es)[i])
      {
        NothingStolenSoFar(s, es, i);
        TraceInv(s, es, i);
        UnstolenMeansOneLoop(Trace(s, es)[i]);
      }
    }
  }

  lemma StealOrphansALoop(s: Sys, e: Event)
    requires Inv(s) && Enabled(s, e) && Steals(s, e)
    ensures !OneRegisteredLoop(Next(s, e))
  {
    var t :| LiveThread(s, t);
    assert LiveThread(Next(s, e), t);
  }

  lemma {:induction false} NothingStolenSoFar(s: Sys, es: seq<Event>, i: nat)
    requires Runs(s, es) && i <= |es| && !s.stolen
    requires forall j | 0 <= j < |es| :: !Steals(Trace(s, es)[j], es[j])
    ensures !Trace(s, es)[i].stolen
    decreases i
  {
    if i > 0 {
      NothingStolenSoFar(s, es, i - 1);
      TraceStep(s, es, i - 1);
      assert !Steals(Trace(s, es)[i - 1], es[i - 1]);
    }
  }

  /** While nothing is stolen, a deferred clear removes its own registration and leaves no loop behind. */
  lemma ClearRemovesOwnRegistration(s: Sys, t: Tid)
    requires Reachable(s) && !s.stolen && Enabled(s, ClearOwn(t))
    ensures s.fields.retryCancel == Some(s.threads[t].ctx)
    ensures forall u :: !LiveThread(Next(s, ClearOwn(t)), u)
  {
    ReachableInv(s);
    assert LiveThread(s, t);
  }

  /** The deferred clear of this loop removes a registration that is not its own. */
  ghost predicate ClearsForeign(s: Sys, t: Tid) {
    Enabled(s, ClearOwn(t)) && s.fields.retryCancel.Some? && s.fields.retryCancel.value != s.threads[t].ctx
  }

  /** A deferred clear removes a foreign registration exactly if something is registered and another loop has registered
      since this one did. Then that loop is live, and stopBootstrapRetry has found a registration before. */
  lemma ForeignExactly(s: Sys, t: Tid)
    requires Reachable(s) && Enabled(s, ClearOwn(t))
    ensures ClearsForeign(s, t) <==> s.fields.retryCancel.Some? && s.threads[t].ctx < s.fields.nextCtx - 1
    ensures ClearsForeign(s, t) ==>
              s.stolen && exists u :: u != t && LiveThread(s, u) && s.threads[u].ctx > s.threads[t].ctx
  {
    ReachableInv(s);
    assert LiveThread(s, t);
  }

  /** ... and that does happen: two starters are past the shutdown check, one registers before a whole Disconnect and
      one after it, and the first loop ends. */
  lemma ClearMayRemoveForeignRegistration()
    ensures exists s, t :: Reachable(s) && ClearsForeign(s, t)
  {
    var s := LateRegistration();
    s := Do(s, SeeCancel(7));
    s := Do(s, CancelOwn(7));
    assert ClearsForeign(s, 7);
  }

  lemma LateRegistration() returns (s: Sys)
    ensures Reachable(s)
    ensures s.threads == map[7 := ToSelect(1), 9 := ToSelect(2)] && s.fields.ShuttingDown()
    ensures s.fields.retryCancel == Some(2)
  {
    s := TwoPastTheCheck();
    s := Do(s, Register(3));
    s := Disconnected(s);
    s := Do(s, Register(6));
    assert s.threads == map[7 := ToSelect(1), 9 := ToSelect(2)];
  }

  /** Two falling edges, and both their starters past the shutdown check. */
  lemma TwoPastTheCheck() returns (s: Sys)
    ensures Reachable(s)
    ensures s.threads == map[3 := ToRegister, 6 := ToRegister] && s.next == 7 && s.fields == INITIAL
  {
    s := InitialSuccess();
    s := OneMoreStarter(s);
    s := OneMoreStarter(s);
    s := StarterPastTheCheck(s, 3);
    s := StarterPastTheCheck(s, 6);
  }
}
