/** The retry loop and the initial bootstrap as methods, and as goroutines of the step system, agree. */
module RetryLoopSteps {
  import opened RetrySystem
  import B = Bootstrap

  function Seen(fetch: B.Fetch): Fetched {
    if fetch.Err? then FetchFailed else if fetch.value == [] then NoNodes else SomeNodes
  }

  /** What comes of one call of bootstrapNetwork. */
  ghost function Attempted(dhtOk: bool, fetch: B.Fetch): Attempt {
    if !B.Succeeds(dhtOk, fetch) then AttemptFailed
    else if fetch.value == [] then NothingToDial
    else NodeReached
  }

  /** What a wake makes of a loop with this context. */
  ghost function AfterWake(s: Sys, c: nat, w: B.Wake): Pc {
    if w.ContextDone? then ToCancelOwn(c, Cancelled)
    else if w.ready then ToCancelOwn(c, SawReady(s.edges))
    else if w.Connects() then ToCancelOwn(c, Bootstrapped(Attempted(w.dhtOk, w.second)))
    else ToSelect(c)
  }

  /** One wake of a loop goroutine, uninterrupted: it returns exactly if the method's loop stops at that wake. */
  lemma WakeInOneGo(s: Sys, t: Tid, w: B.Wake) returns (s': Sys)
    requires Reachable(s) && t in s.threads && s.threads[t].ToSelect?
    requires if w.ContextDone? then s.fields.ctxs.Done(s.threads[t].ctx) else w.ready == s.fields.isReady
    ensures Reachable(s') && s' == s.Goto(t, AfterWake(s, s.threads[t].ctx, w))
    ensures w.Stops() <==> s'.threads[t].Returned()
  {
    if w.ContextDone? {
      s' := Do(s, SeeCancel(t));
    } else {
      s' := Do(s, Tick(t));
      s' := Do(s', ReadReady(t));
      if !w.ready {
        s' := FetchAndConnect(s, s', t, w);
      }
      assert s' == s.Goto(t, s'.threads[t]);
    }
  }

  lemma FetchAndConnect(s: Sys, s1: Sys, t: Tid, w: B.Wake) returns (s': Sys)
    requires t in s.threads && s.threads[t].ToSelect? && w.Tick? && !w.ready
    requires Reachable(s1) && s1 == s.Goto(t, ToFetch(s.threads[t].ctx))
    ensures Reachable(s') && s' == s.Goto(t, AfterWake(s, s.threads[t].ctx, w))
  {
    s' := Do(s1, FetchNodes(t, Seen(w.fetch)));
    if w.Attempts() {
      s' := Do(s', Connect(t, Attempted(w.dhtOk, w.second)));
    }
    assert s' == s.Goto(t, s'.threads[t]);
  }

  /** bootstrapNetworkWithRetry: the goroutine goes on to startBootstrapRetry exactly if the method requests a retry,
      and ends with an error exactly if the method does. */
  lemma InitialInOneGo(s: Sys, t: Tid, first: B.Fetch, dhtOk: bool, second: B.Fetch) returns (s': Sys)
    requires Reachable(s) && t in s.threads && s.threads[t].ToFirstFetch?
    ensures Reachable(s')
    ensures s'.initial.FetchError? <==> first.Err?
    ensures s'.initial.AskedForRetry? <==> first.Ok? && (first.value == [] || !B.Succeeds(dhtOk, second))
    ensures s'.initial.AskedForRetry? <==> t in s'.threads && s'.threads[t].ToCheckShutdown?
    ensures s'.fields == s.fields && (t !in s'.threads <==> !s'.initial.AskedForRetry?)
  {
    s' := Do(s, FirstFetch(t, Seen(first)));
    if first.Ok? && first.value != [] {
      s' := Do(s', FirstConnect(t, Attempted(dhtOk, second)));
    }
  }
}
