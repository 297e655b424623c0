/** A call that nothing interrupts does, step by step, what the method of DatabaseInstance does. */
module SerialCalls {
  import opened Results
  import opened Topics
  import opened PubSubInvariant
  import opened PubSubSystem

  /** No Disconnect begins. */
  predicate Quiet(es: seq<Event>) {
    forall e <- es :: e.Start? ==> !e.pc.DisLock?
  }

  /** Some run leads from s to s', a quiet one if that is asked. */
  ghost predicate Leads(s: Sys, s': Sys, quiet: bool := false) {
    exists es :: Runs(s, es) && Run(s, es) == s' && (quiet ==> Quiet(es))
  }

  lemma {:induction false} RunOneMore(s: Sys, es: seq<Event>, e: Event)
    requires Runs(s, es) && Enabled(Run(s, es), e)
    ensures Runs(s, es + [e]) && Run(s, es + [e]) == Next(Run(s, es), e)
    decreases |es|
  {
    if es == [] {
      assert es + [e] == [e] && [e][1..] == [];
    } else {
      RunOneMore(Next(s, es[0]), es[1..], e);
      assert (es + [e])[1..] == es[1..] + [e];
    }
  }

  lemma Do(s: Sys, s': Sys, e: Event, quiet: bool := false)
    requires Leads(s, s', quiet) && Enabled(s', e) && (quiet ==> Quiet([e]))
    ensures Leads(s, Next(s', e), quiet)
  {
    var es :| Runs(s, es) && Run(s, es) == s' && (quiet ==> Quiet(es));
    RunOneMore(s, es, e);
    assert quiet ==> e in [e];
  }

  /** Nobody holds a lock. */
  ghost predicate Free(s: Sys) {
    s.writer.None? && s.readers == {} && s.retryHolder.None? && s.next !in s.threads
  }

  /** The call started from s stands at pc, holding what goes with that, and has changed the store so far. */
  function Standing(s: Sys, pc: Pc, store: Store): Sys {
    s.(store := store,
       readers := if ModeOf(pc).Reading? then {s.next} else {},
       writer := if ModeOf(pc).Writing? then Some(s.next) else None,
       retryHolder := if HoldsRetry(pc) then Some(s.next) else None,
       threads := s.threads[s.next := pc],
       next := s.next + 1)
  }

  function Finished(s: Sys, store: Store): Sys {
    s.(store := store, next := s.next + 1)
  }

  function Progress(s: Sys, pc: Option<Pc>, store: Store): Sys {
    if pc.Some? then Standing(s, pc.value, store) else Finished(s, store)
  }

  lemma Begin(s: Sys, pc: Pc, quiet: bool := false)
    requires Free(s) && Opening(pc) && (quiet ==> !pc.DisLock?)
    ensures Leads(s, Standing(s, pc, s.store), quiet)
  {
    assert Runs(s, []) && Run(s, []) == s;
    Do(s, s, Start(pc), quiet);
    assert Next(s, Start(pc)) == Standing(s, pc, s.store);
  }

  lemma Go(s: Sys, pc: Pc, store: Store, c: Choice, quiet: bool := false)
    requires Free(s) && Leads(s, Standing(s, pc, store), quiet)
    requires ActOf(pc).Work? ==> WorkEnabled(store, pc, c)
    ensures var store' := if ActOf(pc).Work? then WorkStore(store, pc, c) else store;
            Leads(s, Progress(s, After(store, pc, c), store'), quiet)
  {
    var s1 := Standing(s, pc, store);
    var after := After(store, pc, c);
    ModesFollowActs(store, pc, c);
    Do(s, s1, Op(s.next, c), quiet);
    var s2 := Next(s1, Op(s.next, c));
    assert after.Some? ==> s2.threads == s.threads[s.next := after.value];
    assert after.None? ==> s2.threads == s.threads;
    assert {s.next} - {s.next} == {} && {} + {s.next} == {s.next};
  }

  const ANY := Choice(true, "")

  lemma LeadsOn(s: Sys, s1: Sys, s2: Sys, quiet: bool := false)
    requires Leads(s, s1, quiet) && Leads(s1, s2, quiet)
    ensures Leads(s, s2, quiet)
  {
    var es :| Runs(s1, es) && Run(s1, es) == s2 && (quiet ==> Quiet(es));
    LeadsAlong(s, s1, es, quiet);
  }

  lemma {:induction false} LeadsAlong(s: Sys, s1: Sys, es: seq<Event>, quiet: bool := false)
    requires Leads(s, s1, quiet) && Runs(s1, es) && (quiet ==> Quiet(es))
    ensures Leads(s, Run(s1, es), quiet)
    decreases |es|
  {
    if es != [] {
      assert es[0] in es;
      assert forall e <- es[1..] :: e in es;
      Do(s, s1, es[0], quiet);
      LeadsAlong(s, Next(s1, es[0]), es[1..], quiet);
    }
  }

  lemma ReachableOn(s: Sys, s': Sys)
    requires Reachable(s) && Leads(s, s')
    ensures Reachable(s')
  {
    var db, es :| Runs(Initially(db), es) && Run(Initially(db), es) == s;
    assert Leads(Initially(db), s);
    LeadsOn(Initially(db), s, s');
  }

  lemma ReachableInitially(db: string)
    ensures Reachable(Initially(db)) && Free(Initially(db))
  {
    assert Runs(Initially(db), []) && Run(Initially(db), []) == Initially(db);
  }

  // ------------------------------------------------------------ Subscribe

  lemma SubscribeInOneGo(s: Sys, key: string, hasHandler: bool, joinOk: bool, subscribeOk: bool, stuck: set<Handle>,
                         quiet: bool := false)
    requires Free(s)
    ensures Leads(s, Finished(s, SubscribeEffect(s.store, key, hasHandler, joinOk, subscribeOk, stuck).1), quiet)
  {
    Begin(s, SubLock(key, hasHandler), quiet);
    Go(s, SubLock(key, hasHandler), s.store, ANY, quiet);
    Go(s, SubLookup(key, hasHandler), s.store, ANY, quiet);
    if s.store.HasHandler(key) {
      Go(s, Unlock, s.store, ANY, quiet);
    } else if key in s.store.topics {
      FinishSubscribe(s, s.store, s.store.topics[key], hasHandler, subscribeOk, stuck, quiet);
    } else {
      JoinThenSubscribe(s, key, hasHandler, joinOk, subscribeOk, stuck, quiet);
    }
  }

  lemma JoinThenSubscribe(s: Sys, key: string, hasHandler: bool, joinOk: bool, subscribeOk: bool, stuck: set<Handle>,
                          quiet: bool := false)
    requires Free(s) && !s.store.HasHandler(key) && key !in s.store.topics
    requires Leads(s, Standing(s, SubJoin(key, hasHandler), s.store), quiet)
    ensures Leads(s, Finished(s, SubscribeEffect(s.store, key, hasHandler, joinOk, subscribeOk, stuck).1), quiet)
  {
    var ok := joinOk && s.store.CanJoin(key);
    Go(s, SubJoin(key, hasHandler), s.store, Choice(ok, ""), quiet);
    if ok {
      var joined := s.store.Join(key).PutTopic(s.store.NewHandle(key));
      FinishSubscribe(s, joined, s.store.NewHandle(key), hasHandler, subscribeOk, stuck, quiet);
    } else {
      Go(s, Unlock, s.store, ANY, quiet);
    }
  }

  lemma FinishSubscribe(s: Sys, store: Store, h: Handle, hasHandler: bool, subscribeOk: bool, stuck: set<Handle>,
                        quiet: bool := false)
    requires Free(s) && Leads(s, Standing(s, SubBroker(h, hasHandler), store), quiet)
    ensures Leads(s, Finished(s, if subscribeOk && h in store.open then store.Listen(h, hasHandler)
                                 else store.Close(h, !(h in store.open && h in stuck))), quiet)
  {
    var ok := subscribeOk && h in store.open;
    Go(s, SubBroker(h, hasHandler), store, Choice(ok, ""), quiet);
    if ok {
      Go(s, Unlock, store.Listen(h, hasHandler), ANY, quiet);
    } else {
      CleanUp(s, store, h, !(h in store.open && h in stuck), quiet);
    }
  }

  lemma CleanUp(s: Sys, store: Store, h: Handle, closes: bool, quiet: bool := false)
    requires Free(s) && Leads(s, Standing(s, SubCleanup(h), store), quiet) && (!closes ==> h in store.open)
    ensures Leads(s, Finished(s, store.Close(h, closes)), quiet)
  {
    Go(s, SubCleanup(h), store, Choice(closes, ""), quiet);
    Go(s, Unlock, store.Close(h, closes), ANY, quiet);
  }

  /** A Subscribe step overwrites an entry exactly if it succeeds and the topic already has one, which then is one
      without a handler. */
  lemma OverwritesExactly(s: Sys, t: Tid, c: Choice)
    requires Reachable(s) && OpEnabled(s, t, c)
    ensures OpNext(s, t, c).store.overwritten != s.store.overwritten
            <==> s.threads[t].SubBroker? && c.ok && s.threads[t].h.key in s.store.subscriptions
    ensures s.threads[t].SubBroker? ==> !s.store.HasHandler(s.threads[t].h.key)
  {
    ReachableInv(s);
    assert CallInv(s.store, s.threads[t]);
    if s.threads[t].SubBroker? && s.threads[t].h.key in s.store.subscriptions {
      EntryNotOverwritten(s, s.threads[t].h.key);
    }
  }

  lemma EntryNotOverwritten(s: Sys, key: string)
    requires Inv(s) && key in s.store.subscriptions
    ensures s.store.subscriptions[key] !in s.store.overwritten
  {
    assert Subscribed(s.store, s.store.subscriptions[key]);
  }

  /** That does happen: nil handlers allow a second Subscribe, which replaces the entry of the first, so that nobody can
      cancel the first listener any more. */
  lemma NilHandlerIsOverwritten(db: string, key: string)
    ensures exists s, s' :: Reachable(s) && Leads(s, s')
                            && key in s.store.subscriptions && key in s'.store.subscriptions
                            && s.store.subscriptions[key] in s'.store.overwritten
  {
    var s0 := Initially(db);
    ReachableInitially(db);
    var s1 := SubscribedWithoutHandler(s0, key);
    var s2 := SubscribedWithoutHandler(s1, key);
    ReachableOn(s0, s1);
  }

  lemma SubscribedWithoutHandler(s: Sys, key: string) returns (s': Sys)
    requires Free(s) && !s.store.HasHandler(key) && s.next + 1 !in s.threads
    requires if key in s.store.topics then s.store.topics[key].key == key && s.store.topics[key] in s.store.open
             else s.store.CanJoin(key)
    ensures Leads(s, s') && s' == s.(store := s'.store, next := s.next + 1)
    ensures key in s'.store.topics && s'.store.topics[key].key == key && s'.store.topics[key] in s'.store.open
    ensures key in s'.store.subscriptions && s'.store.subscriptions[key] == s.store.nextListener
    ensures var l := s.store.nextListener;
            var x := Listener(key, s'.store.topics[key], false, false, false, false, ToCheck);
            s'.store.listeners == s.store.listeners[l := x]
    ensures s'.store.nextListener == s.store.nextListener + 1
    ensures key in s.store.subscriptions ==> s.store.subscriptions[key] in s'.store.overwritten
  {
    SubscribeInOneGo(s, key, false, true, true, {});
    s' := Finished(s, SubscribeEffect(s.store, key, false, true, true, {}).1);
  }

  // ------------------------------------------------------------ Unsubscribe

  lemma UnsubscribeInOneGo(s: Sys, key: string, stuck: set<Handle>, quiet: bool := false)
    requires Free(s) && s.store.Sound()
    ensures key !in s.store.subscriptions ==> Leads(s, Finished(s, s.store), quiet)
    ensures key in s.store.subscriptions ==>
              var h := s.store.topics[key];
              Leads(s, Finished(s, Unsubscribed(s.store, key, !(h in s.store.open && h in stuck))), quiet)
  {
    Begin(s, UnsLock(key), quiet);
    Go(s, UnsLock(key), s.store, ANY, quiet);
    Go(s, UnsFind(key), s.store, ANY, quiet);
    if key !in s.store.subscriptions {
      Go(s, Unlock, s.store, ANY, quiet);
    } else {
      var h := s.store.topics[key];
      RemoveEntry(s, key, s.store.subscriptions[key], !(h in s.store.open && h in stuck), quiet);
    }
  }

  lemma RemoveEntry(s: Sys, key: string, l: Lid, closes: bool, quiet: bool := false)
    requires Free(s) && s.store.Sound() && key in s.store.subscriptions && l == s.store.subscriptions[key]
    requires Leads(s, Standing(s, CancelListener(key, l, false), s.store), quiet)
    requires !closes ==> s.store.topics[key] in s.store.open
    ensures Leads(s, Finished(s, Unsubscribed(s.store, key, closes)), quiet)
  {
    var store := s.store.Cancel(l).CloseSubscription(l);
    CancelEntry(s, s.store, key, l, false, quiet);
    CloseEntry(s, key, l, store, closes, quiet);
  }

  lemma CancelEntry(s: Sys, store: Store, key: string, l: Lid, all: bool, quiet: bool := false)
    requires Free(s) && l in store.listeners && Leads(s, Standing(s, CancelListener(key, l, all), store), quiet)
    ensures var next := if all then DisDelete(key) else UnsTopic(key, l);
            Leads(s, Standing(s, next, store.Cancel(l).CloseSubscription(l)), quiet)
  {
    Go(s, CancelListener(key, l, all), store, ANY, quiet);
    CancelItsSubscription(s, store.Cancel(l), key, l, all, quiet);
  }

  lemma CancelItsSubscription(s: Sys, store: Store, key: string, l: Lid, all: bool, quiet: bool := false)
    requires Free(s) && l in store.listeners && Leads(s, Standing(s, CancelSub(key, l, all), store), quiet)
    ensures Leads(s, Standing(s, if all then DisDelete(key) else UnsTopic(key, l), store.CloseSubscription(l)), quiet)
  {
    Go(s, CancelSub(key, l, all), store, ANY, quiet);
  }

  lemma CloseEntry(s: Sys, key: string, l: Lid, store: Store, closes: bool, quiet: bool := false)
    requires Free(s) && Leads(s, Standing(s, UnsTopic(key, l), store), quiet)
    requires l in store.listeners && (!closes ==> store.listeners[l].handle in store.open)
    ensures var closed := store.Close(store.listeners[l].handle, closes);
            Leads(s, Finished(s, closed.DropSubscription(key).DropTopic(key)), quiet)
  {
    Go(s, UnsTopic(key, l), store, Choice(closes, ""), quiet);
    DeleteEntry(s, key, store.Close(store.listeners[l].handle, closes), quiet);
  }

  lemma DeleteEntry(s: Sys, key: string, store: Store, quiet: bool := false)
    requires Free(s) && Leads(s, Standing(s, UnsDelete(key), store), quiet)
    ensures Leads(s, Finished(s, store.DropSubscription(key).DropTopic(key)), quiet)
  {
    Go(s, UnsDelete(key), store, ANY, quiet);
    Go(s, Unlock, store.DropSubscription(key).DropTopic(key), ANY, quiet);
  }

  // ------------------------------------------------------------ Publish

  /** Publish stores a newly joined handle and otherwise leaves everything as it is. */
  lemma PublishInOneGo(s: Sys, key: string, joinOk: bool)
    requires Free(s)
    ensures Leads(s, Finished(s, if key !in s.store.topics && joinOk && s.store.CanJoin(key)
                                 then s.store.Join(key).PutTopic(s.store.NewHandle(key)) else s.store))
  {
    var ok := joinOk && s.store.CanJoin(key);
    Begin(s, PubRLock(key));
    Go(s, PubRLock(key), s.store, ANY);
    Go(s, PubLookup(key), s.store, Choice(ok, ""));
    if key in s.store.topics {
      Send(s, s.store, s.store.topics[key]);
    } else if ok {
      StoreAndSend(s, s.store.Join(key), s.store.NewHandle(key));
    } else {
      Go(s, PubDone, s.store, ANY);
    }
  }

  lemma StoreAndSend(s: Sys, store: Store, h: Handle)
    requires Free(s) && Leads(s, Standing(s, PubRUnlock(h), store))
    ensures Leads(s, Finished(s, store.PutTopic(h)))
  {
    Go(s, PubRUnlock(h), store, ANY);
    Go(s, PubLock(h), store, ANY);
    Go(s, PubStore(h), store, ANY);
    Go(s, PubUnlock(h), store.PutTopic(h), ANY);
    Go(s, PubRelock(h), store.PutTopic(h), ANY);
    Send(s, store.PutTopic(h), h);
  }

  lemma Send(s: Sys, store: Store, h: Handle)
    requires Free(s) && Leads(s, Standing(s, PubSend(h), store))
    ensures Leads(s, Finished(s, store))
  {
    Go(s, PubSend(h), store, ANY);
    Go(s, PubDone, store, ANY);
  }

  // ------------------------------------------------------------ Disconnect

  /** The store after a Disconnect that nothing interrupts. */
  function Disconnected(s: Store, stuck: set<Handle>): Store {
    var (open, failed) := ClosedAll(s, s.topics.Values, stuck);
    s.(topics := map[], subscriptions := map[], open := open, failedClose := failed,
       listeners := Silenced(s.listeners, s.subscriptions.Values))
  }

  lemma DisconnectInOneGo(s: Sys, stuck: set<Handle>)
    requires Free(s) && forall k <- s.store.subscriptions :: s.store.subscriptions[k] in s.store.listeners
    ensures Leads(s, Finished(s, Disconnected(s.store, stuck)))
  {
    ShutDown(s);
    StopRetrying(s);
    DrainSubscriptions(s, s.store);
    var listeners := Silenced(s.store.listeners, s.store.subscriptions.Values);
    DrainTopics(s, s.store.(subscriptions := map[], listeners := listeners), stuck);
    Go(s, Unlock, Disconnected(s.store, stuck), ANY);
  }

  lemma ShutDown(s: Sys)
    requires Free(s)
    ensures Leads(s, Standing(s, DisRetryLock, s.store))
  {
    Begin(s, DisLock);
    Go(s, DisLock, s.store, ANY);
    Go(s, DisShutdown, s.store, ANY);
  }

  lemma StopRetrying(s: Sys)
    requires Free(s) && Leads(s, Standing(s, DisRetryLock, s.store))
    ensures Leads(s, Standing(s, DisSubs, s.store))
  {
    Go(s, DisRetryLock, s.store, ANY);
    Go(s, DisRetryUnlock, s.store, ANY);
  }

  lemma {:induction false} DrainSubscriptions(s: Sys, store: Store)
    requires Free(s) && Leads(s, Standing(s, DisSubs, store))
    requires forall k <- store.subscriptions :: store.subscriptions[k] in store.listeners
    ensures Leads(s, Standing(s, DisTopics, store.(subscriptions := map[],
                                                   listeners := Silenced(store.listeners, store.subscriptions.Values))))
    decreases |store.subscriptions|
  {
    if store.subscriptions == map[] {
      Go(s, DisSubs, store, ANY);
      assert Silenced(store.listeners, store.subscriptions.Values) == store.listeners;
      assert store == store.(subscriptions := map[]);
    } else {
      var k := SomeKey(store.subscriptions);
      DropEntry(s, store, k);
      RemovalTakesValue(store.subscriptions, k);
      SilencedStep(store, k);
      var l := store.subscriptions[k];
      DrainSubscriptions(s, store.Cancel(l).CloseSubscription(l).DropSubscription(k));
    }
  }

  lemma DropEntry(s: Sys, store: Store, k: string)
    requires Free(s) && Leads(s, Standing(s, DisSubs, store))
    requires k in store.subscriptions && store.subscriptions[k] in store.listeners
    ensures var l := store.subscriptions[k];
            Leads(s, Standing(s, DisSubs, store.Cancel(l).CloseSubscription(l).DropSubscription(k)))
  {
    var l := store.subscriptions[k];
    Go(s, DisSubs, store, Choice(true, k));
    CancelEntry(s, store, k, l, true);
    Go(s, DisDelete(k), store.Cancel(l).CloseSubscription(l), ANY);
  }

  lemma SilencedStep(store: Store, k: string)
    requires k in store.subscriptions && store.subscriptions[k] in store.listeners
    ensures var l := store.subscriptions[k];
            var rest := store.Cancel(l).CloseSubscription(l).DropSubscription(k);
            Silenced(rest.listeners, rest.subscriptions.Values) == Silenced(store.listeners, store.subscriptions.Values)
  {
    RemovalTakesValue(store.subscriptions, k);
  }

  lemma {:induction false} DrainTopics(s: Sys, store: Store, stuck: set<Handle>)
    requires Free(s) && Leads(s, Standing(s, DisTopics, store))
    ensures var (open, failed) := ClosedAll(store, store.topics.Values, stuck);
            Leads(s, Standing(s, Unlock, store.(topics := map[], open := open, failedClose := failed)))
    decreases |store.topics|
  {
    if store.topics == map[] {
      Go(s, DisTopics, store, ANY);
      assert ClosedAll(store, {}, stuck) == (store.open, store.failedClose) by {
        assert store.open - ({} - stuck) == store.open;
        assert store.failedClose + {} * store.open * stuck == store.failedClose;
      }
      assert store == store.(topics := map[]);
    } else {
      var k := SomeKey(store.topics);
      var h := store.topics[k];
      var closes := !(h in store.open && h in stuck);
      var rest := store.Close(h, closes).DropTopic(k);
      Go(s, DisTopics, store, Choice(closes, k));
      RemovalTakesValue(store.topics, k);
      ClosedStep(store, k, stuck);
      DrainTopics(s, rest, stuck);
    }
  }

  lemma ClosedStep(store: Store, k: string, stuck: set<Handle>)
    requires k in store.topics
    ensures var h := store.topics[k];
            var rest := store.Close(h, !(h in store.open && h in stuck)).DropTopic(k);
            ClosedAll(rest, rest.topics.Values, stuck) == ClosedAll(store, store.topics.Values, stuck)
  {
    var h := store.topics[k];
    var rest := store.Close(h, !(h in store.open && h in stuck)).DropTopic(k);
    RemovalTakesValue(store.topics, k);
    if h in store.open && h in stuck {
      ClosedSets(store.open, store.open, store.failedClose, store.failedClose + {h}, rest.topics.Values, stuck, h);
    } else {
      ClosedSets(store.open, store.open - {h}, store.failedClose, store.failedClose, rest.topics.Values, stuck, h);
    }
  }

  lemma ClosedSets<T>(open: set<T>, open': set<T>, failed: set<T>, failed': set<T>, rest: set<T>, stuck: set<T>, h: T)
    requires if h in open && h in stuck then open' == open && failed' == failed + {h}
             else open' == open - {h} && failed' == failed
    ensures open' - (rest - stuck) == open - ((rest + {h}) - stuck)
    ensures failed' + rest * open' * stuck == failed + (rest + {h}) * open * stuck
  {
  }
}
