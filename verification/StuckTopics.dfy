/** Topics that can no longer be subscribed to: what an error of the broker can cost, and exactly when. */
module StuckTopics {
  import opened Results
  import opened TopicNames
  import opened Topics
  import opened PubSubInvariant
  import opened PubSubSystem
  import opened HandleOwnership
  import opened SerialCalls

  // ------------------------------------------------------------ a closed handle that stays in topics

  /** topics keeps a handle that is closed, and nobody is subscribed. */
  ghost predicate Stuck(s: Sys, k: string) {
    k in s.store.topics && s.store.topics[k] !in s.store.open && k !in s.store.subscriptions
  }

  ghost predicate EmptiesTopics(s: Sys, e: Event) {
    e.Op? && e.t in s.threads && s.threads[e.t].DisTopics?
  }

  /** A Subscribe to the topic gets a subscription from the broker. */
  ghost predicate SubscribesTo(s: Sys, e: Event, k: string) {
    e.Op? && e.choice.ok && e.t in s.threads && s.threads[e.t].SubBroker? && s.threads[e.t].h.key == k
  }

  /** Only Disconnect gets rid of it: until then no Publish joins the topic anew, and no Subscribe to it succeeds. */
  lemma StuckUntilDisconnect(s: Sys, e: Event, k: string)
    requires Inv(s) && Stuck(s, k) && Enabled(s, e) && !EmptiesTopics(s, e)
    ensures Stuck(Next(s, e), k) && Next(s, e).store.topics[k] == s.store.topics[k]
    ensures !SubscribesTo(s, e, k)
  {
    if e.Op? {
      assert CallInv(s.store, s.threads[e.t]);
      if ActOf(s.threads[e.t]).Work? {
        StuckThroughWork(s.store, s.threads[e.t], e.choice, k);
      }
    }
  }

  lemma StuckThroughWork(s: Store, pc: Pc, c: Choice, k: string)
    requires s.Sound() && CallInv(s, pc) && ActOf(pc).Work? && WorkEnabled(s, pc, c) && !pc.DisTopics?
    requires k in s.topics && s.topics[k] !in s.open && k !in s.subscriptions
    ensures var s' := WorkStore(s, pc, c);
            k in s'.topics && s'.topics[k] == s.topics[k] && s'.topics[k] !in s'.open && k !in s'.subscriptions
  {
    if pc.PubLookup? || pc.SubJoin? {
      assert s.topics[k].id < s.nextHandle;
    }
  }

  lemma {:induction false} StuckForTheRun(s: Sys, es: seq<Event>, k: string)
    requires Inv(s) && Stuck(s, k) && Runs(s, es)
    requires NoTopicsEmptied(s, es)
    ensures Stuck(Run(s, es), k) && Run(s, es).store.topics[k] == s.store.topics[k]
    ensures NobodySubscribes(s, es, k)
    decreases |es|
  {
    if es != [] {
      StuckUntilDisconnect(s, es[0], k);
      NextKeepsInv(s, es[0]);
      StuckForTheRun(Next(s, es[0]), es[1..], k);
    }
  }

  ghost predicate NoTopicsEmptied(s: Sys, es: seq<Event>)
    requires Runs(s, es)
    decreases |es|
  {
    es == [] || (!EmptiesTopics(s, es[0]) && NoTopicsEmptied(Next(s, es[0]), es[1..]))
  }

  ghost predicate NobodySubscribes(s: Sys, es: seq<Event>, k: string)
    requires Runs(s, es)
    decreases |es|
  {
    es == [] || (!SubscribesTo(s, es[0], k) && NobodySubscribes(Next(s, es[0]), es[1..], k))
  }

  /** The steps that get a topic there: the cleanup of a failed Subscribe closes the handle and nobody was subscribed
      without a handler before, or Disconnect removes such a subscriber of a handle that was closed under it. */
  lemma GetsStuckExactly(s: Sys, e: Event, k: string)
    requires Inv(s) && Enabled(s, e) && !Stuck(s, k)
    ensures Stuck(Next(s, e), k) <==> GetsStuck(s, e, k)
  {
    if e.Op? {
      assert CallInv(s.store, s.threads[e.t]);
      if ActOf(s.threads[e.t]).Work? {
        StuckByWork(s.store, s.threads[e.t], e.choice, k);
      }
    }
  }

  ghost predicate GetsStuck(s: Sys, e: Event, k: string) {
    e.Op? && e.t in s.threads &&
    var pc := s.threads[e.t];
    || (pc.SubCleanup? && pc.h.key == k && e.choice.ok && k !in s.store.subscriptions)
    || (pc.DisDelete? && pc.key == k && k in s.store.topics && s.store.topics[k] !in s.store.open)
  }

  ghost predicate StuckIn(s: Store, k: string) {
    k in s.topics && s.topics[k] !in s.open && k !in s.subscriptions
  }

  lemma StuckByWork(s: Store, pc: Pc, c: Choice, k: string)
    requires s.Sound() && CallInv(s, pc) && ActOf(pc).Work? && WorkEnabled(s, pc, c) && !StuckIn(s, k)
    ensures StuckIn(WorkStore(s, pc, c), k)
            <==> (pc.SubCleanup? && pc.h.key == k && c.ok && k !in s.subscriptions)
                 || (pc.DisDelete? && pc.key == k && k in s.topics && s.topics[k] !in s.open)
  {
    if !pc.SubCleanup? && !pc.DisDelete? {
      NotStuckByOthers(s, pc, c, k);
    }
  }

  lemma NotStuckByOthers(s: Store, pc: Pc, c: Choice, k: string)
    requires s.Sound() && CallInv(s, pc) && ActOf(pc).Work? && WorkEnabled(s, pc, c) && !StuckIn(s, k)
    requires !pc.SubCleanup? && !pc.DisDelete?
    ensures !StuckIn(WorkStore(s, pc, c), k)
  {
  }

  /** A Subscribe that the broker refuses gets there exactly if its cleanup closes the handle and nobody was
      subscribed without a handler before. */
  lemma FailedSubscribeGetsStuck(s: Sys, t: Tid, c: Choice)
    requires Reachable(s) && OpEnabled(s, t, c) && s.threads[t].SubCleanup?
    ensures var k := s.threads[t].h.key;
            Stuck(OpNext(s, t, c), k) <==> c.ok && k !in s.store.subscriptions
  {
    ReachableInv(s);
    assert CallInv(s.store, s.threads[t]);
  }

  /** That does happen: with nobody else around, the broker refuses a subscription to a new topic. */
  lemma TopicGetsStuck(db: string, key: string)
    ensures exists s :: Reachable(s) && s.threads == map[] && Stuck(s, key)
  {
    var s0 := Initially(db);
    ReachableInitially(db);
    SubscribeInOneGo(s0, key, true, true, false, {});
    var s := Finished(s0, SubscribeEffect(s0.store, key, true, true, false, {}).1);
    ReachableOn(s0, s);
    assert Stuck(s, key);
  }

  // ------------------------------------------------------------ an open handle that nobody knows

  /** The handle is open, and neither in topics nor in the hands of a Publish. */
  ghost predicate Leaked(s: Sys, h: Handle) {
    Loose(s.store, h) && forall u :: !HolderOf(s, u, h)
  }

  ghost predicate Loose(s: Store, h: Handle) {
    h in s.open && !InTopics(s, h)
  }

  /** The steps that leak a handle: Unsubscribe or Disconnect takes it out of topics and it has not been closed. */
  lemma LeaksExactly(s: Sys, e: Event, h: Handle)
    requires Inv(s) && Enabled(s, e) && !Leaked(s, h)
    ensures Leaked(Next(s, e), h) <==> Leaks(s, e, h)
  {
    if e.Op? {
      assert CallInv(s.store, s.threads[e.t]);
      OthersHoldTheSame(s, e);
      if InTopics(s.store, h) {
        NobodyHoldsStored(s, h);
      }
      if ActOf(s.threads[e.t]).Work? {
        WorkLeaks(s.store, s.threads[e.t], e.choice, h);
        assert HolderOf(s, e.t, h) <==> Holds(s.threads[e.t], h);
        assert HolderOf(Next(s, e), e.t, h) <==> Holds(Next(s, e).threads[e.t], h);
      } else {
        LockActKnows(s.store, s.threads[e.t], e.choice);
        assert forall u :: HolderOf(Next(s, e), u, h) <==> HolderOf(s, u, h);
      }
    } else {
      assert forall u :: HolderOf(Next(s, e), u, h) <==> HolderOf(s, u, h);
    }
  }

  ghost predicate Leaks(s: Sys, e: Event, h: Handle) {
    e.Op? && e.t in s.threads && InTopics(s.store, h) && LeaksAt(s.store, s.threads[e.t], e.choice, h)
  }

  ghost predicate LeaksAt(s: Store, pc: Pc, c: Choice, h: Handle) {
    || (pc.UnsDelete? && pc.key == h.key && h in s.open)
    || (pc.DisTopics? && c.key == h.key && !c.ok)
  }

  lemma WorkLeaks(s: Store, pc: Pc, c: Choice, h: Handle)
    requires s.Sound() && CallInv(s, pc) && ActOf(pc).Work? && WorkEnabled(s, pc, c)
    ensures var s' := WorkStore(s, pc, c); var pc' := After(s, pc, c).value;
            Loose(s', h) && !Holds(pc', h)
            <==> (Loose(s, h) && !Holds(pc, h)) || (InTopics(s, h) && LeaksAt(s, pc, c, h))
  {
    if pc.UnsDelete? || pc.DisTopics? {
      RemoverLeaks(s, pc, c, h);
    } else if pc.SubCleanup? || pc.UnsTopic? {
      CloserLeaksNothing(s, pc, c, h);
    } else if pc.PubLookup? || pc.PubStore? || pc.SubJoin? {
      AdderLeaksNothing(s, pc, c, h);
    } else {
      OthersLeaveHandles(s, pc, c);
    }
  }

  lemma RemoverLeaks(s: Store, pc: Pc, c: Choice, h: Handle)
    requires s.Sound() && (pc.UnsDelete? || pc.DisTopics?) && WorkEnabled(s, pc, c)
    ensures Loose(WorkStore(s, pc, c), h) <==> Loose(s, h) || (InTopics(s, h) && LeaksAt(s, pc, c, h))
    ensures !InGap(After(s, pc, c).value)
  {
  }

  lemma CloserLeaksNothing(s: Store, pc: Pc, c: Choice, h: Handle)
    requires s.Sound() && CallInv(s, pc) && (pc.SubCleanup? || pc.UnsTopic?) && WorkEnabled(s, pc, c)
    ensures Loose(WorkStore(s, pc, c), h) <==> Loose(s, h)
    ensures !InGap(After(s, pc, c).value)
  {
    assert pc.UnsTopic? ==> InTopics(s, s.listeners[pc.l].handle);
  }

  lemma AdderLeaksNothing(s: Store, pc: Pc, c: Choice, h: Handle)
    requires s.Sound() && CallInv(s, pc) && (pc.PubLookup? || pc.PubStore? || pc.SubJoin?) && WorkEnabled(s, pc, c)
    ensures Loose(WorkStore(s, pc, c), h) && !Holds(After(s, pc, c).value, h) <==> Loose(s, h) && !Holds(pc, h)
  {
  }

  lemma OthersLeaveHandles(s: Store, pc: Pc, c: Choice)
    requires ActOf(pc).Work? && WorkEnabled(s, pc, c)
    requires !(pc.UnsDelete? || pc.DisTopics? || pc.SubCleanup? || pc.UnsTopic?)
    requires !(pc.PubLookup? || pc.PubStore? || pc.SubJoin?)
    ensures WorkStore(s, pc, c).open == s.open && WorkStore(s, pc, c).topics == s.topics
    ensures !InGap(pc) && !InGap(After(s, pc, c).value)
  {
  }

  /** A leaked handle is out of reach of every call for good, and its name can never be joined again. */
  lemma {:induction false} LeakedForGood(s: Sys, es: seq<Event>, h: Handle)
    requires Inv(s) && Runs(s, es) && Leaked(s, h)
    ensures Leaked(Run(s, es), h) && !Run(s, es).store.CanJoin(h.key)
    decreases |es|
  {
    if es != [] {
      StaysLeaked(s, es[0], h);
      NextKeepsInv(s, es[0]);
      LeakedForGood(Next(s, es[0]), es[1..], h);
    }
  }

  lemma StaysLeaked(s: Sys, e: Event, h: Handle)
    requires Inv(s) && Leaked(s, h) && Enabled(s, e)
    ensures Leaked(Next(s, e), h)
  {
    StaysGone(s, e, h);
    if e.Op? && ActOf(s.threads[e.t]).Work? {
      assert CallInv(s.store, s.threads[e.t]);
      assert !HolderOf(s, e.t, h);
      WorkLeaks(s.store, s.threads[e.t], e.choice, h);
    }
  }

  /** That does happen: Unsubscribe goes on when Close reports an error. */
  lemma HandleLeaks(db: string, key: string)
    ensures exists s, h :: Reachable(s) && s.threads == map[] && Leaked(s, h) && h.key == key
  {
    var s0 := Initially(db);
    ReachableInitially(db);
    SubscribeInOneGo(s0, key, true, true, true, {});
    var s1 := Finished(s0, SubscribeEffect(s0.store, key, true, true, true, {}).1);
    ReachableOn(s0, s1);
    ReachableInv(s1);
    var h := s1.store.topics[key];
    UnsubscribeInOneGo(s1, key, {h});
    var s2 := Finished(s1, Unsubscribed(s1.store, key, false));
    ReachableOn(s1, s2);
    assert Leaked(s2, h);
  }

  // ------------------------------------------------------------ exactly when a topic can be subscribed to

  /** Some run without a Disconnect starts a listener for the topic. */
  ghost predicate SubscriptionToCome(s: Sys, k: string) {
    exists es :: Runs(s, es) && Quiet(es) && !OnlyOlder(Run(s, es).store, k, s.store.nextListener)
  }

  /** Every listener for the topic is older than this. */
  ghost predicate OnlyOlder(s: Store, k: string, n: Lid) {
    forall l <- s.listeners :: s.listeners[l].key == k ==> l < n
  }

  ghost predicate Blocked(s: Sys, k: string) {
    Stuck(s, k) || exists h :: Leaked(s, h) && h.key == k
  }

  predicate Disconnecting(pc: Pc) {
    || pc.DisLock? || pc.DisShutdown? || pc.DisRetryLock? || pc.DisRetryUnlock?
    || pc.DisSubs? || pc.DisDelete? || pc.DisTopics?
    || (pc.CancelListener? && pc.all) || (pc.CancelSub? && pc.all)
  }

  ghost predicate NoDisconnect(s: Sys) {
    forall t <- s.threads :: !Disconnecting(s.threads[t])
  }

  lemma StaysBlocked(s: Sys, e: Event, k: string)
    requires Inv(s) && Enabled(s, e) && NoDisconnect(s) && Blocked(s, k)
    ensures Blocked(Next(s, e), k) && !SubscribesTo(s, e, k)
  {
    if Stuck(s, k) {
      StuckUntilDisconnect(s, e, k);
    } else {
      var h :| Leaked(s, h) && h.key == k;
      StaysLeaked(s, e, h);
      LeakedHasNoTopic(s, e, h);
    }
  }

  lemma LeakedHasNoTopic(s: Sys, e: Event, h: Handle)
    requires HandleInv(s) && Leaked(s, h)
    ensures h.key !in s.store.topics && !SubscribesTo(s, e, h.key)
  {
    if e.Op? && e.t in s.threads {
      assert CallInv(s.store, s.threads[e.t]);
    }
  }

  lemma NobodyNewListens(s: Sys, e: Event, k: string, n: Lid)
    requires Enabled(s, e) && NoDisconnect(s) && (e.Start? ==> !e.pc.DisLock?)
    requires OnlyOlder(s.store, k, n) && !SubscribesTo(s, e, k)
    ensures NoDisconnect(Next(s, e)) && OnlyOlder(Next(s, e).store, k, n)
  {
    if e.Op? {
      NoDisconnectBegins(s.store, s.threads[e.t], e.choice);
      if ActOf(s.threads[e.t]).Work? {
        OthersListen(s.store, s.threads[e.t], e.choice, k, n);
      }
    }
  }

  lemma NoDisconnectBegins(s: Store, pc: Pc, c: Choice)
    requires !Disconnecting(pc) && (ActOf(pc).Work? ==> WorkEnabled(s, pc, c))
    ensures var after := After(s, pc, c); after.Some? ==> !Disconnecting(after.value)
  {
  }

  lemma OthersListen(s: Store, pc: Pc, c: Choice, k: string, n: Lid)
    requires ActOf(pc).Work? && WorkEnabled(s, pc, c) && OnlyOlder(s, k, n)
    requires pc.SubBroker? && c.ok ==> pc.h.key != k
    ensures OnlyOlder(WorkStore(s, pc, c), k, n)
  {
  }

  lemma {:induction false} NoSubscriptionToCome(s: Sys, es: seq<Event>, k: string, n: Lid)
    requires Inv(s) && Runs(s, es) && Quiet(es) && NoDisconnect(s) && Blocked(s, k) && OnlyOlder(s.store, k, n)
    ensures OnlyOlder(Run(s, es).store, k, n)
    decreases |es|
  {
    if es != [] {
      assert es[0] in es;
      assert forall e <- es[1..] :: e in es;
      StaysBlocked(s, es[0], k);
      NobodyNewListens(s, es[0], k, n);
      NextKeepsInv(s, es[0]);
      NoSubscriptionToCome(Next(s, es[0]), es[1..], k, n);
    }
  }

  /** With no call under way: calls other than Disconnect can lead to a new subscription to the topic exactly if topics
      does not keep a closed handle for it without a subscriber, and no open handle of its name has leaked. */
  lemma SubscribableExactly(s: Sys, k: string)
    requires Reachable(s) && s.threads == map[]
    ensures SubscriptionToCome(s, k) <==> !Blocked(s, k)
  {
    ReachableInv(s);
    assert OnlyOlder(s.store, k, s.store.nextListener);
    if Blocked(s, k) {
      forall es | Runs(s, es) && Quiet(es)
        ensures OnlyOlder(Run(s, es).store, k, s.store.nextListener)
      {
        NoSubscriptionToCome(s, es, k, s.store.nextListener);
      }
    } else {
      Subscribes(s, k);
    }
  }

  /** Unsubscribe first, if need be. */
  lemma Subscribes(s: Sys, k: string)
    requires Inv(s) && s.threads == map[] && !Blocked(s, k)
    ensures SubscriptionToCome(s, k)
  {
    LocksAreFree(s);
    if k in s.store.subscriptions {
      UnsubscribedIsSound(s.store, k, true);
      UnsubscribeInOneGo(s, k, {}, true);
      var s1 := Finished(s, Unsubscribed(s.store, k, true));
      NewListener(s1, k);
      var s2 := Finished(s1, SubscribeEffect(s1.store, k, true, true, true, {}).1);
      LeadsOn(s, s1, s2, true);
    } else {
      if k !in s.store.topics {
        UnblockedCanJoin(s, k);
      }
      NewListener(s, k);
    }
  }

  lemma LocksAreFree(s: Sys)
    requires LockInv(s) && s.threads == map[]
    ensures Free(s)
  {
    assert forall t :: t !in s.readers;
    assert forall t :: s.writer != Some(t) && s.retryHolder != Some(t);
  }

  lemma UnblockedCanJoin(s: Sys, k: string)
    requires Inv(s) && s.threads == map[] && !Blocked(s, k) && k !in s.store.topics
    ensures s.store.CanJoin(k)
  {
    forall h | h in s.store.open
      ensures FullName(s.store.db, h.key) != FullName(s.store.db, k)
    {
      assert !Leaked(s, h) || h.key != k;
      if FullName(s.store.db, h.key) == FullName(s.store.db, k) {
        OneNamePerTopic(s.store.db, h.key, k);
      }
    }
  }

  lemma NewListener(s: Sys, k: string)
    requires Free(s) && k !in s.store.subscriptions && s.store.Sound()
    requires if k in s.store.topics then s.store.topics[k] in s.store.open else s.store.CanJoin(k)
    ensures var s' := Finished(s, SubscribeEffect(s.store, k, true, true, true, {}).1);
            Leads(s, s', true) && !OnlyOlder(s'.store, k, s.store.nextListener)
  {
    SubscribeInOneGo(s, k, true, true, true, {}, true);
    var s' := Finished(s, SubscribeEffect(s.store, k, true, true, true, {}).1);
    assert s'.store.listeners[s.store.nextListener].key == k;
  }
}
