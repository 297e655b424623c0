/** What can still be stored in topics once Disconnect has emptied it. */
module LateStores {
  import opened Results
  import opened TopicNames
  import opened Topics
  import opened PubSubInvariant
  import opened PubSubSystem
  import opened SerialCalls

  /** No new call begins. */
  ghost predicate OnlyCallsUnderWay(es: seq<Event>) {
    forall e <- es :: !e.Start?
  }

  /** The calls under way and the listeners can go on in such a way that a topic is stored. */
  ghost predicate StoreToCome(s: Sys) {
    exists es :: Runs(s, es) && OnlyCallsUnderWay(es) && Run(s, es).store.topics != map[]
  }

  /** A Publish or Subscribe that has not looked for its topic yet, or has not found it. */
  predicate BeforeJoin(pc: Pc) {
    pc.PubRLock? || pc.PubLookup? || pc.SubLock? || pc.SubLookup? || pc.SubJoin?
  }

  /** A call that holds a handle to store, or may yet join one. */
  predicate CanStore(store: Store, pc: Pc) {
    InGap(pc) || (BeforeJoin(pc) && store.CanJoin(pc.key))
  }

  ghost predicate SomeCanStore(s: Sys) {
    exists t :: t in s.threads && CanStore(s.store, s.threads[t])
  }

  // ------------------------------------------------------------ if nobody can store, nobody will

  lemma StaysEmpty(s: Sys, e: Event)
    requires Inv(s) && s.store.topics == map[] && !SomeCanStore(s) && Enabled(s, e) && !e.Start?
    ensures Next(s, e).store.topics == map[] && !SomeCanStore(Next(s, e))
  {
    var s' := Next(s, e);
    if e.Op? {
      var pc := s.threads[e.t];
      assert CallInv(s.store, pc) && !CanStore(s.store, pc);
      StoresNothing(s.store, pc, e.choice);
      assert forall u | u in s'.threads && u != e.t :: u in s.threads && s'.threads[u] == s.threads[u];
    }
    assert s'.store.open == s.store.open && s'.store.db == s.store.db;
    assert forall k :: s'.store.CanJoin(k) == s.store.CanJoin(k);
  }

  lemma StoresNothing(store: Store, pc: Pc, c: Choice)
    requires store.Sound() && store.topics == map[] && CallInv(store, pc) && !CanStore(store, pc)
    requires ActOf(pc).Work? ==> WorkEnabled(store, pc, c)
    ensures ActOf(pc).Work? ==>
              var store' := WorkStore(store, pc, c);
              store'.topics == map[] && store'.open == store.open && store'.db == store.db
    ensures var after := After(store, pc, c); after.Some? ==> !CanStore(store, after.value)
  {
    assert store.subscriptions == map[];
    GoesOnWithoutJoining(store, pc, c);
  }

  lemma GoesOnWithoutJoining(store: Store, pc: Pc, c: Choice)
    requires store.topics == map[] && store.subscriptions == map[] && !CanStore(store, pc)
    requires ActOf(pc).Work? ==> WorkEnabled(store, pc, c)
    ensures var after := After(store, pc, c); after.Some? ==> !CanStore(store, after.value)
  {
  }

  lemma {:induction false} NothingToCome(s: Sys, es: seq<Event>)
    requires Inv(s) && s.store.topics == map[] && !SomeCanStore(s) && Runs(s, es) && OnlyCallsUnderWay(es)
    ensures Run(s, es).store.topics == map[]
    decreases |es|
  {
    if es != [] {
      assert es[0] in es;
      assert forall e <- es[1..] :: e in es;
      NextKeepsInv(s, es[0]);
      StaysEmpty(s, es[0]);
      NothingToCome(Next(s, es[0]), es[1..]);
    }
  }

  // ------------------------------------------------------------ whoever can store, may

  lemma Later(s: Sys, e: Event)
    requires Enabled(s, e) && !e.Start? && StoreToCome(Next(s, e))
    ensures StoreToCome(s)
  {
    var es :| Runs(Next(s, e), es) && OnlyCallsUnderWay(es) && Run(Next(s, e), es).store.topics != map[];
    assert ([e] + es)[1..] == es;
    assert Runs(s, [e] + es) && Run(s, [e] + es) == Run(Next(s, e), es);
    assert forall x <- [e] + es :: x == e || x in es;
  }

  lemma Now(s: Sys)
    requires s.store.topics != map[]
    ensures StoreToCome(s)
  {
    assert Runs(s, []) && Run(s, []) == s && OnlyCallsUnderWay([]);
  }

  /** Steps to the store, from the lookup or from the join. */
  function ToStore(pc: Pc): nat {
    match pc
    case PubRLock(_) => 6
    case PubLookup(_) => 5
    case PubRUnlock(_) => 4
    case PubLock(_) => 3
    case PubStore(_) => 2
    case SubLock(_, _) => 3
    case SubLookup(_, _) => 2
    case SubJoin(_, _) => 1
    case _ => 0
  }

  /** Steps to the end of a writer that finds nothing in the maps. */
  function ToUnlock(pc: Pc): nat {
    match pc
    case DisShutdown => 6
    case DisRetryLock => 5
    case DisRetryUnlock => 4
    case DisSubs => 3
    case DisTopics => 2
    case SubLookup(_, _) => 3
    case SubJoin(_, _) => 2
    case UnsFind(_) => 2
    case _ => 1
  }

  function WriterSteps(s: Sys): nat {
    if s.writer.Some? && s.writer.value in s.threads then ToUnlock(s.threads[s.writer.value]) else 0
  }

  /** What a call does that neither joins nor stores. */
  const PASS := Choice(false, "")

  /** This call can store, and the maps are empty. */
  ghost predicate Waits(s: Sys, t: Tid) {
    && Inv(s) && s.store.topics == map[] && s.store.subscriptions == map[]
    && t in s.threads && CanStore(s.store, s.threads[t])
  }

  /** A call that passes leaves the store alone, or stores a handle that it holds. */
  lemma PassLeavesStore(store: Store, pc: Pc)
    requires store.Sound() && CallInv(store, pc) && store.topics == map[] && store.subscriptions == map[]
    requires ActOf(pc).Work?
    ensures WorkEnabled(store, pc, PASS)
    ensures WorkStore(store, pc, PASS) == if pc.PubStore? then store.PutTopic(pc.h) else store
    ensures var after := After(store, pc, PASS).value;
            !pc.PubStore? ==> ToUnlock(after) < ToUnlock(pc) || ModeOf(pc).Reading?
  {
  }

  /** ... so that others go on waiting. */
  lemma PassKeepsWaiting(s: Sys, t: Tid, u: Tid) returns (s': Sys)
    requires Waits(s, t) && u != t && OpEnabled(s, u, PASS)
    ensures s' == Next(s, Op(u, PASS))
    ensures s'.store.topics == map[] ==> Waits(s', t) && s'.threads[t] == s.threads[t] && !s.threads[u].PubStore?
    ensures s'.store.topics != map[] ==> StoreToCome(s')
  {
    assert CallInv(s.store, s.threads[u]);
    NextKeepsInv(s, Op(u, PASS));
    s' := Next(s, Op(u, PASS));
    if ActOf(s.threads[u]).Work? {
      PassLeavesStore(s.store, s.threads[u]);
    }
    if s'.store.topics != map[] {
      Now(s');
    }
  }

  /** Any call that can store has a run in which it does: first those that hold the locks it needs go on, without
      joining anything, and then the call itself. */
  lemma {:induction false} MayStore(s: Sys, t: Tid)
    requires Waits(s, t)
    ensures StoreToCome(s)
    decreases ToStore(s.threads[t]), WriterSteps(s), if s.retryHolder.Some? then 1 else 0, |s.readers|
  {
    if s.writer.Some? && s.writer.value != t {
      var u := Foremost(s);
      WriterCanPass(s, u);
      var s' := PassKeepsWaiting(s, t, u);
      if s'.store.topics == map[] {
        WriterHasPassed(s, u);
        MayStore(s', t);
      }
      Later(s, Op(u, PASS));
    } else if s.readers != {} && ActOf(s.threads[t]).TakeW? {
      var u :| u in s.readers;
      ReaderPasses(s, t, u);
    } else {
      StepsOn(s, t);
    }
  }

  /** The writer, or the holder of the lock that it waits for. */
  function Foremost(s: Sys): Tid
    requires s.writer.Some? && s.writer.value in s.threads
  {
    var w := s.writer.value;
    if s.threads[w].DisRetryLock? && s.retryHolder.Some? then s.retryHolder.value else w
  }

  lemma WriterCanPass(s: Sys, u: Tid)
    requires Inv(s) && s.store.topics == map[] && s.store.subscriptions == map[]
    requires s.writer.Some? && s.writer.value in s.threads && u == Foremost(s)
    ensures OpEnabled(s, u, PASS)
  {
    assert CallInv(s.store, s.threads[u]);
    if ActOf(s.threads[u]).Work? {
      PassLeavesStore(s.store, s.threads[u]);
    }
  }

  lemma WriterHasPassed(s: Sys, u: Tid)
    requires Inv(s) && s.store.topics == map[] && s.store.subscriptions == map[]
    requires s.writer.Some? && s.writer.value in s.threads && u == Foremost(s)
    requires OpEnabled(s, u, PASS) && !s.threads[u].PubStore?
    ensures var s' := Next(s, Op(u, PASS));
            || WriterSteps(s') < WriterSteps(s)
            || (WriterSteps(s') == WriterSteps(s) && s.retryHolder.Some? && s'.retryHolder.None?)
  {
    assert CallInv(s.store, s.threads[u]);
    if ActOf(s.threads[u]).Work? {
      PassLeavesStore(s.store, s.threads[u]);
      WorkKeepsMode(s.store, s.threads[u], PASS);
    }
  }

  lemma ReaderPasses(s: Sys, t: Tid, u: Tid)
    requires Waits(s, t) && s.writer.None? && u in s.readers && ActOf(s.threads[t]).TakeW?
    ensures StoreToCome(s)
    decreases ToStore(s.threads[t]), WriterSteps(s), if s.retryHolder.Some? then 1 else 0, |s.readers|, 0
  {
    ReaderCanPass(s, u);
    var s' := PassKeepsWaiting(s, t, u);
    if u in s'.readers {
      var s'' := PassKeepsWaiting(s', t, u);
      assert s''.readers == s.readers - {u};
      MayStore(s'', t);
      Later(s', Op(u, PASS));
    } else {
      assert s'.readers == s.readers - {u};
      MayStore(s', t);
    }
    Later(s, Op(u, PASS));
  }

  /** A reader lets go of its lock in one step or two. */
  lemma ReaderCanPass(s: Sys, u: Tid)
    requires Inv(s) && s.store.topics == map[] && u in s.readers
    ensures OpEnabled(s, u, PASS)
    ensures var s' := Next(s, Op(u, PASS));
            && s'.writer == s.writer && s'.retryHolder == s.retryHolder && s'.store == s.store
            && if u in s'.readers then s'.readers == s.readers && u in s'.threads && s'.threads[u].PubDone?
               else s'.readers == s.readers - {u}
  {
  }

  lemma StepsOn(s: Sys, t: Tid)
    requires Waits(s, t) && (s.writer.Some? ==> s.writer.value == t) && (ActOf(s.threads[t]).TakeW? ==> s.readers == {})
    ensures StoreToCome(s)
    decreases ToStore(s.threads[t]), WriterSteps(s), if s.retryHolder.Some? then 1 else 0, |s.readers|, 0
  {
    StepStores(s, t);
    var s' := Next(s, Op(t, ANY));
    NextKeepsInv(s, Op(t, ANY));
    if s'.store.topics != map[] {
      Now(s');
    } else {
      MayStore(s', t);
    }
    Later(s, Op(t, ANY));
  }

  lemma StepStores(s: Sys, t: Tid)
    requires Waits(s, t) && (s.writer.Some? ==> s.writer.value == t) && (ActOf(s.threads[t]).TakeW? ==> s.readers == {})
    ensures OpEnabled(s, t, ANY)
    ensures var s' := Next(s, Op(t, ANY));
            s'.store.topics == map[] ==>
              && s'.store.subscriptions == map[] && t in s'.threads && CanStore(s'.store, s'.threads[t])
              && ToStore(s'.threads[t]) < ToStore(s.threads[t])
  {
    assert CallInv(s.store, s.threads[t]);
    assert s.writer == Some(t) <==> ModeOf(s.threads[t]).Writing?;
    StepsToStore(s.store, s.threads[t]);
  }

  lemma StepsToStore(store: Store, pc: Pc)
    requires store.topics == map[] && store.subscriptions == map[] && CanStore(store, pc)
    ensures ActOf(pc).Work? ==> WorkEnabled(store, pc, ANY)
    ensures var store' := if ActOf(pc).Work? then WorkStore(store, pc, ANY) else store;
            var after := After(store, pc, ANY);
            store'.topics == map[] ==>
              && store'.subscriptions == map[] && after.Some? && CanStore(store', after.value)
              && ToStore(after.value) < ToStore(pc)
  {
    if pc.PubStore? {
      assert pc.h.key in WorkStore(store, pc, ANY).topics;
    } else if pc.SubJoin? {
      assert pc.key in WorkStore(store, pc, ANY).topics;
    }
  }

  /** After Disconnect has emptied topics, and with no new call, topics can fill again exactly if a Publish holds a
      handle that it has not stored, or a Publish or Subscribe has yet to join a name that can be joined. */
  lemma StoreToComeExactly(s: Sys)
    requires Reachable(s) && s.store.topics == map[]
    ensures StoreToCome(s) <==> SomeCanStore(s)
  {
    ReachableInv(s);
    if SomeCanStore(s) {
      var t :| t in s.threads && CanStore(s.store, s.threads[t]);
      assert s.store.subscriptions == map[];
      MayStore(s, t);
    } else {
      forall es | Runs(s, es) && OnlyCallsUnderWay(es)
        ensures Run(s, es).store.topics == map[]
      {
        NothingToCome(s, es);
      }
    }
  }

  // ------------------------------------------------------------ and it happens

  /** A Publish in its lock gap stores its handle after a whole Disconnect has come and gone: Disconnect finds a topic
      and empties the map, and in the end the map is not empty. */
  lemma LateStore(db: string, first: string, late: string)
    requires first != late
    ensures exists s1, s2, s3 :: Reachable(s1) && s1.store.topics.Keys == {first}
                                 && Leads(s1, s2) && s2 == Finished(s1, Disconnected(s1.store, {}))
                                 && Leads(s2, s3) && s3.store.topics.Keys == {late}
  {
    var s1, t, h := InTheGap(db, first, late);
    DisconnectInOneGo(s1, {});
    var s2 := Finished(s1, Disconnected(s1.store, {}));
    var s3 := StoresNow(s2, t, h);
  }

  lemma StoresNow(s: Sys, t: Tid, h: Handle) returns (s': Sys)
    requires s.writer.None? && s.readers == {} && t in s.threads && s.threads[t] == PubLock(h)
    ensures Leads(s, s') && s'.store == s.store.PutTopic(h)
  {
    assert Runs(s, []) && Run(s, []) == s;
    Do(s, s, Op(t, ANY));
    var s1 := Next(s, Op(t, ANY));
    Do(s, s1, Op(t, ANY));
    s' := Next(s1, Op(t, ANY));
  }

  /** One topic is stored, and a Publish has joined another and let go of its read lock. */
  lemma InTheGap(db: string, first: string, late: string) returns (s: Sys, t: Tid, h: Handle)
    requires first != late
    ensures Reachable(s) && Free(s) && s.store.topics.Keys == {first} && s.store.subscriptions == map[]
    ensures t in s.threads && s.threads[t] == PubLock(h) && h.key == late
  {
    var s0 := Initially(db);
    ReachableInitially(db);
    PublishInOneGo(s0, first, true);
    var s1 := Finished(s0, s0.store.Join(first).PutTopic(s0.store.NewHandle(first)));
    ReachableOn(s0, s1);
    assert s1.store.CanJoin(late) by {
      if FullName(db, first) == FullName(db, late) {
        OneNamePerTopic(db, first, late);
      }
    }
    h := s1.store.NewHandle(late);
    JoinsAndLetsGo(s1, late);
    s := Standing(s1, PubLock(h), s1.store.Join(late));
    ReachableOn(s1, s);
    t := s1.next;
  }

  lemma JoinsAndLetsGo(s: Sys, key: string)
    requires Free(s) && key !in s.store.topics && s.store.CanJoin(key)
    ensures Leads(s, Standing(s, PubLock(s.store.NewHandle(key)), s.store.Join(key)))
  {
    Begin(s, PubRLock(key));
    Go(s, PubRLock(key), s.store, ANY);
    Go(s, PubLookup(key), s.store, ANY);
    Go(s, PubRUnlock(s.store.NewHandle(key)), s.store.Join(key), ANY);
  }

  /** A Publish can send on a handle that is neither in topics any more nor open: a whole Disconnect comes between its
      store and its taking the read lock again. */
  lemma LateSend(db: string, first: string, late: string)
    requires first != late
    ensures exists s, t, h :: Reachable(s) && t in s.threads && s.threads[t] == PubSend(h) && h.key == late
                              && s.store.topics == map[] && h !in s.store.open
  {
    var s1, t, h := InTheGap(db, first, late);
    var s2 := StoresAndUnlocks(s1, t, h);
    ReachableOn(s1, s2);
    assert s2.store.topics[h.key] == h && h in s2.store.topics.Values;
    DisconnectInOneGo(s2, {});
    var s3 := Finished(s2, Disconnected(s2.store, {}));
    ReachableOn(s2, s3);
    var s4 := Next(s3, Op(t, ANY));
    assert Leads(s3, s4) by {
      assert Runs(s3, []) && Run(s3, []) == s3;
      Do(s3, s3, Op(t, ANY));
    }
    ReachableOn(s3, s4);
    assert s4.threads[t] == PubSend(h);
  }

  lemma StoresAndUnlocks(s: Sys, t: Tid, h: Handle) returns (s': Sys)
    requires Free(s) && t in s.threads && s.threads[t] == PubLock(h) && s.store.subscriptions == map[]
    ensures Leads(s, s') && Free(s') && s' == s.(store := s.store.PutTopic(h), threads := s.threads[t := PubRelock(h)])
  {
    assert Runs(s, []) && Run(s, []) == s;
    Do(s, s, Op(t, ANY));
    var s1 := Next(s, Op(t, ANY));
    Do(s, s1, Op(t, ANY));
    var s2 := Next(s1, Op(t, ANY));
    Do(s, s2, Op(t, ANY));
    s' := Next(s2, Op(t, ANY));
  }
}
