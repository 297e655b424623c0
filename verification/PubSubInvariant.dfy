/** What every interleaving of the calls and listeners keeps. */
module PubSubInvariant {
  import opened Results
  import opened TopicNames
  import opened Topics
  import opened PubSubSystem

  // ------------------------------------------------------------ locks

  /** Who holds a lock can be read off where the calls stand. */
  ghost predicate LockInv(s: Sys) {
    && (forall t <- s.threads :: t < s.next)
    && (forall t :: t in s.readers <==> t in s.threads && ModeOf(s.threads[t]).Reading?)
    && (forall t :: s.writer == Some(t) <==> t in s.threads && ModeOf(s.threads[t]).Writing?)
    && (forall t :: s.retryHolder == Some(t) <==> t in s.threads && HoldsRetry(s.threads[t]))
    && (s.writer.Some? ==> s.readers == {})
  }

  /** What an operation does to the locks agrees with where the call stands before and after it. */
  ghost predicate Follows(act: Act, pc: Pc, after: Option<Pc>) {
    var mode := if after.Some? then ModeOf(after.value) else Nothing;
    var retry := after.Some? && HoldsRetry(after.value);
    match act
    case TakeR => ModeOf(pc).Nothing? && mode.Reading? && !retry && !HoldsRetry(pc)
    case GiveR => ModeOf(pc).Reading? && mode.Nothing? && !retry && !HoldsRetry(pc)
    case TakeW => ModeOf(pc).Nothing? && mode.Writing? && !retry && !HoldsRetry(pc)
    case GiveW => ModeOf(pc).Writing? && mode.Nothing? && !retry && !HoldsRetry(pc)
    case TakeRetry => mode == ModeOf(pc) && !HoldsRetry(pc) && retry && !mode.Reading?
    case GiveRetry => mode == ModeOf(pc) && HoldsRetry(pc) && !retry && !mode.Reading?
    case Work => mode == ModeOf(pc) && !mode.Nothing? && !retry && !HoldsRetry(pc)
  }

  lemma ModesFollowActs(s: Store, pc: Pc, c: Choice)
    requires ActOf(pc).Work? ==> WorkEnabled(s, pc, c)
    ensures Follows(ActOf(pc), pc, After(s, pc, c))
  {
    if ActOf(pc).Work? {
      WorkKeepsMode(s, pc, c);
    }
  }

  lemma WorkKeepsMode(s: Store, pc: Pc, c: Choice)
    requires ActOf(pc).Work? && WorkEnabled(s, pc, c)
    ensures After(s, pc, c).Some? && ModeOf(After(s, pc, c).value) == ModeOf(pc) != Nothing
    ensures !HoldsRetry(pc) && !HoldsRetry(After(s, pc, c).value)
  {
  }

  lemma OpKeepsLockInv(s: Sys, t: Tid, c: Choice)
    requires LockInv(s) && OpEnabled(s, t, c)
    ensures LockInv(OpNext(s, t, c))
  {
    ModesFollowActs(s.store, s.threads[t], c);
    LockStepKeepsInv(s, OpNext(s, t, c), t, After(s.store, s.threads[t], c));
  }

  lemma LockStepKeepsInv(s: Sys, s': Sys, t: Tid, after: Option<Pc>)
    requires LockInv(s) && t in s.threads
    requires var act := ActOf(s.threads[t]);
             && Follows(act, s.threads[t], after)
             && (act.TakeR? ==> s.writer.None?)
             && (act.TakeW? ==> s.writer.None? && s.readers == {})
             && (act.TakeRetry? ==> s.retryHolder.None?)
             && s' == Locked(s, t, act).(store := s'.store, threads := s'.threads)
    requires s'.threads == if after.Some? then s.threads[t := after.value] else s.threads - {t}
    ensures LockInv(s')
  {
  }

  // ------------------------------------------------------------ handles, subscriptions, listeners

  /** What a call knows about the store where it stands. */
  ghost predicate CallInv(s: Store, pc: Pc) {
    match pc
    case PubRUnlock(h) => Held(s, h)
    case PubLock(h) => Held(s, h)
    case PubStore(h) => Held(s, h)
    case PubUnlock(h) => InTopics(s, h)
    case SubJoin(k, _) => k !in s.topics
    case SubBroker(h, _) => InTopics(s, h) && !s.HasHandler(h.key)
    case SubCleanup(h) => InTopics(s, h)
    case CancelListener(k, l, _) => Entry(s, k, l)
    case CancelSub(k, l, _) => Entry(s, k, l) && s.listeners[l].cancelled
    case UnsTopic(k, l) => Entry(s, k, l) && s.listeners[l].cancelled && s.listeners[l].closed
    case UnsDelete(k) => CancelledEntry(s, k) && forall h <- s.open :: h.key == k ==> h in s.failedClose
    case DisDelete(k) => CancelledEntry(s, k)
    case DisTopics => s.subscriptions == map[]
    case _ => true
  }

  ghost predicate Entry(s: Store, k: string, l: Lid) {
    k in s.subscriptions && s.subscriptions[k] == l && l in s.listeners
  }

  /** The subscription is being removed: its listener is cancelled and its broker subscription closed. */
  ghost predicate CancelledEntry(s: Store, k: string) {
    && k in s.subscriptions && s.subscriptions[k] in s.listeners
    && s.listeners[s.subscriptions[k]].cancelled && s.listeners[s.subscriptions[k]].closed
  }

  ghost predicate InTopics(s: Store, h: Handle) {
    h.key in s.topics && s.topics[h.key] == h
  }

  /** Joined, and not stored yet. */
  ghost predicate Held(s: Store, h: Handle) {
    h in s.open && h.key !in s.topics
  }

  ghost predicate HolderOf(s: Sys, t: Tid, h: Handle) {
    t in s.threads && InGap(s.threads[t]) && s.threads[t].h == h
  }

  ghost predicate HandleInv(s: Sys) {
    && s.store.Sound()
    && (forall t <- s.threads :: CallInv(s.store, s.threads[t]))
    && (forall t, u, h | HolderOf(s, t, h) && HolderOf(s, u, h) :: t == u)
    && (forall h <- s.store.open :: Owned(s, h))
  }

  /** In topics under its own key, in the hands of a Publish, or refusing to close. */
  ghost predicate Owned(s: Sys, h: Handle) {
    || InTopics(s.store, h)
    || (exists t :: HolderOf(s, t, h))
    || h in s.store.failedClose
  }

  /** A cancelled listener still in subscriptions is being removed by the call that holds the lock. */
  ghost predicate Removing(s: Sys, k: string) {
    exists t :: t in s.threads && RemovesNow(s.threads[t], k)
  }

  predicate RemovesNow(pc: Pc, k: string) {
    (pc.CancelSub? || pc.UnsTopic? || pc.UnsDelete? || pc.DisDelete?) && pc.key == k
  }

  /** An uncancelled listener is the one its subscription entry names, or was overwritten; nothing else is. */
  ghost predicate Agreement(s: Store) {
    && (forall l <- s.overwritten :: l in s.listeners)
    && (forall l <- s.listeners :: SubscriptionOrdered(s.listeners[l]))
    && (forall l <- s.listeners :: !s.listeners[l].cancelled ==> Subscribed(s, l) || l in s.overwritten)
    && (forall l <- s.overwritten :: !s.listeners[l].cancelled && !s.listeners[l].hasHandler && !Subscribed(s, l))
  }

  ghost predicate CancelledAt(s: Store, k: string) {
    k in s.subscriptions && s.subscriptions[k] in s.listeners && s.listeners[s.subscriptions[k]].cancelled
  }

  ghost predicate ListenerInv(s: Sys) {
    Agreement(s.store) && forall k | CancelledAt(s.store, k) :: Removing(s, k)
  }

  ghost predicate Subscribed(s: Store, l: Lid) {
    l in s.listeners && s.listeners[l].key in s.subscriptions && s.subscriptions[s.listeners[l].key] == l
  }

  /** A subscription is closed only after its listener's context was cancelled. */
  ghost predicate SubscriptionOrdered(x: Listener) {
    && (x.closed ==> x.cancelled)
    && (x.pc == GotError(SubscriptionClosed) ==> x.closed)
    && (x.pc == GotError(ContextEnded) ==> x.Done())
  }

  ghost predicate Inv(s: Sys) {
    LockInv(s) && HandleInv(s) && ListenerInv(s)
  }

  lemma InitiallyInv(db: string)
    ensures Inv(Initially(db))
  {
  }

  // What the other calls know survives a step.

  /** A step at t: only t moves, and the locks' bookkeeping is of no concern. */
  ghost predicate OnlyMoves(s: Sys, s': Sys, t: Tid) {
    forall u | u != t :: (u in s'.threads <==> u in s.threads) && (u in s.threads ==> s'.threads[u] == s.threads[u])
  }

  /** While a call works under the lock, the others know nothing but the handles they hold in the gap. */
  lemma OthersKnowTheirHandles(s: Sys, s': Sys, t: Tid, u: Tid)
    requires LockInv(s) && HandleInv(s) && t in s.threads && u in s.threads && u != t
    requires !ModeOf(s.threads[t]).Nothing?
    requires InGap(s.threads[u]) ==> Held(s'.store, s.threads[u].h)
    ensures CallInv(s'.store, s.threads[u])
  {
    assert ModeOf(s.threads[t]).Writing? ==> s.writer == Some(t);
    assert ModeOf(s.threads[t]).Reading? ==> t in s.readers;
    assert !ModeOf(s.threads[u]).Writing?;
  }

  predicate Holds(pc: Pc, h: Handle) {
    InGap(pc) && pc.h == h
  }

  /** What work by one call must do for the handles of all: leave held ones alone, and account for the open ones. */
  ghost predicate Keeps(s: Store, pc: Pc, s': Store, pc': Pc) {
    && s'.Sound() && CallInv(s', pc')
    && (forall h | Held(s, h) && !Holds(pc, h) :: Held(s', h) && !Holds(pc', h))
    && (forall h <- s'.open ::
          || InTopics(s', h) || Holds(pc', h) || h in s'.failedClose
          || (h in s.open && !InTopics(s, h) && !Holds(pc, h) && h !in s.failedClose))
  }

  lemma KeepingStep(s: Sys, s': Sys, t: Tid)
    requires LockInv(s) && HandleInv(s) && t in s.threads && t in s'.threads && OnlyMoves(s, s', t)
    requires !ModeOf(s.threads[t]).Nothing?
    requires Keeps(s.store, s.threads[t], s'.store, s'.threads[t]) && s.store.failedClose <= s'.store.failedClose
    ensures HandleInv(s')
  {
    forall u | u in s'.threads && u != t
      ensures CallInv(s'.store, s'.threads[u])
      ensures forall h :: HolderOf(s', u, h) ==> HolderOf(s, u, h) && !HolderOf(s', t, h)
    {
      assert CallInv(s.store, s.threads[u]);
      if InGap(s.threads[u]) {
        assert HolderOf(s, u, s.threads[u].h);
        assert !Holds(s.threads[t], s.threads[u].h) by {
          assert HolderOf(s, t, s.threads[u].h) ==> t == u;
        }
      }
      OthersKnowTheirHandles(s, s', t, u);
    }
    forall h | h in s'.store.open
      ensures Owned(s', h)
    {
      if Holds(s'.threads[t], h) {
        assert HolderOf(s', t, h);
      } else if !InTopics(s'.store, h) && h !in s'.store.failedClose {
        var u :| HolderOf(s, u, h);
        assert u != t && HolderOf(s', u, h);
      }
    }
  }

  // Work, one operation at a time, on the store alone.

  /** Finding something out and changing nothing. */
  predicate Idle(s: Store, pc: Pc, c: Choice) {
    || pc.PubSend? || pc.SubLookup? || pc.UnsFind? || pc.DisShutdown? || pc.DisSubs?
    || (pc.PubLookup? && (pc.key in s.topics || !c.ok))
    || (pc.SubJoin? && !c.ok)
    || (pc.SubBroker? && !c.ok)
    || (pc.DisTopics? && s.topics == map[])
  }

  lemma IdleKnows(s: Store, pc: Pc, c: Choice)
    requires s.Sound() && CallInv(s, pc) && ActOf(pc).Work? && WorkEnabled(s, pc, c) && Idle(s, pc, c)
    ensures WorkStore(s, pc, c) == s && !InGap(pc)
    ensures CallInv(s, After(s, pc, c).value) && !InGap(After(s, pc, c).value)
  {
    IdleLeavesStore(s, pc, c);
  }

  lemma IdleLeavesStore(s: Store, pc: Pc, c: Choice)
    requires ActOf(pc).Work? && WorkEnabled(s, pc, c) && Idle(s, pc, c)
    ensures WorkStore(s, pc, c) == s && !InGap(pc)
  {
  }

  lemma JoinKeeps(s: Store, k: string)
    requires s.Sound() && k !in s.topics && s.CanJoin(k)
    ensures Keeps(s, PubLookup(k), s.Join(k), PubRUnlock(s.NewHandle(k)))
  {
    JoinedIsSound(s, k);
  }

  lemma StoreKeeps(s: Store, h: Handle)
    requires s.Sound() && Held(s, h)
    ensures Keeps(s, PubStore(h), s.PutTopic(h), PubUnlock(h))
  {
  }

  lemma JoinAndPutKeeps(s: Store, k: string, hasHandler: bool)
    requires s.Sound() && k !in s.topics && s.CanJoin(k)
    ensures Keeps(s, SubJoin(k, hasHandler), s.Join(k).PutTopic(s.NewHandle(k)), SubBroker(s.NewHandle(k), hasHandler))
  {
    JoinKeepsSound(s, k);
    JoinAndPutAccounts(s, k);
  }

  lemma JoinAndPutAccounts(s: Store, k: string)
    requires s.Sound() && k !in s.topics && s.CanJoin(k)
    ensures var h0 := s.NewHandle(k);
            var s' := s.Join(k).PutTopic(h0);
            && InTopics(s', h0) && !s'.HasHandler(k)
            && (forall h <- s.open :: h.key != k && (InTopics(s', h) <==> InTopics(s, h)))
            && (forall h | Held(s, h) :: Held(s', h))
  {
    forall h | h in s.open
      ensures h.key != k
    {
      assert FullName(s.db, h.key) != FullName(s.db, k);
    }
  }

  lemma ListenKeeps(s: Store, h: Handle, hasHandler: bool)
    requires s.Sound() && InTopics(s, h)
    ensures Keeps(s, SubBroker(h, hasHandler), s.Listen(h, hasHandler), Unlock)
  {
    ListenKeepsSound(s, h, hasHandler);
  }

  /** Closing a handle that is in topics. */
  lemma CloseKeeps(s: Store, pc: Pc, h: Handle, ok: bool, pc': Pc)
    requires s.Sound() && InTopics(s, h) && !InGap(pc) && !InGap(pc')
    requires CallInv(s.Close(h, ok), pc')
    ensures Keeps(s, pc, s.Close(h, ok), pc')
  {
  }

  /** ... and taking it out of topics, when nobody subscribes to it. */
  lemma CloseAndDropKeeps(s: Store, h: Handle, ok: bool)
    requires s.Sound() && InTopics(s, h) && s.subscriptions == map[]
    ensures Keeps(s, DisTopics, s.Close(h, ok).DropTopic(h.key), DisTopics)
  {
  }

  lemma DeleteKeeps(s: Store, k: string)
    requires s.Sound() && CallInv(s, UnsDelete(k))
    ensures Keeps(s, UnsDelete(k), s.DropSubscription(k).DropTopic(k), Unlock)
  {
  }

  lemma CancelListenerKeeps(s: Store, k: string, l: Lid, all: bool)
    requires s.Sound() && Entry(s, k, l)
    ensures Keeps(s, CancelListener(k, l, all), s.Cancel(l), CancelSub(k, l, all))
  {
  }

  lemma CancelSubKeeps(s: Store, k: string, l: Lid, all: bool)
    requires s.Sound() && Entry(s, k, l) && s.listeners[l].cancelled
    ensures Keeps(s, CancelSub(k, l, all), s.CloseSubscription(l), if all then DisDelete(k) else UnsTopic(k, l))
  {
  }

  lemma DropKeeps(s: Store, k: string)
    requires s.Sound()
    ensures Keeps(s, DisDelete(k), s.DropSubscription(k), DisSubs)
  {
  }

  lemma IdleKeeps(s: Store, pc: Pc, c: Choice)
    requires s.Sound() && CallInv(s, pc) && ActOf(pc).Work? && WorkEnabled(s, pc, c) && Idle(s, pc, c)
    ensures Keeps(s, pc, WorkStore(s, pc, c), After(s, pc, c).value)
  {
    IdleKnows(s, pc, c);
  }

  lemma UnsTopicKeeps(s: Store, k: string, l: Lid, ok: bool)
    requires s.Sound() && CallInv(s, UnsTopic(k, l))
    ensures Keeps(s, UnsTopic(k, l), s.Close(s.listeners[l].handle, ok), UnsDelete(k))
  {
    CloseKeeps(s, UnsTopic(k, l), s.listeners[l].handle, ok, UnsDelete(k));
  }

  lemma WorkKeeps(s: Store, pc: Pc, c: Choice)
    requires s.Sound() && CallInv(s, pc) && ActOf(pc).Work? && WorkEnabled(s, pc, c)
    ensures Keeps(s, pc, WorkStore(s, pc, c), After(s, pc, c).value)
  {
    if Idle(s, pc, c) {
      IdleKeeps(s, pc, c);
    } else {
      match pc
      case PubLookup(k) => JoinKeeps(s, k);
      case PubStore(h) => StoreKeeps(s, h);
      case SubJoin(k, hasHandler) => JoinAndPutKeeps(s, k, hasHandler);
      case SubBroker(h, hasHandler) => ListenKeeps(s, h, hasHandler);
      case SubCleanup(h) => CloseKeeps(s, pc, h, c.ok, Unlock);
      case UnsTopic(k, l) => UnsTopicKeeps(s, k, l, c.ok);
      case UnsDelete(k) => DeleteKeeps(s, k);
      case CancelListener(k, l, all) => CancelListenerKeeps(s, k, l, all);
      case CancelSub(k, l, all) => CancelSubKeeps(s, k, l, all);
      case DisDelete(k) => DropKeeps(s, k);
      case DisTopics => CloseAndDropKeeps(s, s.topics[c.key], c.ok);
      case _ =>
    }
  }

  lemma WorkKeepsHandles(s: Sys, t: Tid, c: Choice)
    requires LockInv(s) && HandleInv(s) && OpEnabled(s, t, c) && ActOf(s.threads[t]).Work?
    ensures HandleInv(OpNext(s, t, c))
  {
    WorkKeeps(s.store, s.threads[t], c);
    WorkKeepsMode(s.store, s.threads[t], c);
    FailuresStay(s.store, s.threads[t], c);
    KeepingStep(s, OpNext(s, t, c), t);
  }

  lemma FailuresStay(s: Store, pc: Pc, c: Choice)
    requires WorkEnabled(s, pc, c)
    ensures s.failedClose <= WorkStore(s, pc, c).failedClose
  {
  }

  // ------------------------------------------------------------ listeners, one operation at a time

  /** No entry is cancelled but the one this call is removing. */
  ghost predicate OnlyOwnCancelled(s: Store, pc: Pc) {
    forall k | CancelledAt(s, k) :: RemovesNow(pc, k)
  }

  ghost predicate Agrees(s: Store, pc: Pc) {
    Agreement(s) && OnlyOwnCancelled(s, pc)
  }

  lemma ListenAgrees(s: Store, h: Handle, hasHandler: bool)
    requires s.Sound() && Agrees(s, SubBroker(h, hasHandler)) && InTopics(s, h) && !s.HasHandler(h.key)
    ensures Agrees(s.Listen(h, hasHandler), Unlock)
  {
    ListenMovesEntry(s, h, hasHandler);
    ListenCancelsNothing(s, h, hasHandler);
    if h.key in s.subscriptions {
      assert Subscribed(s, s.subscriptions[h.key]);
      assert !CancelledAt(s, h.key);
    }
  }

  lemma ListenCancelsNothing(s: Store, h: Handle, hasHandler: bool)
    requires s.Sound()
    ensures forall k | CancelledAt(s.Listen(h, hasHandler), k) :: CancelledAt(s, k)
  {
  }

  lemma ListenMovesEntry(s: Store, h: Handle, hasHandler: bool)
    requires s.Sound()
    ensures var s' := s.Listen(h, hasHandler);
            && s.nextListener !in s.listeners && Subscribed(s', s.nextListener)
            && s'.listeners.Keys == s.listeners.Keys + {s.nextListener}
            && s'.listeners[s.nextListener] == Listener(h.key, h, hasHandler, false, false, false, ToCheck)
            && forall l <- s.listeners ::
                 && s'.listeners[l] == s.listeners[l]
                 && (Subscribed(s', l) <==> Subscribed(s, l) && s.listeners[l].key != h.key)
  {
  }

  lemma CancelListenerAgrees(s: Store, k: string, l: Lid, all: bool)
    requires s.Sound() && Agrees(s, CancelListener(k, l, all)) && Entry(s, k, l)
    ensures Agrees(s.Cancel(l), CancelSub(k, l, all))
  {
    var s' := s.Cancel(l);
    assert Subscribed(s, l);
    assert forall m :: Subscribed(s', m) <==> Subscribed(s, m);
    assert forall j | CancelledAt(s', j) && j != k :: CancelledAt(s, j);
  }

  lemma CancelSubAgrees(s: Store, k: string, l: Lid, all: bool)
    requires s.Sound() && Agrees(s, CancelSub(k, l, all)) && Entry(s, k, l) && s.listeners[l].cancelled
    ensures Agrees(s.CloseSubscription(l), if all then DisDelete(k) else UnsTopic(k, l))
  {
    var s' := s.CloseSubscription(l);
    assert forall m :: Subscribed(s', m) <==> Subscribed(s, m);
    assert forall j | CancelledAt(s', j) :: CancelledAt(s, j);
  }

  lemma DropAgrees(s: Store, pc: Pc, k: string, pc': Pc)
    requires s.Sound() && Agrees(s, pc) && CancelledEntry(s, k) && forall j :: RemovesNow(pc, j) ==> j == k
    ensures Agrees(s.DropSubscription(k), pc') && Agrees(s.DropSubscription(k).DropTopic(k), pc')
  {
    var s' := s.DropSubscription(k);
    DropRemovesEntry(s, k);
    SameListenersAgree(s', s'.DropTopic(k), pc', pc');
  }

  lemma DropRemovesEntry(s: Store, k: string)
    requires s.Sound() && k in s.subscriptions
    ensures var s' := s.DropSubscription(k);
            && (forall m :: Subscribed(s', m) <==> Subscribed(s, m) && m != s.subscriptions[k])
            && (forall j :: CancelledAt(s', j) <==> CancelledAt(s, j) && j != k)
  {
  }

  /** Work that leaves listeners and subscriptions alone. */
  lemma SameListenersAgree(s: Store, s': Store, pc: Pc, pc': Pc)
    requires Agrees(s, pc)
    requires s'.listeners == s.listeners && s'.subscriptions == s.subscriptions && s'.overwritten == s.overwritten
    requires forall k :: RemovesNow(pc, k) ==> RemovesNow(pc', k)
    ensures Agrees(s', pc')
  {
    assert forall l :: Subscribed(s', l) <==> Subscribed(s, l);
    assert forall k :: CancelledAt(s', k) <==> CancelledAt(s, k);
  }

  /** Work on topics and handles only. */
  predicate OffEntries(s: Store, pc: Pc, c: Choice) {
    Idle(s, pc, c) || pc.PubLookup? || pc.PubStore? || pc.SubJoin? || pc.SubCleanup? || pc.UnsTopic? || pc.DisTopics?
  }

  lemma OffEntriesLeavesListeners(s: Store, pc: Pc, c: Choice)
    requires ActOf(pc).Work? && WorkEnabled(s, pc, c) && OffEntries(s, pc, c)
    ensures var s' := WorkStore(s, pc, c);
            s'.listeners == s.listeners && s'.subscriptions == s.subscriptions && s'.overwritten == s.overwritten
    ensures forall k :: RemovesNow(pc, k) ==> RemovesNow(After(s, pc, c).value, k)
  {
  }

  lemma WorkAgrees(s: Store, pc: Pc, c: Choice)
    requires s.Sound() && CallInv(s, pc) && Agrees(s, pc) && ActOf(pc).Work? && WorkEnabled(s, pc, c)
    ensures Agrees(WorkStore(s, pc, c), After(s, pc, c).value)
  {
    if OffEntries(s, pc, c) {
      OffEntriesLeavesListeners(s, pc, c);
      SameListenersAgree(s, WorkStore(s, pc, c), pc, After(s, pc, c).value);
    } else {
      match pc
      case SubBroker(h, hasHandler) => ListenAgrees(s, h, hasHandler);
      case UnsDelete(k) => DropAgrees(s, pc, k, Unlock);
      case CancelListener(k, l, all) => CancelListenerAgrees(s, k, l, all);
      case CancelSub(k, l, all) => CancelSubAgrees(s, k, l, all);
      case DisDelete(k) => DropAgrees(s, pc, k, DisSubs);
      case _ =>
    }
  }

  lemma WorkKeepsListeners(s: Sys, t: Tid, c: Choice)
    requires Inv(s) && OpEnabled(s, t, c) && ActOf(s.threads[t]).Work?
    ensures ListenerInv(OpNext(s, t, c))
  {
    var pc := s.threads[t];
    var s' := OpNext(s, t, c);
    WorkKeepsMode(s.store, pc, c);
    if ModeOf(pc).Writing? {
      WriterAlone(s, t);
      WorkAgrees(s.store, pc, c);
      forall k | CancelledAt(s'.store, k)
        ensures Removing(s', k)
      {
        assert RemovesNow(s'.threads[t], k);
      }
    } else {
      assert s.threads[t].PubLookup? || s.threads[t].PubSend?;
      StillListening(s, s', t);
    }
  }

  /** What a writer sees is not being changed by anyone else. */
  lemma WriterAlone(s: Sys, t: Tid)
    requires LockInv(s) && ListenerInv(s) && t in s.threads && ModeOf(s.threads[t]).Writing?
    ensures OnlyOwnCancelled(s.store, s.threads[t])
  {
    forall k | CancelledAt(s.store, k)
      ensures RemovesNow(s.threads[t], k)
    {
      var u :| u in s.threads && RemovesNow(s.threads[u], k);
      assert s.writer == Some(u) && s.writer == Some(t);
    }
  }

  /** A step that leaves listeners and subscriptions alone, by a call that removes nothing. */
  lemma StillListening(s: Sys, s': Sys, t: Tid)
    requires Inv(s) && t in s.threads && OnlyMoves(s, s', t)
    requires s'.store.listeners == s.store.listeners && s'.store.subscriptions == s.store.subscriptions
    requires s'.store.overwritten == s.store.overwritten
    requires forall k :: !RemovesNow(s.threads[t], k)
    ensures ListenerInv(s')
  {
    assert forall l :: Subscribed(s'.store, l) <==> Subscribed(s.store, l);
    forall k | CancelledAt(s'.store, k)
      ensures Removing(s', k)
    {
      assert CancelledAt(s.store, k);
      var u :| u in s.threads && RemovesNow(s.threads[u], k);
      assert u in s'.threads && RemovesNow(s'.threads[u], k);
    }
  }

  // ------------------------------------------------------------ every step

  lemma SameOwners(s: Sys, s': Sys)
    requires HandleInv(s)
    requires s'.store == s.store.(listeners := s'.store.listeners)
    requires forall u, h :: HolderOf(s', u, h) <==> HolderOf(s, u, h)
    ensures forall h <- s'.store.open :: Owned(s', h)
    ensures forall t, u, h | HolderOf(s', t, h) && HolderOf(s', u, h) :: t == u
  {
    forall h | h in s'.store.open
      ensures Owned(s', h)
    {
      assert Owned(s, h);
      if u :| HolderOf(s, u, h) {
        assert HolderOf(s', u, h);
      }
    }
  }

  lemma SameEntriesKeepSound(s: Store, s': Store)
    requires s.Sound()
    requires s' == s.(listeners := s'.listeners) && s'.listeners.Keys == s.listeners.Keys
    requires forall l <- s.listeners ::
               s'.listeners[l].key == s.listeners[l].key && s'.listeners[l].handle == s.listeners[l].handle
    ensures s'.Sound()
  {
  }

  /** Taking and giving up locks changes nothing but places. */
  lemma LockActKeepsInv(s: Sys, t: Tid, c: Choice)
    requires Inv(s) && OpEnabled(s, t, c) && !ActOf(s.threads[t]).Work?
    ensures Inv(OpNext(s, t, c))
  {
    var s' := OpNext(s, t, c);
    OpKeepsLockInv(s, t, c);
    assert CallInv(s.store, s.threads[t]);
    LockActKnows(s.store, s.threads[t], c);
    assert forall u, h :: HolderOf(s', u, h) <==> HolderOf(s, u, h);
    SameOwners(s, s');
    StillListening(s, s', t);
  }

  lemma LockActKnows(s: Store, pc: Pc, c: Choice)
    requires !ActOf(pc).Work? && CallInv(s, pc)
    ensures forall k :: !RemovesNow(pc, k)
    ensures var after := After(s, pc, c);
            && (after.Some? ==> CallInv(s, after.value))
            && (forall h :: Holds(pc, h) <==> after.Some? && Holds(after.value, h))
  {
  }

  lemma StartKeepsInv(s: Sys, pc: Pc)
    requires Inv(s) && Opening(pc)
    ensures Inv(Next(s, Start(pc)))
  {
    StartKeepsLocks(s, pc);
    StartKeepsRest(s, Next(s, Start(pc)), pc);
  }

  lemma StartKeepsLocks(s: Sys, pc: Pc)
    requires LockInv(s) && Opening(pc)
    ensures LockInv(Next(s, Start(pc)))
  {
  }

  lemma StartKeepsRest(s: Sys, s': Sys, pc: Pc)
    requires Inv(s) && s' == s.(threads := s.threads[s.next := pc], next := s.next + 1)
    requires !InGap(pc) && CallInv(s.store, pc)
    ensures HandleInv(s') && ListenerInv(s')
  {
    assert forall u, h :: HolderOf(s', u, h) <==> HolderOf(s, u, h);
    SameOwners(s, s');
    forall k | CancelledAt(s'.store, k)
      ensures Removing(s', k)
    {
      var u :| u in s.threads && RemovesNow(s.threads[u], k);
      assert u in s'.threads && RemovesNow(s'.threads[u], k);
    }
  }

  /** Two listeners that agree on everything calls and the broker rely on. */
  predicate SameListener(x: Listener, y: Listener) {
    y == x.(pc := y.pc, callerDone := y.callerDone)
  }

  lemma SameListenersKeepCalls(s: Store, s': Store, pc: Pc)
    requires s' == s.(listeners := s'.listeners) && s'.listeners.Keys == s.listeners.Keys
    requires forall l <- s.listeners :: SameListener(s.listeners[l], s'.listeners[l])
    requires CallInv(s, pc)
    ensures CallInv(s', pc)
  {
  }

  ghost predicate ListenersMoved(s: Sys, s': Sys) {
    && s' == s.(store := s.store.(listeners := s'.store.listeners))
    && s'.store.listeners.Keys == s.store.listeners.Keys
    && (forall l <- s.store.listeners :: SameListener(s.store.listeners[l], s'.store.listeners[l]))
  }

  lemma ListenStepMoves(s: Sys, l: Lid, what: ListenerEvent)
    requires ListenEnabled(s.store, l, what) && SubscriptionOrdered(s.store.listeners[l])
    ensures var s' := Next(s, Listen(l, what));
            ListenersMoved(s, s') && SubscriptionOrdered(s'.store.listeners[l])
            && forall m <- s.store.listeners :: m != l ==> s'.store.listeners[m] == s.store.listeners[m]
  {
  }

  lemma MovedKeepsHandles(s: Sys, s': Sys)
    requires Inv(s) && ListenersMoved(s, s')
    ensures LockInv(s') && HandleInv(s')
  {
    SameEntriesKeepSound(s.store, s'.store);
    forall t | t in s'.threads
      ensures CallInv(s'.store, s'.threads[t])
    {
      SameListenersKeepCalls(s.store, s'.store, s.threads[t]);
    }
    assert forall u, h :: HolderOf(s', u, h) <==> HolderOf(s, u, h);
    SameOwners(s, s');
  }

  lemma MovedKeepsListeners(s: Sys, s': Sys)
    requires Inv(s) && ListenersMoved(s, s')
    requires forall l <- s'.store.listeners :: SubscriptionOrdered(s'.store.listeners[l])
    ensures ListenerInv(s')
  {
    assert forall m :: Subscribed(s'.store, m) <==> Subscribed(s.store, m);
    forall k | CancelledAt(s'.store, k)
      ensures Removing(s', k)
    {
      assert CancelledAt(s.store, k);
      var u :| u in s.threads && RemovesNow(s.threads[u], k);
      assert RemovesNow(s'.threads[u], k);
    }
  }

  lemma ListenStepKeepsInv(s: Sys, l: Lid, what: ListenerEvent)
    requires Inv(s) && ListenEnabled(s.store, l, what)
    ensures Inv(Next(s, Listen(l, what)))
  {
    ListenStepMoves(s, l, what);
    MovedKeepsHandles(s, Next(s, Listen(l, what)));
    MovedKeepsListeners(s, Next(s, Listen(l, what)));
  }

  lemma NextKeepsInv(s: Sys, e: Event)
    requires Inv(s) && Enabled(s, e)
    ensures Inv(Next(s, e))
  {
    match e
    case Start(pc) => StartKeepsInv(s, pc);
    case Op(t, c) =>
      if ActOf(s.threads[t]).Work? {
        OpKeepsLockInv(s, t, c);
        WorkKeepsHandles(s, t, c);
        WorkKeepsListeners(s, t, c);
      } else {
        LockActKeepsInv(s, t, c);
      }
    case Listen(l, what) => ListenStepKeepsInv(s, l, what);
  }

  lemma {:induction false} RunKeepsInv(s: Sys, es: seq<Event>)
    requires Inv(s) && Runs(s, es)
    ensures Inv(Run(s, es))
    decreases |es|
  {
    if es != [] {
      NextKeepsInv(s, es[0]);
      RunKeepsInv(Next(s, es[0]), es[1..]);
    }
  }

  lemma ReachableInv(s: Sys)
    requires Reachable(s)
    ensures Inv(s)
  {
    var db, es :| Runs(Initially(db), es) && Run(Initially(db), es) == s;
    InitiallyInv(db);
    RunKeepsInv(Initially(db), es);
  }
}
