/** Locks are given back, and some call can always go on. */
module Deadlock {
  import opened Results
  import opened PubSubInvariant
  import opened PubSubSystem

  /** A call that has finished holds nothing; a Publish that has got past its lock upgrade holds its read lock again. */
  lemma LocksBelongToCalls(s: Sys)
    requires Reachable(s)
    ensures forall t <- s.readers :: t in s.threads && ModeOf(s.threads[t]).Reading?
    ensures s.writer.Some? ==> s.writer.value in s.threads && ModeOf(s.threads[s.writer.value]).Writing?
    ensures forall t <- s.threads :: s.threads[t].PubSend? || s.threads[t].PubDone? ==> t in s.readers
    ensures s.threads == map[] ==> s.readers == {} && s.writer.None? && s.retryHolder.None?
    ensures s.writer.Some? ==> s.readers == {}
  {
    ReachableInv(s);
  }

  /** Waiting for one lock while holding another happens only in Disconnect: instance.mutex, then retryMutex. */
  lemma OnlyNestedAcquisition(s: Sys, t: Tid)
    requires Reachable(s) && t in s.threads
    requires ActOf(s.threads[t]).TakeR? || ActOf(s.threads[t]).TakeW? || ActOf(s.threads[t]).TakeRetry?
    requires t in s.readers || s.writer == Some(t) || s.retryHolder == Some(t)
    ensures s.threads[t].DisRetryLock? && s.writer == Some(t) && s.retryHolder != Some(t) && t !in s.readers
  {
    ReachableInv(s);
  }

  /** A new reader may be made to wait as soon as a writer waits. */
  ghost predicate WriterWaits(s: Sys) {
    exists t :: t in s.threads && ActOf(s.threads[t]).TakeW?
  }

  ghost predicate CanGoOn(s: Sys, t: Tid) {
    && (exists c :: OpEnabled(s, t, c))
    && (t in s.threads && ActOf(s.threads[t]).TakeR? ==> !WriterWaits(s))
  }

  /** For work there is always a choice that lets it go on: the broker can refuse, and closing can succeed. */
  lemma WorkGoesOn(s: Sys, t: Tid)
    requires Inv(s) && t in s.threads && ActOf(s.threads[t]).Work?
    ensures CanGoOn(s, t)
  {
    var pc := s.threads[t];
    assert CallInv(s.store, pc);
    var key := if pc.DisSubs? && s.store.subscriptions != map[] then SomeKey(s.store.subscriptions)
               else if pc.DisTopics? && s.store.topics != map[] then SomeKey(s.store.topics)
               else "";
    var c := Choice(pc.SubCleanup? || pc.UnsTopic? || pc.DisTopics?, key);
    assert OpEnabled(s, t, c);
  }

  lemma LockActGoesOn(s: Sys, t: Tid)
    requires t in s.threads && !ActOf(s.threads[t]).Work?
    requires ActOf(s.threads[t]).TakeR? ==> s.writer.None? && !WriterWaits(s)
    requires ActOf(s.threads[t]).TakeW? ==> s.writer.None? && s.readers == {}
    requires ActOf(s.threads[t]).TakeRetry? ==> s.retryHolder.None?
    ensures CanGoOn(s, t)
  {
    assert OpEnabled(s, t, Choice(true, ""));
  }

  /** In every reachable state with a call under way some call can go on, even if waiting writers hold back new
      readers. No listener and no handler is needed for that. */
  lemma NoDeadlock(s: Sys)
    requires Reachable(s) && s.threads != map[]
    ensures exists t :: t in s.threads && CanGoOn(s, t)
  {
    ReachableInv(s);
    if s.retryHolder.Some? {
      LockActGoesOn(s, s.retryHolder.value);
    } else if s.writer.Some? {
      HolderGoesOn(s, s.writer.value);
    } else if s.readers != {} {
      var t :| t in s.readers;
      HolderGoesOn(s, t);
    } else {
      WaiterGoesOn(s);
    }
  }

  lemma WaiterGoesOn(s: Sys)
    requires s.threads != map[] && s.retryHolder.None? && s.writer.None? && s.readers == {}
    requires forall t <- s.threads :: ModeOf(s.threads[t]).Nothing?
    ensures exists t :: t in s.threads && CanGoOn(s, t)
  {
    if WriterWaits(s) {
      var t :| t in s.threads && ActOf(s.threads[t]).TakeW?;
      LockActGoesOn(s, t);
    } else {
      assert s.threads.Keys != {};
      var t :| t in s.threads;
      LockActGoesOn(s, t);
    }
  }

  lemma HolderGoesOn(s: Sys, t: Tid)
    requires Inv(s) && t in s.threads && !ModeOf(s.threads[t]).Nothing? && s.retryHolder.None?
    ensures CanGoOn(s, t)
  {
    if ActOf(s.threads[t]).Work? {
      WorkGoesOn(s, t);
    } else {
      assert ModeOf(s.threads[t]).Writing? ==> !ActOf(s.threads[t]).TakeR? && !ActOf(s.threads[t]).TakeW?;
      LockActGoesOn(s, t);
    }
  }
}
