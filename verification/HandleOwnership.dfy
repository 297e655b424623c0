/** Who owns an open broker handle, and what that means for Publish, Unsubscribe and Disconnect. */
module HandleOwnership {
  import opened TopicNames
  import opened Topics
  import opened PubSubInvariant
  import opened PubSubSystem

  ghost predicate OneHolder(s: Sys, h: Handle) {
    exists t :: HolderOf(s, t, h) && forall u :: HolderOf(s, u, h) ==> u == t
  }

  /** In every interleaving, an open handle is in topics under its own key, or in the hands of exactly one Publish
      between its Join and its store, but not both; or its Close has reported an error. */
  lemma EveryOpenHandleIsOwned(s: Sys, h: Handle)
    requires Reachable(s) && h in s.store.open
    ensures InTopics(s.store, h) || OneHolder(s, h) || h in s.store.failedClose
    ensures OneHolder(s, h) ==> h.key !in s.store.topics
  {
    ReachableInv(s);
    assert Owned(s, h);
    forall t | HolderOf(s, t, h)
      ensures h.key !in s.store.topics
    {
      assert CallInv(s.store, s.threads[t]);
    }
  }

  /** The store after the lock upgrade overwrites nothing, and what it stores is the one open handle of that name. */
  lemma StoreOverwritesNothing(s: Sys, t: Tid)
    requires Reachable(s) && t in s.threads && s.threads[t].PubStore?
    ensures var h := s.threads[t].h;
            && h in s.store.open && h.key !in s.store.topics
            && forall i <- s.store.open :: FullName(s.store.db, i.key) == FullName(s.store.db, h.key) ==> i == h
  {
    ReachableInv(s);
    var h := s.threads[t].h;
    assert CallInv(s.store, s.threads[t]);
    forall i | i in s.store.open && FullName(s.store.db, i.key) == FullName(s.store.db, h.key)
      ensures i == h
    {
      OneNamePerTopic(s.store.db, i.key, h.key);
    }
  }

  /** Once Unsubscribe has closed its topic without an error, the name can be joined again. */
  lemma UnsubscribeFreesTheName(s: Sys, t: Tid, c: Choice)
    requires Reachable(s) && OpEnabled(s, t, c) && s.threads[t].UnsTopic? && c.ok
    ensures OpNext(s, t, c).store.CanJoin(s.threads[t].key)
  {
    ReachableInv(s);
    assert CallInv(s.store, s.threads[t]);
    var s' := OpNext(s, t, c);
    forall h | h in s'.store.open
      ensures FullName(s.store.db, h.key) != FullName(s.store.db, s.threads[t].key)
    {
      if FullName(s.store.db, h.key) == FullName(s.store.db, s.threads[t].key) {
        OneNamePerTopic(s.store.db, h.key, s.threads[t].key);
      }
    }
  }

  /** When Disconnect is through with the topics, any handle still open refused to close or is in the hands of a
      Publish that has yet to store it. */
  lemma WhatDisconnectLeavesOpen(s: Sys, t: Tid, c: Choice)
    requires Reachable(s) && OpEnabled(s, t, c) && s.threads[t].DisTopics? && s.store.topics == map[]
    ensures OpNext(s, t, c).threads[t] == Unlock && s.store.subscriptions == map[]
    ensures forall h <- s.store.open :: h in s.store.failedClose || OneHolder(s, h)
  {
    ReachableInv(s);
    assert CallInv(s.store, s.threads[t]);
    forall h | h in s.store.open
      ensures h in s.store.failedClose || OneHolder(s, h)
    {
      EveryOpenHandleIsOwned(s, h);
    }
  }

  // ------------------------------------------------------------ what Publish sends on

  /** While a Publish sends, or reads the maps, nothing is stored in topics and nothing removed. */
  lemma ReadersHoldTopicsStill(s: Sys, t: Tid, e: Event)
    requires Reachable(s) && t in s.threads && ModeOf(s.threads[t]).Reading? && Enabled(s, e)
    ensures Next(s, e).store.topics == s.store.topics
  {
    ReachableInv(s);
    assert t in s.readers;
    if e.Op? {
      assert !ModeOf(s.threads[e.t]).Writing?;
    }
  }

  /** A step of Unsubscribe or Disconnect that takes this topic out of the map. */
  predicate Removes(s: Sys, e: Event, key: string) {
    && e.Op? && e.t in s.threads
    && ((s.threads[e.t].UnsDelete? && s.threads[e.t].key == key)
        || (s.threads[e.t].DisTopics? && s.store.topics != map[] && e.choice.key == key))
  }

  ghost predicate NeverRemoved(s: Sys, es: seq<Event>, key: string)
    requires Runs(s, es)
    decreases |es|
  {
    es == [] || (!Removes(s, es[0], key) && NeverRemoved(Next(s, es[0]), es[1..], key))
  }

  /** The handle is out of topics, and nobody will put it back. */
  ghost predicate Gone(s: Sys, h: Handle) {
    !InTopics(s.store, h) && h.id < s.store.nextHandle && forall u :: !HolderOf(s, u, h)
  }

  lemma RemovalExactly(s: Sys, e: Event, h: Handle)
    requires Inv(s) && Enabled(s, e) && InTopics(s.store, h)
    ensures if Removes(s, e, h.key) then Gone(Next(s, e), h) else InTopics(Next(s, e).store, h)
  {
    assert h.id < s.store.nextHandle;
    NobodyHoldsStored(s, h);
    if e.Op? {
      assert CallInv(s.store, s.threads[e.t]);
      OthersHoldTheSame(s, e);
      if ActOf(s.threads[e.t]).Work? {
        WorkRemoves(s.store, s.threads[e.t], e.choice, h);
      }
    }
  }

  lemma NobodyHoldsStored(s: Sys, h: Handle)
    requires HandleInv(s) && InTopics(s.store, h)
    ensures forall u :: !HolderOf(s, u, h)
  {
    forall u | u in s.threads && InGap(s.threads[u])
      ensures s.threads[u].h != h
    {
      assert CallInv(s.store, s.threads[u]);
    }
  }

  lemma OthersHoldTheSame(s: Sys, e: Event)
    requires Enabled(s, e) && e.Op?
    ensures forall u, h | u != e.t :: HolderOf(Next(s, e), u, h) <==> HolderOf(s, u, h)
  {
  }

  lemma WorkRemoves(s: Store, pc: Pc, c: Choice, h: Handle)
    requires s.Sound() && CallInv(s, pc) && ActOf(pc).Work? && WorkEnabled(s, pc, c) && InTopics(s, h)
    ensures InTopics(WorkStore(s, pc, c), h)
            <==> !((pc.UnsDelete? && pc.key == h.key) || (pc.DisTopics? && c.key == h.key))
    ensures s.nextHandle <= WorkStore(s, pc, c).nextHandle && !Holds(After(s, pc, c).value, h)
  {
    WorkHoldsNoStored(s, pc, c, h);
    if pc.UnsDelete? || pc.DisTopics? {
      RemoversRemove(s, pc, c, h);
    } else if pc.PubStore? || pc.SubJoin? {
      assert pc.PubStore? ==> pc.h.key != h.key;
      AddersLeave(s, pc, c, h);
    } else {
      OthersLeaveTopics(s, pc, c);
    }
  }

  lemma WorkHoldsNoStored(s: Store, pc: Pc, c: Choice, h: Handle)
    requires CallInv(s, pc) && ActOf(pc).Work? && WorkEnabled(s, pc, c) && InTopics(s, h) && h.id < s.nextHandle
    ensures s.nextHandle <= WorkStore(s, pc, c).nextHandle && !Holds(After(s, pc, c).value, h)
  {
  }

  lemma RemoversRemove(s: Store, pc: Pc, c: Choice, h: Handle)
    requires (pc.UnsDelete? || pc.DisTopics?) && WorkEnabled(s, pc, c) && InTopics(s, h)
    ensures InTopics(WorkStore(s, pc, c), h) <==> h.key != if pc.UnsDelete? then pc.key else c.key
  {
  }

  lemma AddersLeave(s: Store, pc: Pc, c: Choice, h: Handle)
    requires (pc.PubStore? && pc.h.key != h.key) || (pc.SubJoin? && pc.key !in s.topics)
    requires WorkEnabled(s, pc, c) && InTopics(s, h)
    ensures InTopics(WorkStore(s, pc, c), h)
  {
  }

  lemma OthersLeaveTopics(s: Store, pc: Pc, c: Choice)
    requires ActOf(pc).Work? && WorkEnabled(s, pc, c)
    requires !(pc.UnsDelete? || pc.DisTopics? || pc.PubStore? || pc.SubJoin?)
    ensures WorkStore(s, pc, c).topics == s.topics
  {
  }

  lemma StaysGone(s: Sys, e: Event, h: Handle)
    requires Inv(s) && Enabled(s, e) && Gone(s, h)
    ensures Gone(Next(s, e), h)
  {
    if e.Op? {
      OthersHoldTheSame(s, e);
      assert !HolderOf(s, e.t, h);
      WorkLeavesGone(s.store, s.threads[e.t], e.choice, h);
    } else {
      assert forall u :: HolderOf(Next(s, e), u, h) ==> HolderOf(s, u, h);
    }
  }

  lemma WorkLeavesGone(s: Store, pc: Pc, c: Choice, h: Handle)
    requires ActOf(pc).Work? ==> WorkEnabled(s, pc, c)
    requires !InTopics(s, h) && h.id < s.nextHandle && !Holds(pc, h)
    ensures var s' := if ActOf(pc).Work? then WorkStore(s, pc, c) else s; var after := After(s, pc, c);
            !InTopics(s', h) && h.id < s'.nextHandle && (after.Some? ==> !Holds(after.value, h))
  {
    GoneIsNotTakenUp(s, pc, c, h);
  }

  lemma GoneIsNotTakenUp(s: Store, pc: Pc, c: Choice, h: Handle)
    requires ActOf(pc).Work? ==> WorkEnabled(s, pc, c)
    requires h.id < s.nextHandle && !Holds(pc, h)
    ensures var after := After(s, pc, c); after.Some? ==> !Holds(after.value, h)
  {
  }

  lemma {:induction false} GoneForGood(s: Sys, es: seq<Event>, h: Handle)
    requires Inv(s) && Runs(s, es) && Gone(s, h)
    ensures Gone(Run(s, es), h)
    decreases |es|
  {
    if es != [] {
      StaysGone(s, es[0], h);
      NextKeepsInv(s, es[0]);
      GoneForGood(Next(s, es[0]), es[1..], h);
    }
  }

  lemma {:induction false} StoredExactlyIfNotRemoved(s: Sys, es: seq<Event>, h: Handle)
    requires Inv(s) && Runs(s, es) && InTopics(s.store, h)
    ensures InTopics(Run(s, es).store, h) <==> NeverRemoved(s, es, h.key)
    decreases |es|
  {
    if es != [] {
      RemovalExactly(s, es[0], h);
      NextKeepsInv(s, es[0]);
      if Removes(s, es[0], h.key) {
        GoneForGood(Next(s, es[0]), es[1..], h);
      } else {
        StoredExactlyIfNotRemoved(Next(s, es[0]), es[1..], h);
      }
    }
  }

  /** A Publish that is past its store sends on the handle it stored. */
  predicate SendsOn(pc: Pc, h: Handle) {
    pc == PubUnlock(h) || pc == PubRelock(h) || pc == PubSend(h) || pc.PubDone?
  }

  lemma {:induction false} SendsOnWhatItStored(s: Sys, es: seq<Event>, t: Tid, h: Handle)
    requires Runs(s, es) && t < s.next && (t in s.threads ==> SendsOn(s.threads[t], h))
    ensures t in Run(s, es).threads ==> SendsOn(Run(s, es).threads[t], h)
    decreases |es|
  {
    if es != [] {
      SendsOnWhatItStored(Next(s, es[0]), es[1..], t, h);
    }
  }

  /** A Publish has stored the handle it joined, and anything happens until it sends, now under its read lock again: the
      handle it sends on is still in topics exactly if no Unsubscribe or Disconnect has removed the topic since. */
  lemma SendsOnStoredHandleExactly(s: Sys, es: seq<Event>, t: Tid)
    requires Reachable(s) && t in s.threads && s.threads[t].PubUnlock?
    requires Runs(s, es) && t in Run(s, es).threads && Run(s, es).threads[t].PubSend?
    ensures var h := s.threads[t].h;
            && Run(s, es).threads[t].h == h
            && (InTopics(Run(s, es).store, h) <==> NeverRemoved(s, es, h.key))
  {
    ReachableInv(s);
    var h := s.threads[t].h;
    assert CallInv(s.store, s.threads[t]);
    SendsOnWhatItStored(s, es, t, h);
    StoredExactlyIfNotRemoved(s, es, h);
  }
}
