/** Listeners and the subscriptions they serve. */
module ListenerLife {
  import opened Topics
  import opened PubSubInvariant
  import opened PubSubSystem

  /** The uncancelled listeners and the subscription entries name each other. */
  ghost predicate Matched(s: Store) {
    && (forall l <- s.listeners :: !s.listeners[l].cancelled <==> Subscribed(s, l))
    && (forall k <- s.subscriptions :: s.subscriptions[k] in s.listeners && s.listeners[s.subscriptions[k]].key == k)
  }

  /** While no writer is at work, an uncancelled listener either has its subscription entry or was overwritten, and
      every subscribed key is in topics with the listener's handle. So listeners and entries match one to one exactly
      if no entry has been overwritten. */
  lemma ListenersMatchSubscriptions(s: Sys)
    requires Reachable(s) && s.writer.None?
    ensures forall l <- s.store.listeners ::
              !s.store.listeners[l].cancelled <==> Subscribed(s.store, l) || l in s.store.overwritten
    ensures forall k <- s.store.subscriptions ::
              var l := s.store.subscriptions[k];
              && l in s.store.listeners && k in s.store.topics
              && s.store.topics[k] == s.store.listeners[l].handle && s.store.listeners[l].key == k
    ensures Matched(s.store) <==> s.store.overwritten == {}
  {
    ReachableInv(s);
    assert forall t <- s.threads, k :: RemovesNow(s.threads[t], k) ==> ModeOf(s.threads[t]).Writing?;
    assert forall k :: !CancelledAt(s.store, k);
    assert forall l <- s.store.listeners :: Subscribed(s.store, l) && s.store.listeners[l].cancelled ==>
                                              CancelledAt(s.store, s.store.listeners[l].key);
    assert forall l <- s.store.overwritten :: !s.store.listeners[l].cancelled && !Subscribed(s.store, l);
  }

  /** Every handler given is a real one. */
  ghost predicate HandlersGiven(es: seq<Event>) {
    forall e <- es :: e.Start? && e.pc.SubLock? ==> e.pc.hasHandler
  }

  ghost predicate AllHaveHandlers(s: Sys) {
    && s.store.overwritten == {}
    && (forall l <- s.store.listeners :: s.store.listeners[l].hasHandler)
    && (forall t <- s.threads :: Subscribing(s.threads[t]) ==> s.threads[t].hasHandler)
  }

  lemma StepKeepsHandlers(s: Sys, e: Event)
    requires Inv(s) && AllHaveHandlers(s) && Enabled(s, e) && (e.Start? && e.pc.SubLock? ==> e.pc.hasHandler)
    ensures AllHaveHandlers(Next(s, e))
  {
    if e.Op? {
      assert CallInv(s.store, s.threads[e.t]);
      HandlersThroughOp(s, e.t, e.choice);
    }
  }

  lemma HandlersThroughOp(s: Sys, t: Tid, c: Choice)
    requires Inv(s) && AllHaveHandlers(s) && OpEnabled(s, t, c)
    ensures AllHaveHandlers(OpNext(s, t, c))
  {
    var pc := s.threads[t];
    assert CallInv(s.store, pc);
    assert forall k <- s.store.subscriptions :: s.store.HasHandler(k);
    HandlersThroughWork(s.store, pc, c);
  }

  predicate Subscribing(pc: Pc) {
    pc.SubLock? || pc.SubLookup? || pc.SubJoin? || pc.SubBroker?
  }

  lemma HandlersThroughWork(s: Store, pc: Pc, c: Choice)
    requires ActOf(pc).Work? ==> WorkEnabled(s, pc, c)
    requires s.overwritten == {} && (forall l <- s.listeners :: s.listeners[l].hasHandler)
    requires pc.SubBroker? ==> pc.h.key !in s.subscriptions
    requires Subscribing(pc) ==> pc.hasHandler
    ensures var after := After(s, pc, c); after.Some? && Subscribing(after.value) ==> after.value.hasHandler
    ensures ActOf(pc).Work? ==>
              var s' := WorkStore(s, pc, c);
              s'.overwritten == {} && (forall l <- s'.listeners :: s'.listeners[l].hasHandler)
  {
    HandlerGoesAlong(s, pc, c);
  }

  lemma HandlerGoesAlong(s: Store, pc: Pc, c: Choice)
    requires (ActOf(pc).Work? ==> WorkEnabled(s, pc, c)) && (Subscribing(pc) ==> pc.hasHandler)
    ensures var after := After(s, pc, c); after.Some? && Subscribing(after.value) ==> after.value.hasHandler
  {
  }

  /** With real handlers only, nothing is ever overwritten. */
  lemma {:induction false} NothingOverwritten(s: Sys, es: seq<Event>)
    requires Inv(s) && AllHaveHandlers(s) && Runs(s, es) && HandlersGiven(es)
    ensures AllHaveHandlers(Run(s, es))
    decreases |es|
  {
    if es != [] {
      assert es[0] in es;
      StepKeepsHandlers(s, es[0]);
      NextKeepsInv(s, es[0]);
      assert forall e <- es[1..] :: e in es;
      NothingOverwritten(Next(s, es[0]), es[1..]);
    }
  }

  /** ... so in any run with real handlers, listeners and entries match whenever no writer is at work. */
  lemma RealHandlersKeepListenersMatched(db: string, es: seq<Event>)
    requires Runs(Initially(db), es) && HandlersGiven(es) && Run(Initially(db), es).writer.None?
    ensures Matched(Run(Initially(db), es).store)
  {
    InitiallyInv(db);
    NothingOverwritten(Initially(db), es);
    ListenersMatchSubscriptions(Run(Initially(db), es));
  }

  // ------------------------------------------------------------ after the cancel

  /** Handler calls a listener starts in a run. */
  ghost function Calls(es: seq<Event>, l: Lid): nat {
    if es == [] then 0 else (if es[0] == Listen(l, Call) then 1 else 0) + Calls(es[1..], l)
  }

  /** Calls a cancelled listener may still start, by where it stands. */
  function Budget(pc: ListenerPc): nat {
    if pc.InNext? || pc.GotMessage? then 1 else 0
  }

  lemma CancelledStep(s: Sys, e: Event, l: Lid)
    requires Inv(s) && Enabled(s, e) && l in s.store.listeners && s.store.listeners[l].cancelled
    ensures var s' := Next(s, e);
            && l in s'.store.listeners && s'.store.listeners[l].cancelled
            && (if e == Listen(l, Call) then 1 else 0) + Budget(s'.store.listeners[l].pc)
               <= Budget(s.store.listeners[l].pc)
  {
    if e.Op? {
      if ActOf(s.threads[e.t]).Work? {
        WorkLeavesPlaces(s.store, s.threads[e.t], e.choice, l);
      }
    }
  }

  /** Calls of the API move no listener, and never undo a cancel. */
  lemma WorkLeavesPlaces(s: Store, pc: Pc, c: Choice, l: Lid)
    requires ActOf(pc).Work? && WorkEnabled(s, pc, c) && l in s.listeners && l != s.nextListener
    ensures var s' := WorkStore(s, pc, c);
            && l in s'.listeners && s'.listeners[l].pc == s.listeners[l].pc
            && (s.listeners[l].cancelled ==> s'.listeners[l].cancelled)
  {
  }

  /** Whatever the message queue holds, a listener starts at most one handler call after its context is cancelled by
      Unsubscribe or Disconnect, and none if at the cancel it is in neither Next nor the handling of a message. */
  lemma {:induction false} AtMostOneLateCall(s: Sys, es: seq<Event>, l: Lid)
    requires Inv(s) && Runs(s, es) && l in s.store.listeners && s.store.listeners[l].cancelled
    ensures l in Run(s, es).store.listeners
    ensures Calls(es, l) + Budget(Run(s, es).store.listeners[l].pc) <= Budget(s.store.listeners[l].pc) <= 1
    decreases |es|
  {
    if es != [] {
      CancelledStep(s, es[0], l);
      NextKeepsInv(s, es[0]);
      AtMostOneLateCall(Next(s, es[0]), es[1..], l);
    }
  }

  /** A subscription closed by Unsubscribe or Disconnect has its listener's context cancelled already, so an error
      from that close always ends the listener and is never retried. */
  lemma ClosedSubscriptionsEndTheirListener(s: Sys, l: Lid)
    requires Reachable(s) && l in s.store.listeners
    ensures s.store.listeners[l].closed ==> s.store.listeners[l].Done()
    ensures s.store.listeners[l].pc == GotError(SubscriptionClosed) ==>
              ListenNext(s.store, l, CheckError).listeners[l].pc == Returned
  {
    ReachableInv(s);
    assert SubscriptionOrdered(s.store.listeners[l]);
  }

  /** Steps a listener may still take before it has returned. */
  function Remaining(pc: ListenerPc): nat {
    match pc
    case InNext => 4
    case GotMessage => 3
    case InHandler => 2
    case ToCheck => 1
    case GotError(_) => 1
    case Returned => 0
  }

  /** Steps of the listener itself in a run. */
  ghost function StepsOf(es: seq<Event>, l: Lid): nat {
    if es == [] then 0 else (if OwnStep(es[0], l) then 1 else 0) + StepsOf(es[1..], l)
  }

  predicate OwnStep(e: Event, l: Lid) {
    e.Listen? && e.l == l && !e.what.EndCaller?
  }

  lemma OwnStepsRunOut(s: Sys, e: Event, l: Lid)
    requires Inv(s) && Enabled(s, e) && l in s.store.listeners && s.store.listeners[l].cancelled
    ensures var s' := Next(s, e);
            && l in s'.store.listeners && s'.store.listeners[l].cancelled
            && (if OwnStep(e, l) then 1 else 0) + Remaining(s'.store.listeners[l].pc)
               <= Remaining(s.store.listeners[l].pc)
  {
    CancelledStep(s, e, l);
    if e.Op? && ActOf(s.threads[e.t]).Work? {
      WorkLeavesPlaces(s.store, s.threads[e.t], e.choice, l);
    }
  }

  /** In any run a cancelled listener takes at most four more steps of its own, so that it cannot go round its loop for
      ever. */
  lemma {:induction false} CancelledListenersReturn(s: Sys, es: seq<Event>, l: Lid)
    requires Inv(s) && Runs(s, es) && l in s.store.listeners && s.store.listeners[l].cancelled
    ensures l in Run(s, es).store.listeners
    ensures StepsOf(es, l) + Remaining(Run(s, es).store.listeners[l].pc) <= Remaining(s.store.listeners[l].pc) <= 4
    decreases |es|
  {
    if es != [] {
      OwnStepsRunOut(s, es[0], l);
      NextKeepsInv(s, es[0]);
      CancelledListenersReturn(Next(s, es[0]), es[1..], l);
    }
  }
}
