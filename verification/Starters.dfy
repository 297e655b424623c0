/** Where the goroutines that may start a retry loop come from, and what becomes of each. */
module Starters {
  import opened Infrastructure
  import opened RetryInvariant
  import opened RetrySystem

  predicate Bootstrapping(pc: Pc) {
    pc.ToFirstFetch? || pc.ToFirstConnect?
  }

  /** A starter is a goroutine that a falling edge has spawned, or Connect's own, whose first bootstrap asked for a
      retry. */
  ghost predicate Origins(s: Sys) {
    && CONNECT !in s.delayed && CONNECT < s.next
    && (forall t <- s.threads :: s.threads[t].Starter() ==>
                                   t in s.delayed || (t == CONNECT && s.initial.AskedForRetry?))
    && (forall t <- s.threads :: Bootstrapping(s.threads[t]) ==> t == CONNECT && s.initial.Running?)
    && (s.edges == 0 && !s.initial.AskedForRetry? ==>
          s.fields.retryCancel.None? && forall t <- s.threads :: !s.threads[t].Starter() && !s.threads[t].Live())
  }

  lemma NextKeepsOrigins(s: Sys, e: Event)
    requires Fresh(s) && Origins(s) && Enabled(s, e)
    ensures Origins(Next(s, e))
  {
    var s' := Next(s, e);
    MoverKeepsOrigins(s, e, Mover(s, e));
    MoverKeepsOrigins(s, e, s.next);
    forall t | t in s'.threads && t != Mover(s, e) && t != s.next
      ensures t in s.threads && s'.threads[t] == s.threads[t]
    {
      OthersStay(s, e, t);
    }
    NothingElseChanges(s, e);
  }

  /** What a step makes of the goroutine it moves or starts. */
  lemma MoverKeepsOrigins(s: Sys, e: Event, t: Tid)
    requires Fresh(s) && Origins(s) && Enabled(s, e) && (t == Mover(s, e) || t == s.next)
    ensures var s' := Next(s, e);
            t in s'.threads ==>
              && (s'.threads[t].Starter() ==> t in s'.delayed || (t == CONNECT && s'.initial.AskedForRetry?))
              && (Bootstrapping(s'.threads[t]) ==> t == CONNECT && s'.initial.Running?)
              && (s'.edges == 0 && !s'.initial.AskedForRetry? ==> !s'.threads[t].Starter() && !s'.threads[t].Live())
  {
    if OfStarter(e) {
      StarterKeepsOrigins(s, e, t);
    } else if e.Commit? || e.FirstFetch? || e.FirstConnect? {
      RequestKeepsOrigins(s, e, t);
    } else {
      NoStarterInOtherSteps(s, e, t);
    }
  }

  predicate OfStarter(e: Event) {
    e.CheckRunning? || e.Wake? || e.CheckShutdown? || e.Register?
  }

  lemma StarterKeepsOrigins(s: Sys, e: Event, t: Tid)
    requires Fresh(s) && Origins(s) && Enabled(s, e) && OfStarter(e) && (t == Mover(s, e) || t == s.next)
    ensures var s' := Next(s, e);
            && s'.edges == s.edges && s'.initial == s.initial && s'.delayed == s.delayed
            && (s.edges > 0 || s.initial.AskedForRetry?)
            && (t in s'.threads ==> !Bootstrapping(s'.threads[t]) && (s'.threads[t].Starter() ==> t == e.t))
  {
    assert e.t in s.threads && s.threads[e.t].Starter();
  }

  lemma RequestKeepsOrigins(s: Sys, e: Event, t: Tid)
    requires Fresh(s) && Origins(s) && Enabled(s, e) && (t == Mover(s, e) || t == s.next)
    requires e.Commit? || e.FirstFetch? || e.FirstConnect?
    ensures var s' := Next(s, e);
            t in s'.threads ==>
              && !s'.threads[t].Live()
              && (s'.threads[t].Starter() ==>
                    if e.Commit? then t in s'.delayed && s'.edges > 0 else t == CONNECT && s'.initial.AskedForRetry?)
              && (Bootstrapping(s'.threads[t]) ==> t == CONNECT && s'.initial.Running?)
  {
  }

  lemma NoStarterInOtherSteps(s: Sys, e: Event, t: Tid)
    requires Fresh(s) && Origins(s) && Enabled(s, e) && (t == Mover(s, e) || t == s.next)
    requires !OfStarter(e) && !e.Commit? && !e.FirstFetch? && !e.FirstConnect?
    ensures var s' := Next(s, e);
            && s'.edges == s.edges && s'.initial == s.initial
            && (t in s'.threads ==>
                  && !s'.threads[t].Starter() && !Bootstrapping(s'.threads[t])
                  && (s'.threads[t].Live() ==> LiveThread(s, t)))
  {
  }

  lemma NothingElseChanges(s: Sys, e: Event)
    requires Fresh(s) && Origins(s) && Enabled(s, e)
    ensures var s' := Next(s, e);
            && s.delayed <= s'.delayed && CONNECT !in s'.delayed && s.next <= s'.next && s.edges <= s'.edges
            && (s.initial.AskedForRetry? ==> s'.initial.AskedForRetry?)
            && (s'.initial != s.initial ==> Mover(s, e) == CONNECT)
            && (s'.edges == 0 && !s'.initial.AskedForRetry? ==> s'.fields.retryCancel.None?)
  {
  }

  lemma {:induction false} RunKeepsOrigins(s: Sys, es: seq<Event>)
    requires Inv(s) && Origins(s) && Runs(s, es)
    ensures Origins(Run(s, es))
    decreases |es|
  {
    if es != [] {
      NextKeepsInv(s, es[0]);
      NextKeepsOrigins(s, es[0]);
      RunKeepsOrigins(Next(s, es[0]), es[1..]);
    }
  }

  lemma ReachableOrigins(s: Sys)
    requires Reachable(s)
    ensures Origins(s)
  {
    var peers, es :| Runs(Initially(peers), es) && Run(Initially(peers), es) == s;
    InitiallyInv(peers);
    RunKeepsOrigins(Initially(peers), es);
  }

  /** The first bootstrap ends once. */
  lemma {:induction false} BootstrapEndsOnce(s: Sys, es: seq<Event>)
    requires Inv(s) && Origins(s) && Runs(s, es) && !s.initial.Running?
    ensures Run(s, es).initial == s.initial
    decreases |es|
  {
    if es != [] {
      NextKeepsInv(s, es[0]);
      NextKeepsOrigins(s, es[0]);
      BootstrapEndsOnce(Next(s, es[0]), es[1..]);
    }
  }

  // ------------------------------------------------------------ every starter is accounted for

  ghost function PendingStarters(s: Sys): set<Tid> {
    set t | t in s.threads && s.threads[t].Starter()
  }

  /** A starter ends here: it skips, finds the node ready or shutting down, is refused, or registers a loop. */
  predicate EndsStarter(s: Sys, e: Event)
    requires Enabled(s, e)
  {
    OfStarter(e) && e.t !in Next(s, e).threads
  }

  ghost function Ended(s: Sys, es: seq<Event>): nat
    requires Runs(s, es)
    decreases |es|
  {
    if es == [] then 0 else One(EndsStarter(s, es[0])) + Ended(Next(s, es[0]), es[1..])
  }

  /** What has started a starter so far: a falling edge, or the first bootstrap. */
  function Requests(s: Sys): nat {
    s.edges + One(s.initial.AskedForRetry?)
  }

  ghost predicate StarterAt(s: Sys, t: Tid) {
    t in s.threads && s.threads[t].Starter()
  }

  lemma StepAccounts(s: Sys, e: Event)
    requires Fresh(s) && Origins(s) && Enabled(s, e)
    ensures |PendingStarters(Next(s, e))| + One(EndsStarter(s, e)) + Requests(s)
            == |PendingStarters(s)| + Requests(Next(s, e))
  {
    var s' := Next(s, e);
    OtherStartersStay(s, e);
    MoverAccounts(s, e);
    assert forall t :: t in PendingStarters(s) <==> StarterAt(s, t);
    assert forall t :: t in PendingStarters(s') <==> StarterAt(s', t);
    TwoChange(PendingStarters(s), PendingStarters(s'), Mover(s, e), s.next);
  }

  lemma OtherStartersStay(s: Sys, e: Event)
    requires Enabled(s, e)
    ensures forall t | t != Mover(s, e) && t != s.next :: StarterAt(Next(s, e), t) <==> StarterAt(s, t)
  {
    forall t | t != Mover(s, e) && t != s.next
      ensures StarterAt(Next(s, e), t) <==> StarterAt(s, t)
    {
      OthersStay(s, e, t);
    }
  }

  /** The members but m and n, of which n is new, are the same. */
  lemma TwoChange(a: set<Tid>, b: set<Tid>, m: Tid, n: Tid)
    requires n !in a && a - {m, n} == b - {m, n}
    ensures |b| + One(m in a) == |a| + One(m in b) + One(n != m && n in b)
  {
    OneLess(a, m);
    OneLess(b, m);
    OneLess(b - {m}, n);
    assert a - {m} == a - {m, n} == (b - {m}) - {n};
  }

  lemma OneLess(a: set<Tid>, m: Tid)
    ensures |a| == |a - {m}| + One(m in a)
  {
    assert m in a ==> a == (a - {m}) + {m};
    assert m !in a ==> a == a - {m};
  }

  lemma MoverAccounts(s: Sys, e: Event)
    requires Fresh(s) && Origins(s) && Enabled(s, e)
    ensures var s' := Next(s, e); var m := Mover(s, e);
            One(StarterAt(s', m)) + One(s.next != m && StarterAt(s', s.next)) + One(EndsStarter(s, e)) + Requests(s)
            == One(StarterAt(s, m)) + Requests(s')
  {
    if e.Commit? {
      CommitAccounts(s, e.t);
    } else if e.FirstFetch? || e.FirstConnect? {
      BootstrapAccounts(s, e);
    } else if OfStarter(e) {
      StarterAccounts(s, e);
    } else {
      OtherAccounts(s, e);
    }
  }

  lemma CommitAccounts(s: Sys, t: Tid)
    requires Fresh(s) && Enabled(s, Commit(t))
    ensures var s' := Next(s, Commit(t));
            One(StarterAt(s', s.next)) == s'.edges - s.edges && !StarterAt(s, t) && !StarterAt(s', t)
            && s'.initial == s.initial
  {
  }

  lemma BootstrapAccounts(s: Sys, e: Event)
    requires Fresh(s) && Origins(s) && Enabled(s, e) && (e.FirstFetch? || e.FirstConnect?)
    ensures var s' := Next(s, e);
            && !StarterAt(s, e.t) && !s.initial.AskedForRetry? && !StarterAt(s', s.next) && s'.edges == s.edges
            && (StarterAt(s', e.t) <==> s'.initial.AskedForRetry?)
  {
  }

  lemma StarterAccounts(s: Sys, e: Event)
    requires Fresh(s) && Enabled(s, e) && OfStarter(e)
    ensures var s' := Next(s, e);
            && StarterAt(s, e.t) && (StarterAt(s', e.t) <==> !EndsStarter(s, e)) && !StarterAt(s', s.next)
            && s'.edges == s.edges && s'.initial == s.initial
  {
  }

  lemma OtherAccounts(s: Sys, e: Event)
    requires Fresh(s) && Enabled(s, e)
    requires !(e.Commit? || e.FirstFetch? || e.FirstConnect?) && !OfStarter(e)
    ensures var s' := Next(s, e);
            && !StarterAt(s, Mover(s, e)) && !StarterAt(s', Mover(s, e)) && !StarterAt(s', s.next)
            && s'.edges == s.edges && s'.initial == s.initial
  {
  }

  lemma RegistersAtItsEnd(s: Sys, e: Event)
    requires Fresh(s) && Enabled(s, e)
    ensures Registers(s, e) ==> EndsStarter(s, e)
    ensures Next(s, e).fields.nextCtx == s.fields.nextCtx + One(Registers(s, e))
  {
  }

  /** Every goroutine that may start a loop was requested by one falling edge or by the first bootstrap, and is still
      pending or has ended in one way. A loop is registered only where one ends. */
  lemma {:induction false} StartersAccounted(s: Sys, es: seq<Event>)
    requires Inv(s) && Origins(s) && Runs(s, es)
    ensures |PendingStarters(Run(s, es))| + Ended(s, es) + Requests(s) == |PendingStarters(s)| + Requests(Run(s, es))
    ensures Registrations(s, es) <= Ended(s, es)
    ensures Registrations(s, es) == Run(s, es).fields.nextCtx - s.fields.nextCtx
    decreases |es|
  {
    if es != [] {
      StepAccounts(s, es[0]);
      RegistersAtItsEnd(s, es[0]);
      NextKeepsInv(s, es[0]);
      NextKeepsOrigins(s, es[0]);
      StartersAccounted(Next(s, es[0]), es[1..]);
    }
  }

  // ------------------------------------------------------------ what makes a starter end

  /** Steps of this goroutine. */
  predicate StarterStep(e: Event, t: Tid) {
    e == CheckRunning(t) || e == Wake(t) || e == CheckShutdown(t) || e == Register(t)
  }

  lemma {:induction false} GoneForGood(s: Sys, es: seq<Event>, t: Tid)
    requires Inv(s) && Runs(s, es) && t !in s.threads && t < s.next
    ensures t !in Run(s, es).threads
    ensures forall e <- es :: !StarterStep(e, t)
    decreases |es|
  {
    if es != [] {
      var e := es[0];
      NextKeepsInv(s, e);
      NobodyComesBack(s, e, t);
      GoneForGood(Next(s, e), es[1..], t);
      assert es == [e] + es[1..];
    }
  }

  lemma NobodyComesBack(s: Sys, e: Event, t: Tid)
    requires Fresh(s) && Enabled(s, e) && t !in s.threads && t < s.next
    ensures t !in Next(s, e).threads && t < Next(s, e).next && !StarterStep(e, t)
  {
    OthersStay(s, e, t);
  }

  /** A starter that finds a loop registered, or after its delay the node ready, or the shutdown begun, takes no further
      step in any later run; in particular it neither checks for the shutdown nor registers. */
  lemma StarterGivesUp(s: Sys, e: Event, t: Tid, es: seq<Event>)
    requires Inv(s) && Enabled(s, e) && Runs(Next(s, e), es)
    requires || (e == CheckRunning(t) && s.fields.retryCancel.Some?)
             || (e == Wake(t) && s.fields.isReady)
             || (e == CheckShutdown(t) && SHUTDOWN in s.fields.ctxs.cancelled)
             || (e == Register(t) && s.fields.retryCancel.Some?)
    ensures CheckRunning(t) !in es && Wake(t) !in es && CheckShutdown(t) !in es && Register(t) !in es
    ensures e == Register(t) ==> Next(s, e).fields == s.fields
  {
    NextKeepsInv(s, e);
    GoneForGood(Next(s, e), es, t);
    assert forall x <- es :: !StarterStep(x, t);
  }

  /** Nobody but this starter takes steps. */
  predicate OnlyStarter(es: seq<Event>, t: Tid) {
    es == [] || (StarterStep(es[0], t) && OnlyStarter(es[1..], t))
  }

  lemma {:induction false} StarterAlone(s: Sys, t: Tid, es: seq<Event>)
    requires Inv(s) && StarterAt(s, t) && Runs(s, es) && OnlyStarter(es, t) && t !in Run(s, es).threads
    ensures var f := s.fields; var pc := s.threads[t];
            Registrations(s, es)
            == One(&& f.retryCancel.None?
                   && (pc.ToRegister? || SHUTDOWN !in f.ctxs.cancelled)
                   && (pc.ToRegister? || pc.ToCheckShutdown? || !f.isReady))
    decreases |es|
  {
    var e := es[0];
    var s' := Next(s, e);
    NextKeepsInv(s, e);
    if t in s'.threads {
      StarterStepLooksOnly(s, e, t);
      StarterAlone(s', t, es[1..]);
    } else {
      if es[1..] != [] {
        FirstMover(s', t, es[1..]);
      }
      StarterEnds(s, e, t);
    }
  }

  lemma FirstMover(s: Sys, t: Tid, es: seq<Event>)
    requires es != [] && Runs(s, es) && OnlyStarter(es, t)
    ensures t in s.threads
  {
  }

  lemma StarterStepLooksOnly(s: Sys, e: Event, t: Tid)
    requires Fresh(s) && Enabled(s, e) && StarterStep(e, t) && t in Next(s, e).threads
    ensures var s' := Next(s, e); var pc' := s'.threads[t];
            && s'.fields == s.fields && StarterAt(s', t) && !Registers(s, e)
            && if e.CheckRunning? then s.fields.retryCancel.None? && pc'.Sleeping?
               else if e.Wake? then !s.fields.isReady && pc'.ToCheckShutdown?
               else e.CheckShutdown? && SHUTDOWN !in s.fields.ctxs.cancelled && pc'.ToRegister?
  {
  }

  lemma StarterEnds(s: Sys, e: Event, t: Tid)
    requires Fresh(s) && Enabled(s, e) && StarterStep(e, t) && t !in Next(s, e).threads
    ensures if e.CheckRunning? then s.fields.retryCancel.Some?
            else if e.Wake? then s.fields.isReady
            else if e.CheckShutdown? then SHUTDOWN in s.fields.ctxs.cancelled
            else Registers(s, e) <==> s.fields.retryCancel.None?
  {
  }

  /** A delayed starter that nothing interrupts registers a loop exactly if none is registered, the node is not ready,
      and the shutdown has not begun. */
  lemma StarterInOneGo(s: Sys, t: Tid, es: seq<Event>)
    requires Reachable(s) && s.At(t, ToCheckRunning)
    requires Runs(s, es) && OnlyStarter(es, t) && t !in Run(s, es).threads
    ensures Registrations(s, es) == 1
            <==> s.fields.retryCancel.None? && !s.fields.isReady && SHUTDOWN !in s.fields.ctxs.cancelled
    ensures Registrations(s, es) == 1 <==> Run(s, es).fields.nextCtx == s.fields.nextCtx + 1
  {
    ReachableInv(s);
    ReachableOrigins(s);
    StarterAlone(s, t, es);
    StartersAccounted(s, es);
  }
}
