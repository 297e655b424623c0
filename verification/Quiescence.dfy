/** What is left of bootstrap retry once the shutdown context is cancelled. */
module Quiescence {
  import opened Infrastructure
  import opened RetryScenarios
  import opened RetryInvariant
  import opened RetrySystem

  /** Goroutines between the shutdown check and the registration. */
  ghost function PastCheck(s: Sys): set<Tid> {
    set t | t in s.threads && s.threads[t].ToRegister?
  }

  ghost function Live(s: Sys): set<Tid> {
    set t | t in s.threads && s.threads[t].Live()
  }

  ghost function Measure(s: Sys): nat {
    2 * |PastCheck(s)| + |Live(s)|
  }

  /** How much an event lowers the measure: a refused starter counts twice. */
  ghost function Drop(s: Sys, e: Event): nat {
    if e.Register? then (if s.fields.retryCancel.Some? then 2 else 1)
    else if e.ClearOwn? then 1
    else 0
  }

  lemma MeasureDrops(s: Sys, e: Event)
    requires Inv(s) && s.fields.ShuttingDown() && Enabled(s, e)
    ensures Measure(Next(s, e)) + Drop(s, e) == Measure(s)
    ensures |PastCheck(Next(s, e))| == |PastCheck(s)| - (if e.Register? then 1 else 0)
  {
    if e.Register? {
      FinishLeaves(s, e.t);
      if s.fields.retryCancel.None? {
        SpawnJoins(s.With(s.fields.Register(SHUTDOWN)).Finish(e.t), ToSelect(s.fields.nextCtx));
      }
    } else if e.ClearOwn? {
      FinishLeaves(s, e.t);
    } else {
      StandingKept(s, e);
    }
  }

  lemma FinishLeaves(s: Sys, t: Tid)
    requires t in s.threads
    ensures |PastCheck(s.Finish(t))| == |PastCheck(s)| - (if s.threads[t].ToRegister? then 1 else 0)
    ensures |Live(s.Finish(t))| == |Live(s)| - (if s.threads[t].Live() then 1 else 0)
  {
    assert PastCheck(s.Finish(t)) == PastCheck(s) - {t};
    assert Live(s.Finish(t)) == Live(s) - {t};
  }

  lemma SpawnJoins(s: Sys, pc: Pc)
    requires s.next !in s.threads && pc.ToSelect?
    ensures |PastCheck(s.Spawn(pc))| == |PastCheck(s)|
    ensures |Live(s.Spawn(pc))| == |Live(s)| + 1
  {
    var s' := s.Spawn(pc);
    assert forall t | t != s.next :: t in s'.threads <==> t in s.threads;
    assert PastCheck(s') == PastCheck(s);
    assert Live(s') == Live(s) + {s.next};
  }

  lemma StandingKept(s: Sys, e: Event)
    requires Inv(s) && s.fields.ShuttingDown() && Enabled(s, e) && !e.Register? && !e.ClearOwn?
    ensures PastCheck(Next(s, e)) == PastCheck(s) && Live(Next(s, e)) == Live(s)
  {
    var s' := Next(s, e);
    forall t
      ensures SameStanding(s, s', t)
    {
      if t != Mover(s, e) && t != s.next {
        OthersStay(s, e, t);
      } else {
        MoverKeepsStanding(s, e);
      }
    }
    assert forall t :: (t in PastCheck(s) <==> t in PastCheck(s')) && (t in Live(s) <==> t in Live(s')) by {
      forall t
        ensures (t in PastCheck(s) <==> t in PastCheck(s')) && (t in Live(s) <==> t in Live(s'))
      {
        assert SameStanding(s, s', t);
      }
    }
  }

  ghost predicate SameStanding(s: Sys, s': Sys, t: Tid) {
    && ((t in s.threads && s.threads[t].ToRegister?) <==> (t in s'.threads && s'.threads[t].ToRegister?))
    && (LiveThread(s, t) <==> LiveThread(s', t))
  }

  lemma MoverKeepsStanding(s: Sys, e: Event)
    requires Fresh(s) && s.fields.ShuttingDown() && Enabled(s, e) && !e.Register? && !e.ClearOwn?
    ensures SameStanding(s, Next(s, e), Mover(s, e)) && SameStanding(s, Next(s, e), s.next)
  {
  }

  ghost function Drops(s: Sys, es: seq<Event>): nat
    requires Runs(s, es)
    decreases |es|
  {
    if es == [] then 0 else Drop(s, es[0]) + Drops(Next(s, es[0]), es[1..])
  }

  /** After the shutdown, registrations, refusals and loop exits use up the measure exactly, and at most as many
      loops start late as there were goroutines past the shutdown check. */
  lemma {:induction false} ShutdownQuiescence(s: Sys, es: seq<Event>)
    requires Inv(s) && s.fields.ShuttingDown() && Runs(s, es)
    ensures Measure(Run(s, es)) + Drops(s, es) == Measure(s)
    ensures Registrations(s, es) + |PastCheck(Run(s, es))| <= |PastCheck(s)|
    decreases |es|
  {
    if es != [] {
      MeasureDrops(s, es[0]);
      NextKeepsInv(s, es[0]);
      ShutdownQuiescence(Next(s, es[0]), es[1..]);
    }
  }

  /** Every loop, whenever it registered, finds its context done after the shutdown, so its select can always take
      the exit branch. */
  lemma LoopsAreCancelled(s: Sys, es: seq<Event>, t: Tid)
    requires Inv(s) && s.fields.ShuttingDown() && Runs(s, es)
    requires LiveThread(Run(s, es), t)
    ensures Run(s, es).fields.ctxs.Done(Run(s, es).threads[t].ctx)
    ensures Run(s, es).threads[t].ToSelect? ==> Enabled(Run(s, es), SeeCancel(t))
  {
    RunKeepsInv(s, es);
    StaysShut(s, es);
    DoneMeansCancelled(Run(s, es), t);
  }

  lemma {:induction false} StaysShut(s: Sys, es: seq<Event>)
    requires s.fields.ShuttingDown() && Runs(s, es)
    ensures Run(s, es).fields.ShuttingDown()
    decreases |es|
  {
    if es != [] {
      StaysShut(Next(s, es[0]), es[1..]);
    }
  }

  /** Steps of a retry loop, from its first select to its deferred clear. */
  predicate OfLoop(e: Event) {
    || e.Tick? || e.SeeCancel? || e.ReadReady? || e.FetchNodes? || e.Connect? || e.CancelOwn? || e.ClearOwn?
  }

  /** With no live loop and nobody past the check, retrying is over for good: no event of a later run belongs to a
      retry loop, and nothing is ever registered again. */
  lemma {:induction false} QuietForGood(s: Sys, es: seq<Event>)
    requires Inv(s) && s.fields.ShuttingDown() && Measure(s) == 0 && Runs(s, es)
    ensures Measure(Run(s, es)) == 0 && Run(s, es).fields.retryCancel.None?
    ensures forall e <- es :: !e.Register? && !OfLoop(e)
    decreases |es|
  {
    assert PastCheck(s) == {} && Live(s) == {};
    assert forall t :: LiveThread(s, t) ==> t in Live(s);
    if es != [] {
      var e := es[0];
      assert e.Register? ==> e.t in PastCheck(s);
      assert OfLoop(e) ==> e.t in Live(s);
      MeasureDrops(s, e);
      NextKeepsInv(s, e);
      QuietForGood(Next(s, e), es[1..]);
      assert es == [e] + es[1..];
    }
  }

  // ------------------------------------------------------------ loops that come late

  /** How many steps a loop that finds its context done is from its end. */
  function ToTheEnd(pc: Pc): nat {
    match pc
    case ToReadReady(_) => 5
    case ToFetch(_) => 4
    case ToConnect(_) => 4
    case ToSelect(_) => 3
    case ToCancelOwn(_, _) => 2
    case ToClearOwn(_, _) => 1
    case _ => 0
  }

  function WayOut(pc: Pc, t: Tid): Event
    requires pc.Live()
  {
    match pc
    case ToReadReady(_) => ReadReady(t)
    case ToFetch(_) => FetchNodes(t, NoNodes)
    case ToConnect(_) => Connect(t, AttemptFailed)
    case ToSelect(_) => SeeCancel(t)
    case ToCancelOwn(_, _) => CancelOwn(t)
    case ToClearOwn(_, _) => ClearOwn(t)
  }

  /** After the shutdown any loop can go straight to its end, and then nothing is registered. */
  lemma {:induction false} LoopEnds(s: Sys, t: Tid) returns (es: seq<Event>)
    requires Inv(s) && s.fields.ShuttingDown() && LiveThread(s, t)
    ensures Runs(s, es) && Registrations(s, es) == 0
    ensures var s' := Run(s, es);
            && Inv(s') && s'.fields.ShuttingDown() && s'.fields.retryCancel.None?
            && PastCheck(s') == PastCheck(s)
    decreases ToTheEnd(s.threads[t])
  {
    var e := WayOut(s.threads[t], t);
    NextKeepsInv(s, e);
    var s' := LeavesNow(s, t);
    if e.ClearOwn? {
      es := [];
      assert Runs(s', es) && Run(s', es) == s' && Registrations(s', es) == 0;
    } else {
      es := LoopEnds(s', t);
    }
    assert ([e] + es)[1..] == es;
    es := [e] + es;
  }

  lemma LeavesNow(s: Sys, t: Tid) returns (s': Sys)
    requires Inv(s) && s.fields.ShuttingDown() && LiveThread(s, t)
    ensures var e := WayOut(s.threads[t], t);
            && Enabled(s, e) && s' == Next(s, e) && s'.fields.ShuttingDown() && PastCheck(s') == PastCheck(s)
            && if e.ClearOwn? then s'.fields.retryCancel.None?
               else LiveThread(s', t) && ToTheEnd(s'.threads[t]) < ToTheEnd(s.threads[t])
  {
    var e := WayOut(s.threads[t], t);
    s' := Next(s, e);
    if !e.ClearOwn? {
      StandingKept(s, e);
    }
  }

  ghost predicate LoopMayRegister(s: Sys) {
    exists es :: Runs(s, es) && Registrations(s, es) > 0
  }

  /** A loop can register after the shutdown exactly if a goroutine is past the shutdown check. */
  lemma LateLoopExactly(s: Sys)
    requires Inv(s) && s.fields.ShuttingDown()
    ensures LoopMayRegister(s) <==> PastCheck(s) != {}
  {
    if PastCheck(s) == {} {
      forall es | Runs(s, es)
        ensures Registrations(s, es) == 0
      {
        ShutdownQuiescence(s, es);
      }
    } else if s.fields.retryCancel.None? {
      var es := RegistersNow(s);
    } else {
      var t :| LiveThread(s, t) && s.threads[t].ctx == s.fields.retryCancel.value;
      var es := LoopEnds(s, t);
      var fs := RegistersNow(Run(s, es));
      RegistrationsAppend(s, es, fs);
    }
  }

  lemma RegistersNow(s: Sys) returns (es: seq<Event>)
    requires PastCheck(s) != {} && s.fields.retryCancel.None?
    ensures Runs(s, es) && Registrations(s, es) == 1
  {
    var t :| t in PastCheck(s);
    es := [Register(t)];
    var s' := Next(s, Register(t));
    assert Runs(s', []) && Registrations(s', []) == 0;
    assert es[1..] == [];
  }

  /** That does happen: a delayed starter that passed the check before Disconnect registers when it is over. */
  lemma LateLoop()
    ensures exists s :: Reachable(s) && s.fields.ShuttingDown() && s.fields.retryCancel.Some?
                        && Live(s) == s.threads.Keys
  {
    var s := InitialSuccess();
    s := OneMoreStarter(s);
    s := StarterPastTheCheck(s, 3);
    s := Disconnected(s);
    s := Do(s, Register(3));
    assert Live(s) == s.threads.Keys;
  }
}
