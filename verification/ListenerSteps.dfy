/** messageListener as a method, and as a goroutine of the step system, agree. */
module ListenerSteps {
  import opened Topics
  import opened PubSubSystem
  import opened ListenerLife
  import L = Listener

  /** What one pass of the loop is, step by step, for a listener whose context is not done. A context that ends during
      the pass is that of the caller. */
  function Steps(self: L.PeerId, p: L.Pass): seq<ListenerEvent> {
    match p
    case ContextDone => [EndCaller, Check]
    case NextFails(contextDone) =>
      if contextDone then [Check, EndCaller, Fail(ContextEnded), CheckError] else [Check, Fail(Other), CheckError]
    case Received(msg, handlerPanics) =>
      [Check, Message] + if !L.Accepted(self, msg) then [Skip] else [Call, if handlerPanics then Panic else Return]
  }

  function StepEvents(l: Lid, steps: seq<ListenerEvent>): seq<Event> {
    if steps == [] then [] else [Listen(l, steps[0])] + StepEvents(l, steps[1..])
  }

  ghost function AfterPass(self: L.PeerId, x: Listener, p: L.Pass): Listener {
    x.(pc := if L.Ends(self, p) then Returned else ToCheck,
       callerDone := x.callerDone || p.ContextDone? || (p.NextFails? && p.contextDone))
  }

  /** A nil handler panics when it is called. */
  predicate Fits(self: L.PeerId, x: Listener, p: L.Pass) {
    p.Received? && L.Accepted(self, p.msg) && !p.handlerPanics ==> x.hasHandler
  }

  /** A listener, taking these steps one after the other. */
  ghost predicate Takes(x: Listener, steps: seq<ListenerEvent>, x': Listener)
    decreases |steps|
  {
    if steps == [] then x' == x
    else StepAllowed(x, steps[0]) && Takes(StepTaken(x, steps[0]), steps[1..], x')
  }

  ghost function Alone(x: Listener): Store {
    Store("", map[], map[], {}, {}, 0, map[0 := x], 1, {})
  }

  ghost predicate StepAllowed(x: Listener, what: ListenerEvent) {
    ListenEnabled(Alone(x), 0, what)
  }

  ghost function StepTaken(x: Listener, what: ListenerEvent): Listener
    requires StepAllowed(x, what)
  {
    ListenNext(Alone(x), 0, what).listeners[0]
  }

  lemma {:induction false} TakesRuns(s: Sys, l: Lid, steps: seq<ListenerEvent>, x': Listener)
    requires l in s.store.listeners && Takes(s.store.listeners[l], steps, x')
    ensures Runs(s, StepEvents(l, steps)) && Run(s, StepEvents(l, steps)) == s.(store := s.store.Update(l, x'))
    decreases |steps|
  {
    if steps == [] {
      assert s.store.Update(l, x') == s.store;
    } else {
      var s' := Next(s, Listen(l, steps[0]));
      TakesRuns(s', l, steps[1..], x');
      assert StepEvents(l, steps)[1..] == StepEvents(l, steps[1..]);
      assert s'.store.Update(l, x') == s.store.Update(l, x');
    }
  }

  lemma TakesTwo(x: Listener, a: ListenerEvent, b: ListenerEvent)
    requires StepAllowed(x, a) && StepAllowed(StepTaken(x, a), b)
    ensures Takes(x, [a, b], StepTaken(StepTaken(x, a), b))
  {
    var x1 := StepTaken(x, a);
    assert [b][1..] == [];
    assert Takes(x1, [b], StepTaken(x1, b));
    assert [a, b][1..] == [b];
  }

  lemma TakesMore(x: Listener, a: ListenerEvent, rest: seq<ListenerEvent>, x': Listener)
    requires StepAllowed(x, a) && Takes(StepTaken(x, a), rest, x')
    ensures Takes(x, [a] + rest, x')
  {
    assert ([a] + rest)[1..] == rest;
  }

  lemma PassTakes(self: L.PeerId, x: Listener, p: L.Pass)
    requires x.pc.ToCheck? && !x.Done() && Fits(self, x, p)
    ensures Takes(x, Steps(self, p), AfterPass(self, x, p))
  {
    match p
    case ContextDone => TakesTwo(x, EndCaller, Check);
    case NextFails(contextDone) => FailureTakes(self, x, contextDone);
    case Received(msg, handlerPanics) =>
      if L.Accepted(self, msg) {
        CallTakes(self, x, msg, handlerPanics);
      } else {
        TakesTwo(x.(pc := InNext), Message, Skip);
        TakesMore(x, Check, [Message, Skip], x);
        assert [Check] + [Message, Skip] == Steps(self, p);
      }
  }

  lemma FailureTakes(self: L.PeerId, x: Listener, contextDone: bool)
    requires x.pc.ToCheck? && !x.Done()
    ensures var p := L.NextFails(contextDone); Takes(x, Steps(self, p), AfterPass(self, x, p))
  {
    var x' := AfterPass(self, x, L.NextFails(contextDone));
    if contextDone {
      TakesTwo(x.(pc := InNext, callerDone := true), Fail(ContextEnded), CheckError);
      TakesMore(x.(pc := InNext), EndCaller, [Fail(ContextEnded), CheckError], x');
      TakesMore(x, Check, [EndCaller] + [Fail(ContextEnded), CheckError], x');
      assert [Check] + ([EndCaller] + [Fail(ContextEnded), CheckError]) == Steps(self, L.NextFails(true));
    } else {
      TakesTwo(x.(pc := InNext), Fail(Other), CheckError);
      TakesMore(x, Check, [Fail(Other), CheckError], x');
      assert [Check] + [Fail(Other), CheckError] == Steps(self, L.NextFails(false));
    }
  }

  lemma CallTakes(self: L.PeerId, x: Listener, msg: L.Message, handlerPanics: bool)
    requires x.pc.ToCheck? && !x.Done() && L.Accepted(self, msg) && (!handlerPanics ==> x.hasHandler)
    ensures var p := L.Received(msg, handlerPanics); Takes(x, Steps(self, p), AfterPass(self, x, p))
  {
    var x' := x.(pc := if handlerPanics then Returned else ToCheck);
    var last := if handlerPanics then Panic else Return;
    TakesTwo(x.(pc := GotMessage), Call, last);
    TakesMore(x.(pc := InNext), Message, [Call, last], x');
    TakesMore(x, Check, [Message] + [Call, last], x');
    assert [Check] + ([Message] + [Call, last]) == Steps(self, L.Received(msg, handlerPanics));
  }

  lemma {:induction false} CallsAppend(es: seq<Event>, fs: seq<Event>, l: Lid)
    ensures Calls(es + fs, l) == Calls(es, l) + Calls(fs, l)
  {
    if es == [] {
      assert es + fs == fs;
    } else {
      CallsAppend(es[1..], fs, l);
      assert (es + fs)[1..] == es[1..] + fs;
    }
  }

  lemma {:induction false} RunAppend(s: Sys, es: seq<Event>, fs: seq<Event>)
    requires Runs(s, es) && Runs(Run(s, es), fs)
    ensures Runs(s, es + fs) && Run(s, es + fs) == Run(Run(s, es), fs)
    decreases |es|
  {
    if es == [] {
      assert es + fs == fs;
    } else {
      RunAppend(Next(s, es[0]), es[1..], fs);
      assert (es + fs)[1..] == es[1..] + fs;
    }
  }

  /** One pass calls the handler exactly if the method's pass does. */
  lemma PassCalls(self: L.PeerId, p: L.Pass, l: Lid)
    ensures Calls(StepEvents(l, Steps(self, p)), l) == |L.Deliveries(self, [p])|
  {
    assert [p][..0] == [];
    CallsOfSteps(l, Steps(self, p));
    assert Call in Steps(self, p) <==> p.Received? && L.Accepted(self, p.msg);
  }

  lemma CallsOfSteps(l: Lid, steps: seq<ListenerEvent>)
    requires forall i, j | 0 <= i < j < |steps| :: steps[i] == Call ==> steps[j] != Call
    ensures Calls(StepEvents(l, steps), l) == if Call in steps then 1 else 0
    decreases |steps|
  {
    if steps != [] {
      CallsOfSteps(l, steps[1..]);
      assert StepEvents(l, steps)[1..] == StepEvents(l, steps[1..]);
      assert steps == [steps[0]] + steps[1..];
    }
  }

  /** Over a whole stream, the listener goroutine calls its handler as often as the method delivers an event, and
      returns exactly where the method does. */
  lemma {:induction false} ListensInOneGo(s: Sys, l: Lid, self: L.PeerId, passes: seq<L.Pass>) returns (es: seq<Event>)
    requires l in s.store.listeners && s.store.listeners[l].pc.ToCheck? && !s.store.listeners[l].Done()
    requires forall i | 0 <= i < |passes| - 1 :: !L.Ends(self, passes[i])
    requires forall p <- passes :: Fits(self, s.store.listeners[l], p)
    ensures Runs(s, es) && Calls(es, l) == |L.Deliveries(self, passes)|
    ensures var x := s.store.listeners[l];
            var x' := if passes == [] then x else AfterPass(self, x, passes[|passes| - 1]);
            Run(s, es) == s.(store := s.store.Update(l, x'))
    decreases |passes|
  {
    if passes == [] {
      es := [];
      assert s.store.Update(l, s.store.listeners[l]) == s.store;
    } else {
      var m := |passes| - 1;
      var p := passes[m];
      var before := passes[..m];
      assert forall q <- before :: q in passes;
      es := ListensInOneGo(s, l, self, before);
      LastPass(s, Run(s, es), l, self, before, p, es);
      es := es + StepEvents(l, Steps(self, p));
      assert L.Deliveries(self, before + [p]) == L.Deliveries(self, before) + L.Deliveries(self, [p]) by {
        L.DeliveriesConcat(self, before, [p]);
      }
      assert passes == before + [p];
    }
  }

  /** The pass that follows those that did not end the listener. */
  lemma LastPass(s: Sys, s1: Sys, l: Lid, self: L.PeerId, before: seq<L.Pass>, p: L.Pass, es: seq<Event>)
    requires l in s.store.listeners && s.store.listeners[l].pc.ToCheck? && !s.store.listeners[l].Done()
    requires Runs(s, es) && Run(s, es) == s1 && (before != [] ==> !L.Ends(self, before[|before| - 1]))
    requires var x := s.store.listeners[l];
             s1 == s.(store := s.store.Update(l, if before == [] then x else AfterPass(self, x, before[|before| - 1])))
    requires Fits(self, s.store.listeners[l], p)
    ensures var fs := StepEvents(l, Steps(self, p));
            && Runs(s, es + fs) && Calls(es + fs, l) == Calls(es, l) + |L.Deliveries(self, [p])|
            && Run(s, es + fs) == s.(store := s.store.Update(l, AfterPass(self, s.store.listeners[l], p)))
  {
    var x := s.store.listeners[l];
    assert s1 == s;
    PassTakes(self, x, p);
    TakesRuns(s, l, Steps(self, p), AfterPass(self, x, p));
    RunAppend(s, es, StepEvents(l, Steps(self, p)));
    CallsAppend(es, StepEvents(l, Steps(self, p)), l);
    PassCalls(self, p, l);
  }
}
