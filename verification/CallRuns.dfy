/** Whole calls of Publish and Disconnect in any run: what they pass, whatever else happens in between. */
module CallRuns {
  import opened Topics
  import opened PubSubInvariant
  import opened PubSubSystem
  import opened DisconnectOrder

  /** A step of a call: where the call stood, what was decided, and the store it met. */
  datatype Passed = Passed(pc: Pc, choice: Choice, store: Store)

  /** The steps of one call in a run. */
  ghost function Log(s: Sys, es: seq<Event>, t: Tid): seq<Passed>
    requires Runs(s, es)
    decreases |es|
  {
    if es == [] then [] else Step(s, es[0], t) + Log(Next(s, es[0]), es[1..], t)
  }

  function Step(s: Sys, e: Event, t: Tid): seq<Passed>
    requires Enabled(s, e)
  {
    if e.Op? && e.t == t then [Passed(s.threads[t], e.choice, s.store)] else []
  }

  // ------------------------------------------------------------ Publish

  ghost function Lookups(log: seq<Passed>): seq<Passed> {
    if log == [] then [] else (if log[0].pc.PubLookup? then [log[0]] else []) + Lookups(log[1..])
  }

  ghost function Sends(log: seq<Passed>): seq<Passed> {
    if log == [] then [] else (if log[0].pc.PubSend? then [log[0]] else []) + Sends(log[1..])
  }

  /** One lookup of the topic. Nothing is sent if the topic was not there and its Join failed. Otherwise there is one
      send, on a handle of the topic: the one that was in topics, and is there still; or else one that is new. */
  ghost predicate LooksUpAndSends(log: seq<Passed>, key: string) {
    && |Lookups(log)| == 1
    && var at := Lookups(log)[0];
    && at.pc == PubLookup(key)
    && if key in at.store.topics then
         && |Sends(log)| == 1 && Sends(log)[0].pc == PubSend(at.store.topics[key])
         && Sends(log)[0].store.topics == at.store.topics
       else if at.choice.ok then
         && |Sends(log)| == 1 && Sends(log)[0].pc.PubSend? && Sends(log)[0].pc.h.key == key
         && Sends(log)[0].pc.h !in at.store.open
       else Sends(log) == []
  }

  /** Where a Publish of this topic can stand. */
  ghost predicate Publishing(s: Sys, t: Tid, key: string) {
    t in s.threads ==>
      var pc := s.threads[t];
      || ((pc.PubRLock? || pc.PubLookup?) && pc.key == key)
      || ((InGap(pc) || pc.PubUnlock? || pc.PubRelock? || pc.PubSend?) && pc.h.key == key)
      || pc.PubDone?
  }

  /** What it still passes before its end. */
  ghost predicate PublishRemains(s: Sys, t: Tid, key: string, log: seq<Passed>) {
    if t in s.threads && (s.threads[t].PubRLock? || s.threads[t].PubLookup?) then LooksUpAndSends(log, key)
    else
      && Lookups(log) == []
      && if t !in s.threads || s.threads[t].PubDone? then Sends(log) == []
         else
           && |Sends(log)| == 1 && Holding(s.threads[t]) && Sends(log)[0].pc == PubSend(s.threads[t].h)
           && (s.threads[t].PubSend? ==> Sends(log)[0].store.topics == s.store.topics)
  }

  predicate Holding(pc: Pc) {
    InGap(pc) || pc.PubUnlock? || pc.PubRelock? || pc.PubSend?
  }

  lemma Unlog(x: Passed, log: seq<Passed>)
    ensures Lookups([x] + log) == (if x.pc.PubLookup? then [x] else []) + Lookups(log)
    ensures Sends([x] + log) == (if x.pc.PubSend? then [x] else []) + Sends(log)
  {
    assert ([x] + log)[1..] == log;
  }

  lemma {:induction false} PublishGoesOn(s: Sys, es: seq<Event>, t: Tid, key: string)
    requires Inv(s) && t < s.next && Publishing(s, t, key) && Runs(s, es) && t !in Run(s, es).threads
    ensures PublishRemains(s, t, key, Log(s, es, t))
    decreases |es|
  {
    if es != [] {
      var e := es[0];
      var s' := Next(s, e);
      NextKeepsInv(s, e);
      StepPublishes(s, e, t, key);
      PublishGoesOn(s', es[1..], t, key);
      StepPasses(s, e, t, key, Log(s', es[1..], t));
    }
  }

  lemma StepPasses(s: Sys, e: Event, t: Tid, key: string, log: seq<Passed>)
    requires Inv(s) && Enabled(s, e) && t < s.next && Publishing(s, t, key)
    requires Publishing(Next(s, e), t, key) && PublishRemains(Next(s, e), t, key, log)
    ensures PublishRemains(s, t, key, Step(s, e, t) + log)
  {
    if e.Op? && e.t == t {
      OwnStepPasses(s, t, e.choice, key, log);
    } else {
      OtherStepPasses(s, e, t, key, log);
      assert [] + log == log;
    }
  }

  lemma StepPublishes(s: Sys, e: Event, t: Tid, key: string)
    requires Inv(s) && Enabled(s, e) && t < s.next && Publishing(s, t, key)
    ensures Publishing(Next(s, e), t, key) && t < Next(s, e).next
  {
    if e.Op? && e.t == t {
      OwnStepPublishes(s, t, e.choice, key);
    } else {
      OtherStepStays(s, e, t);
    }
  }

  lemma OtherStepPasses(s: Sys, e: Event, t: Tid, key: string, log: seq<Passed>)
    requires Inv(s) && Enabled(s, e) && t < s.next && !(e.Op? && e.t == t)
    requires PublishRemains(Next(s, e), t, key, log)
    ensures PublishRemains(s, t, key, log)
  {
    OtherStepStays(s, e, t);
  }

  /** A step of somebody else moves nobody, and leaves topics alone while the call holds a lock on it. */
  lemma OtherStepStays(s: Sys, e: Event, t: Tid)
    requires Inv(s) && Enabled(s, e) && t < s.next && !(e.Op? && e.t == t)
    ensures t in Next(s, e).threads <==> t in s.threads
    ensures t in s.threads ==> Next(s, e).threads[t] == s.threads[t]
    ensures t in s.threads && !ModeOf(s.threads[t]).Nothing? ==> Next(s, e).store.topics == s.store.topics
    ensures t in s.threads && ModeOf(s.threads[t]).Writing? ==>
              Next(s, e).store.subscriptions == s.store.subscriptions
    ensures t < Next(s, e).next
  {
    if e.Op? && t in s.threads && !ModeOf(s.threads[t]).Nothing? {
      assert !ModeOf(s.threads[e.t]).Writing?;
      assert ModeOf(s.threads[t]).Writing? ==> ModeOf(s.threads[e.t]).Nothing?;
      if ActOf(s.threads[e.t]).Work? {
        WorkKeepsMode(s.store, s.threads[e.t], e.choice);
      }
    }
  }

  lemma OwnStepPublishes(s: Sys, t: Tid, c: Choice, key: string)
    requires Inv(s) && OpEnabled(s, t, c) && Publishing(s, t, key)
    ensures Publishing(OpNext(s, t, c), t, key)
  {
  }

  lemma OwnStepPasses(s: Sys, t: Tid, c: Choice, key: string, log: seq<Passed>)
    requires Inv(s) && OpEnabled(s, t, c) && Publishing(s, t, key)
    requires Publishing(OpNext(s, t, c), t, key) && PublishRemains(OpNext(s, t, c), t, key, log)
    ensures PublishRemains(s, t, key, [Passed(s.threads[t], c, s.store)] + log)
  {
    Unlog(Passed(s.threads[t], c, s.store), log);
    if s.threads[t].PubLookup? {
      LookupPasses(s, t, c, key, log);
    }
  }

  lemma LookupPasses(s: Sys, t: Tid, c: Choice, key: string, log: seq<Passed>)
    requires Inv(s) && OpEnabled(s, t, c) && s.threads[t] == PubLookup(key)
    requires Publishing(OpNext(s, t, c), t, key) && PublishRemains(OpNext(s, t, c), t, key, log)
    requires var x := Passed(s.threads[t], c, s.store);
             Lookups([x] + log) == [x] + Lookups(log) && Sends([x] + log) == Sends(log)
    ensures LooksUpAndSends([Passed(s.threads[t], c, s.store)] + log, key)
  {
    var x := Passed(s.threads[t], c, s.store);
    var s' := OpNext(s, t, c);
    assert Lookups(log) == [];
    assert Lookups([x] + log) == [x];
    assert key !in s.store.topics && c.ok ==> s.store.NewHandle(key) !in s.store.open;
  }

  /** In every run, a Publish that has begun and ended has looked its topic up once, and has sent exactly once, unless
      it had to join the topic and the broker refused. */
  lemma PublishPasses(s: Sys, es: seq<Event>, t: Tid, key: string)
    requires Reachable(s) && t in s.threads && s.threads[t] == PubRLock(key)
    requires Runs(s, es) && t !in Run(s, es).threads
    ensures LooksUpAndSends(Log(s, es, t), key)
  {
    ReachableInv(s);
    PublishGoesOn(s, es, t, key);
  }

  // ------------------------------------------------------------ Disconnect

  /** What Disconnect passes before it touches the maps. */
  function Opens(pc: Pc): seq<Pc> {
    match pc
    case DisLock => [DisLock, DisShutdown, DisRetryLock, DisRetryUnlock]
    case DisShutdown => [DisShutdown, DisRetryLock, DisRetryUnlock]
    case DisRetryLock => [DisRetryLock, DisRetryUnlock]
    case DisRetryUnlock => [DisRetryUnlock]
    case _ => []
  }

  /** Then it empties them, and both are empty when it gives back its lock. */
  ghost predicate Empties(log: seq<Passed>) {
    && log != []
    && (forall i | 0 <= i < |log| - 1 :: Emptying(log[i].pc))
    && var last := log[|log| - 1];
       last.pc.Unlock? && last.store.topics == map[] && last.store.subscriptions == map[]
  }

  ghost predicate OpensAndEmpties(log: seq<Passed>, opens: seq<Pc>) {
    && |opens| < |log|
    && (forall i | 0 <= i < |opens| :: log[i].pc == opens[i])
    && Empties(log[|opens|..])
  }

  ghost predicate AtDisconnect(s: Sys, t: Tid) {
    t in s.threads ==>
      || Opens(s.threads[t]) != [] || Emptying(s.threads[t])
      || (s.threads[t].Unlock? && s.store.topics == map[] && s.store.subscriptions == map[])
  }

  lemma {:induction false} DisconnectGoesOn(s: Sys, es: seq<Event>, t: Tid)
    requires Inv(s) && t < s.next && AtDisconnect(s, t) && Runs(s, es) && t !in Run(s, es).threads
    ensures if t in s.threads then OpensAndEmpties(Log(s, es, t), Opens(s.threads[t])) else Log(s, es, t) == []
    decreases |es|
  {
    if es != [] {
      var e := es[0];
      var s' := Next(s, e);
      NextKeepsInv(s, e);
      var log := Log(s', es[1..], t);
      if e.Op? && e.t == t {
        OwnStepOfDisconnect(s, t, e.choice);
        DisconnectGoesOn(s', es[1..], t);
        OneMoreStep(Passed(s.threads[t], e.choice, s.store), log,
                    Opens(s.threads[t]), if t in s'.threads then Opens(s'.threads[t]) else []);
      } else {
        OtherStepOfDisconnect(s, e, t);
        DisconnectGoesOn(s', es[1..], t);
        assert Log(s, es, t) == log;
      }
    }
  }

  lemma OtherStepOfDisconnect(s: Sys, e: Event, t: Tid)
    requires Inv(s) && Enabled(s, e) && t < s.next && !(e.Op? && e.t == t) && AtDisconnect(s, t)
    ensures AtDisconnect(Next(s, e), t) && t < Next(s, e).next
    ensures t in Next(s, e).threads <==> t in s.threads
    ensures t in s.threads ==> Next(s, e).threads[t] == s.threads[t]
  {
    OtherStepStays(s, e, t);
    assert t in s.threads && s.threads[t].Unlock? ==> ModeOf(s.threads[t]).Writing?;
  }

  /** What a step of the call itself does to where it is in Disconnect. */
  ghost predicate GoesAlong(s: Sys, s': Sys, t: Tid)
    requires t in s.threads
  {
    var pc := s.threads[t];
    if pc.Unlock? then t !in s'.threads && s.store.topics == map[] && s.store.subscriptions == map[]
    else
      && t in s'.threads
      && if Opens(pc) != [] then Opens(pc) == [pc] + Opens(s'.threads[t])
         else Emptying(pc) && Opens(s'.threads[t]) == []
  }

  lemma OwnStepOfDisconnect(s: Sys, t: Tid, c: Choice)
    requires Inv(s) && OpEnabled(s, t, c) && AtDisconnect(s, t)
    ensures AtDisconnect(OpNext(s, t, c), t) && GoesAlong(s, OpNext(s, t, c), t)
  {
    if Emptying(s.threads[t]) {
      EmptyingStep(s, t, c);
    } else if Opens(s.threads[t]) != [] {
      OpeningStep(s, t, c);
    }
  }

  lemma EmptyingStep(s: Sys, t: Tid, c: Choice)
    requires Inv(s) && OpEnabled(s, t, c) && Emptying(s.threads[t])
    ensures AtDisconnect(OpNext(s, t, c), t) && GoesAlong(s, OpNext(s, t, c), t)
  {
    StaysEmptying(s, t, c);
    EmptyingGoesAlong(s, OpNext(s, t, c), t);
  }

  lemma EmptyingGoesAlong(s: Sys, s': Sys, t: Tid)
    requires t in s.threads && t in s'.threads && Emptying(s.threads[t])
    requires if !s'.threads[t].Unlock? then Emptying(s'.threads[t])
             else s'.store == s.store && s.store.topics == map[] && s.store.subscriptions == map[]
    ensures AtDisconnect(s', t) && GoesAlong(s, s', t)
  {
  }

  lemma OpeningStep(s: Sys, t: Tid, c: Choice)
    requires OpEnabled(s, t, c) && Opens(s.threads[t]) != []
    ensures AtDisconnect(OpNext(s, t, c), t) && GoesAlong(s, OpNext(s, t, c), t)
  {
  }

  lemma OneMoreStep(x: Passed, log: seq<Passed>, opens: seq<Pc>, opens': seq<Pc>)
    requires if x.pc.Unlock? then opens == [] && log == [] && x.store.topics == map[] && x.store.subscriptions == map[]
             else OpensAndEmpties(log, opens')
    requires opens != [] ==> opens == [x.pc] + opens'
    requires opens == [] && !x.pc.Unlock? ==> Emptying(x.pc) && opens' == []
    ensures OpensAndEmpties([x] + log, opens)
  {
    var more := [x] + log;
    if x.pc.Unlock? {
      assert more[0..] == [x];
    } else if opens == [] {
      assert more[0..] == more && log[0..] == log;
    } else {
      assert more[|opens|..] == log[|opens'|..];
    }
  }

  /** In every run, a Disconnect that has begun and ended has cancelled the shutdown context, then taken retryMutex to
      stop retrying, then worked on the maps, and has left both empty when it gave back its lock. */
  lemma DisconnectPasses(s: Sys, es: seq<Event>, t: Tid)
    requires Reachable(s) && t in s.threads && s.threads[t] == DisLock
    requires Runs(s, es) && t !in Run(s, es).threads
    ensures PassesAll(Log(s, es, t))
  {
    ReachableInv(s);
    DisconnectGoesOn(s, es, t);
    OpensAtTheStart(Log(s, es, t));
  }

  ghost predicate PassesAll(log: seq<Passed>) {
    && |log| > 4
    && log[0].pc == DisLock && log[1].pc == DisShutdown && log[2].pc == DisRetryLock && log[3].pc == DisRetryUnlock
    && Empties(log[4..])
  }

  lemma OpensAtTheStart(log: seq<Passed>)
    requires OpensAndEmpties(log, Opens(DisLock))
    ensures PassesAll(log)
  {
  }
}
