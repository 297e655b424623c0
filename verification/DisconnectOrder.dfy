/** Disconnect empties two Go maps, whose entries come in any order: the store it ends in does not depend on that. */
module DisconnectOrder {
  import opened Topics
  import opened PubSubInvariant
  import opened PubSubSystem
  import opened SerialCalls

  /** From where Disconnect empties the maps to where it is through. */
  predicate Emptying(pc: Pc) {
    || pc.DisSubs? || pc.DisDelete? || pc.DisTopics?
    || (pc.CancelListener? && pc.all) || (pc.CancelSub? && pc.all)
  }

  /** Nobody but this call takes steps. */
  predicate OnlyOne(es: seq<Event>, t: Tid) {
    es == [] || (es[0].Op? && es[0].t == t && OnlyOne(es[1..], t))
  }

  /** The handles that refuse to close in a run of Disconnect. */
  ghost function Refused(s: Sys, t: Tid, es: seq<Event>): set<Handle>
    requires Runs(s, es)
    decreases |es|
  {
    if es == [] then {} else RefusedNow(s, t, es[0]) + Refused(Next(s, es[0]), t, es[1..])
  }

  function RefusedNow(s: Sys, t: Tid, e: Event): set<Handle>
    requires Enabled(s, e)
  {
    if e.Op? && e.t == t && s.threads[t].DisTopics? && s.store.topics != map[] && !e.choice.ok
    then {s.store.topics[e.choice.key]} else {}
  }

  /** In whatever order Disconnect takes the entries of its maps, it ends in the store that the method ends in when the
      same handles refuse to close. */
  lemma {:induction false} DisconnectWhateverOrder(s: Sys, t: Tid, es: seq<Event>)
    requires Inv(s) && t in s.threads && Emptying(s.threads[t])
    requires Runs(s, es) && OnlyOne(es, t) && t !in Run(s, es).threads
    ensures Run(s, es).store == Disconnected(s.store, Refused(s, t, es))
    ensures Refused(s, t, es) <= s.store.topics.Values
    decreases |es|
  {
    var s' := Next(s, es[0]);
    NextKeepsInv(s, es[0]);
    if s'.threads[t].Unlock? {
      LastStep(s, t, es[0].choice);
      OnlyUnlockIsLeft(s', t, es[1..]);
    } else {
      StaysEmptying(s, t, es[0].choice);
      DisconnectWhateverOrder(s', t, es[1..]);
      StepTowardsTheEnd(s, t, es[0].choice, Refused(s', t, es[1..]));
    }
  }

  lemma LastStep(s: Sys, t: Tid, c: Choice)
    requires Inv(s) && OpEnabled(s, t, c) && Emptying(s.threads[t]) && OpNext(s, t, c).threads[t].Unlock?
    ensures RefusedNow(s, t, Op(t, c)) == {} && OpNext(s, t, c).store == s.store == Disconnected(s.store, {})
  {
    StaysEmptying(s, t, c);
    NothingToDisconnect(s.store);
  }

  lemma StepTowardsTheEnd(s: Sys, t: Tid, c: Choice, stuck: set<Handle>)
    requires Inv(s) && OpEnabled(s, t, c) && Emptying(s.threads[t])
    requires t in OpNext(s, t, c).threads && !OpNext(s, t, c).threads[t].Unlock?
    requires stuck <= OpNext(s, t, c).store.topics.Values
    ensures Disconnected(OpNext(s, t, c).store, stuck) == Disconnected(s.store, RefusedNow(s, t, Op(t, c)) + stuck)
    ensures RefusedNow(s, t, Op(t, c)) + stuck <= s.store.topics.Values
  {
    StaysEmptying(s, t, c);
    RefusedInStep(s, t, c);
    SameInTheEnd(s.store, s.threads[t], c, stuck, RefusedNow(s, t, Op(t, c)) + stuck);
  }

  lemma RefusedInStep(s: Sys, t: Tid, c: Choice)
    requires OpEnabled(s, t, c) && Emptying(s.threads[t])
    ensures RefusedNow(s, t, Op(t, c))
            == if s.threads[t].DisTopics? && s.store.topics != map[] && !c.ok then {s.store.topics[c.key]} else {}
    ensures OpNext(s, t, c).threads[t].Unlock? ==> s.store.topics == map[]
  {
  }

  lemma StaysEmptying(s: Sys, t: Tid, c: Choice)
    requires Inv(s) && OpEnabled(s, t, c) && Emptying(s.threads[t])
    ensures s.store.Sound() && CallInv(s.store, s.threads[t]) && WorkEnabled(s.store, s.threads[t], c)
    ensures var s' := OpNext(s, t, c);
            && s'.store == WorkStore(s.store, s.threads[t], c)
            && t in s'.threads && s'.threads[t] == After(s.store, s.threads[t], c).value
            && if !s'.threads[t].Unlock? then Emptying(s'.threads[t])
               else s'.store == s.store && s.store.topics == map[] && s.store.subscriptions == map[]
  {
  }

  lemma OnlyUnlockIsLeft(s: Sys, t: Tid, es: seq<Event>)
    requires t in s.threads && s.threads[t].Unlock?
    requires Runs(s, es) && OnlyOne(es, t) && t !in Run(s, es).threads
    ensures Run(s, es).store == s.store && Refused(s, t, es) == {}
  {
    if es[1..] != [] {
      FirstMover(Next(s, es[0]), t, es[1..]);
    }
  }

  lemma FirstMover(s: Sys, t: Tid, es: seq<Event>)
    requires es != [] && Runs(s, es) && OnlyOne(es, t)
    ensures t in s.threads
  {
  }

  lemma NothingToDisconnect(store: Store)
    requires store.topics == map[] && store.subscriptions == map[]
    ensures Disconnected(store, {}) == store
  {
    assert Silenced(store.listeners, {}) == store.listeners;
    assert store.topics.Values == {} && store.subscriptions.Values == {};
    assert store.open - ({} - {}) == store.open;
    assert store.failedClose + {} * store.open * {} == store.failedClose;
  }

  /** One step of Disconnect leaves the store it is heading for as it is. */
  lemma SameInTheEnd(store: Store, pc: Pc, c: Choice, stuck: set<Handle>, stuck': set<Handle>)
    requires store.Sound() && CallInv(store, pc) && Emptying(pc) && WorkEnabled(store, pc, c)
    requires !After(store, pc, c).value.Unlock? && stuck <= WorkStore(store, pc, c).topics.Values
    requires stuck' == stuck + if pc.DisTopics? && !c.ok then {store.topics[c.key]} else {}
    ensures Disconnected(WorkStore(store, pc, c), stuck) == Disconnected(store, stuck')
    ensures stuck' <= store.topics.Values
  {
    if pc.CancelListener? {
      SilencedAnyway(store, pc.key, store.listeners[pc.l].(cancelled := true));
    } else if pc.CancelSub? {
      SilencedAnyway(store, pc.key, store.listeners[pc.l].(closed := true));
    } else if pc.DisDelete? {
      SilencedAlready(store, pc.key);
    } else if pc.DisTopics? {
      TopicInTheEnd(store, c, stuck, stuck');
    }
  }

  lemma TopicInTheEnd(store: Store, c: Choice, stuck: set<Handle>, stuck': set<Handle>)
    requires store.Sound() && c.key in store.topics && WorkEnabled(store, DisTopics, c)
    requires stuck <= WorkStore(store, DisTopics, c).topics.Values
    requires stuck' == stuck + if !c.ok then {store.topics[c.key]} else {}
    ensures Disconnected(WorkStore(store, DisTopics, c), stuck) == Disconnected(store, stuck')
    ensures stuck' <= store.topics.Values
  {
    RefusersWereStored(store.topics, c.key, stuck);
    ClosedInTheEnd(store, c.key, c.ok, stuck, stuck');
  }

  lemma RefusersWereStored(topics: map<string, Handle>, key: string, stuck: set<Handle>)
    requires key in topics && stuck <= (topics - {key}).Values
    ensures stuck + {topics[key]} <= topics.Values
  {
    RemovalTakesValue(topics, key);
  }

  lemma SilencedAnyway(store: Store, key: string, x: Listener)
    requires key in store.subscriptions && store.subscriptions[key] in store.listeners
    requires var l := store.listeners[store.subscriptions[key]]; x == l.(cancelled := true) || x == l.(closed := true)
    ensures Silenced(store.listeners[store.subscriptions[key] := x], store.subscriptions.Values)
            == Silenced(store.listeners, store.subscriptions.Values)
  {
    assert store.subscriptions[key] in store.subscriptions.Values;
  }

  lemma SilencedAlready(store: Store, key: string)
    requires CancelledEntry(store, key)
    ensures Silenced(store.listeners, (store.subscriptions - {key}).Values)
            == Silenced(store.listeners, store.subscriptions.Values)
  {
    RemovalTakesValue(store.subscriptions, key);
  }

  lemma ClosedInTheEnd(store: Store, k: string, ok: bool, stuck: set<Handle>, stuck': set<Handle>)
    requires store.Sound() && k in store.topics && (!ok ==> store.topics[k] in store.open)
    requires stuck <= (store.topics - {k}).Values
    requires stuck' == stuck + if ok then {} else {store.topics[k]}
    ensures var rest := store.Close(store.topics[k], ok).DropTopic(k);
            ClosedAll(rest, rest.topics.Values, stuck) == ClosedAll(store, store.topics.Values, stuck')
  {
    var h := store.topics[k];
    var rest := store.Close(h, ok).DropTopic(k);
    assert h !in rest.topics.Values;
    ClosedStep(store, k, stuck');
    SameWithout(rest, rest.topics.Values, stuck, stuck', h);
  }

  lemma SameWithout(store: Store, handles: set<Handle>, stuck: set<Handle>, stuck': set<Handle>, h: Handle)
    requires h !in handles && stuck + {h} == stuck' + {h}
    ensures ClosedAll(store, handles, stuck) == ClosedAll(store, handles, stuck')
  {
    assert forall x | x in handles :: x in stuck <==> x in stuck + {h};
    assert forall x | x in handles :: x in stuck' <==> x in stuck' + {h};
    assert handles - stuck == handles - stuck';
    assert handles * store.open * stuck == handles * store.open * stuck';
  }
}
