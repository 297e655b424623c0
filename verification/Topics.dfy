/** DatabaseInstance: its topic and subscription maps, the broker's handles and the listeners they refer to. */
module Topics {
  import opened Results
  import opened TopicNames

  /** A broker topic handle. The key is the topic it was joined for; its name at the broker is the full name. */
  datatype Handle = Handle(id: nat, key: string)

  type Lid = nat

  datatype Cause = SubscriptionClosed | ContextEnded | Other

  /** Where a listener goroutine stands. */
  datatype ListenerPc = ToCheck | InNext | GotMessage | GotError(cause: Cause) | InHandler | Returned

  /** A TopicSubscription with its listener goroutine and the listener's context. */
  datatype Listener = Listener(
    key: string,
    handle: Handle,
    hasHandler: bool,
    cancelled: bool,    // its own cancel function has been called
    callerDone: bool,   // the context given to Subscribe has ended
    closed: bool,       // its broker subscription has been cancelled
    pc: ListenerPc
  ) {
    predicate Done() {
      cancelled || callerDone
    }
  }

  datatype Error = AlreadySubscribed | JoinFailed | SubscribeFailed | NotSubscribed

  datatype Store = Store(
    db: string,
    topics: map<string, Handle>,
    subscriptions: map<string, Lid>,
    open: set<Handle>,
    failedClose: set<Handle>,   // handles whose Close has reported an error
    nextHandle: nat,
    listeners: map<Lid, Listener>,
    nextListener: Lid,
    overwritten: set<Lid>       // listeners whose subscription entry another has replaced
  ) {
    /** The broker lets a name be joined if no handle for it is open. */
    predicate CanJoin(key: string) {
      forall h <- open :: FullName(db, h.key) != FullName(db, key)
    }

    function NewHandle(key: string): Handle {
      Handle(nextHandle, key)
    }

    function Join(key: string): Store {
      this.(open := open + {NewHandle(key)}, nextHandle := nextHandle + 1)
    }

    function PutTopic(h: Handle): Store {
      this.(topics := topics[h.key := h])
    }

    /** Closing a closed handle succeeds and does nothing. */
    function Close(h: Handle, ok: bool): Store {
      if ok then this.(open := open - {h}) else this.(failedClose := failedClose + {h})
    }

    predicate HasHandler(key: string) {
      key in subscriptions && subscriptions[key] in listeners && listeners[subscriptions[key]].hasHandler
    }

    function Listen(h: Handle, hasHandler: bool): Store {
      this.(subscriptions := subscriptions[h.key := nextListener],
            listeners := listeners[nextListener := Listener(h.key, h, hasHandler, false, false, false, ToCheck)],
            nextListener := nextListener + 1,
            overwritten := if h.key in subscriptions then overwritten + {subscriptions[h.key]} else overwritten)
    }

    function Update(l: Lid, with: Listener): Store {
      this.(listeners := listeners[l := with])
    }

    function Cancel(l: Lid): Store
      requires l in listeners
    {
      Update(l, listeners[l].(cancelled := true))
    }

    function CloseSubscription(l: Lid): Store
      requires l in listeners
    {
      Update(l, listeners[l].(closed := true))
    }

    function DropSubscription(key: string): Store {
      this.(subscriptions := subscriptions - {key})
    }

    function DropTopic(key: string): Store {
      this.(topics := topics - {key})
    }

    ghost predicate Sound() {
      && (forall k <- topics :: topics[k].key == k)
      && (forall k <- subscriptions ::
            && subscriptions[k] in listeners
            && k in topics && listeners[subscriptions[k]].key == k && listeners[subscriptions[k]].handle == topics[k])
      && (forall h <- open :: h.id < nextHandle)
      && (forall k <- topics :: topics[k].id < nextHandle)
      && (forall l <- listeners :: l < nextListener)
      && (forall h, i | h in open && i in open && h.key == i.key :: h == i)
      && (forall h <- open :: h.key in topics ==> topics[h.key] == h)
    }
  }

  /** Subscribe, Publish, Unsubscribe and Disconnect between taking and releasing the lock. Which handles refuse to
      close, and whether Join and Subscribe work otherwise, is up to the broker. */
  class DatabaseInstance {
    const db: string
    var topics: map<string, Handle>
    var subscriptions: map<string, Lid>
    var open: set<Handle>
    var failedClose: set<Handle>
    var nextHandle: nat
    var listeners: map<Lid, Listener>
    var nextListener: Lid
    var overwritten: set<Lid>

    function View(): Store
      reads this
    {
      Store(db, topics, subscriptions, open, failedClose, nextHandle, listeners, nextListener, overwritten)
    }

    constructor (db: string)
      ensures View() == Store(db, map[], map[], {}, {}, 0, map[], 0, {}) && View().Sound()
    {
      this.db := db;
      topics, subscriptions, listeners := map[], map[], map[];
      open, failedClose, nextHandle, nextListener, overwritten := {}, {}, 0, 0, {};
    }

    method Join(key: string, ok: bool) returns (h: Option<Handle>)
      modifies `open, `nextHandle
      ensures h.Some? <==> ok && old(View()).CanJoin(key)
      ensures h.Some? ==> h.value == old(View()).NewHandle(key) && View() == old(View()).Join(key)
      ensures h.None? ==> View() == old(View())
    {
      if !ok || exists h <- open :: FullName(db, h.key) == FullName(db, key) {
        return None;
      }
      h := Some(Handle(nextHandle, key));
      open := open + {h.value};
      nextHandle := nextHandle + 1;
    }

    method Close(h: Handle, stuck: set<Handle>)
      modifies `open, `failedClose
      ensures View() == old(View()).Close(h, !(h in old(open) && h in stuck))
    {
      if h in open && h in stuck {
        failedClose := failedClose + {h};
      } else {
        open := open - {h};
      }
    }

    /** The handle already joined for the topic, or a new one, stored. */
    method TopicFor(key: string, joinOk: bool) returns (h: Option<Handle>)
      requires View().Sound()
      modifies `topics, `open, `nextHandle
      ensures View().Sound()
      ensures h.None? <==> key !in old(topics) && !(joinOk && old(View()).CanJoin(key))
      ensures h.None? ==> View() == old(View())
      ensures h.Some? ==> key in topics && h.value == topics[key]
      ensures h.Some? && key in old(topics) ==> View() == old(View())
      ensures h.Some? && key !in old(topics) ==>
                View() == old(View()).Join(key).PutTopic(old(View()).NewHandle(key))
    {
      if key in topics {
        return Some(topics[key]);
      }
      if joinOk && View().CanJoin(key) {
        JoinKeepsSound(View(), key);
      }
      h := Join(key, joinOk);
      if h.Some? {
        topics := topics[key := h.value];
      }
    }

    /** Store the subscription and start its listener. */
    method AddListener(h: Handle, hasHandler: bool)
      modifies `subscriptions, `listeners, `nextListener, `overwritten
      ensures View() == old(View()).Listen(h, hasHandler)
    {
      var l := nextListener;
      if h.key in subscriptions {
        overwritten := overwritten + {subscriptions[h.key]};
      }
      nextListener := nextListener + 1;
      listeners := listeners[l := Listener(h.key, h, hasHandler, false, false, false, ToCheck)];
      subscriptions := subscriptions[h.key := l];
    }

    method Subscribe(key: string, hasHandler: bool, joinOk: bool, subscribeOk: bool, stuck: set<Handle>)
      returns (err: Option<Error>)
      requires View().Sound()
      modifies this
      ensures View().Sound()
      ensures (err, View()) == SubscribeEffect(old(View()), key, hasHandler, joinOk, subscribeOk, stuck)
      ensures err == Some(AlreadySubscribed)
              <==> key in old(subscriptions) && old(listeners)[old(subscriptions)[key]].hasHandler
      ensures err == Some(JoinFailed)
              <==> && err != Some(AlreadySubscribed)
                   && key !in old(topics) && !(joinOk && old(View()).CanJoin(key))
      ensures err == Some(SubscribeFailed)
              <==> && err != Some(AlreadySubscribed) && err != Some(JoinFailed)
                   && (!subscribeOk || (key in old(topics) && old(topics)[key] !in old(open)))
      ensures err == Some(AlreadySubscribed) || err == Some(JoinFailed) ==> View() == old(View())
      // A failed Subscribe keeps the handle in topics whether or not closing it worked.
      ensures err == Some(SubscribeFailed) ==> key in topics && subscriptions == old(subscriptions)
      ensures err == Some(SubscribeFailed) && topics[key] !in stuck ==> topics[key] !in open
      ensures err.None? ==> key in topics && topics[key] in open && key in subscriptions
                            && listeners[subscriptions[key]]
                               == Listener(key, topics[key], hasHandler, false, false, false, ToCheck)
    {
      if key in subscriptions {
        if listeners[subscriptions[key]].hasHandler {
          return Some(AlreadySubscribed);
        }
      }
      var topic := TopicFor(key, joinOk);
      if topic.None? {
        return Some(JoinFailed);
      }
      var handle := topic.value;
      if !subscribeOk || handle !in open {
        Close(handle, stuck);
        return Some(SubscribeFailed);
      }
      ListenKeepsSound(View(), handle, hasHandler);
      AddListener(handle, hasHandler);
      return None;
    }

    /** Cancel a listener's context, then its broker subscription. */
    method StopListener(l: Lid)
      requires l in listeners
      modifies `listeners
      ensures View() == old(View()).Cancel(l).CloseSubscription(l)
    {
      listeners := listeners[l := listeners[l].(cancelled := true)];
      listeners := listeners[l := listeners[l].(closed := true)];
    }

    /** Afterwards the topic is free: unless Close reported an error, its name can be joined again. */
    method Unsubscribe(key: string, stuck: set<Handle>) returns (err: Option<Error>)
      requires View().Sound()
      modifies this
      ensures View().Sound()
      ensures err.Some? <==> key !in old(subscriptions)
      ensures err.Some? ==> err == Some(NotSubscribed) && View() == old(View())
      ensures err.None? ==>
                var l := old(subscriptions)[key];
                var h := old(topics)[key];
                && View() == Unsubscribed(old(View()), key, !(h in old(open) && h in stuck))
                && topics == old(topics) - {key} && subscriptions == old(subscriptions) - {key}
                && open == (if h in old(open) && h in stuck then old(open) else old(open) - {h})
                && listeners == old(listeners)[l := old(listeners)[l].(cancelled := true, closed := true)]
                && (!(h in old(open) && h in stuck) ==> View().CanJoin(key))
    {
      if key !in subscriptions {
        return Some(NotSubscribed);
      }
      var l := subscriptions[key];
      UnsubscribedIsSound(View(), key, !(topics[key] in open && topics[key] in stuck));
      StopListener(l);
      Close(listeners[l].handle, stuck);
      Forget(key);
      return None;
    }

    method Forget(key: string)
      modifies `subscriptions, `topics
      ensures View() == old(View()).DropSubscription(key).DropTopic(key)
    {
      subscriptions := subscriptions - {key};
      topics := topics - {key};
    }

    /** The read-locked start of Publish: the handle to use, and whether it must be stored under the write lock. */
    method PublishLookup(key: string, joinOk: bool) returns (h: Option<Handle>, joined: bool)
      requires View().Sound()
      modifies `open, `nextHandle
      ensures key in topics ==> h == Some(topics[key]) && !joined && View() == old(View())
      ensures key !in topics ==> joined == h.Some? == (joinOk && old(View()).CanJoin(key))
      ensures joined ==> h.value == old(View()).NewHandle(key) && View() == old(View()).Join(key)
      ensures !joined ==> View() == old(View())
    {
      if key in topics {
        return Some(topics[key]), false;
      }
      h := Join(key, joinOk);
      joined := h.Some?;
    }

    /** The write-locked part of Publish. */
    method PublishStore(h: Handle)
      requires View().Sound() && h in open && h.key !in topics
      modifies `topics
      ensures View().Sound() && View() == old(View()).PutTopic(h) && topics == old(topics)[h.key := h]
    {
      PutKeepsSound(View(), h);
      topics := topics[h.key := h];
    }

    /** Disconnect cancels and closes every subscription, closes every topic, and empties both maps. */
    method Disconnect(stuck: set<Handle>)
      requires View().Sound()
      modifies this
      ensures View().Sound()
      ensures topics == map[] && subscriptions == map[]
      ensures open == old(open) - (old(topics).Values - stuck)
      ensures failedClose == old(failedClose) + old(topics).Values * old(open) * stuck
      ensures listeners == Silenced(old(listeners), old(subscriptions).Values)
      ensures forall l <- old(listeners) ::
                l in listeners && listeners[l] == if l !in old(subscriptions).Values then old(listeners)[l]
                                                  else old(listeners)[l].(cancelled := true, closed := true)
    {
      CancelSubscriptions();
      CloseTopics(stuck);
    }

    method CancelSubscriptions()
      requires forall k <- subscriptions :: subscriptions[k] in listeners
      modifies `subscriptions, `listeners
      ensures subscriptions == map[]
      ensures listeners == Silenced(old(listeners), old(subscriptions).Values)
    {
      ghost var done: set<Lid> := {};
      while subscriptions != map[]
        invariant Silencing(old(listeners), old(subscriptions).Values, done, listeners, subscriptions)
        decreases |subscriptions|
      {
        var key :| key in subscriptions;
        SilenceStep(old(listeners), old(subscriptions).Values, done, listeners, subscriptions, key);
        done := done + {subscriptions[key]};
        CancelEntry(key);
      }
      assert done == old(subscriptions).Values;
    }

    method CancelEntry(key: string)
      requires key in subscriptions && subscriptions[key] in listeners
      modifies `subscriptions, `listeners
      ensures subscriptions == old(subscriptions) - {key}
      ensures listeners == Silence(old(listeners), old(subscriptions)[key])
    {
      StopListener(subscriptions[key]);
      subscriptions := subscriptions - {key};
    }

    method CloseTopics(stuck: set<Handle>)
      modifies `topics, `open, `failedClose
      ensures topics == map[]
      ensures open == old(open) - (old(topics).Values - stuck)
      ensures failedClose == old(failedClose) + old(topics).Values * old(open) * stuck
    {
      ghost var done: set<Handle> := {};
      assert open - ({} - stuck) == open && failedClose + {} * open * stuck == failedClose;
      while topics != map[]
        invariant done + topics.Values == old(topics).Values
        invariant (open, failedClose) == ClosedAll(old(View()), done, stuck)
        decreases |topics|
      {
        var key :| key in topics;
        var h := topics[key];
        RemovalTakesValue(topics, key);
        CloseAlso(old(View()), done, stuck, h);
        Close(h, stuck);
        topics := topics - {key};
        MoveOver(done, topics.Values, h);
        done := done + {h};
      }
    }
  }

  /** These listeners cancelled and their subscriptions closed. */
  function Silenced(listeners: map<Lid, Listener>, which: set<Lid>): map<Lid, Listener> {
    map l | l in listeners :: if l in which then listeners[l].(cancelled := true, closed := true) else listeners[l]
  }

  /** The store after a successful Unsubscribe. */
  function Unsubscribed(s: Store, key: string, closes: bool): Store
    requires key in s.subscriptions && s.subscriptions[key] in s.listeners
  {
    var l := s.subscriptions[key];
    s.Cancel(l).CloseSubscription(l).Close(s.listeners[l].handle, closes).DropSubscription(key).DropTopic(key)
  }

  lemma UnsubscribedKeepsSound(s: Store, key: string, closes: bool)
    requires s.Sound() && key in s.subscriptions
    ensures Unsubscribed(s, key, closes).Sound()
  {
  }

  lemma UnsubscribedIsSound(s: Store, key: string, closes: bool)
    requires s.Sound() && key in s.subscriptions
    ensures Unsubscribed(s, key, closes).Sound()
    ensures closes ==> Unsubscribed(s, key, closes).CanJoin(key)
    ensures s.listeners[s.subscriptions[key]].handle == s.topics[key]
    ensures var s' := Unsubscribed(s, key, closes); var l := s.subscriptions[key];
            && s'.topics == s.topics - {key} && s'.subscriptions == s.subscriptions - {key}
            && s'.open == (if closes then s.open - {s.topics[key]} else s.open)
            && s'.listeners == s.listeners[l := s.listeners[l].(cancelled := true, closed := true)]
  {
    UnsubscribedKeepsSound(s, key, closes);
    var s' := Unsubscribed(s, key, closes);
    if closes {
      forall h | h in s'.open
        ensures FullName(s.db, h.key) != FullName(s.db, key)
      {
        if FullName(s.db, h.key) == FullName(s.db, key) {
          OneNamePerTopic(s.db, h.key, key);
        }
      }
    }
  }

  /** The handles open, and those whose Close reported an error, after closing all of these. */
  function ClosedAll(s: Store, handles: set<Handle>, stuck: set<Handle>): (set<Handle>, set<Handle>) {
    (s.open - (handles - stuck), s.failedClose + handles * s.open * stuck)
  }

  lemma CloseAlso(s: Store, handles: set<Handle>, stuck: set<Handle>, h: Handle)
    ensures var (open, failed) := ClosedAll(s, handles, stuck);
            ClosedAll(s, handles + {h}, stuck)
            == if h in open && h in stuck then (open, failed + {h}) else (open - {h}, failed)
  {
    var (open, failed) := ClosedAll(s, handles, stuck);
    var (open', failed') := ClosedAll(s, handles + {h}, stuck);
    assert open' == if h in open && h in stuck then open else open - {h};
    assert failed' == if h in open && h in stuck then failed + {h} else failed;
  }

  lemma MoveOver<T>(done: set<T>, rest: set<T>, x: T)
    ensures (done + {x}) + rest == done + (rest + {x})
  {
  }

  function Silence(listeners: map<Lid, Listener>, l: Lid): map<Lid, Listener>
    requires l in listeners
  {
    listeners[l := listeners[l].(cancelled := true, closed := true)]
  }

  /** Some entries are silenced and removed, the rest are still there. */
  ghost predicate Silencing(was: map<Lid, Listener>, all: set<Lid>, done: set<Lid>, listeners: map<Lid, Listener>,
                            subscriptions: map<string, Lid>) {
    listeners == Silenced(was, done) && done + subscriptions.Values == all <= was.Keys
  }

  /** One more entry is silenced and removed. */
  lemma SilenceStep(was: map<Lid, Listener>, all: set<Lid>, done: set<Lid>, listeners: map<Lid, Listener>,
                    subscriptions: map<string, Lid>, key: string)
    requires Silencing(was, all, done, listeners, subscriptions) && key in subscriptions
    ensures var l := subscriptions[key]; var rest := subscriptions - {key};
            l in listeners && Silencing(was, all, done + {l}, Silence(listeners, l), rest) && |rest| < |subscriptions|
  {
    assert subscriptions[key] in subscriptions.Values;
    RemovalTakesValue(subscriptions, key);
  }

  lemma ListenKeepsSound(s: Store, h: Handle, hasHandler: bool)
    requires s.Sound() && h.key in s.topics && s.topics[h.key] == h
    ensures s.Listen(h, hasHandler).Sound()
  {
  }

  lemma JoinKeepsSound(s: Store, key: string)
    requires s.Sound() && key !in s.topics && s.CanJoin(key)
    ensures s.Join(key).Sound()
    ensures s.Join(key).PutTopic(s.NewHandle(key)).Sound()
  {
    JoinedIsSound(s, key);
    PutKeepsSound(s.Join(key), s.NewHandle(key));
  }

  lemma JoinedIsSound(s: Store, key: string)
    requires s.Sound() && key !in s.topics && s.CanJoin(key)
    ensures s.Join(key).Sound()
  {
    assert forall h <- s.open :: h.key != key;
  }

  lemma PutKeepsSound(s: Store, h: Handle)
    requires s.Sound() && h in s.open && h.key !in s.topics
    ensures s.PutTopic(h).Sound()
  {
  }

  lemma RemovalTakesValue<K, V>(m: map<K, V>, key: K)
    requires key in m
    ensures (m - {key}).Values + {m[key]} == m.Values
    ensures |m - {key}| < |m|
  {
    var n := m - {key};
    assert m == n[key := m[key]];
    assert n.Keys == m.Keys - {key};
    forall v | v in m.Values
      ensures v in n.Values + {m[key]}
    {
      var k :| k in m && m[k] == v;
      assert k != key ==> k in n && n[k] == v;
    }
    forall v | v in n.Values
      ensures v in m.Values
    {
      var k :| k in n && n[k] == v;
      assert k in m && m[k] == v;
    }
    assert m[key] in m.Values;
  }

  /** Subscribe as a function of what it finds. */
  function SubscribeEffect(s: Store, key: string, hasHandler: bool, joinOk: bool, subscribeOk: bool, stuck: set<Handle>)
    : (Option<Error>, Store)
  {
    if s.HasHandler(key) then (Some(AlreadySubscribed), s)
    else if key !in s.topics && !(joinOk && s.CanJoin(key)) then (Some(JoinFailed), s)
    else
      var joined := if key in s.topics then s else s.Join(key).PutTopic(s.NewHandle(key));
      var h := joined.topics[key];
      if subscribeOk && h in joined.open then (None, joined.Listen(h, hasHandler))
      else (Some(SubscribeFailed), joined.Close(h, !(h in joined.open && h in stuck)))
  }
}
