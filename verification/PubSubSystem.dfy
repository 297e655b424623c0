/**
 Concurrent Subscribe, Publish, Unsubscribe and Disconnect calls, the two locks they take, and the listeners they
 start and stop: one step per lock operation or external call.
 */
module PubSubSystem {
  import opened Results
  import opened Topics

  type Tid = nat

  /** Where a call stands, named after what it does next. */
  datatype Pc =
    // Publish
    | PubRLock(key: string)
    | PubLookup(key: string)
    | PubRUnlock(h: Handle)
    | PubLock(h: Handle)
    | PubStore(h: Handle)
    | PubUnlock(h: Handle)
    | PubRelock(h: Handle)
    | PubSend(h: Handle)
    | PubDone
    // Subscribe
    | SubLock(key: string, hasHandler: bool)
    | SubLookup(key: string, hasHandler: bool)
    | SubJoin(key: string, hasHandler: bool)
    | SubBroker(h: Handle, hasHandler: bool)
    | SubCleanup(h: Handle)
    // Unsubscribe
    | UnsLock(key: string)
    | UnsFind(key: string)
    | UnsTopic(key: string, l: Lid)
    | UnsDelete(key: string)
    // Disconnect
    | DisLock
    | DisShutdown
    | DisRetryLock
    | DisRetryUnlock
    | DisSubs
    | DisDelete(key: string)
    | DisTopics
    // in Unsubscribe, and in Disconnect for all entries
    | CancelListener(key: string, l: Lid, all: bool)
    | CancelSub(key: string, l: Lid, all: bool)
    // the end of the three writers
    | Unlock
    // a retry goroutine, for its use of retryMutex
    | RetryLock
    | RetryUnlock

  datatype Act = TakeR | GiveR | TakeW | GiveW | TakeRetry | GiveRetry | Work

  function ActOf(pc: Pc): Act {
    match pc
    case PubRLock(_) => TakeR
    case PubRelock(_) => TakeR
    case PubRUnlock(_) => GiveR
    case PubDone => GiveR
    case PubLock(_) => TakeW
    case SubLock(_, _) => TakeW
    case UnsLock(_) => TakeW
    case DisLock => TakeW
    case PubUnlock(_) => GiveW
    case Unlock => GiveW
    case DisRetryLock => TakeRetry
    case RetryLock => TakeRetry
    case DisRetryUnlock => GiveRetry
    case RetryUnlock => GiveRetry
    case _ => Work
  }

  /** instance.mutex as a call standing here holds it. */
  datatype Mode = Nothing | Reading | Writing

  function ModeOf(pc: Pc): Mode {
    match pc
    case PubLookup(_) => Reading
    case PubRUnlock(_) => Reading
    case PubSend(_) => Reading
    case PubDone => Reading
    case PubRLock(_) => Nothing
    case PubLock(_) => Nothing
    case PubRelock(_) => Nothing
    case SubLock(_, _) => Nothing
    case UnsLock(_) => Nothing
    case DisLock => Nothing
    case RetryLock => Nothing
    case RetryUnlock => Nothing
    case _ => Writing
  }

  predicate HoldsRetry(pc: Pc) {
    pc.DisRetryUnlock? || pc.RetryUnlock?
  }

  /** The handle of a Publish between its Join and its store. */
  predicate InGap(pc: Pc) {
    pc.PubRUnlock? || pc.PubLock? || pc.PubStore?
  }

  datatype Sys = Sys(
    store: Store,
    readers: set<Tid>,
    writer: Option<Tid>,
    retryHolder: Option<Tid>,
    threads: map<Tid, Pc>,
    next: Tid
  )

  /** What the environment decides in a step: success or failure of the broker, and which entry a loop over a map
      takes next. */
  datatype Choice = Choice(ok: bool, key: string)

  datatype ListenerEvent =
    | Check | Message | Fail(cause: Cause) | CheckError | Skip | Call | Return | Panic | EndCaller

  datatype Event =
    | Start(pc: Pc)
    | Op(t: Tid, choice: Choice)
    | Listen(l: Lid, what: ListenerEvent)

  /** The calls a user or the retry machinery can make. */
  predicate Opening(pc: Pc) {
    pc.PubRLock? || pc.SubLock? || pc.UnsLock? || pc.DisLock? || pc.RetryLock?
  }

  predicate WorkEnabled(s: Store, pc: Pc, c: Choice) {
    match pc
    case PubLookup(k) => k in s.topics || (c.ok ==> s.CanJoin(k))
    case SubJoin(k, _) => c.ok ==> s.CanJoin(k)
    case SubBroker(h, _) => c.ok ==> h in s.open
    case SubCleanup(h) => !c.ok ==> h in s.open
    case UnsTopic(_, l) => l in s.listeners && (!c.ok ==> s.listeners[l].handle in s.open)
    case CancelListener(_, l, _) => l in s.listeners
    case CancelSub(_, l, _) => l in s.listeners
    case DisSubs => s.subscriptions == map[] || c.key in s.subscriptions
    case DisTopics => s.topics == map[] || (c.key in s.topics && (!c.ok ==> s.topics[c.key] in s.open))
    case _ => true
  }

  function WorkStore(s: Store, pc: Pc, c: Choice): Store
    requires WorkEnabled(s, pc, c)
  {
    match pc
    case PubLookup(k) => if k !in s.topics && c.ok then s.Join(k) else s
    case PubStore(h) => s.PutTopic(h)
    case SubJoin(k, _) => if c.ok then s.Join(k).PutTopic(s.NewHandle(k)) else s
    case SubBroker(h, hasHandler) => if c.ok then s.Listen(h, hasHandler) else s
    case SubCleanup(h) => s.Close(h, c.ok)
    case CancelListener(_, l, _) => s.Cancel(l)
    case CancelSub(_, l, _) => s.CloseSubscription(l)
    case UnsTopic(_, l) => s.Close(s.listeners[l].handle, c.ok)
    case UnsDelete(k) => s.DropSubscription(k).DropTopic(k)
    case DisDelete(k) => s.DropSubscription(k)
    case DisTopics => if s.topics == map[] then s else s.Close(s.topics[c.key], c.ok).DropTopic(c.key)
    case _ => s
  }

  /** Where the call goes next; None when it is over. */
  function After(s: Store, pc: Pc, c: Choice): Option<Pc>
    requires ActOf(pc).Work? ==> WorkEnabled(s, pc, c)
  {
    match pc
    case PubRLock(k) => Some(PubLookup(k))
    case PubLookup(k) =>
      if k in s.topics then Some(PubSend(s.topics[k]))
      else if c.ok then Some(PubRUnlock(s.NewHandle(k)))
      else Some(PubDone)
    case PubRUnlock(h) => Some(PubLock(h))
    case PubLock(h) => Some(PubStore(h))
    case PubStore(h) => Some(PubUnlock(h))
    case PubUnlock(h) => Some(PubRelock(h))
    case PubRelock(h) => Some(PubSend(h))
    case PubSend(_) => Some(PubDone)
    case PubDone => None
    case SubLock(k, hasHandler) => Some(SubLookup(k, hasHandler))
    case SubLookup(k, hasHandler) =>
      if s.HasHandler(k) then Some(Unlock)
      else if k in s.topics then Some(SubBroker(s.topics[k], hasHandler))
      else Some(SubJoin(k, hasHandler))
    case SubJoin(k, hasHandler) => if c.ok then Some(SubBroker(s.NewHandle(k), hasHandler)) else Some(Unlock)
    case SubBroker(h, _) => if c.ok then Some(Unlock) else Some(SubCleanup(h))
    case SubCleanup(_) => Some(Unlock)
    case UnsLock(k) => Some(UnsFind(k))
    case UnsFind(k) => if k in s.subscriptions then Some(CancelListener(k, s.subscriptions[k], false)) else Some(Unlock)
    case CancelListener(k, l, all) => Some(CancelSub(k, l, all))
    case CancelSub(k, l, all) => Some(if all then DisDelete(k) else UnsTopic(k, l))
    case UnsTopic(k, _) => Some(UnsDelete(k))
    case UnsDelete(_) => Some(Unlock)
    case DisLock => Some(DisShutdown)
    case DisShutdown => Some(DisRetryLock)
    case DisRetryLock => Some(DisRetryUnlock)
    case DisRetryUnlock => Some(DisSubs)
    case DisSubs =>
      if s.subscriptions == map[] then Some(DisTopics) else Some(CancelListener(c.key, s.subscriptions[c.key], true))
    case DisDelete(_) => Some(DisSubs)
    case DisTopics => if s.topics == map[] then Some(Unlock) else Some(DisTopics)
    case Unlock => None
    case RetryLock => Some(RetryUnlock)
    case RetryUnlock => None
  }

  predicate OpEnabled(s: Sys, t: Tid, c: Choice) {
    t in s.threads &&
    match ActOf(s.threads[t])
    case TakeR => s.writer.None?
    case TakeW => s.writer.None? && s.readers == {}
    case TakeRetry => s.retryHolder.None?
    case Work => WorkEnabled(s.store, s.threads[t], c)
    case _ => true
  }

  function Locked(s: Sys, t: Tid, act: Act): Sys {
    match act
    case TakeR => s.(readers := s.readers + {t})
    case GiveR => s.(readers := s.readers - {t})
    case TakeW => s.(writer := Some(t))
    case GiveW => s.(writer := None)
    case TakeRetry => s.(retryHolder := Some(t))
    case GiveRetry => s.(retryHolder := None)
    case Work => s
  }

  function OpNext(s: Sys, t: Tid, c: Choice): Sys
    requires OpEnabled(s, t, c)
  {
    var pc := s.threads[t];
    var after := After(s.store, pc, c);
    Locked(s, t, ActOf(pc)).(
      store := if ActOf(pc).Work? then WorkStore(s.store, pc, c) else s.store,
      threads := if after.Some? then s.threads[t := after.value] else s.threads - {t})
  }

  /** A listener passes its select only while its context is not done. Next returns a message, or an error because
      the subscription is closed, because the context ended, or for some other reason. */
  predicate ListenEnabled(s: Store, l: Lid, what: ListenerEvent) {
    l in s.listeners &&
    var x := s.listeners[l];
    match what
    case Check => x.pc.ToCheck?
    case Message => x.pc.InNext?
    case Fail(cause) => x.pc.InNext? && (cause.SubscriptionClosed? ==> x.closed) && (cause.ContextEnded? ==> x.Done())
    case CheckError => x.pc.GotError?
    case Skip => x.pc.GotMessage?
    case Call => x.pc.GotMessage?
    case Return => x.pc.InHandler? && x.hasHandler
    case Panic => x.pc.InHandler?
    case EndCaller => true
  }

  function ListenNext(s: Store, l: Lid, what: ListenerEvent): Store
    requires ListenEnabled(s, l, what)
  {
    var x := s.listeners[l];
    s.Update(l,
             match what
             case Check => x.(pc := if x.Done() then Returned else InNext)
             case Message => x.(pc := GotMessage)
             case Fail(cause) => x.(pc := GotError(cause))
             case CheckError => x.(pc := if x.Done() then Returned else ToCheck)
             case Skip => x.(pc := ToCheck)
             case Call => x.(pc := InHandler)
             case Return => x.(pc := ToCheck)
             case Panic => x.(pc := Returned)
             case EndCaller => x.(callerDone := true))
  }

  predicate Enabled(s: Sys, e: Event) {
    match e
    case Start(pc) => Opening(pc)
    case Op(t, c) => OpEnabled(s, t, c)
    case Listen(l, what) => ListenEnabled(s.store, l, what)
  }

  function Next(s: Sys, e: Event): Sys
    requires Enabled(s, e)
  {
    match e
    case Start(pc) => s.(threads := s.threads[s.next := pc], next := s.next + 1)
    case Op(t, c) => OpNext(s, t, c)
    case Listen(l, what) => s.(store := ListenNext(s.store, l, what))
  }

  function Initially(db: string): Sys {
    Sys(Store(db, map[], map[], {}, {}, 0, map[], 0, {}), {}, None, None, map[], 0)
  }

  predicate Runs(s: Sys, es: seq<Event>)
    decreases |es|
  {
    es == [] || (Enabled(s, es[0]) && Runs(Next(s, es[0]), es[1..]))
  }

  function Run(s: Sys, es: seq<Event>): Sys
    requires Runs(s, es)
    decreases |es|
  {
    if es == [] then s else Run(Next(s, es[0]), es[1..])
  }

  ghost predicate Reachable(s: Sys) {
    exists db, es :: Runs(Initially(db), es) && Run(Initially(db), es) == s
  }
}
