/**
 The goroutines around P2PInfrastructure as a step system: any number of connection notifications,
 delayed starters, retry loops and Disconnect calls, interleaved between mutex regions and external calls.
 */
module RetrySystem {
  import opened Results
  import opened Contexts
  import opened Infrastructure

  type Tid = nat
  type Peer = nat

  /** The goroutine of Connect. It runs bootstrapNetworkWithRetry, and only then is there a DB to disconnect. */
  const CONNECT: Tid := 0

  /** What comes of bootstrapNetwork: an error, nil because its own fetch finds no nodes, or nil with a node reached. */
  datatype Attempt = AttemptFailed | NothingToDial | NodeReached

  /** Why a retry loop returned. SawReady keeps the number of falling edges at the time of the IsReady read. */
  datatype Why = SawReady(edge: nat) | Bootstrapped(attempt: Attempt) | Cancelled

  /** Where a goroutine stands, named after what it does next. */
  datatype Pc =
    // updateReadiness
    | ToCount
    | ToCommit(count: nat)
    // startBootstrapRetryAfterDelay, then startBootstrapRetry
    | ToCheckRunning
    | Sleeping
    | ToCheckShutdown
    | ToRegister
    // the retry goroutine
    | ToSelect(ctx: Ctx)
    | ToReadReady(ctx: Ctx)
    | ToFetch(ctx: Ctx)
    | ToConnect(ctx: Ctx)
    | ToCancelOwn(ctx: Ctx, why: Why)
    | ToClearOwn(ctx: Ctx, why: Why)
    // bootstrapNetworkWithRetry
    | ToFirstFetch
    | ToFirstConnect
    // Disconnect
    | ToCancelShutdown
    | ToStopRetry
  {
    /** Between registering and the deferred clear. */
    predicate Live() {
      ToSelect? || ToReadReady? || ToFetch? || ToConnect? || ToCancelOwn? || ToClearOwn?
    }

    predicate Starter() {
      ToCheckRunning? || Sleeping? || ToCheckShutdown? || ToRegister?
    }

    predicate Notifier() {
      ToCount? || ToCommit?
    }

    predicate Returned() {
      ToCancelOwn? || ToClearOwn?
    }
  }

  datatype Fetched = FetchFailed | NoNodes | SomeNodes

  /** How the initial bootstrap ended, if it has. */
  datatype Initial = Running | FetchError | Succeeded | AskedForRetry

  /** The last loop to clear its registration, unless another has registered since. */
  datatype Exit = Exit(why: Why, edge: nat)

  datatype Sys = Sys(
    fields: Fields,
    peers: set<Peer>,
    threads: map<Tid, Pc>,
    next: Tid,
    // bookkeeping that no step reads
    edges: nat,            // falling edges of isReady
    delayed: set<Tid>,     // goroutines started as startBootstrapRetryAfterDelay
    initial: Initial,
    lastExit: Option<Exit>,
    stolen: bool           // stopBootstrapRetry has cleared a registration
  ) {
    function Goto(t: Tid, pc: Pc): Sys {
      this.(threads := threads[t := pc])
    }

    function Finish(t: Tid): Sys {
      this.(threads := threads - {t})
    }

    function Spawn(pc: Pc): Sys {
      this.(threads := threads[next := pc], next := next + 1)
    }

    function With(f: Fields): Sys {
      this.(fields := f)
    }

    predicate At(t: Tid, pc: Pc) {
      t in threads && threads[t] == pc
    }
  }

  datatype Event =
    | NetworkChange(peers: set<Peer>)
    | CountPeers(t: Tid)
    | Commit(t: Tid)
    | CheckRunning(t: Tid)
    | Wake(t: Tid)
    | CheckShutdown(t: Tid)
    | Register(t: Tid)
    | Tick(t: Tid)
    | SeeCancel(t: Tid)
    | ReadReady(t: Tid)
    | FetchNodes(t: Tid, fetched: Fetched)
    | Connect(t: Tid, attempt: Attempt)
    | CancelOwn(t: Tid)
    | ClearOwn(t: Tid)
    | FirstFetch(t: Tid, fetched: Fetched)
    | FirstConnect(t: Tid, attempt: Attempt)
    | Disconnect
    | CancelShutdown(t: Tid)
    | StopRetry(t: Tid)

  predicate Enabled(s: Sys, e: Event) {
    match e
    case NetworkChange(_) => true
    case Disconnect => CONNECT !in s.threads
    case CountPeers(t) => t in s.threads && s.threads[t].ToCount?
    case Commit(t) => t in s.threads && s.threads[t].ToCommit?
    case CheckRunning(t) => t in s.threads && s.threads[t].ToCheckRunning?
    case Wake(t) => t in s.threads && s.threads[t].Sleeping?
    case CheckShutdown(t) => t in s.threads && s.threads[t].ToCheckShutdown?
    case Register(t) => t in s.threads && s.threads[t].ToRegister?
    // Go's select picks any ready case, so a cancelled loop may still take a tick.
    case Tick(t) => t in s.threads && s.threads[t].ToSelect?
    case SeeCancel(t) =>
      && t in s.threads && s.threads[t].ToSelect?
      && (s.fields.ctxs.Done(s.threads[t].ctx) || s.fields.ShuttingDown())
    case ReadReady(t) => t in s.threads && s.threads[t].ToReadReady?
    case FetchNodes(t, _) => t in s.threads && s.threads[t].ToFetch?
    case Connect(t, _) => t in s.threads && s.threads[t].ToConnect?
    case CancelOwn(t) => t in s.threads && s.threads[t].ToCancelOwn?
    case ClearOwn(t) => t in s.threads && s.threads[t].ToClearOwn?
    case FirstFetch(t, _) => t in s.threads && s.threads[t].ToFirstFetch?
    case FirstConnect(t, _) => t in s.threads && s.threads[t].ToFirstConnect?
    case CancelShutdown(t) => t in s.threads && s.threads[t].ToCancelShutdown?
    case StopRetry(t) => t in s.threads && s.threads[t].ToStopRetry?
  }

  function Next(s: Sys, e: Event): Sys
    requires Enabled(s, e)
  {
    match e
    case NetworkChange(peers) => s.(peers := peers).Spawn(ToCount)
    case CountPeers(t) => s.Goto(t, ToCommit(|s.peers|))
    case Commit(t) => CommitReadiness(s, t, s.threads[t].count)
    case CheckRunning(t) => if s.fields.retryCancel.Some? then s.Finish(t) else s.Goto(t, Sleeping)
    case Wake(t) => if s.fields.isReady then s.Finish(t) else s.Goto(t, ToCheckShutdown)
    case CheckShutdown(t) => if s.fields.ShuttingDown() then s.Finish(t) else s.Goto(t, ToRegister)
    case Register(t) => RegisterLoop(s, t)
    case Tick(t) => s.Goto(t, ToReadReady(s.threads[t].ctx))
    case SeeCancel(t) => s.Goto(t, ToCancelOwn(s.threads[t].ctx, Cancelled))
    case ReadReady(t) =>
      var c := s.threads[t].ctx;
      s.Goto(t, if s.fields.isReady then ToCancelOwn(c, SawReady(s.edges)) else ToFetch(c))
    case FetchNodes(t, fetched) =>
      var c := s.threads[t].ctx;
      s.Goto(t, if fetched.SomeNodes? then ToConnect(c) else ToSelect(c))
    case Connect(t, attempt) =>
      var c := s.threads[t].ctx;
      s.Goto(t, if attempt.AttemptFailed? then ToSelect(c) else ToCancelOwn(c, Bootstrapped(attempt)))
    case CancelOwn(t) =>
      var pc := s.threads[t];
      s.With(s.fields.CancelCtx(pc.ctx)).Goto(t, ToClearOwn(pc.ctx, pc.why))
    case ClearOwn(t) =>
      s.With(s.fields.Unregister()).Finish(t).(lastExit := Some(Exit(s.threads[t].why, s.edges)))
    case FirstFetch(t, fetched) =>
      (match fetched
       case FetchFailed => s.Finish(t).(initial := FetchError)
       case NoNodes => s.Goto(t, ToCheckShutdown).(initial := AskedForRetry)
       case SomeNodes => s.Goto(t, ToFirstConnect))
    case FirstConnect(t, attempt) =>
      if attempt.AttemptFailed? then s.Goto(t, ToCheckShutdown).(initial := AskedForRetry)
      else s.Finish(t).(initial := Succeeded)
    case Disconnect => s.Spawn(ToCancelShutdown)
    case CancelShutdown(t) => s.With(s.fields.CancelCtx(SHUTDOWN)).Goto(t, ToStopRetry)
    case StopRetry(t) =>
      s.With(s.fields.Stop()).Finish(t).(stolen := s.stolen || s.fields.retryCancel.Some?)
  }

  function CommitReadiness(s: Sys, t: Tid, count: nat): Sys {
    var u := s.With(s.fields.SetReadiness(count)).Finish(t);
    if s.fields.FallsOn(count)
    then u.Spawn(ToCheckRunning).(edges := s.edges + 1, delayed := s.delayed + {s.next})
    else u
  }

  function RegisterLoop(s: Sys, t: Tid): Sys {
    if s.fields.retryCancel.Some? then s.Finish(t)
    else s.With(s.fields.Register(SHUTDOWN)).Finish(t).Spawn(ToSelect(s.fields.nextCtx)).(lastExit := None)
  }

  /** The state in which the notifier is installed: some peers may already be there. */
  function Initially(peers: set<Peer>): Sys {
    Sys(INITIAL, peers, map[CONNECT := ToFirstFetch], 1, 0, {}, Running, None, false)
  }

  predicate Runs(s: Sys, es: seq<Event>)
    decreases |es|
  {
    es == [] || (Enabled(s, es[0]) && Runs(Next(s, es[0]), es[1..]))
  }

  function Run(s: Sys, es: seq<Event>): Sys
    requires Runs(s, es)
    decreases |es|
  {
    if es == [] then s else Run(Next(s, es[0]), es[1..])
  }

  /** Every state the run passes through. */
  function Trace(s: Sys, es: seq<Event>): (states: seq<Sys>)
    requires Runs(s, es)
    ensures |states| == |es| + 1 && states[0] == s && states[|es|] == Run(s, es)
    decreases |es|
  {
    [s] + if es == [] then [] else Trace(Next(s, es[0]), es[1..])
  }

  ghost predicate Reachable(s: Sys) {
    exists peers, es :: Runs(Initially(peers), es) && Run(Initially(peers), es) == s
  }

  /** Loops registered in a run. */
  ghost function Registrations(s: Sys, es: seq<Event>): nat
    requires Runs(s, es)
    decreases |es|
  {
    if es == [] then 0 else One(Registers(s, es[0])) + Registrations(Next(s, es[0]), es[1..])
  }

  predicate Registers(s: Sys, e: Event) {
    e.Register? && s.fields.retryCancel.None?
  }

  function One(b: bool): nat {
    if b then 1 else 0
  }

  lemma {:induction false} RegistrationsAppend(s: Sys, es: seq<Event>, fs: seq<Event>)
    requires Runs(s, es) && Runs(Run(s, es), fs)
    ensures Runs(s, es + fs) && Registrations(s, es + fs) == Registrations(s, es) + Registrations(Run(s, es), fs)
    decreases |es|
  {
    if es == [] {
      assert es + fs == fs;
    } else {
      RegistrationsAppend(Next(s, es[0]), es[1..], fs);
      assert (es + fs)[1..] == es[1..] + fs;
    }
  }

  /** The goroutine that takes a step; a connection change or a call of Disconnect starts a new one. */
  function Mover(s: Sys, e: Event): Tid {
    if e.NetworkChange? || e.Disconnect? then s.next else e.t
  }

  /** A step moves one goroutine and starts at most one. */
  lemma OthersStay(s: Sys, e: Event, t: Tid)
    requires Enabled(s, e) && t != Mover(s, e) && t != s.next
    ensures t in Next(s, e).threads <==> t in s.threads
    ensures t in s.threads ==> Next(s, e).threads[t] == s.threads[t]
  {
  }

  lemma {:induction false} RunAppend(s: Sys, es: seq<Event>, fs: seq<Event>)
    requires Runs(s, es) && Runs(Run(s, es), fs)
    ensures Runs(s, es + fs) && Run(s, es + fs) == Run(Run(s, es), fs)
    decreases |es|
  {
    if es == [] {
      assert es + fs == fs;
    } else {
      RunAppend(Next(s, es[0]), es[1..], fs);
      assert (es + fs)[1..] == es[1..] + fs;
    }
  }

  lemma ReachableRun(s: Sys, es: seq<Event>)
    requires Reachable(s) && Runs(s, es)
    ensures Reachable(Run(s, es))
  {
    var peers, fs :| Runs(Initially(peers), fs) && Run(Initially(peers), fs) == s;
    RunAppend(Initially(peers), fs, es);
  }

  lemma ReachableInitially(peers: set<Peer>)
    ensures Reachable(Initially(peers))
  {
    assert Runs(Initially(peers), []) && Run(Initially(peers), []) == Initially(peers);
  }

  /** One step of a concrete run. */
  lemma Do(s: Sys, e: Event) returns (s': Sys)
    requires Reachable(s) && Enabled(s, e)
    ensures Reachable(s') && s' == Next(s, e)
  {
    s' := Next(s, e);
    assert Runs(s', []) && Run(s', []) == s';
    assert Runs(s, [e]) && Run(s, [e]) == s';
    ReachableRun(s, [e]);
  }

  /** Each state of a trace steps to the next. */
  lemma {:induction false} TraceStep(s: Sys, es: seq<Event>, i: nat)
    requires Runs(s, es) && i < |es|
    ensures var states := Trace(s, es); Enabled(states[i], es[i]) && states[i + 1] == Next(states[i], es[i])
    decreases |es|
  {
    if i > 0 {
      TraceStep(Next(s, es[0]), es[1..], i - 1);
    }
  }
}
