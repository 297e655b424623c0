/**
 The gater as a step system: one background refresher, any number of concurrent checks, calls of ClearCache,
 and a registry that changes over time. Clearing, loading and storing are atomic.
 */
module GaterSystem {
  import opened Results
  import opened Gater

  type Tid = nat

  /** The refresher holds cache.mutex while it fills. */
  datatype Refresher = Idle | Fetched(wallets: seq<Wallet>) | Filling(rest: seq<Wallet>)

  datatype Check =
    | ToLookup(wallet: Wallet)
    | ToFetch(wallet: Wallet)
    | ToConclude(wallet: Wallet, wallets: seq<Wallet>)

  datatype Sys = Sys(
    cache: set<Wallet>,
    registry: seq<Wallet>,
    refresher: Refresher,
    checks: map<Tid, Check>,
    next: Tid,
    snapshots: seq<seq<Wallet>>  // bookkeeping: every list the registry has returned
  ) {
    function Goto(t: Tid, c: Check): Sys {
      this.(checks := checks[t := c])
    }

    function Finish(t: Tid): Sys {
      this.(checks := checks - {t})
    }
  }

  datatype Event =
    | SetRegistry(wallets: seq<Wallet>)
    | RefreshFetch(ok: bool)
    | RefreshClear
    | RefreshStore
    | RefreshUnlock
    | ClearCache
    | StartCheck(wallet: Wallet)
    | Lookup(t: Tid)
    | Fetch(t: Tid, ok: bool)
    | Conclude(t: Tid)

  predicate Enabled(s: Sys, e: Event) {
    match e
    case SetRegistry(_) => true
    case RefreshFetch(_) => s.refresher.Idle?
    case RefreshClear => s.refresher.Fetched?
    case RefreshStore => s.refresher.Filling? && s.refresher.rest != []
    case RefreshUnlock => s.refresher == Filling([])
    case ClearCache => !s.refresher.Filling?
    case StartCheck(_) => true
    case Lookup(t) => t in s.checks && s.checks[t].ToLookup?
    case Fetch(t, _) => t in s.checks && s.checks[t].ToFetch?
    case Conclude(t) => t in s.checks && s.checks[t].ToConclude?
  }

  function Next(s: Sys, e: Event): Sys
    requires Enabled(s, e)
  {
    match e
    case SetRegistry(wallets) => s.(registry := wallets)
    case RefreshFetch(ok) =>
      if ok then s.(refresher := Fetched(s.registry), snapshots := s.snapshots + [s.registry]) else s
    case RefreshClear => s.(cache := {}, refresher := Filling(s.refresher.wallets))
    case RefreshStore => s.(cache := s.cache + {s.refresher.rest[0]}, refresher := Filling(s.refresher.rest[1..]))
    case RefreshUnlock => s.(refresher := Idle)
    case ClearCache => s.(cache := {})
    case StartCheck(wallet) => s.(checks := s.checks[s.next := ToLookup(wallet)], next := s.next + 1)
    case Lookup(t) =>
      var w := s.checks[t].wallet;
      if w in s.cache then s.Finish(t) else s.Goto(t, ToFetch(w))
    case Fetch(t, ok) =>
      if ok then s.Goto(t, ToConclude(s.checks[t].wallet, s.registry)).(snapshots := s.snapshots + [s.registry])
      else s.Finish(t)
    case Conclude(t) =>
      var w := s.checks[t].wallet;
      if w in s.checks[t].wallets then s.(cache := s.cache + {w}).Finish(t) else s.Finish(t)
  }

  datatype Reply = Reply(wallet: Wallet, verdict: Result<bool, Error>)

  /** The answer of the check that this step ends, if it ends one. */
  function Answer(s: Sys, e: Event): Option<Reply>
    requires Enabled(s, e)
  {
    if e.Lookup? && s.checks[e.t].wallet in s.cache then Some(Reply(s.checks[e.t].wallet, Ok(true)))
    else if e.Fetch? && !e.ok then Some(Reply(s.checks[e.t].wallet, Err(RegistryFailed)))
    else if e.Conclude? then Some(Reply(s.checks[e.t].wallet, Ok(s.checks[e.t].wallet in s.checks[e.t].wallets)))
    else None
  }

  function Answered(s: Sys, e: Event): seq<Reply>
    requires Enabled(s, e)
  {
    var a := Answer(s, e);
    if a.Some? then [a.value] else []
  }

  function Initially(registry: seq<Wallet>): Sys {
    Sys({}, registry, Idle, map[], 0, [])
  }

  predicate Runs(s: Sys, es: seq<Event>)
    decreases |es|
  {
    es == [] || (Enabled(s, es[0]) && Runs(Next(s, es[0]), es[1..]))
  }

  function Run(s: Sys, es: seq<Event>): Sys
    requires Runs(s, es)
    decreases |es|
  {
    if es == [] then s else Run(Next(s, es[0]), es[1..])
  }

  function Answers(s: Sys, es: seq<Event>): seq<Reply>
    requires Runs(s, es)
    decreases |es|
  {
    if es == [] then [] else Answered(s, es[0]) + Answers(Next(s, es[0]), es[1..])
  }

  lemma {:induction false} RunAppend(s: Sys, es: seq<Event>, fs: seq<Event>)
    requires Runs(s, es) && Runs(Run(s, es), fs)
    ensures Runs(s, es + fs) && Run(s, es + fs) == Run(Run(s, es), fs)
    ensures Answers(s, es + fs) == Answers(s, es) + Answers(Run(s, es), fs)
    decreases |es|
  {
    if es == [] {
      assert es + fs == fs;
    } else {
      RunAppend(Next(s, es[0]), es[1..], fs);
      RunFirst(s, es[0], es[1..] + fs);
      assert es + fs == [es[0]] + (es[1..] + fs);
    }
  }

  lemma RunFirst(s: Sys, e: Event, rest: seq<Event>)
    requires Enabled(s, e) && Runs(Next(s, e), rest)
    ensures Runs(s, [e] + rest) && Run(s, [e] + rest) == Run(Next(s, e), rest)
    ensures Answers(s, [e] + rest) == Answered(s, e) + Answers(Next(s, e), rest)
  {
    assert ([e] + rest)[1..] == rest;
  }

  lemma RunOne(s: Sys, e: Event)
    requires Enabled(s, e)
    ensures Runs(s, [e]) && Run(s, [e]) == Next(s, e)
    ensures Answers(s, [e]) == Answered(s, e)
  {
    var s' := Next(s, e);
    assert Runs(s', []) && Run(s', []) == s' && Answers(s', []) == [];
    assert [e][1..] == [];
  }

  /** Some run leads from s to s' and gives these answers. */
  ghost predicate Leads(s: Sys, answers: seq<Reply>, s': Sys) {
    exists es :: Runs(s, es) && Answers(s, es) == answers && Run(s, es) == s'
  }

  lemma LeadsNowhere(s: Sys)
    ensures Leads(s, [], s)
  {
    assert Runs(s, []) && Answers(s, []) == [] && Run(s, []) == s;
  }

  /** One more step. */
  lemma Do(s: Sys, answers: seq<Reply>, s': Sys, e: Event) returns (s'': Sys)
    requires Leads(s, answers, s') && Enabled(s', e)
    ensures s'' == Next(s', e)
    ensures Leads(s, answers + Answered(s', e), s'')
  {
    var es :| Runs(s, es) && Answers(s, es) == answers && Run(s, es) == s';
    RunOne(s', e);
    RunAppend(s, es, [e]);
    s'' := Next(s', e);
  }

  // ------------------------------------------------------------ the uninterrupted calls

  function Stores(n: nat): seq<Event> {
    seq(n, i => RefreshStore)
  }

  lemma {:induction false} FillsToTheEnd(s: Sys)
    requires s.refresher.Filling?
    ensures var n := |s.refresher.rest|;
            && Runs(s, Stores(n))
            && Run(s, Stores(n)) == s.(cache := s.cache + Listed(s.refresher.rest), refresher := Filling([]))
            && Answers(s, Stores(n)) == []
    decreases |s.refresher.rest|
  {
    var rest := s.refresher.rest;
    if rest == [] {
      assert s.cache + Listed([]) == s.cache;
    } else {
      var s' := Next(s, RefreshStore);
      FillsToTheEnd(s');
      assert Stores(|rest|)[1..] == Stores(|rest| - 1);
      assert {rest[0]} + Listed(rest[1..]) == Listed(rest);
      assert s'.cache + Listed(rest[1..]) == s.cache + Listed(rest);
    }
  }

  /** refreshCache step by step does what it does in one call: nothing if its fetch fails. */
  lemma RefreshInOneGo(s: Sys, ok: bool) returns (s': Sys)
    requires s.refresher.Idle?
    ensures Leads(s, [], s')
    ensures s' == if ok then s.(cache := (set w | w in s.registry), snapshots := s.snapshots + [s.registry]) else s
  {
    LeadsNowhere(s);
    s' := Do(s, [], s, RefreshFetch(ok));
    if ok {
      s' := Refill(s, s');
    }
  }

  lemma Refill(s: Sys, s1: Sys) returns (s': Sys)
    requires s.refresher.Idle? && Leads(s, [], s1)
    requires s1 == s.(refresher := Fetched(s.registry), snapshots := s.snapshots + [s.registry])
    ensures Leads(s, [], s')
    ensures s' == s.(cache := Listed(s.registry), snapshots := s.snapshots + [s.registry])
  {
    s' := Do(s, [], s1, RefreshClear);
    s' := Fill(s, s');
    s' := Do(s, [], s', RefreshUnlock);
  }

  lemma Fill(s: Sys, s1: Sys) returns (s': Sys)
    requires Leads(s, [], s1) && s1.refresher.Filling?
    ensures Leads(s, [], s')
    ensures s' == s1.(cache := s1.cache + Listed(s1.refresher.rest), refresher := Filling([]))
  {
    var es :| Runs(s, es) && Answers(s, es) == [] && Run(s, es) == s1;
    FillsToTheEnd(s1);
    RunAppend(s, es, Stores(|s1.refresher.rest|));
    s' := Run(s1, Stores(|s1.refresher.rest|));
  }

  /** checkWalletInCache step by step gives the verdict it gives in one call. */
  lemma CheckInOneGo(s: Sys, w: Wallet, ok: bool) returns (s': Sys)
    requires s.next !in s.checks
    ensures var verdict := Verdict(s.cache, w, if ok then Ok(s.registry) else Err(RegistryFailed));
            && Leads(s, [Reply(w, verdict)], s')
            && s'.checks == s.checks
            && s'.cache == s.cache + if verdict == Ok(true) then {w} else {}
  {
    s' := LooksUp(s, w);
    if w !in s.cache {
      s' := MissInOneGo(s, s', w, ok);
    }
  }

  lemma LooksUp(s: Sys, w: Wallet) returns (s': Sys)
    requires s.next !in s.checks
    ensures Leads(s, if w in s.cache then [Reply(w, Ok(true))] else [], s')
    ensures s' == s.(checks := if w in s.cache then s.checks else s.checks[s.next := ToFetch(w)], next := s.next + 1)
  {
    LeadsNowhere(s);
    s' := Do(s, [], s, StartCheck(w));
    s' := Do(s, [], s', Lookup(s.next));
    assert s.checks[s.next := ToLookup(w)] - {s.next} == s.checks;
  }

  lemma MissInOneGo(s: Sys, s1: Sys, w: Wallet, ok: bool) returns (s': Sys)
    requires w !in s.cache && s.next !in s.checks && Leads(s, [], s1)
    requires s1 == s.(checks := s.checks[s.next := ToFetch(w)], next := s.next + 1)
    ensures Leads(s, [Reply(w, if ok then Ok(w in s.registry) else Err(RegistryFailed))], s')
    ensures s'.checks == s.checks
    ensures s'.cache == s.cache + if ok && w in s.registry then {w} else {}
  {
    s' := Do(s, [], s1, Fetch(s.next, ok));
    if ok {
      s' := Do(s, [], s', Conclude(s.next));
    }
    assert s'.checks == s.checks;
  }

  /** After ClearCache a check asks the registry, whatever was in the cache. */
  lemma ClearThenCheck(s: Sys, w: Wallet, ok: bool) returns (s': Sys)
    requires !s.refresher.Filling? && s.next !in s.checks
    ensures Leads(s, [Reply(w, if ok then Ok(w in s.registry) else Err(RegistryFailed))], s')
    ensures s'.cache == if ok && w in s.registry then {w} else {}
  {
    RunOne(s, ClearCache);
    var s1 := Next(s, ClearCache);
    s' := CheckInOneGo(s1, w, ok);
    var es :| Runs(s1, es) && Answers(s1, es) == [Reply(w, if ok then Ok(w in s.registry) else Err(RegistryFailed))]
              && Run(s1, es) == s';
    RunAppend(s, [ClearCache], es);
  }

  // ------------------------------------------------------------ what a refresh brings

  /** The refresher is filling, and what it has taken from its list is in the cache. */
  ghost predicate FillingFrom(s: Sys, wallets: seq<Wallet>) {
    && s.refresher.Filling?
    && forall w <- wallets :: w in s.cache || w in s.refresher.rest
  }

  lemma {:induction false} KeepsFilling(s: Sys, es: seq<Event>, wallets: seq<Wallet>)
    requires FillingFrom(s, wallets) && Runs(s, es) && RefreshUnlock !in es
    ensures FillingFrom(Run(s, es), wallets)
    decreases |es|
  {
    if es != [] {
      assert es[0] in es;
      StepFills(s, es[0], wallets);
      KeepsFilling(Next(s, es[0]), es[1..], wallets);
    }
  }

  /** A refresh has its list, clears the cache, and fills it while anything else happens: when it lets go of its lock,
      all of the list is in the cache, whatever checks there were and although others may want to clear it. */
  lemma RefreshCompletes(s: Sys, es: seq<Event>)
    requires Enabled(s, RefreshClear) && Runs(Next(s, RefreshClear), es) && RefreshUnlock !in es
    requires Enabled(Run(Next(s, RefreshClear), es), RefreshUnlock)
    ensures forall w <- s.refresher.wallets :: w in Run(Next(s, RefreshClear), es).cache
  {
    KeepsFilling(Next(s, RefreshClear), es, s.refresher.wallets);
  }

  lemma StepFills(s: Sys, e: Event, wallets: seq<Wallet>)
    requires FillingFrom(s, wallets) && Enabled(s, e) && e != RefreshUnlock
    ensures FillingFrom(Next(s, e), wallets)
  {
    if e.RefreshStore? {
      assert s.refresher.rest == [s.refresher.rest[0]] + s.refresher.rest[1..];
    }
  }

  // ------------------------------------------------------------ transparency

  /** The cache and everything in flight agree with a registry that lists these wallets. */
  ghost predicate Transparent(s: Sys, listed: set<Wallet>) {
    && Listed(s.registry) == listed
    && s.cache <= listed
    && (s.refresher.Fetched? ==> Listed(s.refresher.wallets) <= listed)
    && (s.refresher.Filling? ==> Listed(s.refresher.rest) <= listed)
    && (forall t <- s.checks :: s.checks[t].ToConclude? ==> Listed(s.checks[t].wallets) == listed)
  }

  ghost predicate RegistryConstant(es: seq<Event>) {
    forall e <- es :: !e.SetRegistry?
  }

  /** The wallets of the checks that end with an error, in order. */
  function Errors(replies: seq<Reply>): seq<Wallet> {
    if replies == [] then []
    else (if replies[0].verdict.Err? then [replies[0].wallet] else []) + Errors(replies[1..])
  }

  /** The wallets of the checks whose fetch fails in a run, in order. */
  function FailedFetches(s: Sys, es: seq<Event>): seq<Wallet>
    requires Runs(s, es)
    decreases |es|
  {
    if es == [] then []
    else (if es[0].Fetch? && !es[0].ok then [s.checks[es[0].t].wallet] else []) + FailedFetches(Next(s, es[0]), es[1..])
  }

  lemma ErrorOfStep(s: Sys, e: Event, rest: seq<Reply>)
    requires Enabled(s, e)
    ensures Errors(Answered(s, e) + rest) == (if e.Fetch? && !e.ok then [s.checks[e.t].wallet] else []) + Errors(rest)
  {
    if Answer(s, e).Some? {
      assert (Answered(s, e) + rest)[1..] == rest;
    } else {
      assert Answered(s, e) + rest == rest;
    }
  }

  /** With a constant registry, every interleaving of partial refreshes, ClearCache and concurrent checks answers
      exactly registry membership; the errors are, one by one, those of the checks whose own fetch failed. */
  lemma {:induction false} CacheIsTransparent(s: Sys, es: seq<Event>, listed: set<Wallet>)
    requires Transparent(s, listed) && Runs(s, es) && RegistryConstant(es)
    ensures Transparent(Run(s, es), listed)
    ensures forall r <- Answers(s, es) :: r.verdict.Ok? ==> (r.verdict.value <==> r.wallet in listed)
    ensures Errors(Answers(s, es)) == FailedFetches(s, es)
    decreases |es|
  {
    if es != [] {
      StepIsTransparent(s, es[0], listed);
      ErrorOfStep(s, es[0], Answers(Next(s, es[0]), es[1..]));
      assert forall e <- es[1..] :: e in es;
      CacheIsTransparent(Next(s, es[0]), es[1..], listed);
    }
  }

  lemma StepIsTransparent(s: Sys, e: Event, listed: set<Wallet>)
    requires Transparent(s, listed) && Enabled(s, e) && !e.SetRegistry?
    ensures Transparent(Next(s, e), listed)
    ensures Answer(s, e).Some? && Answer(s, e).value.verdict.Ok? ==>
              (Answer(s, e).value.verdict.value <==> Answer(s, e).value.wallet in listed)
  {
    if e.RefreshStore? {
      var rest := s.refresher.rest;
      assert rest[0] in Listed(rest);
      assert Listed(rest[1..]) <= Listed(rest);
    } else if e.Conclude? {
      assert s.checks[e.t].wallet in s.checks[e.t].wallets <==> s.checks[e.t].wallet in Listed(s.checks[e.t].wallets);
    }
  }

  lemma InitiallyTransparent(registry: seq<Wallet>)
    ensures Transparent(Initially(registry), Listed(registry))
  {
  }

  /** So it is in every run from the start. */
  lemma TransparentFromTheStart(registry: seq<Wallet>, es: seq<Event>)
    requires Runs(Initially(registry), es) && RegistryConstant(es)
    ensures forall r <- Answers(Initially(registry), es) ::
              r.verdict.Ok? ==> (r.verdict.value <==> r.wallet in registry)
    ensures Errors(Answers(Initially(registry), es)) == FailedFetches(Initially(registry), es)
  {
    InitiallyTransparent(registry);
    CacheIsTransparent(Initially(registry), es, Listed(registry));
  }

  // ------------------------------------------------------------ provenance

  ghost predicate Returned(s: Sys, w: Wallet) {
    exists i | 0 <= i < |s.snapshots| :: w in s.snapshots[i]
  }

  /** Everything cached or about to be comes from a list the registry has returned. */
  ghost predicate Explained(s: Sys) {
    && (forall w <- s.cache :: Returned(s, w))
    && (s.refresher.Fetched? ==> s.refresher.wallets in s.snapshots)
    && (s.refresher.Filling? ==> forall w <- s.refresher.rest :: Returned(s, w))
    && (forall t <- s.checks :: s.checks[t].ToConclude? ==> s.checks[t].wallets in s.snapshots)
  }

  lemma StepIsExplained(s: Sys, e: Event)
    requires Explained(s) && Enabled(s, e)
    ensures Explained(Next(s, e))
    ensures s.snapshots <= Next(s, e).snapshots
  {
    var s' := Next(s, e);
    forall w | Returned(s, w)
      ensures Returned(s', w)
    {
      var i :| 0 <= i < |s.snapshots| && w in s.snapshots[i];
      assert w in s'.snapshots[i];
    }
    assert forall l :: l in s.snapshots ==> l in s'.snapshots;
    assert forall l, w :: l in s.snapshots && w in l ==> Returned(s, w);
    if (e.RefreshFetch? || e.Fetch?) && e.ok {
      assert s'.snapshots[|s.snapshots|] == s.registry;
    }
  }

  /** The registry may change at any time; still every acceptance, and every wallet in the cache, is explained by a list
      that the registry returned. */
  lemma {:induction false} AnswersAreExplained(s: Sys, es: seq<Event>)
    requires Explained(s) && Runs(s, es)
    ensures Explained(Run(s, es)) && s.snapshots <= Run(s, es).snapshots
    ensures forall r <- Answers(s, es) :: r.verdict == Ok(true) ==> Returned(Run(s, es), r.wallet)
    decreases |es|
  {
    if es != [] {
      var s' := Next(s, es[0]);
      StepIsExplained(s, es[0]);
      AnswersAreExplained(s', es[1..]);
      var a := Answer(s, es[0]);
      if a.Some? && a.value.verdict == Ok(true) {
        if es[0].Conclude? {
          var i :| 0 <= i < |s.snapshots| && s.snapshots[i] == s.checks[es[0].t].wallets;
          assert a.value.wallet in Run(s, es).snapshots[i];
        } else {
          var i :| 0 <= i < |s.snapshots| && a.value.wallet in s.snapshots[i];
          assert a.value.wallet in Run(s, es).snapshots[i];
        }
      }
    }
  }

  lemma InitiallyExplained(registry: seq<Wallet>)
    ensures Explained(Initially(registry))
  {
  }

  /** So it is in every run from the start. */
  lemma ExplainedFromTheStart(registry: seq<Wallet>, es: seq<Event>)
    requires Runs(Initially(registry), es)
    ensures var s := Run(Initially(registry), es);
            && (forall w <- s.cache :: Returned(s, w))
            && (forall r <- Answers(Initially(registry), es) :: r.verdict == Ok(true) ==> Returned(s, r.wallet))
  {
    InitiallyExplained(registry);
    AnswersAreExplained(Initially(registry), es);
  }

  /** One check that goes to the registry, with anything happening in between: its verdict is membership in the
      registry at the moment of its fetch; so a refusal is absence from the list that this very check fetched. */
  lemma VerdictOfAMiss(s: Sys, t: Tid, es: seq<Event>)
    requires Enabled(s, Fetch(t, true)) && Runs(Next(s, Fetch(t, true)), es)
    requires forall e <- es :: !(e.Conclude? && e.t == t)
    requires t < s.next
    ensures var u := Run(Next(s, Fetch(t, true)), es);
            && Enabled(u, Conclude(t))
            && Answer(u, Conclude(t)) == Some(Reply(s.checks[t].wallet, Ok(s.checks[t].wallet in s.registry)))
  {
    WaitsWithItsList(Next(s, Fetch(t, true)), t, es);
  }

  lemma {:induction false} WaitsWithItsList(s: Sys, t: Tid, es: seq<Event>)
    requires t in s.checks && s.checks[t].ToConclude? && t < s.next
    requires Runs(s, es) && forall e <- es :: !(e.Conclude? && e.t == t)
    ensures t in Run(s, es).checks && Run(s, es).checks[t] == s.checks[t]
    decreases |es|
  {
    if es != [] {
      assert es[0] in es;
      assert forall e <- es[1..] :: e in es;
      WaitsWithItsList(Next(s, es[0]), t, es[1..]);
    }
  }

  // ------------------------------------------------------------ staleness

  /** A check of this wallet that fetched a list with it, before the registry dropped it. */
  ghost predicate StaleCheck(s: Sys, w: Wallet) {
    exists t :: t in s.checks && s.checks[t].ToConclude? && s.checks[t].wallet == w && w in s.checks[t].wallets
  }

  ghost predicate RefresherClean(s: Sys, w: Wallet) {
    && (s.refresher.Fetched? ==> w !in s.refresher.wallets)
    && (s.refresher.Filling? ==> w !in s.refresher.rest)
  }

  /** Nothing is left of a wallet. */
  ghost predicate Clean(s: Sys, w: Wallet) {
    w !in s.registry && w !in s.cache && !StaleCheck(s, w) && RefresherClean(s, w)
  }

  ghost predicate NeverLists(es: seq<Event>, w: Wallet) {
    forall e <- es :: e.SetRegistry? ==> w !in e.wallets
  }

  ghost predicate NeverAccepts(s: Sys, es: seq<Event>, w: Wallet)
    requires Runs(s, es)
  {
    forall r <- Answers(s, es) :: r.wallet == w ==> r.verdict != Ok(true)
  }

  /** However a run goes on without listing the wallet, no check accepts it. */
  ghost predicate RefusedForGood(s: Sys, w: Wallet) {
    forall es :: Runs(s, es) && NeverLists(es, w) ==> NeverAccepts(s, es, w)
  }

  lemma StepKeepsClean(s: Sys, e: Event, w: Wallet)
    requires Clean(s, w) && Enabled(s, e) && (e.SetRegistry? ==> w !in e.wallets)
    ensures Clean(Next(s, e), w)
    ensures Answer(s, e) != Some(Reply(w, Ok(true)))
  {
    var s' := Next(s, e);
    forall t | t in s'.checks && s'.checks[t].ToConclude?
      ensures (t in s.checks && s.checks[t] == s'.checks[t]) || s'.checks[t].wallets == s.registry
    {
    }
  }

  lemma {:induction false} CleanMeansRefused(s: Sys, es: seq<Event>, w: Wallet)
    requires Clean(s, w) && Runs(s, es) && NeverLists(es, w)
    ensures NeverAccepts(s, es, w) && Clean(Run(s, es), w)
    decreases |es|
  {
    if es != [] {
      assert es[0] in es;
      StepKeepsClean(s, es[0], w);
      assert forall e <- es[1..] :: e in es;
      CleanMeansRefused(Next(s, es[0]), es[1..], w);
    }
  }

  /** The registry no longer lists the wallet. It is refused for good exactly if nothing of it is left: not in the
      cache, not in the list of a waiting check of it, not in the refresher's list. */
  lemma RefusedForGoodIffClean(s: Sys, w: Wallet)
    requires w !in s.registry && s.next !in s.checks
    ensures RefusedForGood(s, w) <==> Clean(s, w)
  {
    if Clean(s, w) {
      forall es | Runs(s, es) && NeverLists(es, w)
        ensures NeverAccepts(s, es, w)
      {
        CleanMeansRefused(s, es, w);
      }
    } else {
      var es := AcceptingRun(s, w);
      assert !NeverAccepts(s, es, w);
    }
  }

  /** If something is left, some run accepts the wallet although the registry never lists it. */
  lemma AcceptingRun(s: Sys, w: Wallet) returns (es: seq<Event>)
    requires w !in s.registry && !Clean(s, w) && s.next !in s.checks
    ensures Runs(s, es) && NeverLists(es, w) && Reply(w, Ok(true)) in Answers(s, es)
  {
    if w in s.cache {
      es := AcceptFromCache(s, w);
    } else if StaleCheck(s, w) {
      var t :| t in s.checks && s.checks[t].ToConclude? && s.checks[t].wallet == w && w in s.checks[t].wallets;
      es := [Conclude(t)];
      RunOne(s, Conclude(t));
    } else {
      var clear := if s.refresher.Fetched? then [RefreshClear] else [];
      var s1 := s;
      if s.refresher.Fetched? {
        RunOne(s, RefreshClear);
        s1 := Next(s, RefreshClear);
      } else {
        assert Runs(s, []) && Run(s, []) == s;
      }
      var stores := Stores(|s1.refresher.rest|);
      FillsToTheEnd(s1);
      RunAppend(s, clear, stores);
      var s2 := Run(s, clear + stores);
      assert w in s2.cache;
      var accept := AcceptFromCache(s2, w);
      RunAppend(s, clear + stores, accept);
      es := clear + stores + accept;
    }
  }

  lemma AcceptFromCache(s: Sys, w: Wallet) returns (es: seq<Event>)
    requires w in s.cache && s.next !in s.checks
    ensures Runs(s, es) && NeverLists(es, w) && Reply(w, Ok(true)) in Answers(s, es)
  {
    RunOne(s, StartCheck(w));
    var s' := Next(s, StartCheck(w));
    RunOne(s', Lookup(s.next));
    RunAppend(s, [StartCheck(w)], [Lookup(s.next)]);
    es := [StartCheck(w)] + [Lookup(s.next)];
  }

  /** The refresher cannot bring back what it fetched after the drop. */
  lemma {:induction false} RefresherStaysClean(s: Sys, es: seq<Event>, w: Wallet)
    requires w !in s.registry && RefresherClean(s, w) && Runs(s, es) && NeverLists(es, w)
    ensures w !in Run(s, es).registry && RefresherClean(Run(s, es), w)
    decreases |es|
  {
    if es != [] {
      assert es[0] in es;
      assert forall e <- es[1..] :: e in es;
      RefresherStaysClean(Next(s, es[0]), es[1..], w);
    }
  }

  /** Bounded staleness. The registry has dropped the wallet; a refresh fetches, anything happens, the refresher
      clears the cache at a moment when the checks that fetched before the drop have finished: from then on no check
      accepts the wallet until the registry lists it again. */
  lemma BoundedStaleness(s: Sys, between: seq<Event>, after: seq<Event>, w: Wallet)
    requires w !in s.registry && Enabled(s, RefreshFetch(true))
    requires var s1 := Next(s, RefreshFetch(true));
             && Runs(s1, between) && NeverLists(between, w)
             && var s2 := Run(s1, between);
             && Enabled(s2, RefreshClear) && !StaleCheck(s2, w)
             && Runs(Next(s2, RefreshClear), after) && NeverLists(after, w)
    ensures NeverAccepts(Next(Run(Next(s, RefreshFetch(true)), between), RefreshClear), after, w)
  {
    var s1 := Next(s, RefreshFetch(true));
    RefresherStaysClean(s1, between, w);
    var s2 := Run(s1, between);
    var s3 := Next(s2, RefreshClear);
    assert forall t :: t in s3.checks ==> t in s2.checks && s3.checks[t] == s2.checks[t];
    CleanMeansRefused(s3, after, w);
  }

  /** The condition on checks is needed: a slow check can put a dropped wallet back after such a refresh. */
  lemma SlowCheckBringsWalletBack() returns (s: Sys)
    ensures Leads(Initially([5]), [], s)
    ensures s.registry == [] && s.cache == {} && s.refresher.Idle? && s.snapshots == [[5], []]
    ensures !RefusedForGood(s, 5)
  {
    var s0 := Initially([5]);
    s := SlowCheck();
    s := Do(s0, [], s, RefreshFetch(true));
    s := Do(s0, [], s, RefreshClear);
    s := Do(s0, [], s, RefreshUnlock);
    assert StaleCheck(s, 5) by {
      assert s.checks[0] == ToConclude(5, [5]);
    }
    RefusedForGoodIffClean(s, 5);
  }

  lemma SlowCheck() returns (s: Sys)
    ensures Leads(Initially([5]), [], s)
    ensures s == Sys({}, [], Idle, map[0 := ToConclude(5, [5])], 1, [[5]])
  {
    s := StartedCheck();
    s := Do(Initially([5]), [], s, Fetch(0, true));
    s := Do(Initially([5]), [], s, SetRegistry([]));
  }

  lemma StartedCheck() returns (s: Sys)
    ensures Leads(Initially([5]), [], s)
    ensures s == Initially([5]).(checks := map[0 := ToFetch(5)], next := 1)
  {
    LeadsNowhere(Initially([5]));
    s := Do(Initially([5]), [], Initially([5]), StartCheck(5));
    s := Do(Initially([5]), [], s, Lookup(0));
  }
}
