/** Rising and falling edges of isReady, counted on the states a run passes through. */
module ReadinessEdges {
  import opened RetryInvariant
  import opened RetrySystem
  import opened Starters

  ghost function Rises(states: seq<Sys>): nat {
    if |states| < 2 then 0
    else (if !states[0].fields.isReady && states[1].fields.isReady then 1 else 0) + Rises(states[1..])
  }

  ghost function Falls(states: seq<Sys>): nat {
    if |states| < 2 then 0
    else (if states[0].fields.isReady && !states[1].fields.isReady then 1 else 0) + Falls(states[1..])
  }

  lemma StepEdge(s: Sys, e: Event)
    requires Fresh(s) && Enabled(s, e)
    ensures var s' := Next(s, e);
            && |s'.delayed| - |s.delayed| == One(s.fields.isReady && !s'.fields.isReady) == s'.edges - s.edges
  {
    if e.Commit? {
      assert |s.delayed + {s.next}| == |s.delayed| + 1;
    } else {
      OnlyCommitsChangeReadiness(s, e);
    }
  }

  lemma OnlyCommitsChangeReadiness(s: Sys, e: Event)
    requires Enabled(s, e) && !e.Commit?
    ensures var s' := Next(s, e);
            s'.delayed == s.delayed && s'.fields.isReady == s.fields.isReady && s'.edges == s.edges
  {
  }

  lemma {:induction false} EdgesOfRun(s: Sys, es: seq<Event>)
    requires Inv(s) && Runs(s, es)
    ensures |Run(s, es).delayed| - |s.delayed| == Falls(Trace(s, es)) == Run(s, es).edges - s.edges
    ensures Rises(Trace(s, es)) - Falls(Trace(s, es)) == One(Run(s, es).fields.isReady) - One(s.fields.isReady)
    decreases |es|
  {
    if es != [] {
      StepEdge(s, es[0]);
      NextKeepsInv(s, es[0]);
      EdgesOfRun(Next(s, es[0]), es[1..]);
      assert Trace(s, es)[1..] == Trace(Next(s, es[0]), es[1..]);
    }
  }

  /** However the notifications interleave: the falling edges and the first bootstrap's request start as many
      goroutines as are still pending or have ended, all different; a loop is registered only by one of them as it
      ends, so there are never more loops in all than falling edges and one; and rising minus falling edges is 1
      exactly if the node is ready. */
  lemma EdgeConservation(peers: set<Peer>, es: seq<Event>)
    requires Runs(Initially(peers), es)
    ensures var s0 := Initially(peers); var s := Run(s0, es);
            var falls := Falls(Trace(s0, es));
            && falls + One(s.initial.AskedForRetry?) == |PendingStarters(s)| + Ended(s0, es)
            && |s.delayed| == falls && PendingStarters(s) <= s.delayed + {CONNECT}
            && Registrations(s0, es) <= falls + 1
            && Rises(Trace(s0, es)) - falls == One(s.fields.isReady)
  {
    var s0 := Initially(peers);
    InitiallyInv(peers);
    EdgesOfRun(s0, es);
    assert PendingStarters(s0) == {};
    StartersAccounted(s0, es);
    RunKeepsOrigins(s0, es);
  }

  // Does isReady tell whether there is a peer?

  /** A notification is in flight: it has not yet stored what it counts or has counted. */
  ghost predicate Notifying(s: Sys) {
    exists t :: t in s.threads && s.threads[t].Notifier()
  }

  /** No connection change happens while the notification of an earlier one is in flight. */
  ghost predicate Serialised(s: Sys, es: seq<Event>)
    requires Runs(s, es)
    decreases |es|
  {
    es == [] || ((es[0].NetworkChange? ==> !Notifying(s)) && Serialised(Next(s, es[0]), es[1..]))
  }

  ghost predicate CountsAreCurrent(s: Sys) {
    && (forall t, u | t in s.threads && u in s.threads && s.threads[t].Notifier() && s.threads[u].Notifier() :: t == u)
    && (forall t | t in s.threads && s.threads[t].ToCommit? :: s.threads[t].count == |s.peers|)
  }

  lemma StepKeepsCounts(s: Sys, e: Event)
    requires Inv(s) && Enabled(s, e) && CountsAreCurrent(s) && (e.NetworkChange? ==> !Notifying(s))
    ensures CountsAreCurrent(Next(s, e))
    ensures e.Commit? ==> (Next(s, e).fields.isReady <==> s.peers != {}) && !Notifying(Next(s, e))
  {
    var s' := Next(s, e);
    forall t | t in s'.threads && s'.threads[t].Notifier()
      ensures t == Mover(s, e) || (t in s.threads && s'.threads[t] == s.threads[t])
    {
      if t != Mover(s, e) && t != s.next {
        OthersStay(s, e, t);
      }
    }
    MoverCounts(s, e);
    CountsFollow(s, s', Mover(s, e), e.NetworkChange?, e.CountPeers?, e.Commit?);
  }

  /** A step of one goroutine, described by what it means for notifiers. */
  lemma CountsFollow(s: Sys, s': Sys, m: Tid, change: bool, counts: bool, commits: bool)
    requires CountsAreCurrent(s) && (change ==> !Notifying(s)) && !(change && commits) && !(counts && commits)
    requires forall t | t in s'.threads && s'.threads[t].Notifier() ::
               t == m || (t in s.threads && s'.threads[t] == s.threads[t])
    requires !change ==> s'.peers == s.peers
    requires m in s'.threads && s'.threads[m].Notifier() ==>
               (change && s'.threads[m] == ToCount) || (counts && s'.threads[m] == ToCommit(|s'.peers|))
    requires counts || commits ==> m in s.threads && s.threads[m].Notifier()
    requires commits ==> s.threads[m].ToCommit? && (s'.fields.isReady <==> s.threads[m].count > 0)
    ensures CountsAreCurrent(s')
    ensures commits ==> (s'.fields.isReady <==> s.peers != {}) && !Notifying(s')
  {
    assert |s.peers| > 0 <==> s.peers != {};
  }

  /** A notifier appears with a connection change, counts the peers there are, and stores that count. */
  lemma MoverCounts(s: Sys, e: Event)
    requires Fresh(s) && Enabled(s, e)
    ensures var s' := Next(s, e); var t := Mover(s, e);
            && (!e.NetworkChange? ==> s'.peers == s.peers)
            && (t in s'.threads && s'.threads[t].Notifier() ==>
                  e.NetworkChange? || (e.CountPeers? && s'.threads[t] == ToCommit(|s'.peers|)))
            && (e.NetworkChange? ==> s'.threads[t] == ToCount)
            && (e.CountPeers? || e.Commit? ==> s.threads[t].Notifier())
            && (e.Commit? ==> (s'.fields.isReady <==> s.threads[t].count > 0))
  {
  }

  /** If connection changes and notifications are serialised, then after each updateReadiness the node is ready
      exactly if it has a peer. */
  lemma {:induction false} SerialisedReadiness(s: Sys, es: seq<Event>)
    requires Inv(s) && CountsAreCurrent(s) && Runs(s, es) && Serialised(s, es)
    requires es != [] && es[|es| - 1].Commit?
    ensures Run(s, es).fields.isReady <==> Run(s, es).peers != {}
    ensures !Notifying(Run(s, es))
    decreases |es|
  {
    StepKeepsCounts(s, es[0]);
    NextKeepsInv(s, es[0]);
    if |es| > 1 {
      SerialisedReadiness(Next(s, es[0]), es[1..]);
    }
  }

  lemma InitiallyCountsAreCurrent(peers: set<Peer>)
    ensures Inv(Initially(peers)) && CountsAreCurrent(Initially(peers))
  {
    InitiallyInv(peers);
  }

  /** So it is in every run from the start. */
  lemma SerialisedFromTheStart(peers: set<Peer>, es: seq<Event>)
    requires Runs(Initially(peers), es) && Serialised(Initially(peers), es)
    requires es != [] && es[|es| - 1].Commit?
    ensures Run(Initially(peers), es).fields.isReady <==> Run(Initially(peers), es).peers != {}
  {
    InitiallyCountsAreCurrent(peers);
    SerialisedReadiness(Initially(peers), es);
  }

  // ------------------------------------------------------------ when a quiet node is right

  /** The count that the last CountPeers of the run took; before any, the number of peers. */
  ghost function LastCounted(s: Sys, es: seq<Event>): nat
    requires Runs(s, es)
    decreases |es|
  {
    Latest(s, es, |s.peers|, true)
  }

  /** The count that the last Commit of the run stored; before any, 1 or 0 as isReady was. */
  ghost function LastStored(s: Sys, es: seq<Event>): nat
    requires Runs(s, es)
    decreases |es|
  {
    Latest(s, es, One(s.fields.isReady), false)
  }

  ghost function Latest(s: Sys, es: seq<Event>, count: nat, counted: bool): nat
    requires Runs(s, es)
    decreases |es|
  {
    if es == [] then count
    else
      var e := es[0];
      Latest(Next(s, e), es[1..],
             if counted && e.CountPeers? then |s.peers|
             else if !counted && e.Commit? then s.threads[e.t].count
             else count,
             counted)
  }

  /** Unless a notification has yet to count, the last count is of the peers there are; isReady is the last store. */
  ghost predicate Follows(s: Sys, counted: nat, stored: nat) {
    && (counted == |s.peers| || exists t :: t in s.threads && s.threads[t].ToCount?)
    && (s.fields.isReady <==> stored > 0)
  }

  lemma {:induction false} CountsFollowPeers(s: Sys, es: seq<Event>, counted: nat, stored: nat)
    requires Inv(s) && Runs(s, es) && Follows(s, counted, stored)
    ensures Follows(Run(s, es), Latest(s, es, counted, true), Latest(s, es, stored, false))
    decreases |es|
  {
    if es != [] {
      var e := es[0];
      StepFollows(s, e, counted, stored);
      NextKeepsInv(s, e);
      CountsFollowPeers(Next(s, e), es[1..], if e.CountPeers? then |s.peers| else counted,
                        if e.Commit? then s.threads[e.t].count else stored);
    }
  }

  lemma StepFollows(s: Sys, e: Event, counted: nat, stored: nat)
    requires Fresh(s) && Enabled(s, e) && Follows(s, counted, stored)
    ensures Follows(Next(s, e), if e.CountPeers? then |s.peers| else counted,
                    if e.Commit? then s.threads[e.t].count else stored)
  {
    if e.NetworkChange? {
      assert Next(s, e).threads[s.next].ToCount?;
    } else if !e.CountPeers? && counted != |s.peers| {
      var t :| t in s.threads && s.threads[t].ToCount?;
      OthersStay(s, e, t);
    }
    if !e.Commit? {
      OnlyCommitsChangeReadiness(s, e);
    }
  }

  /** When no notification is in flight, isReady tells whether there is a peer exactly if the last count stored and
      the last count taken agree on that. */
  lemma QuietReadiness(peers: set<Peer>, es: seq<Event>)
    requires Runs(Initially(peers), es) && !Notifying(Run(Initially(peers), es))
    ensures var s0 := Initially(peers); var s := Run(s0, es);
            (s.fields.isReady <==> s.peers != {}) <==> (LastStored(s0, es) > 0 <==> LastCounted(s0, es) > 0)
  {
    var s0 := Initially(peers);
    InitiallyInv(peers);
    CountsFollowPeers(s0, es, |peers|, 0);
    var s := Run(s0, es);
    assert forall t :: t in s.threads ==> !s.threads[t].Notifier();
    assert |s.peers| > 0 <==> s.peers != {};
  }

  /** No notification overtakes another between its count and its store; these have counted and not stored. */
  predicate InOrder(es: seq<Event>, counted: seq<Tid>) {
    if es == [] then true
    else if es[0].CountPeers? then InOrder(es[1..], counted + [es[0].t])
    else if es[0].Commit? then counted != [] && counted[0] == es[0].t && InOrder(es[1..], counted[1..])
    else InOrder(es[1..], counted)
  }

  /** These are the notifications that have counted and not stored. */
  ghost predicate Queue(s: Sys, queue: seq<Tid>) {
    && (forall t :: t in queue <==> t in s.threads && s.threads[t].ToCommit?)
    && (forall i, j | 0 <= i < j < |queue| :: queue[i] != queue[j])
  }

  /** The queue after a step, if the step is in order. */
  function Queued(queue: seq<Tid>, e: Event): seq<Tid> {
    if e.CountPeers? then queue + [e.t] else if e.Commit? && queue != [] then queue[1..] else queue
  }

  lemma StepKeepsQueue(s: Sys, e: Event, queue: seq<Tid>)
    requires Inv(s) && Enabled(s, e) && Queue(s, queue) && (e.Commit? ==> queue != [] && queue[0] == e.t)
    ensures Queue(Next(s, e), Queued(queue, e))
  {
    var s' := Next(s, e);
    forall t
      ensures t in Queued(queue, e) <==> t in s'.threads && s'.threads[t].ToCommit?
    {
      assert t in queue <==> t in s.threads && s.threads[t].ToCommit?;
      WhoIsToCommit(s, e, t);
      if e.Commit? {
        assert queue == [e.t] + queue[1..];
      }
    }
  }

  lemma WhoIsToCommit(s: Sys, e: Event, t: Tid)
    requires Fresh(s) && Enabled(s, e)
    ensures t in Next(s, e).threads && Next(s, e).threads[t].ToCommit?
            <==> e == CountPeers(t) || (t in s.threads && s.threads[t].ToCommit? && e != Commit(t))
  {
    if t != Mover(s, e) && t != s.next {
      OthersStay(s, e, t);
    }
  }

  /** Once something has been counted, the last count is that of the last in the queue, or is stored. */
  ghost predicate LastIsQueued(s: Sys, queue: seq<Tid>, counted: nat, stored: nat)
    requires Queue(s, queue)
  {
    if queue == [] then counted == stored
    else
      assert queue[|queue| - 1] in queue;
      s.threads[queue[|queue| - 1]].count == counted
  }

  lemma StepKeepsLast(s: Sys, e: Event, queue: seq<Tid>, counted: nat, stored: nat)
    requires Inv(s) && Enabled(s, e) && Queue(s, queue) && (e.Commit? ==> queue != [] && queue[0] == e.t)
    requires e.CountPeers? || LastIsQueued(s, queue, counted, stored)
    ensures Queue(Next(s, e), Queued(queue, e))
    ensures LastIsQueued(Next(s, e), Queued(queue, e), if e.CountPeers? then |s.peers| else counted,
                         if e.Commit? then s.threads[e.t].count else stored)
  {
    StepKeepsQueue(s, e, queue);
    if !e.CountPeers? && Queued(queue, e) != [] {
      var last := queue[|queue| - 1];
      assert last in queue && Queued(queue, e)[|Queued(queue, e)| - 1] == last;
      OthersStay(s, e, last);
    }
  }

  lemma QueuedMeansNotifying(s: Sys, queue: seq<Tid>)
    requires Queue(s, queue) && queue != []
    ensures Notifying(s)
  {
    assert queue[0] in queue;
  }

  lemma {:induction false} OrderedCounts(s: Sys, es: seq<Event>, queue: seq<Tid>, counted: nat, stored: nat)
    requires Inv(s) && Runs(s, es) && Queue(s, queue) && InOrder(es, queue) && !Notifying(Run(s, es))
    requires LastIsQueued(s, queue, counted, stored) || exists e <- es :: e.CountPeers?
    ensures Latest(s, es, counted, true) == Latest(s, es, stored, false)
    decreases |es|
  {
    if es == [] {
      if queue != [] {
        QueuedMeansNotifying(s, queue);
      }
    } else {
      var e := es[0];
      NextKeepsInv(s, e);
      StepKeepsQueue(s, e, queue);
      if e.CountPeers? || LastIsQueued(s, queue, counted, stored) {
        StepKeepsLast(s, e, queue, counted, stored);
      } else {
        assert es == [e] + es[1..];
      }
      OrderedCounts(Next(s, e), es[1..], Queued(queue, e), if e.CountPeers? then |s.peers| else counted,
                    if e.Commit? then s.threads[e.t].count else stored);
    }
  }

  /** If counts are stored in the order in which they were taken, a quiet node is right. */
  lemma OrderedReadiness(peers: set<Peer>, es: seq<Event>)
    requires Runs(Initially(peers), es) && !Notifying(Run(Initially(peers), es))
    requires InOrder(es, []) && (peers == {} || exists e <- es :: e.CountPeers?)
    ensures Run(Initially(peers), es).fields.isReady <==> Run(Initially(peers), es).peers != {}
  {
    InitiallyInv(peers);
    OrderedCounts(Initially(peers), es, [], |peers|, 0);
    QuietReadiness(peers, es);
  }

  /** Serialised notifications are in order. */
  lemma {:induction false} SerialisedIsInOrder(s: Sys, es: seq<Event>, queue: seq<Tid>)
    requires Inv(s) && CountsAreCurrent(s) && Runs(s, es) && Serialised(s, es) && Queue(s, queue)
    ensures InOrder(es, queue)
    decreases |es|
  {
    if es != [] {
      var e := es[0];
      assert forall i, j | 0 <= i < j < |queue| :: queue[i] in queue && queue[j] in queue;
      if e.Commit? {
        assert e.t in queue;
      }
      StepKeepsQueue(s, e, queue);
      StepKeepsCounts(s, e);
      NextKeepsInv(s, e);
      SerialisedIsInOrder(Next(s, e), es[1..], Queued(queue, e));
    }
  }

  /** The peers are counted inside the mutex, so that each count is stored at once. */
  predicate CountedUnderTheMutex(es: seq<Event>) {
    if es == [] then true
    else if es[0].CountPeers? then |es| > 1 && es[1] == Commit(es[0].t) && CountedUnderTheMutex(es[2..])
    else !es[0].Commit? && CountedUnderTheMutex(es[1..])
  }

  /** That would put any notifications in order. */
  lemma {:induction false} CountingUnderTheMutexIsInOrder(es: seq<Event>)
    requires CountedUnderTheMutex(es)
    ensures InOrder(es, [])
  {
    if es != [] && es[0].CountPeers? {
      CountingUnderTheMutexIsInOrder(es[2..]);
      assert es[1..][1..] == es[2..];
      assert [es[0].t][1..] == [];
      assert InOrder(es[1..], [es[0].t]);
      assert [] + [es[0].t] == [es[0].t];
    } else if es != [] {
      CountingUnderTheMutexIsInOrder(es[1..]);
    }
  }

  /** A notification that overtakes another can leave isReady wrong with nothing left to correct it. */
  lemma ReadinessCanGoStale()
    ensures exists s :: Reachable(s) && s.fields.isReady && s.peers == {} && !Notifying(s) && s.edges == 0
  {
    var s := TwoCounted();
    s := Do(s, Commit(2));
    s := Do(s, Commit(1));
    assert s.threads == map[0 := ToFirstFetch];
  }

  /** Two peers are lost one after the other, and both notifications have counted. */
  lemma TwoCounted() returns (s: Sys)
    ensures Reachable(s)
    ensures s == Initially({}).(next := 3, threads := map[CONNECT := ToFirstFetch, 1 := ToCommit(1), 2 := ToCommit(0)])
  {
    ReachableInitially({7, 8});
    s := Do(Initially({7, 8}), NetworkChange({7}));
    s := Do(s, CountPeers(1));
    s := Do(s, NetworkChange({}));
    s := Do(s, CountPeers(2));
  }
}
