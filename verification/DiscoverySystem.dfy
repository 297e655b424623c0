/**
 Discovery rounds as goroutines: findPeersLoop starts one whenever peers are found, whether or not earlier ones have
 finished. They share the host's connections, which others change as well; one step per look or dial.
 */
module DiscoverySystem {
  import opened Discovery

  type Tid = nat

  /** Where a round stands; a round about to dial has looked when these were connected. */
  datatype Pc = ToLook | ToDial(looked: set<PeerId>) | Done

  datatype Round = Round(
    ids: seq<PeerId>,
    index: nat,
    count: nat,
    pc: Pc,
    // bookkeeping that no step reads
    start: set<PeerId>,  // who was connected when the round started
    seen: seq<Found>     // what it has met: the entries gone through, with the changes it noticed
  ) {
    function Id(): PeerId
      requires index < |ids|
    {
      ids[index]
    }

    /** The loop goes on with the next entry, unless five peers have been connected to or the list is over. */
    function Proceed(entry: Found, count: nat): Round {
      this.(index := index + 1, count := count, seen := seen + [entry],
            pc := if count >= MAX_PER_ROUND || index + 1 >= |ids| then Done else ToLook)
    }
  }

  datatype Sys = Sys(self: PeerId, connected: set<PeerId>, rounds: seq<Round>)

  datatype Event =
    | StartRound(ids: seq<PeerId>)
    | Look(t: Tid)
    | Dial(t: Tid, answers: bool)
    // by others
    | Connected(peer: PeerId)
    | Lost(peer: PeerId)

  predicate Enabled(s: Sys, e: Event) {
    match e
    case Look(t) => t < |s.rounds| && s.rounds[t].pc.ToLook? && s.rounds[t].index < |s.rounds[t].ids|
    case Dial(t, _) => t < |s.rounds| && s.rounds[t].pc.ToDial? && s.rounds[t].index < |s.rounds[t].ids|
    case _ => true
  }

  /** An entry as the round meets it, with what has changed since the entry before. */
  function Met(self: PeerId, r: Round, looked: set<PeerId>, answers: bool): Found
    requires r.index < |r.ids|
  {
    var before := ConnectedAfter(self, r.seen, r.start, |r.seen|);
    Found(r.Id(), before - looked, looked - before, answers)
  }

  function Next(s: Sys, e: Event): Sys
    requires Enabled(s, e)
  {
    match e
    case StartRound(ids) =>
      s.(rounds := s.rounds + [Round(ids, 0, 0, if ids == [] then Done else ToLook, s.connected, [])])
    case Look(t) =>
      var r := s.rounds[t];
      s.(rounds := s.rounds[t := if r.Id() == s.self || r.Id() in s.connected
                                 then r.Proceed(Met(s.self, r, s.connected, false), r.count)
                                 else r.(pc := ToDial(s.connected))])
    case Dial(t, answers) =>
      var r := s.rounds[t];
      s.(connected := if answers then s.connected + {r.Id()} else s.connected,
         rounds := s.rounds[t := r.Proceed(Met(s.self, r, r.pc.looked, answers),
                                           if answers then r.count + 1 else r.count)])
    case Connected(peer) => s.(connected := s.connected + {peer})
    case Lost(peer) => s.(connected := s.connected - {peer})
  }

  function Initially(self: PeerId, connected: set<PeerId>): Sys {
    Sys(self, connected, [])
  }

  predicate Runs(s: Sys, es: seq<Event>)
    decreases |es|
  {
    es == [] || (Enabled(s, es[0]) && Runs(Next(s, es[0]), es[1..]))
  }

  function Run(s: Sys, es: seq<Event>): Sys
    requires Runs(s, es)
    decreases |es|
  {
    if es == [] then s else Run(Next(s, es[0]), es[1..])
  }

  /** The entries that a round dials in a run, and those it gets a connection from. */
  ghost function DialsOf(s: Sys, es: seq<Event>, t: Tid): seq<nat>
    requires Runs(s, es)
    decreases |es|
  {
    if es == [] then [] else DialedBy(s, es[0], t) + DialsOf(Next(s, es[0]), es[1..], t)
  }

  ghost function JoinsOf(s: Sys, es: seq<Event>, t: Tid): seq<nat>
    requires Runs(s, es)
    decreases |es|
  {
    if es == [] then [] else JoinedBy(s, es[0], t) + JoinsOf(Next(s, es[0]), es[1..], t)
  }

  function DialedBy(s: Sys, e: Event, t: Tid): seq<nat>
    requires Enabled(s, e)
  {
    if e.Dial? && e.t == t then [s.rounds[t].index] else []
  }

  function JoinedBy(s: Sys, e: Event, t: Tid): seq<nat>
    requires Enabled(s, e)
  {
    if e.Dial? && e.t == t && e.answers then [s.rounds[t].index] else []
  }

  // ------------------------------------------------------------ what every step keeps

  ghost predicate RoundInv(self: PeerId, r: Round) {
    && r.index == |r.seen| <= |r.ids|
    && (forall i | 0 <= i < r.index :: r.seen[i].id == r.ids[i])
    && (r.pc.ToDial? ==> r.index < |r.ids| && Dialable(self, r.Id(), r.pc.looked))
    && r.count == |JoinsBelow(self, r.seen, r.start, r.index)| <= MAX_PER_ROUND
    && (r.index > 0 ==> |JoinsBelow(self, r.seen, r.start, r.index - 1)| < MAX_PER_ROUND)
    && (r.pc.Done? <==> r.count == MAX_PER_ROUND || r.index == |r.ids|)
  }

  ghost predicate Inv(s: Sys) {
    forall r <- s.rounds :: RoundInv(s.self, r)
  }

  /** Going through one more entry as ProcessPeers does. */
  lemma MetNext(self: PeerId, r: Round, looked: set<PeerId>, answers: bool)
    requires r.index == |r.seen| < |r.ids|
    ensures var seen := r.seen + [Met(self, r, looked, answers)]; var n := r.index;
            var dials := Dialable(self, r.Id(), looked);
            && JoinsBelow(self, seen, r.start, n) == JoinsBelow(self, r.seen, r.start, n)
            && EligibleBelow(self, seen, r.start, n + 1)
               == EligibleBelow(self, r.seen, r.start, n) + (if dials then [n] else [])
            && JoinsBelow(self, seen, r.start, n + 1)
               == JoinsBelow(self, r.seen, r.start, n) + (if dials && answers then [n] else [])
  {
    var entry := Met(self, r, looked, answers);
    var seen := r.seen + [entry];
    SamePrefix(self, r.seen, [entry], r.start, r.index);
    assert seen[r.index] == entry;
    assert ConnectedAt(self, seen, r.start, r.index) == looked;
    NextEntry(self, seen, r.start, r.index);
  }

  lemma ProceedKeepsInv(self: PeerId, r: Round, looked: set<PeerId>, answers: bool)
    requires RoundInv(self, r) && !r.pc.Done?
    requires answers ==> Dialable(self, r.Id(), looked)
    ensures var r' := r.Proceed(Met(self, r, looked, answers), if answers then r.count + 1 else r.count);
            && RoundInv(self, r')
            && EligibleBelow(self, r'.seen, r.start, r'.index)
               == EligibleBelow(self, r.seen, r.start, r.index)
                  + (if Dialable(self, r.Id(), looked) then [r.index] else [])
            && JoinsBelow(self, r'.seen, r.start, r'.index)
               == JoinsBelow(self, r.seen, r.start, r.index) + (if answers then [r.index] else [])
  {
    MetNext(self, r, looked, answers);
  }

  /** What a round has dialed, and joined, as ProcessPeers says. */
  ghost function Dialed(s: Sys, t: Tid): seq<nat>
    requires Inv(s)
  {
    if t >= |s.rounds| then []
    else
      var r := s.rounds[t];
      assert r in s.rounds;
      EligibleBelow(s.self, r.seen, r.start, r.index)
  }

  ghost function Joined(s: Sys, t: Tid): seq<nat>
    requires Inv(s)
  {
    if t >= |s.rounds| then []
    else
      var r := s.rounds[t];
      assert r in s.rounds;
      JoinsBelow(s.self, r.seen, r.start, r.index)
  }

  lemma NextKeepsInv(s: Sys, e: Event, t: Tid)
    requires Inv(s) && Enabled(s, e)
    ensures Inv(Next(s, e))
    ensures Dialed(Next(s, e), t) == Dialed(s, t) + DialedBy(s, e, t)
    ensures Joined(Next(s, e), t) == Joined(s, t) + JoinedBy(s, e, t)
  {
    if e.Look? || e.Dial? {
      MoveKeepsInv(s, e);
      OneMoves(s, Next(s, e), e.t);
    } else if e.StartRound? {
      StartKeepsInv(s, e.ids);
    }
  }

  lemma StartKeepsInv(s: Sys, ids: seq<PeerId>)
    requires Inv(s)
    ensures var s' := Next(s, StartRound(ids));
            Inv(s') && forall t: Tid :: Dialed(s', t) == Dialed(s, t) && Joined(s', t) == Joined(s, t)
  {
    var s' := Next(s, StartRound(ids));
    assert forall r | r in s'.rounds :: r in s.rounds || r == s'.rounds[|s.rounds|];
  }

  lemma OneMoves(s: Sys, s': Sys, t: Tid)
    requires Inv(s) && t < |s.rounds| == |s'.rounds| && s'.self == s.self
    requires s'.rounds == s.rounds[t := s'.rounds[t]] && RoundInv(s'.self, s'.rounds[t])
    ensures Inv(s')
    ensures forall u: Tid | u != t :: Dialed(s', u) == Dialed(s, u) && Joined(s', u) == Joined(s, u)
  {
    forall r | r in s'.rounds
      ensures RoundInv(s'.self, r)
    {
      var i :| 0 <= i < |s'.rounds| && s'.rounds[i] == r;
      assert i != t ==> s.rounds[i] in s.rounds;
    }
  }

  lemma MoveKeepsInv(s: Sys, e: Event)
    requires Inv(s) && Enabled(s, e) && (e.Look? || e.Dial?)
    ensures var r' := Next(s, e).rounds[e.t];
            && RoundInv(s.self, r')
            && EligibleBelow(s.self, r'.seen, r'.start, r'.index) == Dialed(s, e.t) + DialedBy(s, e, e.t)
            && JoinsBelow(s.self, r'.seen, r'.start, r'.index) == Joined(s, e.t) + JoinedBy(s, e, e.t)
  {
    var r := s.rounds[e.t];
    assert r in s.rounds;
    if e.Dial? {
      ProceedKeepsInv(s.self, r, r.pc.looked, e.answers);
    } else if !Dialable(s.self, r.Id(), s.connected) {
      ProceedKeepsInv(s.self, r, s.connected, false);
    }
  }

  lemma {:induction false} RunKeepsInv(s: Sys, es: seq<Event>, t: Tid)
    requires Inv(s) && Runs(s, es)
    ensures Inv(Run(s, es))
    ensures Dialed(Run(s, es), t) == Dialed(s, t) + DialsOf(s, es, t)
    ensures Joined(Run(s, es), t) == Joined(s, t) + JoinsOf(s, es, t)
    decreases |es|
  {
    if es != [] {
      NextKeepsInv(s, es[0], t);
      RunKeepsInv(Next(s, es[0]), es[1..], t);
    }
  }

  // ------------------------------------------------------------ each round by itself

  /** Entries that a round has not met. */
  function Unmet(ids: seq<PeerId>): (found: seq<Found>)
    ensures |found| == |ids| && forall i | 0 <= i < |ids| :: found[i].id == ids[i]
  {
    if ids == [] then [] else [Found(ids[0], {}, {}, false)] + Unmet(ids[1..])
  }

  /** The list of a round, with what the round has met. */
  function AsFound(r: Round): seq<Found>
    requires r.index <= |r.ids|
  {
    r.seen + Unmet(r.ids[r.index..])
  }

  /** However rounds overlap and connections come and go, each round dials and joins what ProcessPeers dials and joins
      for its list with the changes that the round noticed; a finished round has gone through the shortest prefix with
      five connections, or the whole list. */
  lemma RoundSeenAlone(self: PeerId, connected: set<PeerId>, es: seq<Event>, t: Tid)
    requires Runs(Initially(self, connected), es) && t < |Run(Initially(self, connected), es).rounds|
    ensures var s0 := Initially(self, connected); var r := Run(s0, es).rounds[t];
            r.index <= |r.ids| && var found := AsFound(r);
            && |found| == |r.ids| && (forall i | 0 <= i < |found| :: found[i].id == r.ids[i])
            && DialsOf(s0, es, t) == EligibleBelow(self, found, r.start, r.index)
            && JoinsOf(s0, es, t) == JoinsBelow(self, found, r.start, r.index)
            && (r.pc.Done? ==> RoundLength(self, found, r.start, r.index))
  {
    var s0 := Initially(self, connected);
    RunKeepsInv(s0, es, t);
    SelfStays(s0, es);
    var s := Run(s0, es);
    assert s.rounds[t] in s.rounds;
    AsProcessPeers(self, s.rounds[t]);
    assert [] + DialsOf(s0, es, t) == DialsOf(s0, es, t) && [] + JoinsOf(s0, es, t) == JoinsOf(s0, es, t);
  }

  lemma AsProcessPeers(self: PeerId, r: Round)
    requires RoundInv(self, r)
    ensures var found := AsFound(r);
            && |found| == |r.ids| && (forall i | 0 <= i < |found| :: found[i].id == r.ids[i])
            && EligibleBelow(self, found, r.start, r.index) == EligibleBelow(self, r.seen, r.start, r.index)
            && JoinsBelow(self, found, r.start, r.index) == JoinsBelow(self, r.seen, r.start, r.index)
            && (r.pc.Done? ==> RoundLength(self, found, r.start, r.index))
  {
    var rest := Unmet(r.ids[r.index..]);
    SamePrefix(self, r.seen, rest, r.start, r.index);
    if r.index > 0 {
      SamePrefix(self, r.seen, rest, r.start, r.index - 1);
    }
    ShortestPrefix(self, AsFound(r), r.start, r.index);
  }

  lemma {:induction false} SelfStays(s: Sys, es: seq<Event>)
    requires Runs(s, es)
    ensures Run(s, es).self == s.self
    decreases |es|
  {
    if es != [] {
      SelfStays(Next(s, es[0]), es[1..]);
    }
  }

  /** Who was connected when the round last looked. */
  ghost function ConnectedAtLook(s: Sys, es: seq<Event>, t: Tid, before: set<PeerId>): set<PeerId>
    requires Runs(s, es)
    decreases |es|
  {
    if es == [] then before
    else ConnectedAtLook(Next(s, es[0]), es[1..], t, if es[0] == Look(t) then s.connected else before)
  }

  lemma {:induction false} LooksAreRemembered(s: Sys, es: seq<Event>, t: Tid, before: set<PeerId>)
    requires Runs(s, es)
    requires t < |s.rounds| && s.rounds[t].pc.ToDial? ==> s.rounds[t].pc.looked == before
    ensures t < |Run(s, es).rounds| && Run(s, es).rounds[t].pc.ToDial? ==>
              Run(s, es).rounds[t].pc.looked == ConnectedAtLook(s, es, t, before)
    decreases |es|
  {
    if es != [] {
      LooksAreRemembered(Next(s, es[0]), es[1..], t, if es[0] == Look(t) then s.connected else before);
    }
  }

  /** No round ever dials this node, or a peer that was connected when the round looked. */
  lemma DialsAreEligible(self: PeerId, connected: set<PeerId>, es: seq<Event>, t: Tid, answers: bool)
    requires Runs(Initially(self, connected), es) && Enabled(Run(Initially(self, connected), es), Dial(t, answers))
    ensures var s0 := Initially(self, connected);
            var id := Run(s0, es).rounds[t].Id();
            id != self && id !in ConnectedAtLook(s0, es, t, {})
  {
    var s0 := Initially(self, connected);
    RunKeepsInv(s0, es, t);
    SelfStays(s0, es);
    LooksAreRemembered(s0, es, t, {});
    assert Run(s0, es).rounds[t] in Run(s0, es).rounds;
  }

  // ------------------------------------------------------------ all rounds together

  function Total(rounds: seq<Round>): nat {
    if rounds == [] then 0 else Total(rounds[..|rounds| - 1]) + rounds[|rounds| - 1].count
  }

  /** Connections made in a run, by all rounds. */
  function Made(es: seq<Event>): nat {
    if es == [] then 0 else (if es[0].Dial? && es[0].answers then 1 else 0) + Made(es[1..])
  }

  function Started(es: seq<Event>): nat {
    if es == [] then 0 else (if es[0].StartRound? then 1 else 0) + Started(es[1..])
  }

  lemma {:induction false} OneRoundChanges(rounds: seq<Round>, t: Tid, r: Round)
    requires t < |rounds|
    ensures Total(rounds[t := r]) + rounds[t].count == Total(rounds) + r.count
  {
    var m := |rounds| - 1;
    if t < m {
      OneRoundChanges(rounds[..m], t, r);
      assert rounds[t := r][..m] == rounds[..m][t := r];
    } else {
      assert rounds[t := r][..m] == rounds[..m];
    }
  }

  lemma StepTotal(s: Sys, e: Event)
    requires Enabled(s, e)
    ensures Total(Next(s, e).rounds) == Total(s.rounds) + if e.Dial? && e.answers then 1 else 0
    ensures |Next(s, e).rounds| == |s.rounds| + if e.StartRound? then 1 else 0
  {
    var s' := Next(s, e);
    if e.StartRound? {
      assert s'.rounds[..|s.rounds|] == s.rounds;
    } else if e.Look? || e.Dial? {
      OneRoundChanges(s.rounds, e.t, s'.rounds[e.t]);
    }
  }

  lemma {:induction false} RunTotal(s: Sys, es: seq<Event>)
    requires Runs(s, es)
    ensures Total(Run(s, es).rounds) == Total(s.rounds) + Made(es)
    ensures |Run(s, es).rounds| == |s.rounds| + Started(es)
    decreases |es|
  {
    if es != [] {
      StepTotal(s, es[0]);
      RunTotal(Next(s, es[0]), es[1..]);
    }
  }

  lemma {:induction false} TotalBounded(self: PeerId, rounds: seq<Round>)
    requires forall r <- rounds :: RoundInv(self, r)
    ensures Total(rounds) <= MAX_PER_ROUND * |rounds|
  {
    if rounds != [] {
      assert rounds[|rounds| - 1] in rounds;
      TotalBounded(self, rounds[..|rounds| - 1]);
    }
  }

  /** In any run, whatever rounds overlap: a round makes at most five connections, and all rounds together at most five
      for each that was started. */
  lemma RoundsAreBounded(self: PeerId, connected: set<PeerId>, es: seq<Event>)
    requires Runs(Initially(self, connected), es)
    ensures forall t: nat :: |JoinsOf(Initially(self, connected), es, t)| <= 5
    ensures Made(es) <= 5 * Started(es)
  {
    var s0 := Initially(self, connected);
    RunTotal(s0, es);
    RunKeepsInv(s0, es, 0);
    TotalBounded(Run(s0, es).self, Run(s0, es).rounds);
    forall t: nat
      ensures |JoinsOf(s0, es, t)| <= MAX_PER_ROUND
    {
      RunKeepsInv(s0, es, t);
      var s := Run(s0, es);
      if t < |s.rounds| {
        assert s.rounds[t] in s.rounds;
      }
    }
  }
}
