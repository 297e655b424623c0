/** messageListener: from a stream of messages to calls of the handler. */
module Listener {
  import opened Results

  type PeerId = string

  datatype Event = Event(id: string, fromPeerId: string, message: nat, timestamp: int)

  /** A received message; parsed is what json.Unmarshal makes of its data. */
  datatype Message = Message(receivedFrom: PeerId, parsed: Option<Event>)

  /** What one pass of the loop meets: the context is done, Next fails, or Next returns a message. */
  datatype Pass =
    | ContextDone
    | NextFails(contextDone: bool)
    | Received(msg: Message, handlerPanics: bool)

  /** The filter and the map. */
  predicate Accepted(self: PeerId, msg: Message) {
    msg.receivedFrom != self && msg.parsed.Some? && msg.parsed.value.id != ""
  }

  function Stamped(msg: Message): Event
    requires msg.parsed.Some?
  {
    var event := msg.parsed.value;
    if event.fromPeerId == "" then event.(fromPeerId := msg.receivedFrom) else event
  }

  function Deliveries(self: PeerId, passes: seq<Pass>): seq<Event> {
    if passes == [] then []
    else
      Deliveries(self, passes[..|passes| - 1]) +
      var p := passes[|passes| - 1];
      if p.Received? && Accepted(self, p.msg) then [Stamped(p.msg)] else []
  }

  /** The listener returns at this pass. */
  predicate Ends(self: PeerId, p: Pass) {
    match p
    case ContextDone => true
    case NextFails(contextDone) => contextDone
    case Received(msg, handlerPanics) => Accepted(self, msg) && handlerPanics
  }

  /** The handler is called with exactly the accepted messages, in order, up to and including the pass at which the
      listener returns. */
  method MessageListener(self: PeerId, passes: seq<Pass>) returns (handled: seq<Event>, n: nat)
    ensures n <= |passes|
    ensures forall i | 0 <= i < n :: i == n - 1 || !Ends(self, passes[i])
    ensures n < |passes| ==> n > 0 && Ends(self, passes[n - 1])
    ensures handled == Deliveries(self, passes[..n])
    ensures forall i | 0 <= i < n - 1 :: passes[i] != ContextDone && passes[i] != NextFails(true)
    ensures n < |passes| ==>
              var p := passes[n - 1]; p == ContextDone || p == NextFails(true) || (p.Received? && p.handlerPanics)
    // One pass, field by field.
    ensures |passes| == 1 && !passes[0].Received? ==> handled == []
    ensures |passes| == 1 && passes[0].Received? ==>
              var m := passes[0].msg;
              && (handled == [] <==> m.receivedFrom == self || m.parsed.None? || m.parsed.value.id == "")
              && (handled != [] ==>
                    var e := m.parsed.value;
                    handled == [Event(e.id, if e.fromPeerId == "" then m.receivedFrom else e.fromPeerId,
                                      e.message, e.timestamp)])
  {
    if |passes| == 1 {
      OnePass(self, passes);
    }
    handled, n := [], 0;
    while n < |passes|
      invariant n <= |passes|
      invariant forall i | 0 <= i < n :: !Ends(self, passes[i])
      invariant handled == Deliveries(self, passes[..n])
    {
      var p := passes[n];
      n := n + 1;
      assert passes[..n][..n - 1] == passes[..n - 1];
      if p.ContextDone? {
        return;
      }
      if p.NextFails? {
        if p.contextDone {
          return;
        }
        continue;
      }
      var msg := p.msg;
      if msg.receivedFrom == self {
        continue;
      }
      if msg.parsed.None? {
        continue;
      }
      var event := msg.parsed.value;
      if event.id == "" {
        continue;
      }
      if event.fromPeerId == "" {
        event := event.(fromPeerId := msg.receivedFrom);
      }
      handled := handled + [event];
      if p.handlerPanics {
        return;
      }
    }
  }

  lemma OnePass(self: PeerId, passes: seq<Pass>)
    requires |passes| == 1
    ensures Deliveries(self, passes[..0]) == []
    ensures var p := passes[0];
            Deliveries(self, passes[..1]) == if p.Received? && Accepted(self, p.msg) then [Stamped(p.msg)] else []
  {
    assert passes[..1] == passes && passes[..0] == [];
  }

  /** What is delivered of a stream is what is delivered of its parts: no message affects a later one. */
  lemma {:induction false} DeliveriesConcat(self: PeerId, a: seq<Pass>, b: seq<Pass>)
    ensures Deliveries(self, a + b) == Deliveries(self, a) + Deliveries(self, b)
  {
    if b == [] {
      assert a + b == a;
    } else {
      var m := |b| - 1;
      DeliveriesConcat(self, a, b[..m]);
      assert (a + b)[..|a + b| - 1] == a + b[..m];
    }
  }

  /** Removing a pass that is not accepted changes nothing. */
  lemma SkippedMessagesLeaveNoTrace(self: PeerId, a: seq<Pass>, p: Pass, b: seq<Pass>)
    requires !(p.Received? && Accepted(self, p.msg))
    ensures Deliveries(self, a + [p] + b) == Deliveries(self, a + b)
  {
    DeliveriesConcat(self, a + [p], b);
    DeliveriesConcat(self, a, [p]);
    DeliveriesConcat(self, a, b);
    assert Deliveries(self, [p]) == [];
  }

  /** An event is handed over exactly if some accepted message carries it; it has an ID, and it names a sender. */
  lemma {:induction false} DeliveredEvents(self: PeerId, passes: seq<Pass>, e: Event)
    ensures e in Deliveries(self, passes)
            <==> exists p <- passes :: p.Received? && Accepted(self, p.msg) && Stamped(p.msg) == e
    ensures e in Deliveries(self, passes) && (forall p <- passes :: p.Received? ==> p.msg.receivedFrom != "")
            ==> e.id != "" && e.fromPeerId != ""
    decreases |passes|
  {
    if passes != [] {
      var m := |passes| - 1;
      DeliveredEvents(self, passes[..m], e);
      assert passes == passes[..m] + [passes[m]];
    }
  }
}
