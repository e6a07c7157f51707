/**
 One direction of a connection under every interleaving of sends, partial arrivals and
 receives refines a FIFO queue of packets. The `queue` of a `Link` is that specification
 queue; `wire` and `arrived` are the bytes the program actually has.
 */
module Fifo {
  import opened Bytes
  import opened Packets
  import opened Crypto
  import opened Transport

  datatype Sent = Sent(packet: Packet, rnd: bytes)

  datatype Link = Link(
    tx: Half, rx: Half,      // the sender's sending half, the receiver's receiving half
    wire: bytes,             // written, not yet at the receiver
    arrived: bytes,          // at the receiver, not yet consumed
    queue: seq<Sent>,        // specification: sent and not yet received
    sent: seq<Packet>, received: seq<Packet>, failed: bool)

  datatype Event = SendEvent(packet: Packet, rnd: bytes) | ArriveEvent(count: nat) | RecvEvent

  predicate Initial(l: Link) {
    && l.tx == l.rx && l.wire == [] && l.arrived == []
    && l.queue == [] && l.sent == [] && l.received == [] && !l.failed
  }

  function Step(s: Suite, l: Link, e: Event): Link {
    match e
    case SendEvent(p, rnd) =>
      (match Seal(s, l.tx, p, rnd)
       case Ok(x) =>
         l.(tx := x.half, wire := l.wire + x.wire, queue := l.queue + [Sent(p, rnd)], sent := l.sent + [p])
       case Err(_) => l)
    case ArriveEvent(count) =>
      var n := if count < |l.wire| then count else |l.wire|;
      l.(arrived := l.arrived + l.wire[..n], wire := l.wire[n..])
    case RecvEvent =>
      var o := Open(s, l.rx, l.arrived);
      match o.outcome
      case Starved(_) => l
      case Rejected(_) => l.(failed := true)
      case Accepted(p) =>
        l.(rx := o.half, arrived := l.arrived[o.used..], received := l.received + [p],
           queue := if l.queue == [] then [] else l.queue[1..])
  }

  function Run(s: Suite, l: Link, events: seq<Event>): Link
    decreases |events|
  {
    if events == [] then l else Run(s, Step(s, l, events[0]), events[1..])
  }

  /** Every packet of the queue can be sealed, one after the other, from `h`. */
  predicate Sealable(s: Suite, h: Half, q: seq<Sent>)
    decreases |q|
  {
    q == [] || (var x := Seal(s, h, q[0].packet, q[0].rnd); x.Ok? && Sealable(s, x.value.half, q[1..]))
  }

  function Frames(s: Suite, h: Half, q: seq<Sent>): bytes
    requires Sealable(s, h, q)
    decreases |q|
  {
    if q == [] then [] else
      var x := Seal(s, h, q[0].packet, q[0].rnd).value;
      x.wire + Frames(s, x.half, q[1..])
  }

  function HalfAfter(s: Suite, h: Half, q: seq<Sent>): Half
    requires Sealable(s, h, q)
    decreases |q|
  {
    if q == [] then h else HalfAfter(s, Seal(s, h, q[0].packet, q[0].rnd).value.half, q[1..])
  }

  function PacketsOf(q: seq<Sent>): seq<Packet> {
    seq(|q|, i requires 0 <= i < |q| => q[i].packet)
  }

  /** The refinement relation between the bytes and the queue. */
  predicate Refines(s: Suite, l: Link) {
    && !l.failed
    && l.received + PacketsOf(l.queue) == l.sent
    && Sealable(s, l.rx, l.queue)
    && l.arrived + l.wire == Frames(s, l.rx, l.queue)
    && l.tx == HalfAfter(s, l.rx, l.queue)
  }

  lemma {:induction false} Enqueue(s: Suite, h: Half, q: seq<Sent>, e: Sent)
    requires Sealable(s, h, q)
    requires Seal(s, HalfAfter(s, h, q), e.packet, e.rnd).Ok?
    ensures Sealable(s, h, q + [e])
    ensures var x := Seal(s, HalfAfter(s, h, q), e.packet, e.rnd).value;
            && Frames(s, h, q + [e]) == Frames(s, h, q) + x.wire
            && HalfAfter(s, h, q + [e]) == x.half
    decreases |q|
  {
    hide Seal;
    if q == [] {
      assert q + [e] == [e];
      assert [e][1..] == [];
    } else {
      Enqueue(s, Seal(s, h, q[0].packet, q[0].rnd).value.half, q[1..], e);
      assert (q + [e])[1..] == q[1..] + [e];
    }
  }

  lemma SendKeeps(s: Suite, l: Link, p: Packet, rnd: bytes)
    requires Refines(s, l)
    ensures Refines(s, Step(s, l, SendEvent(p, rnd)))
  {
    hide Seal, Open;
    if Seal(s, l.tx, p, rnd).Ok? {
      Enqueue(s, l.rx, l.queue, Sent(p, rnd));
      var l' := Step(s, l, SendEvent(p, rnd));
      assert PacketsOf(l'.queue) == PacketsOf(l.queue) + [p];
      assert l'.arrived + l'.wire == l.arrived + l.wire + Seal(s, l.tx, p, rnd).value.wire;
    }
  }

  /** With nothing in flight, or only part of the oldest packet, the receiver waits. */
  lemma RecvWaits(s: Suite, l: Link)
    requires Refines(s, l)
    requires l.queue == [] || |l.arrived| < |Seal(s, l.rx, l.queue[0].packet, l.queue[0].rnd).value.wire|
    ensures Step(s, l, RecvEvent) == l
  {
    if l.queue != [] {
      hide Seal, Open;
      var e := l.queue[0];
      var x := Seal(s, l.rx, e.packet, e.rnd).value;
      assert l.arrived == (l.arrived + l.wire)[..|l.arrived|] == x.wire[..|l.arrived|];
      OpenWaits(s, l.rx, e.packet, e.rnd, |l.arrived|);
    } else {
      assert l.arrived == [];
    }
  }

  /** Once the oldest packet has arrived, a receive returns it, whatever else has arrived. */
  lemma RecvReturnsOldest(s: Suite, l: Link)
    requires Refines(s, l)
    requires l.queue != [] && |l.arrived| >= |Seal(s, l.rx, l.queue[0].packet, l.queue[0].rnd).value.wire|
    ensures var l' := Step(s, l, RecvEvent);
            && Refines(s, l')
            && l'.received == l.received + [l.queue[0].packet]
            && l'.queue == l.queue[1..]
  {
    hide Seal, Open;
    var e := l.queue[0];
    var x := Seal(s, l.rx, e.packet, e.rnd).value;
    var n := |x.wire|;
    assert l.arrived == x.wire + l.arrived[n..] by {
      assert l.arrived[..n] == (l.arrived + l.wire)[..n] == x.wire;
    }
    OpenInvertsSeal(s, l.rx, e.packet, e.rnd, l.arrived[n..]);
    var l' := Step(s, l, RecvEvent);
    assert l'.arrived + l'.wire == (l.arrived + l.wire)[n..] == Frames(s, x.half, l.queue[1..]);
    assert PacketsOf(l.queue) == [e.packet] + PacketsOf(l.queue[1..]);
  }

  lemma StepKeeps(s: Suite, l: Link, e: Event)
    requires Refines(s, l)
    ensures Refines(s, Step(s, l, e))
  {
    hide Seal, Open;
    match e
    case SendEvent(p, rnd) => SendKeeps(s, l, p, rnd);
    case ArriveEvent(count) =>
      var l' := Step(s, l, e);
      assert l'.arrived + l'.wire == l.arrived + l.wire;
    case RecvEvent =>
      if l.queue == [] || |l.arrived| < |Seal(s, l.rx, l.queue[0].packet, l.queue[0].rnd).value.wire| {
        RecvWaits(s, l);
      } else {
        RecvReturnsOldest(s, l);
      }
  }

  lemma {:induction false} RunKeeps(s: Suite, l: Link, events: seq<Event>)
    requires Refines(s, l)
    ensures Refines(s, Run(s, l, events))
    decreases |events|
  {
    hide Step, Refines;
    if events != [] {
      StepKeeps(s, l, events[0]);
      RunKeeps(s, Step(s, l, events[0]), events[1..]);
    }
  }

  /**
   For every run from matched ends: nothing fails, what has been received is a prefix of
   what was sent, and the bytes in flight are the frames of exactly the packets between.
   */
  lemma ByteStreamRefinesFifo(s: Suite, l: Link, events: seq<Event>)
    requires Initial(l)
    ensures var e := Run(s, l, events);
            && !e.failed
            && e.received <= e.sent
            && PacketsOf(e.queue) == e.sent[|e.received|..]
            && Sealable(s, e.rx, e.queue)
            && e.arrived + e.wire == Frames(s, e.rx, e.queue)
            && e.tx == HalfAfter(s, e.rx, e.queue)
  {
    RunKeeps(s, l, events);
    var e := Run(s, l, events);
    assert e.sent[..|e.received|] == e.received;
  }

  /** Nothing is stuck: once the wire is empty, as many receives as packets are missing deliver them all. */
  lemma {:induction false} Drains(s: Suite, l: Link)
    requires Refines(s, l) && l.wire == []
    ensures var e := Run(s, l, seq(|l.queue|, _ => RecvEvent));
            e.received == l.sent && e.arrived == [] && e.queue == []
    decreases |l.queue|
  {
    hide Seal, Open;
    var events := seq(|l.queue|, _ => RecvEvent);
    if l.queue != [] {
      RecvReturnsOldest(s, l);
      var l' := Step(s, l, RecvEvent);
      assert events[1..] == seq(|l'.queue|, _ => RecvEvent);
      assert l'.wire == [] && l'.sent == l.sent by { hide Refines; RecvFrame(s, l); }
      Drains(s, l');
    }
  }

  lemma RecvFrame(s: Suite, l: Link)
    ensures Step(s, l, RecvEvent).wire == l.wire && Step(s, l, RecvEvent).sent == l.sent
  {
  }
}
