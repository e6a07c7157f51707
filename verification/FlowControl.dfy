/**
 Flow control end to end (section 5.2 of RFC 4254): one direction of a channel, from the
 sender's remote window to the receiver's local window, with data and window adjustments
 in flight between them.
 */
module FlowControl {
  import opened Bytes
  import opened Channels

  datatype Flow = Flow(
    sender: Manager, sid: u32,        // the sending end and its channel
    receiver: Manager, rid: u32,      // the receiving end and its channel
    data: seq<bytes>,                 // CHANNEL_DATA in flight
    adjusts: seq<u32>,                // CHANNEL_WINDOW_ADJUST in flight
    rejected: bool)                   // `receive_data` has refused something

  datatype FlowEvent =
    | Send(data: bytes)               // sent only if `consume_remote_window` agrees
    | Deliver                         // the oldest data reaches `receive_data`
    | Grant(amount: u32)              // the receiver enlarges its window and announces it
    | Announce                        // the oldest announcement reaches the sender

  predicate Live(f: Flow) { f.sid in f.sender.channels && f.rid in f.receiver.channels }

  function RemoteWindow(f: Flow): u32 requires Live(f) { f.sender.channels[f.sid].remoteWindow }
  function LocalWindow(f: Flow): u32 requires Live(f) { f.receiver.channels[f.rid].localWindow }
  function Buffer(f: Flow): bytes requires Live(f) { f.receiver.channels[f.rid].recvBuffer }

  function FlowStep(f: Flow, e: FlowEvent): Flow
    requires Live(f)
  {
    match e
    case Send(data) =>
      if |data| >= TWO_32 then f
      else (match f.sender.RemoteConsumed(f.sid, |data|)
            case Err(_) => f
            case Ok(m) => f.(sender := m, data := f.data + [data]))
    case Deliver =>
      if f.data == [] then f
      else (match f.receiver.Received(f.rid, f.data[0])
            case Err(_) => f.(rejected := true, data := f.data[1..])
            case Ok(m) => f.(receiver := m, data := f.data[1..]))
    case Grant(amount) =>
      f.(receiver := OrSame(f.receiver, f.receiver.LocalAdjusted(f.rid, amount)), adjusts := f.adjusts + [amount])
    case Announce =>
      if f.adjusts == [] then f
      else f.(sender := f.sender.RemoteAdjusted(f.sid, f.adjusts[0]), adjusts := f.adjusts[1..])
  }

  function Total(data: seq<bytes>): nat { if data == [] then 0 else |data[0]| + Total(data[1..]) }
  function Sum(amounts: seq<u32>): nat { if amounts == [] then 0 else amounts[0] + Sum(amounts[1..]) }
  function Concat(data: seq<bytes>): bytes { if data == [] then [] else data[0] + Concat(data[1..]) }

  /** What the sender may still send, what is under way and what has been promised make up the receiver's window. */
  predicate Balanced(f: Flow) {
    && Live(f) && !f.rejected
    && (forall i :: 0 <= i < |f.data| ==> |f.data[i]| < TWO_32)
    && RemoteWindow(f) + Total(f.data) + Sum(f.adjusts) == LocalWindow(f)
  }

  /** A grant that does not push the window past 2^32 - 1. */
  predicate Fits(f: Flow, e: FlowEvent) { Live(f) && (e.Grant? ==> LocalWindow(f) + e.amount <= U32_MAX) }

  lemma {:induction false} TotalAppend(data: seq<bytes>, last: bytes)
    ensures Total(data + [last]) == Total(data) + |last|
    ensures Concat(data + [last]) == Concat(data) + last
    decreases |data|
  {
    if data == [] {
      assert data + [last] == [last] && [last][1..] == [];
    } else {
      TotalAppend(data[1..], last);
      assert (data + [last])[1..] == data[1..] + [last];
    }
  }

  lemma {:induction false} SumAppend(amounts: seq<u32>, last: u32)
    ensures Sum(amounts + [last]) == Sum(amounts) + last
    decreases |amounts|
  {
    if amounts == [] {
      assert amounts + [last] == [last] && [last][1..] == [];
    } else {
      SumAppend(amounts[1..], last);
      assert (amounts + [last])[1..] == amounts[1..] + [last];
    }
  }

  /** Conservation, and no byte is lost: the buffer and what is in flight only ever gain what is sent. */
  lemma StepBalances(f: Flow, e: FlowEvent)
    requires Balanced(f) && Fits(f, e)
    ensures Balanced(FlowStep(f, e))
    ensures Buffer(FlowStep(f, e)) + Concat(FlowStep(f, e).data) == Buffer(f) + Concat(f.data) + Accepted(f, e)
  {
    match e
    case Send(data) => SendBalances(f, data);
    case Deliver => DeliverBalances(f);
    case Grant(amount) => SumAppend(f.adjusts, amount);
    case Announce =>
  }

  /** The data an event puts in flight. */
  function Accepted(f: Flow, e: FlowEvent): bytes
    requires Live(f)
  {
    if e.Send? && |e.data| <= RemoteWindow(f) then e.data else []
  }

  lemma SendBalances(f: Flow, data: bytes)
    requires Balanced(f)
    ensures Balanced(FlowStep(f, Send(data)))
    ensures var f' := FlowStep(f, Send(data));
            Buffer(f') + Concat(f'.data) == Buffer(f) + Concat(f.data) + Accepted(f, Send(data))
  {
    if |data| <= RemoteWindow(f) {
      TotalAppend(f.data, data);
      assert Buffer(f) + (Concat(f.data) + data) == Buffer(f) + Concat(f.data) + data;
    }
  }

  lemma DeliverBalances(f: Flow)
    requires Balanced(f)
    ensures Balanced(FlowStep(f, Deliver))
    ensures var f' := FlowStep(f, Deliver); Buffer(f') + Concat(f'.data) == Buffer(f) + Concat(f.data)
  {
    if f.data != [] {
      assert |f.data[0]| <= Total(f.data);
      assert Buffer(f) + (f.data[0] + Concat(f.data[1..])) == Buffer(f) + f.data[0] + Concat(f.data[1..]);
    }
  }

  function FlowRun(f: Flow, events: seq<FlowEvent>): Flow
    requires Live(f)
    decreases |events|
  {
    if events == [] then f else FlowRun(FlowStep(f, events[0]), events[1..])
  }

  predicate AllFit(f: Flow, events: seq<FlowEvent>)
    requires Live(f)
    decreases |events|
  {
    events == [] || (Fits(f, events[0]) && AllFit(FlowStep(f, events[0]), events[1..]))
  }

  /** In every run whose grants fit, the windows stay balanced and `receive_data` never refuses. */
  lemma {:induction false} NothingIsRefused(f: Flow, events: seq<FlowEvent>)
    requires Balanced(f) && AllFit(f, events)
    ensures Balanced(FlowRun(f, events))
    decreases |events|
  {
    hide FlowStep, Fits;
    if events != [] {
      StepBalances(f, events[0]);
      NothingIsRefused(FlowStep(f, events[0]), events[1..]);
    }
  }

  /** The condition is exact: a grant keeps the balance iff it does not saturate the window. */
  lemma GrantBalancesIff(f: Flow, amount: u32)
    requires Balanced(f)
    ensures Balanced(FlowStep(f, Grant(amount))) <==> LocalWindow(f) + amount <= U32_MAX
  {
    SumAppend(f.adjusts, amount);
  }

  // ---------------------------------------------------------------- what saturation costs

  predicate NoGrants(events: seq<FlowEvent>) { forall i :: 0 <= i < |events| ==> !events[i].Grant? }

  /** The sender may send, has sent or has been promised more than the receiver has room for. */
  predicate Overdrawn(f: Flow) {
    && Live(f) && (forall i :: 0 <= i < |f.data| ==> |f.data[i]| < TWO_32)
    && RemoteWindow(f) + Total(f.data) + Sum(f.adjusts) > LocalWindow(f)
  }

  lemma DeliverOverdrawn(f: Flow)
    requires Overdrawn(f) && f.data != []
    ensures Live(FlowStep(f, Deliver)) && (FlowStep(f, Deliver).rejected || Overdrawn(FlowStep(f, Deliver)))
    ensures FlowStep(f, Deliver).data == f.data[1..] && FlowStep(f, Deliver).adjusts == f.adjusts
    ensures LocalWindow(FlowStep(f, Deliver)) <= LocalWindow(f)
  {
  }

  lemma AnnounceOverdrawn(f: Flow)
    requires Overdrawn(f) && f.data == [] && f.adjusts != [] && RemoteWindow(f) <= LocalWindow(f)
    requires LocalWindow(f) < U32_MAX || RemoteWindow(f) == 0
    ensures var f' := FlowStep(f, Announce);
            Overdrawn(f') && f'.data == [] && f'.adjusts == f.adjusts[1..] && LocalWindow(f') == LocalWindow(f)
  {
  }

  /** One byte sent and delivered leaves the receiver short of its full window. */
  lemma OneByteThrough(f: Flow)
    requires Overdrawn(f) && f.data == [] && RemoteWindow(f) > 0 && LocalWindow(f) == U32_MAX
    ensures var f1 := FlowStep(f, Send([0]));
            Live(f1) && Overdrawn(FlowStep(f1, Deliver)) && LocalWindow(FlowStep(f1, Deliver)) < U32_MAX
  {
    assert [] + [[0]] == [[0]] && [[0]][1..] == [] && Total([]) == 0;
  }

  /** A sender whose window exceeds the receiver's can fill it, and is refused. */
  lemma FillsIsRefused(f: Flow, big: bytes)
    requires Live(f) && f.data == [] && |big| == LocalWindow(f) + 1 <= RemoteWindow(f)
    ensures var f1 := FlowStep(f, Send(big)); Live(f1) && Live(FlowStep(f1, Deliver)) && FlowStep(f1, Deliver).rejected
  {
    assert [] + [big] == [big] && [big][0] == big;
  }

  lemma RunOne(f: Flow, e: FlowEvent, rest: seq<FlowEvent>)
    requires Live(f) && Live(FlowStep(f, e))
    ensures FlowRun(f, [e] + rest) == FlowRun(FlowStep(f, e), rest)
  {
    hide FlowStep;
    assert ([e] + rest)[1..] == rest;
  }

  lemma RunNone(f: Flow)
    requires Live(f)
    ensures FlowRun(f, []) == f
  {
  }

  /** A sender that keeps to its window can then be refused, without any further grant. */
  lemma {:induction false} OverdrawnIsRefused(f: Flow) returns (events: seq<FlowEvent>)
    requires Overdrawn(f)
    ensures NoGrants(events) && FlowRun(f, events).rejected
    decreases LocalWindow(f) == U32_MAX, |f.adjusts|, |f.data|
  {
    hide FlowStep, FlowRun;
    if f.data != [] {
      DeliverOverdrawn(f);
      var f' := FlowStep(f, Deliver);
      var rest := [];
      if f'.rejected {
        RunNone(f');
      } else {
        rest := OverdrawnIsRefused(f');
      }
      RunOne(f, Deliver, rest);
      events := [Deliver] + rest;
    } else if RemoteWindow(f) > LocalWindow(f) {
      var big: bytes := seq(LocalWindow(f) + 1, _ => 0);
      FillsIsRefused(f, big);
      var f' := FlowStep(f, Send(big));
      RunNone(FlowStep(f', Deliver));
      RunOne(f', Deliver, []);
      RunOne(f, Send(big), [Deliver]);
      events := [Send(big), Deliver];
      assert [Deliver] + [] == [Deliver] && [Send(big)] + [Deliver] == events;
    } else if LocalWindow(f) == U32_MAX && RemoteWindow(f) > 0 {
      OneByteThrough(f);
      var f1 := FlowStep(f, Send([0]));
      var rest := OverdrawnIsRefused(FlowStep(f1, Deliver));
      RunOne(f1, Deliver, rest);
      RunOne(f, Send([0]), [Deliver] + rest);
      events := [Send([0])] + ([Deliver] + rest);
    } else {
      AnnounceOverdrawn(f);
      var rest := OverdrawnIsRefused(FlowStep(f, Announce));
      RunOne(f, Announce, rest);
      events := [Announce] + rest;
    }
  }

  lemma {:induction false} NoGrantsFit(f: Flow, events: seq<FlowEvent>)
    requires Balanced(f) && NoGrants(events)
    ensures AllFit(f, events)
    decreases |events|
  {
    hide FlowStep;
    if events != [] {
      StepBalances(f, events[0]);
      NoGrantsFit(FlowStep(f, events[0]), events[1..]);
    }
  }

  lemma GrantKeepsLive(f: Flow, amount: u32)
    requires Live(f)
    ensures Live(FlowStep(f, Grant(amount)))
  {
  }

  lemma GrantOverdraws(f: Flow, amount: u32)
    requires Balanced(f) && LocalWindow(f) + amount > U32_MAX
    ensures Overdrawn(FlowStep(f, Grant(amount)))
  {
    SumAppend(f.adjusts, amount);
  }

  /** After a grant, a sender that keeps to its window can come to be refused exactly if the grant saturated. */
  lemma RefusedAfterGrantIff(f: Flow, amount: u32)
    requires Balanced(f)
    ensures Live(FlowStep(f, Grant(amount)))
    ensures (exists events :: NoGrants(events) && FlowRun(FlowStep(f, Grant(amount)), events).rejected)
            <==> LocalWindow(f) + amount > U32_MAX
  {
    hide FlowStep, FlowRun;
    GrantKeepsLive(f, amount);
    var f' := FlowStep(f, Grant(amount));
    if LocalWindow(f) + amount > U32_MAX {
      GrantOverdraws(f, amount);
      var events := OverdrawnIsRefused(f');
    } else {
      GrantBalancesIff(f, amount);
      forall events | NoGrants(events) ensures !FlowRun(f', events).rejected {
        NoGrantsFit(f', events);
        NothingIsRefused(f', events);
      }
    }
  }

  // ---------------------------------------------------------------- both directions, among other channels

  datatype Lane = Lane(data: seq<bytes>, adjusts: seq<u32>, rejected: bool)

  /** A channel between two managers that have other channels too. */
  datatype Duplex = Duplex(a: Manager, aid: u32, b: Manager, bid: u32, ab: Lane, ba: Lane) {
    function There(): Flow { Flow(a, aid, b, bid, ab.data, ab.adjusts, ab.rejected) }
    function Back(): Flow { Flow(b, bid, a, aid, ba.data, ba.adjusts, ba.rejected) }
  }

  datatype DuplexEvent =
    | OnTheWayThere(e: FlowEvent)
    | OnTheWayBack(e: FlowEvent)
    | AtA(op: Op)                 // anything else one manager does
    | AtB(op: Op)

  function DuplexStep(d: Duplex, v: DuplexEvent): Duplex {
    if !Live(d.There()) then d else
    match v
    case OnTheWayThere(e) =>
      var f := FlowStep(d.There(), e);
      d.(a := f.sender, b := f.receiver, ab := Lane(f.data, f.adjusts, f.rejected))
    case OnTheWayBack(e) =>
      var f := FlowStep(d.Back(), e);
      d.(b := f.sender, a := f.receiver, ba := Lane(f.data, f.adjusts, f.rejected))
    case AtA(op) => d.(a := Performed(d.a, op))
    case AtB(op) => d.(b := Performed(d.b, op))
  }

  /** The operation is about other channels. */
  predicate Spares(m: Manager, op: Op, id: u32) {
    match op
    case OpenOp(_) => m.nextId != id
    case AcceptOp(_, _, _, _) => m.nextId != id
    case _ => op.id != id
  }

  predicate DuplexFits(d: Duplex, v: DuplexEvent) {
    match v
    case OnTheWayThere(e) => Fits(d.There(), e)
    case OnTheWayBack(e) => Fits(d.Back(), e)
    case AtA(op) => Spares(d.a, op, d.aid)
    case AtB(op) => Spares(d.b, op, d.bid)
  }

  predicate BothBalanced(d: Duplex) { Balanced(d.There()) && Balanced(d.Back()) }

  /** One direction's step does not touch the windows of the other. */
  lemma OtherWindowsStay(f: Flow, e: FlowEvent)
    requires Live(f)
    ensures var f' := FlowStep(f, e);
            && Live(f') && f'.sid == f.sid && f'.rid == f.rid
            && f'.sender.channels[f.sid].localWindow == f.sender.channels[f.sid].localWindow
            && f'.receiver.channels[f.rid].remoteWindow == f.receiver.channels[f.rid].remoteWindow
  {
  }

  lemma SparedStays(m: Manager, op: Op, id: u32)
    requires id in m.channels && Spares(m, op, id)
    ensures id in Performed(m, op).channels && Performed(m, op).channels[id] == m.channels[id]
  {
  }

  lemma DuplexStepBalances(d: Duplex, v: DuplexEvent)
    requires BothBalanced(d) && DuplexFits(d, v)
    ensures BothBalanced(DuplexStep(d, v))
  {
    hide FlowStep, Performed, Spares, Fits;
    match v
    case OnTheWayThere(e) =>
      StepBalances(d.There(), e);
      OtherWindowsStay(d.There(), e);
    case OnTheWayBack(e) =>
      StepBalances(d.Back(), e);
      OtherWindowsStay(d.Back(), e);
    case AtA(op) => SparedStays(d.a, op, d.aid);
    case AtB(op) => SparedStays(d.b, op, d.bid);
  }

  function DuplexRun(d: Duplex, events: seq<DuplexEvent>): Duplex
    decreases |events|
  {
    if events == [] then d else DuplexRun(DuplexStep(d, events[0]), events[1..])
  }

  predicate DuplexAllFit(d: Duplex, events: seq<DuplexEvent>)
    decreases |events|
  {
    events == [] || (DuplexFits(d, events[0]) && DuplexAllFit(DuplexStep(d, events[0]), events[1..]))
  }

  /** With both directions at work and other channels coming and going, still nothing is refused. */
  lemma {:induction false} NothingIsRefusedBothWays(d: Duplex, events: seq<DuplexEvent>)
    requires BothBalanced(d) && DuplexAllFit(d, events)
    ensures BothBalanced(DuplexRun(d, events))
    decreases |events|
  {
    hide DuplexStep, DuplexFits, BothBalanced;
    if events != [] {
      DuplexStepBalances(d, events[0]);
      NothingIsRefusedBothWays(DuplexStep(d, events[0]), events[1..]);
    }
  }

  /** Opening, accepting and confirming a channel leaves both of its directions balanced. */
  lemma OpeningBalances(client: Manager, server: Manager, t: str, maxPacket: u32)
    ensures var cid, sid := client.nextId, server.nextId;
            var after := client.Opened(t);
            var accepted := server.Accepted(cid, t, after.channels[cid].localWindow, maxPacket);
            var confirmed := after.Confirmed(cid, sid, DEFAULT_WINDOW_SIZE, DEFAULT_MAX_PACKET);
            && confirmed.Ok?
            && Balanced(Flow(confirmed.value, cid, accepted, sid, [], [], false))
            && Balanced(Flow(accepted, sid, confirmed.value, cid, [], [], false))
  {
  }
}
