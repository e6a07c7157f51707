/**
 `ChannelManager` of src/connection/mod.rs: channel ids and windows (section 5 of RFC 4254).
 The functions on `Manager` values specify the methods of the class.
 */
module Channels {
  import opened Bytes

  const DEFAULT_WINDOW_SIZE: u32 := 2_097_152
  const DEFAULT_MAX_PACKET: u32 := 32768
  const U32_MAX: u32 := 0xFFFF_FFFF

  datatype ChannelState = ChannelState(
    localId: u32, remoteId: u32, channelType: str,
    localWindow: u32, remoteWindow: u32, localMaxPacket: u32, remoteMaxPacket: u32,
    eofSent: bool, eofReceived: bool, closed: bool, recvBuffer: bytes)

  function NewChannel(id: u32, channelType: str): ChannelState {
    ChannelState(id, 0, channelType, DEFAULT_WINDOW_SIZE, 0, DEFAULT_MAX_PACKET, 0, false, false, false, [])
  }

  function SaturatingAdd(a: u32, b: u32): u32 { if a + b > U32_MAX then U32_MAX else a + b }

  datatype Manager = Manager(channels: map<u32, ChannelState>, nextId: u32) {
    /** `next_id += 1` wraps in a release build. */
    function Added(c: ChannelState): Manager {
      Manager(channels[nextId := c], WrapInc(nextId))
    }

    function Opened(channelType: str): Manager { Added(NewChannel(nextId, channelType)) }

    function Accepted(remoteId: u32, channelType: str, remoteWindow: u32, remoteMaxPacket: u32): Manager {
      Added(NewChannel(nextId, channelType).(
        remoteId := remoteId, remoteWindow := remoteWindow, remoteMaxPacket := remoteMaxPacket))
    }

    function Put(id: u32, c: ChannelState): Manager { this.(channels := channels[id := c]) }

    function Removed(id: u32): Manager { this.(channels := channels - {id}) }

    function Confirmed(id: u32, remoteId: u32, remoteWindow: u32, remoteMaxPacket: u32): Result<Manager> {
      if id !in channels then Err(Channel("Unknown channel"))
      else
        var c := channels[id].(remoteId := remoteId, remoteWindow := remoteWindow, remoteMaxPacket := remoteMaxPacket);
        Ok(Put(id, c))
    }

    /** The length is compared after truncation to 32 bits. */
    function Received(id: u32, data: bytes): Result<Manager> {
      if id !in channels then Err(Channel("Unknown channel"))
      else
        var c, n := channels[id], |data| % TWO_32;
        if n > c.localWindow then Err(Channel("Window overflow"))
        else Ok(Put(id, c.(localWindow := c.localWindow - n, recvBuffer := c.recvBuffer + data)))
    }

    function RemoteConsumed(id: u32, amount: u32): Result<Manager> {
      if id !in channels then Err(Channel("Unknown channel"))
      else
        var c := channels[id];
        if amount > c.remoteWindow then Err(Channel("Would exceed remote window"))
        else Ok(Put(id, c.(remoteWindow := c.remoteWindow - amount)))
    }

    function LocalAdjusted(id: u32, amount: u32): Result<Manager> {
      if id !in channels then Err(Channel("Unknown channel"))
      else Ok(Put(id, channels[id].(localWindow := SaturatingAdd(channels[id].localWindow, amount))))
    }

    /** The server's handling of CHANNEL_WINDOW_ADJUST for the channel it found. */
    function RemoteAdjusted(id: u32, amount: u32): Manager
      requires id in channels
    {
      Put(id, channels[id].(remoteWindow := SaturatingAdd(channels[id].remoteWindow, amount)))
    }

    function EofReceived(id: u32): Manager
      requires id in channels
    {
      Put(id, channels[id].(eofReceived := true))
    }

    /** A channel `find_by_remote_id` may return: hash iteration order decides between several. */
    predicate Matches(remoteId: u32, id: u32) { id in channels && channels[id].remoteId == remoteId }
  }

  const EMPTY_MANAGER := Manager(map[], 0)

  class ChannelManager {
    var channels: map<u32, ChannelState>
    var nextId: u32

    function Value(): Manager reads this { Manager(channels, nextId) }

    constructor ()
      ensures Value() == EMPTY_MANAGER
    {
      channels, nextId := map[], 0;
    }

    method OpenChannel(channelType: str) returns (id: u32)
      modifies this
      ensures id == old(nextId) && Value() == old(Value()).Opened(channelType)
    {
      id := nextId;
      nextId := WrapInc(nextId);
      channels := channels[id := NewChannel(id, channelType)];
    }

    method AcceptChannel(remoteId: u32, channelType: str, remoteWindow: u32, remoteMaxPacket: u32) returns (id: u32)
      modifies this
      ensures id == old(nextId)
      ensures Value() == old(Value()).Accepted(remoteId, channelType, remoteWindow, remoteMaxPacket)
    {
      id := nextId;
      nextId := WrapInc(nextId);
      var channel := NewChannel(id, channelType);
      channel := channel.(remoteId := remoteId);
      channel := channel.(remoteWindow := remoteWindow);
      channel := channel.(remoteMaxPacket := remoteMaxPacket);
      channels := channels[id := channel];
    }

    method ConfirmChannel(id: u32, remoteId: u32, remoteWindow: u32, remoteMaxPacket: u32) returns (r: Result<()>)
      modifies this
      ensures Updates(old(Value()), old(Value()).Confirmed(id, remoteId, remoteWindow, remoteMaxPacket), r, Value())
    {
      if id !in channels {
        return Err(Channel("Unknown channel"));
      }
      channels := channels[id := channels[id].(remoteId := remoteId, remoteWindow := remoteWindow,
                                               remoteMaxPacket := remoteMaxPacket)];
      r := Ok(());
    }

    function Get(id: u32): (r: Option<ChannelState>)
      reads this
      ensures r.Some? <==> id in channels
    {
      if id in channels then Some(channels[id]) else None
    }

    /** Any channel with the remote id, or nothing exactly when there is none. */
    method FindByRemoteId(remoteId: u32) returns (r: Option<u32>)
      ensures r.Some? ==> Value().Matches(remoteId, r.value)
      ensures r.None? ==> forall id :: !Value().Matches(remoteId, id)
    {
      if id :| id in channels && channels[id].remoteId == remoteId {
        r := Some(id);
      } else {
        r := None;
      }
    }

    method RemoveChannel(id: u32) returns (r: Option<ChannelState>)
      modifies this
      ensures Value() == old(Value()).Removed(id)
      ensures r == if id in old(channels) then Some(old(channels)[id]) else None
    {
      r := Get(id);
      channels := channels - {id};
    }

    method ReceiveData(id: u32, data: bytes) returns (r: Result<()>)
      modifies this
      ensures Updates(old(Value()), old(Value()).Received(id, data), r, Value())
    {
      if id !in channels {
        return Err(Channel("Unknown channel"));
      }
      var ch := channels[id];
      if |data| % TWO_32 > ch.localWindow {
        return Err(Channel("Window overflow"));
      }
      ch := ch.(localWindow := ch.localWindow - |data| % TWO_32);
      ch := ch.(recvBuffer := ch.recvBuffer + data);
      channels := channels[id := ch];
      r := Ok(());
    }

    method ConsumeRemoteWindow(id: u32, amount: u32) returns (r: Result<()>)
      modifies this
      ensures Updates(old(Value()), old(Value()).RemoteConsumed(id, amount), r, Value())
    {
      if id !in channels {
        return Err(Channel("Unknown channel"));
      }
      if amount > channels[id].remoteWindow {
        return Err(Channel("Would exceed remote window"));
      }
      channels := channels[id := channels[id].(remoteWindow := channels[id].remoteWindow - amount)];
      r := Ok(());
    }

    method AdjustLocalWindow(id: u32, amount: u32) returns (r: Result<()>)
      modifies this
      ensures Updates(old(Value()), old(Value()).LocalAdjusted(id, amount), r, Value())
    {
      if id !in channels {
        return Err(Channel("Unknown channel"));
      }
      channels := channels[id := channels[id].(localWindow := SaturatingAdd(channels[id].localWindow, amount))];
      r := Ok(());
    }

    method AdjustRemoteWindow(id: u32, amount: u32)
      requires id in channels
      modifies this
      ensures Value() == old(Value()).RemoteAdjusted(id, amount)
    {
      channels := channels[id := channels[id].(remoteWindow := SaturatingAdd(channels[id].remoteWindow, amount))];
    }

    method MarkEofReceived(id: u32)
      requires id in channels
      modifies this
      ensures Value() == old(Value()).EofReceived(id)
    {
      channels := channels[id := channels[id].(eofReceived := true)];
    }
  }

  /** A fallible update: the error and no change, or the new value. */
  ghost predicate Updates(before: Manager, spec: Result<Manager>, r: Result<()>, after: Manager) {
    match spec
    case Ok(m) => r == Ok(()) && after == m
    case Err(e) => r == Err(e) && after == before
  }

  // ---------------------------------------------------------------- ids over any run of one manager

  datatype Op =
    | OpenOp(channelType: str)
    | AcceptOp(remoteId: u32, channelType: str, window: u32, maxPacket: u32)
    | ConfirmOp(id: u32, remoteId: u32, window: u32, maxPacket: u32)
    | RemoveOp(id: u32)
    | ReceiveOp(id: u32, data: bytes)
    | ConsumeOp(id: u32, amount: u32)
    | AdjustLocalOp(id: u32, amount: u32)
    | AdjustRemoteOp(id: u32, amount: u32)
    | EofOp(id: u32)

  function OrSame(m: Manager, r: Result<Manager>): Manager { if r.Ok? then r.value else m }

  function Performed(m: Manager, op: Op): Manager {
    match op
    case OpenOp(t) => m.Opened(t)
    case AcceptOp(r, t, w, x) => m.Accepted(r, t, w, x)
    case ConfirmOp(id, r, w, x) => OrSame(m, m.Confirmed(id, r, w, x))
    case RemoveOp(id) => m.Removed(id)
    case ReceiveOp(id, data) => OrSame(m, m.Received(id, data))
    case ConsumeOp(id, a) => OrSame(m, m.RemoteConsumed(id, a))
    case AdjustLocalOp(id, a) => OrSame(m, m.LocalAdjusted(id, a))
    case AdjustRemoteOp(id, a) => if id in m.channels then m.RemoteAdjusted(id, a) else m
    case EofOp(id) => if id in m.channels then m.EofReceived(id) else m
  }

  /** The channel an operation is about. */
  function Subject(m: Manager, op: Op): u32 {
    match op
    case OpenOp(_) => m.nextId
    case AcceptOp(_, _, _, _) => m.nextId
    case ConfirmOp(id, _, _, _) => id
    case RemoveOp(id) => id
    case ReceiveOp(id, _) => id
    case ConsumeOp(id, _) => id
    case AdjustLocalOp(id, _) => id
    case AdjustRemoteOp(id, _) => id
    case EofOp(id) => id
  }

  /** Data is taken and window consumed exactly as far as the window goes; a grant adds to it up to 2^32 - 1. */
  lemma WindowsIff(m: Manager, id: u32, data: bytes, amount: u32)
    requires id in m.channels && |data| < TWO_32
    ensures var c := m.channels[id];
            && (m.Received(id, data).Ok? <==> |data| <= c.localWindow)
            && (m.RemoteConsumed(id, amount).Ok? <==> amount <= c.remoteWindow)
            && (|data| <= c.localWindow ==>
                  var c' := m.Received(id, data).value.channels[id];
                  && c' == c.(localWindow := c'.localWindow, recvBuffer := c.recvBuffer + data)
                  && c'.localWindow + |data| == c.localWindow)
            && (amount <= c.remoteWindow ==>
                  var c' := m.RemoteConsumed(id, amount).value.channels[id];
                  c' == c.(remoteWindow := c'.remoteWindow) && c'.remoteWindow + amount == c.remoteWindow)
            && m.LocalAdjusted(id, amount).Ok?
            && var c' := m.LocalAdjusted(id, amount).value.channels[id];
               c' == c.(localWindow := if c.localWindow + amount < TWO_32 then c.localWindow + amount else U32_MAX)
  {
  }

  /** No operation touches any other channel; a removed one is gone, and only an allocation adds one. */
  lemma OthersAreLeftAlone(m: Manager, op: Op, id: u32)
    ensures var m' := Performed(m, op);
            && (id != Subject(m, op) ==>
                  && (id in m'.channels <==> id in m.channels)
                  && (id in m.channels ==> m'.channels[id] == m.channels[id]))
            && (op.RemoveOp? ==> op.id !in m'.channels)
            && (!Allocates(op) ==> m'.nextId == m.nextId && m'.channels.Keys <= m.channels.Keys)
  {
  }

  /** A channel the client has opened and the server confirmed. */
  lemma ConfirmedChannel(m: Manager, channelType: str, remoteId: u32, window: u32, maxPacket: u32)
    ensures var r := m.Opened(channelType).Confirmed(m.nextId, remoteId, window, maxPacket);
            && r.Ok? && r.value.nextId == (m.nextId + 1) % TWO_32 && m.nextId in r.value.channels
            && var c := r.value.channels[m.nextId];
            && c.localId == m.nextId && c.remoteId == remoteId && c.channelType == channelType
            && c.localWindow == 2_097_152 && c.localMaxPacket == 32768
            && c.remoteWindow == window && c.remoteMaxPacket == maxPacket
            && !c.eofSent && !c.eofReceived && !c.closed && c.recvBuffer == []
  {
  }

  predicate Allocates(op: Op) { op.OpenOp? || op.AcceptOp? }

  function PerformedAll(m: Manager, ops: seq<Op>): Manager
    decreases |ops|
  {
    if ops == [] then m else PerformedAll(Performed(m, ops[0]), ops[1..])
  }

  /** The ids handed out along a run, in order. */
  function Issued(m: Manager, ops: seq<Op>): seq<u32>
    decreases |ops|
  {
    if ops == [] then []
    else (if Allocates(ops[0]) then [m.nextId] else []) + Issued(Performed(m, ops[0]), ops[1..])
  }

  /** After `count` allocations the keys are the channels' own ids and have been handed out already. */
  predicate WellNumbered(m: Manager, count: nat) {
    && m.nextId == count % TWO_32
    && forall id :: id in m.channels ==> m.channels[id].localId == id < count
  }

  lemma OpKeepsNumbering(m: Manager, op: Op, count: nat)
    requires WellNumbered(m, count)
    ensures WellNumbered(Performed(m, op), if Allocates(op) then count + 1 else count)
  {
    WrapCounts(count);
  }

  /** Along every run the ids count up and wrap, and every channel is filed under its own, handed-out id. */
  lemma {:induction false} IdsCountUp(m: Manager, ops: seq<Op>, count: nat)
    requires WellNumbered(m, count)
    ensures WellNumbered(PerformedAll(m, ops), count + |Issued(m, ops)|)
    ensures forall i :: 0 <= i < |Issued(m, ops)| ==> Issued(m, ops)[i] == (count + i) % TWO_32
    decreases |ops|
  {
    hide Performed;
    if ops != [] {
      OpKeepsNumbering(m, ops[0], count);
      IdsCountUp(Performed(m, ops[0]), ops[1..], if Allocates(ops[0]) then count + 1 else count);
    }
  }

  /** No id is used twice, even after removal, exactly in the runs of at most 2^32 allocations. */
  lemma IdsNeverReusedIff(ops: seq<Op>)
    ensures var ids := Issued(EMPTY_MANAGER, ops);
            (forall i, j :: 0 <= i < j < |ids| ==> ids[i] != ids[j]) <==> |ids| <= TWO_32
  {
    IdsCountUp(EMPTY_MANAGER, ops, 0);
    var ids := Issued(EMPTY_MANAGER, ops);
    if |ids| > TWO_32 {
      assert ids[0] == ids[TWO_32];
    }
  }

  /** So a live channel is replaced by a new one only when 2^32 have been handed out before. */
  lemma ReplacesOnlyWrapped(ops: seq<Op>)
    ensures var m := PerformedAll(EMPTY_MANAGER, ops);
            m.nextId in m.channels ==> |Issued(EMPTY_MANAGER, ops)| >= TWO_32
  {
    IdsCountUp(EMPTY_MANAGER, ops, 0);
  }

  function Opens(t: str, n: nat): seq<Op> { seq(n, _ => OpenOp(t)) }

  lemma {:induction false} OpensAll(m: Manager, t: str, n: nat)
    ensures |Issued(m, Opens(t, n))| == n
    ensures PerformedAll(m, Opens(t, n)).channels.Keys >= m.channels.Keys
    ensures n > 0 ==> m.nextId in PerformedAll(m, Opens(t, n)).channels
    decreases n
  {
    if n > 0 {
      assert Opens(t, n)[1..] == Opens(t, n - 1);
      OpensAll(m.Opened(t), t, n - 1);
    }
  }

  /** And then it is: 2^32 opens bring id 0 back, and one more puts a new channel in the place of a live one. */
  lemma IdsWrapAround(t: str, u: str)
    ensures var m := PerformedAll(EMPTY_MANAGER, Opens(t, TWO_32));
            m.nextId == 0 && 0 in m.channels && m.Opened(u).channels[0] == NewChannel(0, u)
  {
    hide Issued, PerformedAll;
    OpensAll(EMPTY_MANAGER, t, TWO_32);
    IdsCountUp(EMPTY_MANAGER, Opens(t, TWO_32), 0);
  }

  // ---------------------------------------------------------------- ids at both ends

  /** A peer that opens channels, and a server that accepts them in the order they were sent. */
  datatype Ends = Ends(peer: Manager, server: Manager, opens: seq<u32>)

  datatype EndEvent =
    | PeerOpens(channelType: str)
    | PeerDoes(op: Op)
    | ServerAccepts(channelType: str, window: u32, maxPacket: u32)
    | ServerDoes(op: Op)

  /** Besides accepting, the server never sets a remote id; besides opening, the peer allocates nothing. */
  predicate Allowed(e: EndEvent) {
    && (e.PeerDoes? ==> !Allocates(e.op))
    && (e.ServerDoes? ==> !Allocates(e.op) && !e.op.ConfirmOp?)
  }

  function EndStep(e: Ends, v: EndEvent): Ends {
    match v
    case PeerOpens(t) => e.(peer := e.peer.Opened(t), opens := e.opens + [e.peer.nextId])
    case PeerDoes(op) => e.(peer := Performed(e.peer, op))
    case ServerAccepts(t, w, x) =>
      if e.opens == [] then e
      else e.(server := e.server.Accepted(e.opens[0], t, w, x), opens := e.opens[1..])
    case ServerDoes(op) => e.(server := Performed(e.server, op))
  }

  function EndRun(e: Ends, events: seq<EndEvent>): Ends
    decreases |events|
  {
    if events == [] then e else EndRun(EndStep(e, events[0]), events[1..])
  }

  /** Both ends count the same opens, up to those under way. */
  predicate InStep(e: Ends) {
    && e.peer.nextId == (e.server.nextId + |e.opens|) % TWO_32
    && (forall i :: 0 <= i < |e.opens| ==> e.opens[i] == (e.server.nextId + i) % TWO_32)
    && (forall id :: id in e.server.channels ==> e.server.channels[id].localId == e.server.channels[id].remoteId == id)
  }

  lemma EndStepKeeps(e: Ends, v: EndEvent)
    requires InStep(e) && Allowed(v)
    ensures InStep(EndStep(e, v))
  {
    match v {
      case PeerOpens(t) => PeerOpensInStep(e, t);
      case ServerAccepts(t, w, x) => ServerAcceptsInStep(e, t, w, x);
      case PeerDoes(_) =>
      case ServerDoes(_) =>
    }
  }

  lemma PeerOpensInStep(e: Ends, t: str)
    requires InStep(e)
    ensures InStep(EndStep(e, PeerOpens(t)))
  {
    WrapCounts(e.server.nextId + |e.opens|);
  }

  lemma ServerAcceptsInStep(e: Ends, t: str, w: u32, x: u32)
    requires InStep(e)
    ensures InStep(EndStep(e, ServerAccepts(t, w, x)))
  {
    if e.opens != [] {
      var n := e.server.nextId;
      WrapShift(n, |e.opens| - 1);
      forall i | 0 <= i < |e.opens[1..]| ensures e.opens[1..][i] == (WrapInc(n) + i) % TWO_32 {
        WrapShift(n, i);
        assert e.opens[1..][i] == e.opens[i + 1];
      }
      hide WrapInc;
      assert e.opens[0] == n;
    }
  }

  lemma {:induction false} EndRunKeeps(e: Ends, events: seq<EndEvent>)
    requires InStep(e)
    requires forall i :: 0 <= i < |events| ==> Allowed(events[i])
    ensures InStep(EndRun(e, events))
    decreases |events|
  {
    hide EndStep, InStep, Allowed;
    if events != [] {
      EndStepKeeps(e, events[0]);
      EndRunKeeps(EndStep(e, events[0]), events[1..]);
    }
  }

  /** Remote and local ids coincide at the server, so looking up by remote id is single-valued and agrees with `get`. */
  lemma RemoteLookupIsGet(events: seq<EndEvent>, remoteId: u32, id: u32)
    requires forall i :: 0 <= i < |events| ==> Allowed(events[i])
    ensures var server := EndRun(Ends(EMPTY_MANAGER, EMPTY_MANAGER, []), events).server;
            server.Matches(remoteId, id) <==> id == remoteId && id in server.channels
  {
    hide EndStep;
    EndRunKeeps(Ends(EMPTY_MANAGER, EMPTY_MANAGER, []), events);
  }
}
