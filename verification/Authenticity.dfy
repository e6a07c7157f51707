/**
 A keyed receiver fed arbitrary bytes. The only assumption is that a MAC that verifies
 was computed by the sender; nothing is assumed of the cipher, of the order in which
 bytes arrive or of who wrote them.
 */
module Authenticity {
  import opened Bytes
  import opened Packets
  import opened Crypto
  import opened Transport

  datatype Maced = Maced(seqNo: u32, data: bytes, rnd: bytes) // rnd: the padding drawn for it

  datatype Session = Session(
    tx: Half, rx: Half, sent: seq<Packet>, log: seq<Maced>, accepted: seq<Packet>, alive: bool)

  /** The sender sends a packet, or the receiver is offered any bytes at all. */
  datatype Event = Transmit(packet: Packet, rnd: bytes) | Offer(input: bytes)

  predicate Start(w: Session) {
    && w.tx.mac.Some? && w.rx.mac.Some? && w.tx.seqNo == w.rx.seqNo
    && w.sent == [] && w.log == [] && w.accepted == [] && w.alive
  }

  function Step(s: Suite, w: Session, e: Event): Session {
    match e
    case Transmit(p, rnd) =>
      (match Seal(s, w.tx, p, rnd)
       case Ok(x) =>
         var data := Frame(p, w.tx.Block(), rnd).value;
         w.(tx := x.half, sent := w.sent + [p], log := w.log + [Maced(w.tx.seqNo, data, rnd)])
       case Err(_) => w)
    case Offer(input) =>
      if !w.alive then w else
        var o := Open(s, w.rx, input);
        match o.outcome
        case Accepted(p) => w.(rx := o.half, accepted := w.accepted + [p])
        case Starved(_) => w
        case Rejected(_) => w.(alive := false)
  }

  /** If the receiver's MAC check passes, the sender has MACed exactly that message. */
  predicate Genuine(s: Suite, w: Session, e: Event) {
    e.Offer? && w.alive && Open(s, w.rx, e.input).outcome.Accepted? ==>
      var plain := Plaintext(s, w.rx, e.input);
      plain.Got? && exists i ::
        0 <= i < |w.log| && BE32(w.rx.seqNo) + plain.full == BE32(w.log[i].seqNo) + w.log[i].data
  }

  function Run(s: Suite, w: Session, events: seq<Event>): Session
    decreases |events|
  {
    if events == [] then w else Run(s, Step(s, w, events[0]), events[1..])
  }

  predicate GenuineRun(s: Suite, w: Session, events: seq<Event>)
    decreases |events|
  {
    events == [] || (Genuine(s, w, events[0]) && GenuineRun(s, Step(s, w, events[0]), events[1..]))
  }

  predicate Inv(w: Session, first: nat) {
    && w.tx.mac.Some? && w.rx.mac.Some?
    && |w.log| == |w.sent|
    && w.tx.seqNo == (first + |w.sent|) % TWO_32
    && (forall i :: 0 <= i < |w.log| ==>
          w.log[i].seqNo == (first + i) % TWO_32 && Frame(w.sent[i], w.tx.Block(), w.log[i].rnd) == Ok(w.log[i].data))
    && w.accepted <= w.sent
    && (w.alive ==> w.rx.seqNo == (first + |w.accepted|) % TWO_32)
  }

  // ---------------------------------------------------------------- which message a sequence number names

  /** Only one of the sender's messages bears the receiver's sequence number: the next one. */
  predicate InWindow(w: Session) { |w.accepted| < TWO_32 && |w.sent| <= |w.accepted| + TWO_32 }

  lemma OnlyNextIff(w: Session, first: nat)
    requires Inv(w, first) && w.alive
    ensures (forall i :: 0 <= i < |w.log| && w.log[i].seqNo == w.rx.seqNo ==> i == |w.accepted|) <==> InWindow(w)
  {
    hide Frame;
    var k := |w.accepted|;
    if k >= TWO_32 {
      WrapAgain(first, k - TWO_32);
      assert w.log[k - TWO_32].seqNo == w.rx.seqNo;
    } else if |w.sent| > k + TWO_32 {
      WrapAgain(first, k);
      assert w.log[k + TWO_32].seqNo == w.rx.seqNo;
    } else {
      forall i | 0 <= i < |w.log| && w.log[i].seqNo == w.rx.seqNo ensures i == k {
        if i != k {
          WrapApart(first, if i < k then i else k, if i < k then k else i);
        }
      }
    }
  }

  lemma MacInputInjective(m: u32, x: bytes, n: u32, y: bytes)
    requires BE32(m) + x == BE32(n) + y
    ensures m == n && x == y
  {
    hide BE32;
    var l, r := BE32(m) + x, BE32(n) + y;
    assert l[..4] == BE32(m) && r[..4] == BE32(n) && l[4..] == x && r[4..] == y;
    BE32Injective(m, n);
  }

  /** A message the sender MACed under the receiver's sequence number is the sender's next packet. */
  lemma NextBySequence(w: Session, first: nat, full: bytes, i: nat)
    requires Inv(w, first) && w.alive && InWindow(w)
    requires i < |w.log| && BE32(w.rx.seqNo) + full == BE32(w.log[i].seqNo) + w.log[i].data
    ensures |w.accepted| < |w.sent| && Unframe(full) == Ok(w.sent[|w.accepted|])
  {
    hide BE32, Unframe, Frame, InWindow;
    MacInputInjective(w.rx.seqNo, full, w.log[i].seqNo, w.log[i].data);
    OnlyNextIff(w, first);
    SealedPlaintext(w.tx, w.sent[i], w.log[i].rnd);
  }

  /**
   Every message that bears the receiver's sequence number is good enough: sealed again for the receiver it
   is genuine, and accepted. So outside the window an old packet is accepted once more, or 2^32 are skipped.
   */
  lemma AnyWithNumberIsAccepted(s: Suite, w: Session, first: nat, i: nat)
    requires Inv(w, first) && w.alive && i < |w.log| && w.tx.Block() == w.rx.Block()
    requires w.log[i].seqNo == w.rx.seqNo
    ensures var sealed := Seal(s, w.rx, w.sent[i], w.log[i].rnd);
            && sealed.Ok? && Genuine(s, w, Offer(sealed.value.wire))
            && Step(s, w, Offer(sealed.value.wire)).accepted == w.accepted + [w.sent[i]]
  {
    hide BE32, Unframe, Plaintext, Open, Frame, Masked;
    var p, m := w.sent[i], w.log[i];
    OpenInvertsSeal(s, w.rx, p, m.rnd, []);
    GenuineFrame(s, w, p, m.rnd, i);
    var wire := Seal(s, w.rx, p, m.rnd).value.wire;
    assert wire + [] == wire;
  }

  // ---------------------------------------------------------------- whole runs

  lemma AcceptedShape(s: Suite, h: Half, input: bytes)
    requires h.mac.Some? && Open(s, h, input).outcome.Accepted?
    ensures var plain := Plaintext(s, h, input);
            && plain.Got? && Unframe(plain.full) == Ok(Open(s, h, input).outcome.packet)
            && Open(s, h, input).half.mac == h.mac
            && Open(s, h, input).half.seqNo == WrapInc(h.seqNo)
  {
    hide Unframe;
  }

  /** An accepted packet is the next one of the sender's. */
  lemma OfferKeeps(s: Suite, w: Session, input: bytes, first: nat)
    requires Inv(w, first) && (w.alive ==> InWindow(w))
    requires Genuine(s, w, Offer(input))
    ensures Inv(Step(s, w, Offer(input)), first)
  {
    hide BE32, Unframe, Plaintext, Open, Frame;
    if w.alive && Open(s, w.rx, input).outcome.Accepted? {
      var full := Plaintext(s, w.rx, input).full;
      var i :| 0 <= i < |w.log| && BE32(w.rx.seqNo) + full == BE32(w.log[i].seqNo) + w.log[i].data;
      NextBySequence(w, first, full, i);
      AcceptedShape(s, w.rx, input);
      WrapCounts(first + |w.accepted|);
    }
  }

  lemma TransmitKeeps(s: Suite, w: Session, p: Packet, rnd: bytes, first: nat)
    requires Inv(w, first)
    ensures Inv(Step(s, w, Transmit(p, rnd)), first)
  {
    hide Frame, Unframe, Masked;
    if Seal(s, w.tx, p, rnd).Ok? {
      WrapCounts(first + |w.sent|);
      var w' := Step(s, w, Transmit(p, rnd));
      assert w'.tx.Block() == w.tx.Block();
    }
  }

  /** Whenever the receiver is offered anything, the window is open. */
  predicate Paced(s: Suite, w: Session, events: seq<Event>)
    decreases |events|
  {
    events == [] || ((events[0].Offer? && w.alive ==> InWindow(w)) && Paced(s, Step(s, w, events[0]), events[1..]))
  }

  lemma {:induction false} RunKeeps(s: Suite, w: Session, events: seq<Event>, first: nat)
    requires Inv(w, first) && GenuineRun(s, w, events) && Paced(s, w, events)
    ensures Inv(Run(s, w, events), first)
    decreases |events|
  {
    hide Step, Inv, Genuine, InWindow;
    if events != [] {
      match events[0] {
        case Transmit(p, rnd) => TransmitKeeps(s, w, p, rnd, first);
        case Offer(input) => OfferKeeps(s, w, input, first);
      }
      RunKeeps(s, Step(s, w, events[0]), events[1..], first);
    }
  }

  /**
   In a paced run the accepted packets are a prefix of the sent ones: nothing is reordered,
   duplicated, left out or invented, whatever the network delivers.
   */
  lemma AcceptedIsPrefixOfSent(s: Suite, w: Session, events: seq<Event>)
    requires Start(w) && GenuineRun(s, w, events) && Paced(s, w, events)
    ensures Run(s, w, events).accepted <= Run(s, w, events).sent
  {
    hide Step, Genuine;
    RunKeeps(s, w, events, w.tx.seqNo);
  }

  lemma {:induction false} SentGrows(s: Suite, w: Session, events: seq<Event>)
    ensures |w.sent| <= |Run(s, w, events).sent|
    decreases |events|
  {
    hide Seal, Open;
    if events != [] {
      SentGrows(s, Step(s, w, events[0]), events[1..]);
    }
  }

  /** Every run of fewer than 2^32 packets is paced. */
  lemma {:induction false} ShortRunsArePaced(s: Suite, w: Session, events: seq<Event>, first: nat)
    requires Inv(w, first) && GenuineRun(s, w, events) && |Run(s, w, events).sent| < TWO_32
    ensures Paced(s, w, events)
    decreases |events|
  {
    hide Step, Genuine, Frame;
    if events != [] {
      SentGrows(s, w, events);
      assert InWindow(w);
      hide Inv, InWindow;
      match events[0] {
        case Transmit(p, rnd) => TransmitKeeps(s, w, p, rnd, first);
        case Offer(input) => OfferKeeps(s, w, input, first);
      }
      ShortRunsArePaced(s, Step(s, w, events[0]), events[1..], first);
    }
  }

  // ---------------------------------------------------------------- a replay

  /** A sender and a receiver that agree exchange `n` packets. */
  lemma {:induction false} Exchanges(s: Suite, w: Session, p: Packet, n: nat, first: nat) returns (events: seq<Event>)
    requires Inv(w, first) && w.tx == w.rx && w.alive && w.accepted == w.sent && |p.payload| <= 34986
    requires |w.sent| + n <= TWO_32
    ensures GenuineRun(s, w, events)
    ensures var e := Run(s, w, events);
            && Inv(e, first) && e.tx == e.rx && e.alive && e.accepted == e.sent
            && |e.sent| == |w.sent| + n && w.sent <= e.sent
    decreases n
  {
    hide Step, Inv, Genuine;
    if n == 0 {
      return [];
    }
    var w1, w2, pair := OneExchange(s, w, p, first);
    var rest := Exchanges(s, w2, p, n - 1, first);
    events := pair + rest;
    assert events[1..] == pair[1..] + rest && events[1..][1..] == rest;
    assert Run(s, w, events) == Run(s, w1, events[1..]);
    assert Run(s, w1, events[1..]) == Run(s, w2, rest);
    assert GenuineRun(s, w1, events[1..]);
  }

  lemma OneExchange(s: Suite, w: Session, p: Packet, first: nat)
    returns (w1: Session, w2: Session, pair: seq<Event>)
    requires Inv(w, first) && w.tx == w.rx && w.alive && w.accepted == w.sent && |p.payload| <= 34986
    requires |w.sent| < TWO_32
    ensures |pair| == 2 && w1 == Step(s, w, pair[0]) && w2 == Step(s, w1, pair[1])
    ensures Genuine(s, w, pair[0]) && Genuine(s, w1, pair[1])
    ensures Inv(w2, first) && w2.tx == w2.rx && w2.alive && w2.accepted == w2.sent == w.sent + [p]
  {
    var sealed := Seal(s, w.tx, p, []).value;
    SealGoes(s, w.tx, p, []);
    pair := [Transmit(p, []), Offer(sealed.wire)];
    TransmitKeeps(s, w, p, [], first);
    w1 := Step(s, w, pair[0]);
    OpenInvertsSeal(s, w.rx, p, [], []);
    assert sealed.wire + [] == sealed.wire;
    w2 := Step(s, w1, pair[1]);
    GenuineFrame(s, w1, p, [], |w.sent|);
    hide Seal, Open, Plaintext, Frame, Unframe, Masked;
    OfferKeeps(s, w1, sealed.wire, first);
  }

  /** What the sender just sealed is genuine for a receiver in the same state. */
  lemma GenuineFrame(s: Suite, w: Session, p: Packet, rnd: bytes, i: nat)
    requires i < |w.log| && w.log[i].seqNo == w.rx.seqNo && Frame(p, w.rx.Block(), rnd) == Ok(w.log[i].data)
    ensures Seal(s, w.rx, p, rnd).Ok? && Genuine(s, w, Offer(Seal(s, w.rx, p, rnd).value.wire))
  {
    hide BE32, Unframe, Plaintext, Open, Frame, Masked;
    var data := w.log[i].data;
    var wire := Seal(s, w.rx, p, rnd).value.wire;
    assert wire[..|data|] == w.rx.Through(s, 0, data);
    PlaintextInverts(s, w.rx, p, rnd, data, wire);
    assert BE32(w.rx.seqNo) + data == BE32(w.log[i].seqNo) + w.log[i].data;
  }

  /** The run that shows the limit: after 2^32 packets the very first one is accepted once more. */
  lemma FirstIsReplayed(s: Suite, h: Half, p: Packet) returns (events: seq<Event>, replay: bytes)
    requires h.mac.Some? && |p.payload| <= 34986
    ensures var w := Session(h, h, [], [], [], true);
            && Start(w) && GenuineRun(s, w, events) && |Run(s, w, events).sent| == TWO_32
            && Genuine(s, Run(s, w, events), Offer(replay))
            && var e := Step(s, Run(s, w, events), Offer(replay));
               |e.accepted| == TWO_32 + 1 && !(e.accepted <= e.sent)
  {
    var w := Session(h, h, [], [], [], true);
    hide BE32, Frame, Seal, Step, Genuine, Run, GenuineRun;
    events := Exchanges(s, w, p, TWO_32, h.seqNo);
    var full := Run(s, w, events);
    WrapAgain(h.seqNo, 0);
    AnyWithNumberIsAccepted(s, full, h.seqNo, 0);
    replay := Seal(s, full.rx, full.sent[0], full.log[0].rnd).value.wire;
    OfferSendsNothing(s, full, replay);
  }

  lemma OfferSendsNothing(s: Suite, w: Session, input: bytes)
    ensures Step(s, w, Offer(input)).sent == w.sent
  {
    hide Open;
  }
}
