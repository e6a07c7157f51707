/**
 What a log says was read and written: `Replay` runs the events of a log against the bytes the
 client sent, sealing and opening every packet with the keys of that moment.
 */
module Traffic {
  import opened Bytes
  import opened Packets
  import opened Crypto
  import opened Transport
  import opened Version
  import opened Kex
  import opened Session
  import opened Server

  /** The keys, what is still to be read, what has been written, and how many packets that were. */
  datatype Link = Link(keys: Keys, input: bytes, output: bytes, sends: nat)

  predicate Protects(k: Keys) { k.ciphers.Some? && k.sendMac.Some? && k.recvMac.Some? }

  function Transfer(s: Suite, env: Env, k: Link, e: Event): Option<Link> {
    match e
    case Greeted(version) =>
      if version == Received(k.input)
      then Some(k.(input := k.input[Consumed(k.input)..], output := k.output + OwnVersion() + CRLF)) else None
    case Sent(p, secure) => if secure == Protects(k.keys) then Delivers(s, env, k, p) else None
    case Recvd(p, secure) => if secure == Protects(k.keys) then Obtains(s, k, Ok(p)) else None
    case Lost(error) => Obtains(s, k, Err(error))
    case Installed(result) => Some(k.(keys := ServerInstall(s, k.keys, result)))
    case Effect(_) => Some(k)
  }

  function Delivers(s: Suite, env: Env, k: Link, p: Packet): Option<Link> {
    match Seal(s, k.keys.SendHalf(), p, env.padding(k.sends))
    case Err(_) => None
    case Ok(x) => Some(Link(k.keys.WithSend(x.half), k.input, k.output + x.wire, k.sends + 1))
  }

  /** A receive that returns `r`. */
  function Obtains(s: Suite, k: Link, r: Result<Packet>): Option<Link> {
    var o := Open(s, k.keys.RecvHalf(), k.input);
    if r == Returned(o.outcome) then Some(k.(keys := k.keys.WithRecv(o.half), input := k.input[o.used..])) else None
  }

  /** The link after a whole log, if the log is one that the input allows. */
  function Replay(s: Suite, env: Env, input: bytes, log: seq<Event>): Option<Link>
    decreases |log|
  {
    if log == [] then Some(Link(FRESH_KEYS, input, [], 0))
    else
      match Replay(s, env, input, log[..|log| - 1])
      case None => None
      case Some(k) => Transfer(s, env, k, log[|log| - 1])
  }

  lemma ReplayAppend(s: Suite, env: Env, input: bytes, log: seq<Event>, e: Event)
    ensures Replay(s, env, input, log + [e])
         == match Replay(s, env, input, log) case None => None case Some(k) => Transfer(s, env, k, e)
  {
    hide Transfer;
    assert (log + [e])[..|log|] == log;
  }

  lemma Greeting(s: Suite, env: Env, k: Link)
    ensures Transfer(s, env, k, Greeted(Received(k.input)))
         == Some(k.(input := k.input[Consumed(k.input)..], output := k.output + OwnVersion() + CRLF))
  {
    hide Received, Consumed, OwnVersion;
  }

  lemma Sending(s: Suite, env: Env, k: Link, p: Packet, x: Sealed)
    requires Seal(s, k.keys.SendHalf(), p, env.padding(k.sends)) == Ok(x)
    ensures var keys := k.keys.WithSend(x.half);
            && Transfer(s, env, k, Sent(p, Protects(k.keys)))
                 == Some(Link(keys, k.input, k.output + x.wire, k.sends + 1))
            && Protects(keys) == Protects(k.keys)
  {
    hide Seal;
  }

  lemma Receiving(s: Suite, env: Env, k: Link, r: Result<Packet>, o: Opened)
    requires Open(s, k.keys.RecvHalf(), k.input) == o && r == Returned(o.outcome)
    ensures var keys := k.keys.WithRecv(o.half);
            && Transfer(s, env, k, Heard(r, Protects(k.keys))) == Some(k.(keys := keys, input := k.input[o.used..]))
            && Protects(keys) == Protects(k.keys)
    ensures r.Ok? ==> o.used > 0
  {
    hide Open;
    if r.Ok? {
      AcceptedUses(s, k.keys.RecvHalf(), k.input);
    }
  }

  function Heard(r: Result<Packet>, secure: bool): Event {
    match r
    case Ok(p) => Recvd(p, secure)
    case Err(e) => Lost(e)
  }
}
