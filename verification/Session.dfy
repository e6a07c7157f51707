/**
 The discipline of a server session. `Event`s are what the server does, in order; `Disciplined`
 says which sequences of events are acceptable, `Watch` checks it one event at a time.
 */
module Session {
  import opened Bytes
  import opened Wire
  import opened Packets
  import opened Kex
  import opened Auth
  import opened Messages
  import opened SftpCodec
  import opened SftpHandler

  datatype EffectKind =
    | OpensChannel(id: u32, request: ChannelOpenMsg)
    | RunsCommand(command: str, files: Disk)   // the files once it has run
    | ServesSftp(packet: SftpPacket, io: Io)   // the file system's answers meanwhile
    | AdjustsWindow(recipient: u32, amount: u32)
    | MarksEof(recipient: u32)

  datatype Event =
    | Greeted(version: Result<str>)        // version lines sent and received
    | Recvd(packet: Packet, secure: bool)  // secure: decrypted, and its MAC verified
    | Lost(error: SshError)                // a receive that failed
    | Sent(packet: Packet, secure: bool)   // secure: encrypted and MACed
    | Installed(result: KexResult)         // the session keys are put in place
    | Effect(kind: EffectKind)             // a channel or SFTP effect

  /** The packet asks for authentication with credentials the database accepts. */
  predicate Credible(db: Db, p: Packet) {
    && p.msgType == USERAUTH_REQUEST
    && ParseAuthRequest(p.payload).Ok?
    && db.Accepts(ParseAuthRequest(p.payload).value)
  }

  /** A user of the database shows its password or one of its keys. */
  ghost predicate Earns(db: Db, p: Packet) { p.msgType == USERAUTH_REQUEST && Proven(db, p.payload) }

  lemma CredibleIff(db: Db, p: Packet)
    ensures Credible(db, p) <==> Earns(db, p)
  {
    AcceptedIff(db, p.payload);
    hide ParseAuthRequest, Proven, Db.Accepts;
  }

  predicate IsSuccess(e: Event) { e.Sent? && e.packet.msgType == USERAUTH_SUCCESS }

  /**
   Keys are installed at most once; from then on everything sent or received is secure;
   USERAUTH_SUCCESS is sent at most once, after the keys, and directly answers a request in which a user
   of the database shows its password or one of its keys; and nothing is done to a channel or a file before it.
   */
  ghost predicate Disciplined(db: Db, log: seq<Event>) {
    && (forall i, j :: 0 <= i < j < |log| && log[i].Installed? ==>
          !log[j].Installed? && (log[j].Recvd? || log[j].Sent? ==> log[j].secure))
    && (forall i, j :: 0 <= i < j < |log| ==> !(IsSuccess(log[i]) && IsSuccess(log[j])))
    && (forall j :: 0 <= j < |log| && IsSuccess(log[j]) ==>
          && log[j].secure && j > 0 && log[j - 1].Recvd? && log[j - 1].secure
          && Earns(db, log[j - 1].packet)
          && exists i :: 0 <= i < j && log[i].Installed?)
    && (forall j :: 0 <= j < |log| && log[j].Effect? ==> exists i :: 0 <= i < j && IsSuccess(log[i]))
  }

  // ---------------------------------------------------------------- the monitor

  datatype Monitor = Monitor(keyed: bool, authed: bool, last: Option<Packet>)

  const MONITOR_START := Monitor(false, false, None)

  function Observe(db: Db, m: Monitor, e: Event): Option<Monitor> {
    match e
    case Recvd(p, secure) => if m.keyed && !secure then None else Some(m.(last := Some(p)))
    case Greeted(_) => Some(m.(last := None))
    case Lost(_) => Some(m.(last := None))
    case Installed(_) => if m.keyed then None else Some(m.(keyed := true, last := None))
    case Effect(_) => if m.authed then Some(m.(last := None)) else None
    case Sent(p, secure) =>
      if m.keyed && !secure then None
      else if p.msgType != USERAUTH_SUCCESS then Some(m.(last := None))
      else if m.keyed && !m.authed && m.last.Some? && Credible(db, m.last.value)
      then Some(m.(authed := true, last := None))
      else None
  }

  /** The monitor after a whole log, if it never objected. */
  function Watch(db: Db, log: seq<Event>): Option<Monitor>
    decreases |log|
  {
    if log == [] then Some(MONITOR_START)
    else
      match Watch(db, log[..|log| - 1])
      case None => None
      case Some(m) => Observe(db, m, log[|log| - 1])
  }

  lemma WatchAppend(db: Db, log: seq<Event>, e: Event)
    ensures Watch(db, log + [e]) == match Watch(db, log) case None => None case Some(m) => Observe(db, m, e)
  {
    assert (log + [e])[..|log|] == log;
  }

  /** What the monitor's state says about the log so far. */
  ghost predicate Reflects(log: seq<Event>, m: Monitor) {
    && (m.keyed <==> exists i :: 0 <= i < |log| && log[i].Installed?)
    && (m.authed <==> exists i :: 0 <= i < |log| && IsSuccess(log[i]))
    && (m.last.Some? ==> |log| > 0 && log[|log| - 1].Recvd? && log[|log| - 1].packet == m.last.value
                         && (m.keyed ==> log[|log| - 1].secure))
  }

  lemma ReflectsAppend(db: Db, log: seq<Event>, m: Monitor, e: Event)
    requires Reflects(log, m) && Observe(db, m, e).Some?
    ensures Reflects(log + [e], Observe(db, m, e).value)
  {
    hide Credible;
    var log' := log + [e];
    assert forall i :: 0 <= i < |log| ==> log'[i] == log[i];
    assert log'[|log|] == e;
  }

  lemma SuccessIsEarned(db: Db, m: Monitor, e: Event)
    requires Observe(db, m, e).Some? && IsSuccess(e)
    ensures m.last.Some? && Earns(db, m.last.value)
  {
    hide Credible, Earns;
    if m.last.Some? {
      CredibleIff(db, m.last.value);
    }
  }

  lemma DisciplinedAppend(db: Db, log: seq<Event>, m: Monitor, e: Event)
    requires Disciplined(db, log) && Reflects(log, m) && Observe(db, m, e).Some?
    ensures Disciplined(db, log + [e])
  {
    hide Credible, Earns;
    if IsSuccess(e) {
      SuccessIsEarned(db, m, e);
    }
    var log' := log + [e];
    assert forall i :: 0 <= i < |log| ==> log'[i] == log[i];
    assert log'[|log|] == e;
    assert log[..] == log;
  }

  /** A log the monitor never objected to is disciplined. */
  lemma {:induction false} WatchedIsDisciplined(db: Db, log: seq<Event>)
    requires Watch(db, log).Some?
    ensures Disciplined(db, log) && Reflects(log, Watch(db, log).value)
    decreases |log|
  {
    hide Disciplined, Reflects, Observe;
    if log == [] {
      EmptyLog(db);
    } else {
      var n := |log| - 1;
      WatchedIsDisciplined(db, log[..n]);
      var m := Watch(db, log[..n]).value;
      assert log == log[..n] + [log[n]];
      ReflectsAppend(db, log[..n], m, log[n]);
      DisciplinedAppend(db, log[..n], m, log[n]);
    }
  }

  lemma EmptyLog(db: Db)
    ensures Disciplined(db, []) && Reflects([], MONITOR_START)
  {
  }
}
