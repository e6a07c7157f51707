/**
 What a session's log says became of the channels, the SFTP handles and the files: the logged effects,
 one after the other, and nothing else.
 */
module Accounting {
  import opened Bytes
  import opened Wire
  import opened Packets
  import opened Crypto
  import opened Kex
  import opened Auth
  import opened Channels
  import opened Messages
  import opened SftpCodec
  import SftpPaths
  import SftpConfinement
  import opened SftpHandler
  import SftpRuns
  import H = Handshake
  import opened Session
  import opened Server
  import opened Conduct

  /** The handler and the files after one event. */
  function SftpBy(st: State, e: Event): State {
    match e
    case Effect(ServesSftp(p, io)) => Handled(st, p, io).state
    case Effect(RunsCommand(_, files)) => st.(disk := files)
    case _ => st
  }

  function SftpFold(st: State, log: seq<Event>): State
    decreases |log|
  {
    if log == [] then st else SftpFold(SftpBy(st, log[0]), log[1..])
  }

  /** The channels after one event: any of several with the remote id a message names may be the one it found. */
  ghost predicate ChannelsBy(m: Manager, e: Event, m': Manager) {
    match e
    case Effect(OpensChannel(id, o)) =>
      id == m.nextId && m' == m.Accepted(o.senderChannel, o.channelType, o.initialWindow, o.maxPacket)
    case Effect(AdjustsWindow(remoteId, amount)) =>
      exists id :: m.Matches(remoteId, id) && m' == m.RemoteAdjusted(id, amount)
    case Effect(MarksEof(remoteId)) => exists id :: m.Matches(remoteId, id) && m' == m.EofReceived(id)
    case _ => m' == m
  }

  ghost predicate ChannelsFold(m: Manager, log: seq<Event>, m': Manager)
    decreases |log|
  {
    if log == [] then m' == m else exists m1 :: ChannelsBy(m, log[0], m1) && ChannelsFold(m1, log[1..], m')
  }

  /** Channels, handles and files are what the logged effects make of them; before any success, what they were. */
  ghost predicate Accounts(start: State, log: seq<Event>, z: Point) {
    && z.state == SftpFold(start, log)
    && ChannelsFold(EMPTY_MANAGER, log, z.channels)
    && ((forall i :: 0 <= i < |log| ==> !IsSuccess(log[i])) ==> z.channels == EMPTY_MANAGER && z.state == start)
  }

  // ---------------------------------------------------------------- folds

  predicate Idle(log: seq<Event>) { forall i :: 0 <= i < |log| ==> !log[i].Effect? }

  lemma {:induction false} IdleFolds(st: State, m: Manager, log: seq<Event>)
    requires Idle(log)
    ensures SftpFold(st, log) == st && ChannelsFold(m, log, m)
    decreases |log|
  {
    hide Handled;
    if log != [] {
      IdleFolds(st, m, log[1..]);
      assert ChannelsBy(m, log[0], m);
    }
  }

  lemma {:induction false} FoldsConcat(st: State, m: Manager, a: seq<Event>, m1: Manager, b: seq<Event>, m2: Manager)
    requires ChannelsFold(m, a, m1) && ChannelsFold(m1, b, m2)
    ensures SftpFold(st, a + b) == SftpFold(SftpFold(st, a), b)
    ensures ChannelsFold(m, a + b, m2)
    decreases |a|
  {
    hide SftpBy, ChannelsBy;
    if a == [] {
      assert a + b == b;
    } else {
      assert (a + b)[1..] == a[1..] + b;
      var n :| ChannelsBy(m, a[0], n) && ChannelsFold(n, a[1..], m1);
      FoldsConcat(SftpBy(st, a[0]), n, a[1..], m1, b, m2);
    }
  }

  /** An effect followed by nothing but packets. */
  lemma HeadFolds(st: State, m: Manager, e: Event, tail: seq<Event>, m': Manager)
    requires Idle(tail) && ChannelsBy(m, e, m')
    ensures SftpFold(st, [e] + tail) == SftpBy(st, e) && ChannelsFold(m, [e] + tail, m')
  {
    hide SftpBy, ChannelsBy;
    assert ([e] + tail)[1..] == tail;
    IdleFolds(SftpBy(st, e), m', tail);
  }

  // ---------------------------------------------------------------- one message

  /** The one effect a message has, if any. */
  ghost function EffectFor(m: Manager, st: State, p: Packet, w: Outside): Option<EffectKind> {
    if p.msgType == CHANNEL_OPEN then
      (match ParseOpen(p.payload)
       case Err(_) => None
       case Ok(o) => Some(OpensChannel(m.nextId, o)))
    else if p.msgType == CHANNEL_REQUEST then
      (match ParseRequest(p.payload)
       case Err(_) => None
       case Ok(q) =>
         if q.requestType != Ascii("exec") || TakeUtf8(q.data).Err? then None
         else Some(RunsCommand(TakeUtf8(q.data).value.value, w.aftermath(st.disk))))
    else if p.msgType == CHANNEL_DATA then
      (match ParseData(p.payload)
       case Err(_) => None
       case Ok(d) => if Unwrap(d.data).None? then None else Some(ServesSftp(Unwrap(d.data).value, w.io)))
    else if p.msgType == CHANNEL_WINDOW_ADJUST then
      (match TakeAdjust(p.payload)
       case Err(_) => None
       case Ok(a) => if Known(m, a.0) then Some(AdjustsWindow(a.0, a.1)) else None)
    else if p.msgType == CHANNEL_EOF then
      (match TakeU32(p.payload)
       case Err(_) => None
       case Ok(r) => if Known(m, r.value) then Some(MarksEof(r.value)) else None)
    else None
  }

  function Head(kind: Option<EffectKind>): seq<Event> { if kind.Some? then [Effect(kind.value)] else [] }

  /** A plan is its effect, if it has one, and then packets. */
  ghost predicate Headed(events: seq<Event>, kind: Option<EffectKind>) {
    |Head(kind)| <= |events| && events[..|Head(kind)|] == Head(kind) && Idle(events[|Head(kind)|..])
  }

  lemma ReplyIsIdle(m: Manager, q: ChannelRequestMsg, msgType: byte)
    ensures Headed(PlanReply(m, q, msgType).events, None)
  {
    hide Known, BE32;
  }

  lemma ExecIsHeaded(m: Manager, q: ChannelRequestMsg, output: str, files: Disk)
    ensures Headed(PlanExec(m, q, output, files).events,
                   if TakeUtf8(q.data).Ok? then Some(RunsCommand(TakeUtf8(q.data).value.value, files)) else None)
  {
    hide Known, BE32, EncString, TakeUtf8, DataPayload;
  }

  lemma RequestIsHeaded(m: Manager, q: ChannelRequestMsg, output: str, files: Disk)
    ensures Headed(PlanRequest(m, q, output, files).events,
                   if q.requestType == Ascii("exec") && TakeUtf8(q.data).Ok?
                   then Some(RunsCommand(TakeUtf8(q.data).value.value, files)) else None)
  {
    hide Known, TakeUtf8, PlanExec, PlanReply, Ascii;
    ExecIsHeaded(m, q, output, files);
    ReplyIsIdle(m, q, CHANNEL_SUCCESS);
    ReplyIsIdle(m, q, CHANNEL_FAILURE);
  }

  lemma DataIsHeaded(m: Manager, st: State, payload: bytes, io: Io)
    ensures Headed(PlanData(m, st, payload, io).events,
                   if ParseData(payload).Ok? && Unwrap(ParseData(payload).value.data).Some?
                   then Some(ServesSftp(Unwrap(ParseData(payload).value.data).value, io)) else None)
  {
    hide Known, ParseData, Unwrap, Handled, EncSftp, DataPayload;
  }

  lemma PlanIsHeaded(m: Manager, st: State, p: Packet, w: Outside)
    ensures Headed(PlanFor(m, st, p, w).events, EffectFor(m, st, p, w))
  {
    hide Known, PlanRequest, PlanData, ParseOpen, ParseRequest, ParseData, Unwrap, TakeAdjust, TakeU32, TakeUtf8,
      Ascii, BE32;
    if p.msgType == CHANNEL_REQUEST && ParseRequest(p.payload).Ok? {
      RequestIsHeaded(m, ParseRequest(p.payload).value, w.output, w.aftermath(st.disk));
    }
    DataIsHeaded(m, st, p.payload, w.io);
  }

  lemma {:induction false} UntilIdle(events: seq<Event>)
    requires Idle(events)
    ensures Idle(Until(events))
    decreases |events|
  {
    if events != [] {
      UntilIdle(events[1..]);
    }
  }

  /** An effect at the head of a plan is always carried out. */
  lemma UntilHeaded(events: seq<Event>, kind: Option<EffectKind>)
    requires Headed(events, kind)
    ensures Headed(Until(events), kind)
  {
    UntilIdle(events[|Head(kind)|..]);
    if kind.Some? {
      assert Until(events) == [events[0]] + Until(events[1..]);
      assert Until(events)[1..] == Until(events[1..]);
    } else {
      assert events[0..] == events && Until(events)[0..] == Until(events);
    }
  }

  /** What a message leaves behind is what its effect makes of what was there. */
  lemma EffectMoves(m: Manager, st: State, p: Packet, w: Outside, m': Manager)
    requires ChannelsAfter(m, p, m')
    ensures match EffectFor(m, st, p, w)
            case Some(kind) => ChannelsBy(m, Effect(kind), m') && SftpAfter(st, p, w) == SftpBy(st, Effect(kind))
            case None => m' == m && SftpAfter(st, p, w) == st
  {
    hide Known, ParseOpen, ParseRequest, ParseData, Unwrap, TakeAdjust, TakeU32, TakeUtf8, Ascii, Handled;
  }

  lemma TurnAccounts(env: Env, a: Point, p: Packet, b: Point)
    requires Moves(env, a, p, b)
    ensures var done := Until(Answered(env, a, p).events);
            SftpFold(a.state, done) == b.state && ChannelsFold(a.channels, done, b.channels)
  {
    hide PlanFor, EffectFor, ChannelsAfter, SftpAfter, ChannelsBy, SftpBy, SftpFold, ChannelsFold, Until;
    var w := env.outside(b.turn);
    var kind := EffectFor(a.channels, a.state, p, w);
    var events := Answered(env, a, p).events;
    PlanIsHeaded(a.channels, a.state, p, w);
    UntilHeaded(events, kind);
    EffectMoves(a.channels, a.state, p, w, b.channels);
    var done := Until(events);
    if kind.Some? {
      HeadFolds(a.state, a.channels, Effect(kind.value), done[1..], b.channels);
      assert [Effect(kind.value)] + done[1..] == done;
    } else {
      assert done[0..] == done;
      IdleFolds(a.state, a.channels, done);
    }
  }

  // ---------------------------------------------------------------- whole sessions

  lemma {:induction false} ServesAccounts(env: Env, a: Point, events: seq<Event>, r: Result<()>, z: Point)
    requires Serves(env, a, events, r, z)
    ensures z.state == SftpFold(a.state, events) && ChannelsFold(a.channels, events, z.channels)
    decreases |events|
  {
    hide Answered, Moves, SftpFold, ChannelsFold, Until, Ending;
    if events[0].Lost? {
      IdleFolds(a.state, a.channels, events);
    } else {
      var plan := Answered(env, a, events[0].packet);
      var done := Until(plan.events);
      var rest := events[1 + |done|..];
      assert events == [events[0]] + done + rest;
      if Ending(plan).Continue? {
        var b :| Moves(env, a, events[0].packet, b) && Serves(env, b, rest, r, z);
        ServesAccounts(env, b, rest, r, z);
        OneTurn(env, a, events[0], b, rest, z);
      } else {
        IdleFolds(z.state, z.channels, rest);
        OneTurn(env, a, events[0], z, rest, z);
      }
    }
  }

  lemma OneTurn(env: Env, a: Point, e: Event, b: Point, rest: seq<Event>, z: Point)
    requires e.Recvd? && Moves(env, a, e.packet, b)
    requires z.state == SftpFold(b.state, rest) && ChannelsFold(b.channels, rest, z.channels)
    ensures var events := [e] + Until(Answered(env, a, e.packet).events) + rest;
            z.state == SftpFold(a.state, events) && ChannelsFold(a.channels, events, z.channels)
  {
    hide Answered, Moves, SftpFold, ChannelsFold, Until;
    var done := Until(Answered(env, a, e.packet).events);
    TurnAccounts(env, a, e.packet, b);
    IdleFolds(a.state, a.channels, [e]);
    FoldsConcat(a.state, a.channels, [e], a.channels, done, b.channels);
    FoldsConcat(a.state, a.channels, [e] + done, b.channels, rest, z.channels);
  }

  /** Up to authentication nothing has any effect, and the session begins with USERAUTH_SUCCESS. */
  lemma {:induction false} ShakingIsIdle(s: Suite, cfg: H.ServerConfig, log: seq<Event>)
    requires Steered(s, cfg, log).Some?
    ensures Idle(log)
    ensures Steered(s, cfg, log).value.v.pc.SSession? ==> exists i :: 0 <= i < |log| && IsSuccess(log[i])
    decreases |log|
  {
    hide Steer;
    if log != [] {
      var n := |log| - 1;
      ShakingIsIdle(s, cfg, log[..n]);
      SteerIsIdle(s, cfg, Steered(s, cfg, log[..n]).value, log[n]);
      assert forall i :: 0 <= i < n ==> log[..n][i] == log[i];
    }
  }

  lemma SteerIsIdle(s: Suite, cfg: H.ServerConfig, k: Shake, e: Event)
    requires Steer(s, cfg, k, e).Some?
    ensures !e.Effect?
    ensures Steer(s, cfg, k, e).value.v.pc.SSession? ==> k.v.pc.SSession? || IsSuccess(e)
  {
    hide H.ServerHandles, H.ServerPacket, H.ServerNext;
    if e.Sent? {
      NextSession(s, cfg, k.v);
    } else if e.Recvd? {
      NoSessionYet(s, cfg, k.v, e.packet);
    }
  }

  lemma Accounted(s: Suite, cfg: H.ServerConfig, env: Env, start: State, log: seq<Event>, r: Result<()>, z: Point)
    requires Conforms(s, cfg, env, start, log, r, z)
    ensures Accounts(start, log, z)
  {
    hide Serves, Steered, SftpFold, ChannelsFold, GivesUp;
    var n :| 0 <= n <= |log| && ConformsAt(s, cfg, env, start, log[..n], log[n..], r, z);
    var shaking, serving := log[..n], log[n..];
    var k := Steered(s, cfg, shaking).value;
    ShakingIsIdle(s, cfg, shaking);
    IdleFolds(start, EMPTY_MANAGER, shaking);
    if k.v.pc.SSession? {
      ServesAccounts(env, Point(0, EMPTY_MANAGER, start), serving, r, z);
      var i :| 0 <= i < |shaking| && IsSuccess(shaking[i]);
      assert IsSuccess(log[i]);
    } else {
      IdleFolds(start, EMPTY_MANAGER, serving);
    }
    FoldsConcat(start, EMPTY_MANAGER, shaking, EMPTY_MANAGER, serving, z.channels);
    assert shaking + serving == log;
  }

  // ---------------------------------------------------------------- files outside the root

  /** The effect is no command, and the system's answers leave the root where it is. */
  predicate Tame(h: Handler, e: Event) {
    e.Effect? ==> !e.kind.RunsCommand? && (e.kind.ServesSftp? ==> SftpRuns.RootStable(h, e.kind.io))
  }

  /** A session that runs no command changes, creates or removes no file outside the root. */
  lemma {:induction false} SessionStaysInside(st: State, log: seq<Event>, q: bytes)
    requires SftpRuns.Confined(st.handler) && SftpConfinement.GoodRoot(st.handler.root)
    requires forall i :: 0 <= i < |log| ==> Tame(st.handler, log[i])
    requires !(SftpPaths.Components(st.handler.root) <= SftpPaths.Components(q))
    ensures SftpRuns.Untouched(st.disk, SftpFold(st, log).disk, q)
    decreases |log|
  {
    hide Handled, SftpRuns.Confined, SftpConfinement.GoodRoot, SftpPaths.Components;
    if log != [] {
      if log[0].Effect? && log[0].kind.ServesSftp? {
        SftpRuns.StaysInside(st, SftpRuns.Request(log[0].kind.packet, log[0].kind.io), q);
      }
      SessionStaysInside(SftpBy(st, log[0]), log[1..], q);
    }
  }
}
