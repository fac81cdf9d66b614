/** The server's side of a subscriber connection (services/service_tcpnode.go): packets are cut out of
    the byte stream, topics are collected, ticks answered. */
module SubscriberNode {
  import opened Bytes
  import opened Streams
  import opened ServiceUtil

  function Ascii(s: string): bytes {
    seq(|s|, i requires 0 <= i < |s| => s[i] as int % 256)
  }

  const OK := Ascii("ok")
  const TICK_OK := Packet(CMD_TICK, OK)
  const SET_PRO_OK := Packet(CMD_SET_PRO, OK)

  /** The reply to a known command the service has no use for. */
  function Unsupported(cmd: nat): bytes {
    Packet(CMD_ERROR, Ascii("tcp service does not support cmd: ") + [48 + cmd % 10])
  }

  /** `strings.Trim(topic, " ")` */
  function Trim(t: bytes): (r: bytes)
    ensures r != [] ==> r[0] != 32 && r[|r| - 1] != 32
  {
    if t != [] && t[0] == 32 then Trim(t[1..])
    else if t != [] && t[|t| - 1] == 32 then Trim(t[..|t| - 1])
    else t
  }

  function Spaces(n: nat): (r: bytes)
    ensures |r| == n
  {
    seq(n, _ => 32)
  }

  /** Neither begins nor ends with a space. */
  predicate Bare(t: bytes) {
    t != [] ==> t[0] != 32 && t[|t| - 1] != 32
  }

  /** One space more, in front or behind. */
  lemma PadMore(a: nat, core: bytes, b: nat)
    ensures Spaces(a + 1) + core + Spaces(b) == [32] + (Spaces(a) + core + Spaces(b))
    ensures Spaces(a) + core + Spaces(b + 1) == (Spaces(a) + core + Spaces(b)) + [32]
  {
    assert Spaces(a + 1) == [32] + Spaces(a) && Spaces(b + 1) == Spaces(b) + [32];
  }

  /** What is taken off are spaces, in front and behind. */
  lemma {:induction false} TrimTakesSpaces(t: bytes) returns (a: nat, b: nat)
    ensures t == Spaces(a) + Trim(t) + Spaces(b)
    ensures Trim(t) != [] ==> Trim(t)[0] != 32 && Trim(t)[|Trim(t)| - 1] != 32
    decreases |t|
  {
    hide Trim, Spaces;
    if Bare(t) {
      TrimBare(t);
      a, b := 0, 0;
    } else if t[0] == 32 {
      var rest := t[1..];
      assert t == [32] + rest;
      a, b := TrimTakesSpaces(rest);
      TrimOneOff(rest);
      PadMore(a, Trim(rest), b);
      a := a + 1;
    } else {
      var rest := t[..|t| - 1];
      assert t == rest + [32];
      a, b := TrimTakesSpaces(rest);
      TrimOneOff(rest);
      PadMore(a, Trim(rest), b);
      b := b + 1;
    }
  }

  /** And all of them: what stands between the spaces is left. */
  lemma {:induction false} TrimLeavesCore(a: nat, core: bytes, b: nat)
    requires Bare(core)
    ensures Trim(Spaces(a) + core + Spaces(b)) == core
    decreases a + b
  {
    hide Trim, Spaces;
    if a > 0 {
      TrimLeavesCore(a - 1, core, b);
      PadMore(a - 1, core, b);
      TrimOneOff(Spaces(a - 1) + core + Spaces(b));
    } else if b > 0 {
      TrimLeavesCore(0, core, b - 1);
      PadMore(0, core, b - 1);
      var t := Spaces(0) + core + Spaces(b - 1);
      TrimOneOff(t);
      if core == [] {
        OnlySpaces(b - 1);
      } else {
        assert t[0] == core[0];
      }
    } else {
      TrimBare(core);
      assert Spaces(0) + core + Spaces(0) == core;
    }
  }

  lemma OnlySpaces(b: nat)
    ensures Spaces(0) + [] + Spaces(b) + [32] == [32] + (Spaces(0) + [] + Spaces(b))
  {
  }

  lemma TrimBare(t: bytes)
    requires Bare(t)
    ensures Trim(t) == t == Spaces(0) + t + Spaces(0)
  {
  }

  lemma TrimOneOff(t: bytes)
    ensures Trim([32] + t) == Trim(t)
    ensures t != [] && t[0] != 32 ==> Trim(t + [32]) == Trim(t)
  {
    assert ([32] + t)[1..] == t && (t + [32])[..|t|] == t;
  }

  /** `strings.ToLower`, a library function. */
  type Lower = bytes -> bytes

  function Normalised(lower: Lower, topic: bytes): bytes {
    lower(Trim(topic))
  }

  /** `addTopic` */
  function WithTopic(lower: Lower, topics: seq<bytes>, topic: bytes): seq<bytes> {
    var t := Normalised(lower, topic);
    if t in topics then topics else topics + [t]
  }

  /** The state of a node; `sent` is what is written past the queue. A closed node writes nothing. */
  datatype State = State(online: bool, buf: bytes, topics: seq<bytes>, queue: seq<bytes>, sent: seq<bytes>) {
    function Queue(data: bytes): State {
      if online then this.(queue := queue + [data]) else this
    }

    function Send(data: bytes): State {
      if online then this.(sent := sent + [data]) else this
    }
  }

  /** A run-time panic is not recovered here. */
  datatype Outcome = Done(st: State) | Crash

  /** `onSetProEvent` on a topic packet's content. */
  function SetProEvent(lower: Lower, st: State, data: bytes): Outcome {
    if data == [] then Crash
    else if data[0] == FLAG_SET_PRO then
      Done(st.Send(SET_PRO_OK).(topics := WithTopic(lower, st.topics, data[1..])))
    else if data[0] == FLAG_PING then Done(st.Send(SET_PRO_OK).(online := false))
    else Done(st.(online := false))
  }

  /** The loop of `onMessage`. */
  function Process(lower: Lower, st: State): Outcome
    decreases |st.buf|
  {
    if |st.buf| < 6 then Done(st)
    else
      var clen := FromLE(st.buf[..4]);
      if |st.buf| < clen + 4 then Done(st)
      else
        var cmd := FromLE(st.buf[4..6]);
        if !HasCmd(cmd) then Done(st.(buf := []))
        else if clen < 2 then Crash
        else
          var content := st.buf[6..clen + 4];
          var rest := st.buf[clen + 4..];
          if cmd == CMD_SET_PRO then
            (match SetProEvent(lower, st, content)
             case Crash => Crash
             case Done(st') => Process(lower, st'.(buf := rest)))
          else if cmd == CMD_TICK then Process(lower, st.Queue(TICK_OK).(buf := rest))
          else Done(st.Queue(Unsupported(cmd)).(buf := []))
  }

  class TcpClientNode {
    var recvBuf: bytes
    var topics: seq<bytes>
    var online: bool
    var sendQueue: seq<bytes>
    var sent: seq<bytes>

    function Current(): State
      reads this
    {
      State(online, recvBuf, topics, sendQueue, sent)
    }

    constructor ()
      ensures Current() == State(true, [], [], [], [])
    {
      recvBuf, topics, online, sendQueue, sent := [], [], true, [], [];
    }

    /** `addTopic` */
    method AddTopic(lower: Lower, topic: bytes)
      modifies this`topics
      ensures topics == WithTopic(lower, old(topics), topic)
    {
      var t := Normalised(lower, topic);
      for i := 0 to |topics|
        invariant t !in topics[..i]
        invariant topics == old(topics)
      {
        if topics[i] == t {
          return;
        }
      }
      topics := topics + [t];
    }

    /** `asyncSend`, once the queue has room. */
    method AsyncSend(data: bytes)
      modifies this`sendQueue
      ensures Current() == old(Current()).Queue(data)
    {
      if online {
        sendQueue := sendQueue + [data];
      }
    }

    /** `send` */
    method Send(data: bytes)
      modifies this`sent
      ensures Current() == old(Current()).Send(data)
    {
      if online {
        sent := sent + [data];
      }
    }

    /** `onSetProEvent` */
    method OnSetProEvent(lower: Lower, data: bytes) returns (panicked: bool)
      modifies this`topics, this`online, this`sent
      ensures panicked <==> SetProEvent(lower, old(Current()), data) == Crash
      ensures !panicked ==> SetProEvent(lower, old(Current()), data) == Done(Current())
    {
      if data == [] {
        return true;
      }
      if data[0] == FLAG_SET_PRO {
        Send(SET_PRO_OK);
        AddTopic(lower, data[1..]);
      } else {
        if data[0] == FLAG_PING {
          Send(SET_PRO_OK);
        }
        online := false;
      }
      return false;
    }

    /** `onMessage` */
    method OnMessage(lower: Lower, msg: bytes) returns (panicked: bool)
      modifies this
      ensures var st := old(Current()).(buf := old(recvBuf) + msg);
              && (panicked <==> Process(lower, st) == Crash)
              && (!panicked ==> Process(lower, st) == Done(Current()))
    {
      recvBuf := recvBuf + msg;
      ghost var outcome := Process(lower, Current());
      while |recvBuf| >= 6
        invariant Process(lower, Current()) == outcome
        decreases |recvBuf|
      {
        var clen := FromLE(recvBuf[..4]);
        if |recvBuf| < clen + 4 {
          return false;
        }
        var cmd := FromLE(recvBuf[4..6]);
        if !HasCmd(cmd) {
          recvBuf := [];
          return false;
        }
        if clen < 2 {
          return true;
        }
        var content := recvBuf[6..clen + 4];
        if cmd == CMD_SET_PRO {
          panicked := OnSetProEvent(lower, content);
          if panicked {
            return;
          }
        } else if cmd == CMD_TICK {
          AsyncSend(TICK_OK);
        } else {
          AsyncSend(Unsupported(cmd));
          recvBuf := [];
          return false;
        }
        recvBuf := recvBuf[clen + 4..];
      }
      return false;
    }
  }

  // ---------- the stream ----------

  /** What a subscriber sends: a topic, a tick, or a packet with another flag, which ends the connection. */
  datatype Request = Topic(topic: bytes) | Tick(msg: bytes) | Flagged(flag: byte, msg: bytes)

  function RequestBytes(r: Request): bytes {
    match r
    case Topic(t) => Packet(CMD_SET_PRO, [FLAG_SET_PRO] + t)
    case Tick(msg) => Packet(CMD_TICK, msg)
    case Flagged(flag, msg) => Packet(CMD_SET_PRO, [flag] + msg)
  }

  function Requests(rs: seq<Request>): (parts: seq<bytes>)
    ensures |parts| == |rs|
  {
    seq(|rs|, i requires 0 <= i < |rs| => RequestBytes(rs[i]))
  }

  predicate Fits(r: Request) {
    |RequestBytes(r)| < TWO_32 && (r.Flagged? ==> r.flag != FLAG_SET_PRO)
  }

  predicate Sendable(rs: seq<Request>) {
    forall i :: 0 <= i < |rs| ==> Fits(rs[i])
  }

  /** What one request does to a node. */
  function Serve(lower: Lower, st: State, r: Request): State {
    match r
    case Topic(t) => st.Send(SET_PRO_OK).(topics := WithTopic(lower, st.topics, t))
    case Tick(_) => st.Queue(TICK_OK)
    case Flagged(flag, _) => (if flag == FLAG_PING then st.Send(SET_PRO_OK) else st).(online := false)
  }

  function ServeAll(lower: Lower, st: State, rs: seq<Request>): State
    decreases |rs|
  {
    if rs == [] then st else ServeAll(lower, Serve(lower, st, rs[0]), rs[1..])
  }

  /** A whole request is served, and what is behind it is next. */
  lemma OneServed(lower: Lower, st: State, r: Request, rest: bytes)
    requires Fits(r) && st.buf == RequestBytes(r) + rest
    ensures Process(lower, st) == Process(lower, Serve(lower, st, r).(buf := rest))
  {
    hide LE, FromLE, HasCmd, Process, Serve, Packet, TICK_OK, SET_PRO_OK;
    var n := |RequestBytes(r)|;
    assert st.buf[n..] == rest;
    Commands();
    match r {
      case Topic(t) =>
        PacketFields(CMD_SET_PRO, [FLAG_SET_PRO] + t, rest);
        FlagServed(lower, st, FLAG_SET_PRO, t, n);
        ServeFlag(lower, st, r);
      case Tick(msg) =>
        PacketFields(CMD_TICK, msg, rest);
        TickServed(lower, st, msg, n);
      case Flagged(flag, msg) =>
        PacketFields(CMD_SET_PRO, [flag] + msg, rest);
        FlagServed(lower, st, flag, msg, n);
        ServeFlag(lower, st, r);
    }
  }

  lemma Commands()
    ensures HasCmd(CMD_SET_PRO) && HasCmd(CMD_TICK) && CMD_SET_PRO != CMD_TICK
  {
  }

  lemma FlagServed(lower: Lower, st: State, flag: byte, msg: bytes, n: nat)
    requires 6 <= n <= |st.buf| && FromLE(st.buf[..4]) == n - 4
    requires FromLE(st.buf[4..6]) == CMD_SET_PRO && HasCmd(CMD_SET_PRO) && st.buf[6..n] == [flag] + msg
    ensures SetProEvent(lower, st, [flag] + msg).Done?
    ensures Process(lower, st) == Process(lower, SetProEvent(lower, st, [flag] + msg).st.(buf := st.buf[n..]))
  {
    hide FromLE, HasCmd, TICK_OK, SET_PRO_OK, Unsupported, WithTopic;
  }

  lemma ServeFlag(lower: Lower, st: State, r: Request)
    ensures r.Topic? ==> SetProEvent(lower, st, [FLAG_SET_PRO] + r.topic) == Done(Serve(lower, st, r))
    ensures r.Flagged? && r.flag != FLAG_SET_PRO ==>
              SetProEvent(lower, st, [r.flag] + r.msg) == Done(Serve(lower, st, r))
  {
    hide WithTopic, TICK_OK, SET_PRO_OK;
    if r.Topic? {
      assert ([FLAG_SET_PRO] + r.topic)[1..] == r.topic;
    }
  }

  lemma TickServed(lower: Lower, st: State, content: bytes, n: nat)
    requires 6 <= n <= |st.buf| && FromLE(st.buf[..4]) == n - 4
    requires FromLE(st.buf[4..6]) == CMD_TICK && HasCmd(CMD_TICK)
    ensures Process(lower, st) == Process(lower, Serve(lower, st, Tick(content)).(buf := st.buf[n..]))
  {
    hide Process, FromLE, HasCmd, TICK_OK;
    TickTaken(lower, st, FromLE(st.buf[..4]));
  }

  lemma TickTaken(lower: Lower, st: State, clen: nat)
    requires |st.buf| >= 6 && |st.buf| >= clen + 4 >= 6 && FromLE(st.buf[..4]) == clen
    requires FromLE(st.buf[4..6]) == CMD_TICK && HasCmd(CMD_TICK)
    ensures Process(lower, st) == Process(lower, st.Queue(TICK_OK).(buf := st.buf[clen + 4..]))
  {
    hide FromLE, HasCmd, SetProEvent, Unsupported, TICK_OK;
  }

  lemma FlattenFirst(parts: seq<bytes>)
    requires parts != []
    ensures Flatten(parts) == parts[0] + Flatten(parts[1..])
  {
  }

  /** Whole requests are all served. */
  lemma {:induction false} AllServed(lower: Lower, st: State, rs: seq<Request>, rest: bytes)
    requires Sendable(rs) && st.buf == Flatten(Requests(rs)) + rest
    ensures Process(lower, st) == Process(lower, ServeAll(lower, st, rs).(buf := rest))
    decreases |rs|
  {
    hide Process, Serve, RequestBytes, Flatten, Fits;
    if rs == [] {
      NoPart();
      assert Requests(rs) == [] && st.buf == rest;
    } else {
      FlattenFirst(Requests(rs));
      assert Requests(rs)[1..] == Requests(rs[1..]);
      var behind := Flatten(Requests(rs[1..])) + rest;
      Regroup(RequestBytes(rs[0]), Flatten(Requests(rs[1..])), rest);
      OneServed(lower, st, rs[0], behind);
      var st' := Serve(lower, st, rs[0]).(buf := behind);
      AllServed(lower, st', rs[1..], rest);
      ServeKeepsBuf(lower, Serve(lower, st, rs[0]), behind, rs[1..]);
    }
  }

  lemma NoPart()
    ensures Flatten([]) == []
  {
  }

  /** Less than a request is kept. */
  lemma NoneServed(lower: Lower, st: State, rs: seq<Request>)
    requires Sendable(rs) && st.buf <= Flatten(Requests(rs))
    requires rs == [] || |st.buf| < |RequestBytes(rs[0])|
    ensures Process(lower, st) == Done(st)
  {
    hide Packet, LE, FromLE, HasCmd;
    if rs != [] && |st.buf| >= 6 {
      LengthOfFirst(rs, st.buf);
    }
  }

  /** The length that is read off a buffer that begins with a request. */
  lemma LengthOfFirst(rs: seq<Request>, buf: bytes)
    requires rs != [] && Sendable(rs) && buf <= Flatten(Requests(rs)) && |buf| >= 6
    ensures FromLE(buf[..4]) == |RequestBytes(rs[0])| - 4
  {
    hide Packet, LE, FromLE;
    var wire := Flatten(Requests(rs));
    assert buf[..4] == wire[..4];
    var rest := Flatten(Requests(rs)[1..]);
    match rs[0] {
      case Topic(t) => PacketFields(CMD_SET_PRO, [FLAG_SET_PRO] + t, rest);
      case Tick(msg) => PacketFields(CMD_TICK, msg, rest);
      case Flagged(flag, msg) => PacketFields(CMD_SET_PRO, [flag] + msg, rest);
    }
  }

  /** The loop on a buffer that starts at a packet boundary. */
  lemma ProcessAligned(lower: Lower, st: State, rs: seq<Request>)
    requires Sendable(rs) && st.buf <= Flatten(Requests(rs))
    ensures var k := Complete(Requests(rs), |st.buf|);
            Process(lower, st) == Done(ServeAll(lower, st, rs[..k]).(buf := Rest(Requests(rs), |st.buf|)))
  {
    hide Process, Serve, ServeAll, RequestBytes, Flatten, Complete, Rest, Fits;
    var parts := Requests(rs);
    var k := Complete(parts, |st.buf|);
    var rest := Rest(parts, |st.buf|);
    CutIsExact(parts, |st.buf|);
    assert parts[..k] == Requests(rs[..k]) && parts[k..] == Requests(rs[k..]);
    AllServed(lower, st, rs[..k], rest);
    NoneServed(lower, ServeAll(lower, st, rs[..k]).(buf := rest), rs[k..]);
  }

  lemma {:induction false} ServeKeepsBuf(lower: Lower, st: State, buf: bytes, rs: seq<Request>)
    ensures ServeAll(lower, st.(buf := buf), rs) == ServeAll(lower, st, rs).(buf := buf)
    ensures ServeAll(lower, st, rs).buf == st.buf
    decreases |rs|
  {
    if rs != [] {
      ServeKeepsBuf(lower, Serve(lower, st, rs[0]), buf, rs[1..]);
      assert Serve(lower, st.(buf := buf), rs[0]) == Serve(lower, st, rs[0]).(buf := buf);
    }
  }

  /** None of them ends the connection. */
  predicate Stays(rs: seq<Request>) {
    forall i :: 0 <= i < |rs| ==> !rs[i].Flagged?
  }

  lemma {:induction false} ServeOnline(lower: Lower, st: State, rs: seq<Request>)
    ensures ServeAll(lower, st, rs).online <==> st.online && Stays(rs)
    decreases |rs|
  {
    if rs != [] {
      ServeOnline(lower, Serve(lower, st, rs[0]), rs[1..]);
      assert rs == [rs[0]] + rs[1..];
    }
  }

  /** The read loop of a connection: reads are handed to `onMessage` until the node is closed. */
  function FeedAll(lower: Lower, st: State, chunks: seq<bytes>): Outcome
    decreases |chunks|
  {
    if chunks == [] || !st.online then Done(st)
    else
      match Process(lower, st.(buf := st.buf + chunks[0]))
      case Crash => Crash
      case Done(st') => FeedAll(lower, st', chunks[1..])
  }

  /** After `j` reads, the last of which alone may have ended the connection, the node is as if the requests
      complete by then had been served. */
  predicate ServedAfter(lower: Lower, st: State, chunks: seq<bytes>, rs: seq<Request>, n: nat, j: nat)
    requires n <= |Flatten(Requests(rs))| && j <= |chunks|
  {
    var k, n' := Complete(Requests(rs), n), n + |Flatten(chunks[..j])|;
    var k' := Complete(Requests(rs), n');
    && n' <= |Flatten(Requests(rs))| && k <= k'
    && FeedAll(lower, st, chunks) == Done(ServeAll(lower, st, rs[k..k']).(buf := Rest(Requests(rs), n')))
    && (j < |chunks| ==> !Stays(rs[k..k']))
    && (j > 0 ==> StaysUntil(rs, n, n + |Flatten(chunks[..j - 1])|))
  }

  /** No request that is complete only after `n` bytes, but after `n'`, ends the connection. */
  predicate StaysUntil(rs: seq<Request>, n: nat, n': nat) {
    var k, k' := Complete(Requests(rs), n), Complete(Requests(rs), n');
    k <= k' && Stays(rs[k..k'])
  }

  lemma {:induction false} FeedMany(lower: Lower, st: State, chunks: seq<bytes>, rs: seq<Request>, n: nat)
      returns (j: nat)
    requires st.online && Sendable(rs) && n <= |Flatten(Requests(rs))|
    requires st.buf == Rest(Requests(rs), n)
    requires GoesOn(Flatten(Requests(rs)), n, Flatten(chunks))
    ensures j <= |chunks| && ServedAfter(lower, st, chunks, rs, n, j)
    decreases |chunks|
  {
    hide Process, Complete, Rest, ServeAll, Serve, Requests, GoesOn, Sendable, Stays, ServedAfter, Flatten, FeedAll;
    if chunks == [] {
      j := 0;
      NoChunk(lower, st, rs, n);
    } else {
      var d := chunks[0];
      FlattenFirst(chunks);
      GoesOnInTwo(Flatten(Requests(rs)), n, d, Flatten(chunks[1..]));
      FeedOne(lower, st, d, rs, n);
      var st1 := FirstServed(lower, st, chunks, rs, n);
      if !st1.online {
        j := 1;
      } else {
        var j' := FeedMany(lower, st1, chunks[1..], rs, n + |d|);
        j := j' + 1;
        LaterServed(lower, st, st1, chunks, rs, n, j');
      }
    }
  }

  lemma NoChunk(lower: Lower, st: State, rs: seq<Request>, n: nat)
    requires n <= |Flatten(Requests(rs))| && st.buf == Rest(Requests(rs), n)
    ensures ServedAfter(lower, st, [], rs, n, 0)
  {
    hide Process, Complete, Rest, Serve, Requests, Stays;
    NothingServed(lower, st);
    assert rs[Complete(Requests(rs), n)..Complete(Requests(rs), n)] == [];
  }

  /** The first read is the last if it ends the connection; otherwise the rest follows. */
  lemma FirstServed(lower: Lower, st: State, chunks: seq<bytes>, rs: seq<Request>, n: nat) returns (st1: State)
    requires chunks != [] && st.online && n <= |Flatten(Requests(rs))|
    requires n + |chunks[0]| <= |Flatten(Requests(rs))|
    requires Complete(Requests(rs), n) <= Complete(Requests(rs), n + |chunks[0]|)
    requires var k, k' := Complete(Requests(rs), n), Complete(Requests(rs), n + |chunks[0]|);
             Process(lower, st.(buf := st.buf + chunks[0]))
             == Done(ServeAll(lower, st, rs[k..k']).(buf := Rest(Requests(rs), n + |chunks[0]|)))
    ensures var k, k' := Complete(Requests(rs), n), Complete(Requests(rs), n + |chunks[0]|);
            && st1 == ServeAll(lower, st, rs[k..k']).(buf := Rest(Requests(rs), n + |chunks[0]|))
            && (st1.online <==> Stays(rs[k..k']))
            && FeedAll(lower, st, chunks) == FeedAll(lower, st1, chunks[1..])
    ensures !st1.online ==> ServedAfter(lower, st, chunks, rs, n, 1)
  {
    hide Process, Complete, Rest, ServeAll, Serve, Requests, Flatten, Stays;
    var k, k' := Complete(Requests(rs), n), Complete(Requests(rs), n + |chunks[0]|);
    st1 := ServeAll(lower, st, rs[k..k']).(buf := Rest(Requests(rs), n + |chunks[0]|));
    ServeOnline(lower, st, rs[k..k']);
    if !st1.online {
      OneChunk(chunks);
      NothingServed(lower, st);
      assert rs[k..k] == [];
      assert FeedAll(lower, st1, chunks[1..]) == Done(st1);
      StaysNowhere(rs, n);
      assert n + |Flatten(chunks[..0])| == n;
      assert |chunks| == 1 || 1 < |chunks|;
    }
  }

  lemma StaysNowhere(rs: seq<Request>, n: nat)
    ensures StaysUntil(rs, n, n)
  {
    var k := Complete(Requests(rs), n);
    assert rs[k..k] == [];
  }

  lemma LaterServed(lower: Lower, st: State, st1: State, chunks: seq<bytes>, rs: seq<Request>, n: nat, j': nat)
    requires chunks != [] && n <= |Flatten(Requests(rs))| && n + |chunks[0]| <= |Flatten(Requests(rs))|
    requires j' <= |chunks| - 1 && ServedAfter(lower, st1, chunks[1..], rs, n + |chunks[0]|, j')
    requires Complete(Requests(rs), n) <= Complete(Requests(rs), n + |chunks[0]|)
    requires var k, k' := Complete(Requests(rs), n), Complete(Requests(rs), n + |chunks[0]|);
             && st1 == ServeAll(lower, st, rs[k..k']).(buf := Rest(Requests(rs), n + |chunks[0]|))
             && Stays(rs[k..k'])
             && FeedAll(lower, st, chunks) == FeedAll(lower, st1, chunks[1..])
    ensures ServedAfter(lower, st, chunks, rs, n, j' + 1)
  {
    hide Process, Complete, Rest, ServeAll, Serve, Requests, Flatten, Stays, FeedAll;
    var d, j := chunks[0], j' + 1;
    FirstChunk(chunks, j);
    var k, k1 := Complete(Requests(rs), n), Complete(Requests(rs), n + |d|);
    var k2 := Complete(Requests(rs), n + |Flatten(chunks[..j])|);
    ServeKeepsBuf(lower, st, st.buf, rs[k..k1]);
    ServeKeepsBuf(lower, ServeAll(lower, st, rs[k..k1]), st1.buf, rs[k1..k2]);
    ServeInTwo(lower, st, rs[k..k1], rs[k1..k2]);
    assert rs[k..k1] + rs[k1..k2] == rs[k..k2];
    StaysInTwo(rs, k, k1, k2);
    if j' > 0 {
      FirstChunk(chunks, j - 1);
      StaysInTwo(rs, k, k1, Complete(Requests(rs), n + |Flatten(chunks[..j - 1])|));
    } else {
      OneChunk(chunks);
      StaysNowhere(rs, n);
    }
  }

  lemma NothingServed(lower: Lower, st: State)
    ensures ServeAll(lower, st, []) == st && Stays([]) && Flatten([]) == []
  {
  }

  lemma OneChunk(chunks: seq<bytes>)
    requires chunks != []
    ensures Flatten(chunks[..0]) == [] && Flatten(chunks[..1]) == chunks[0]
  {
    assert chunks[..1][1..] == [] && chunks[..1][0] == chunks[0];
  }

  lemma FirstChunk(chunks: seq<bytes>, j: nat)
    requires 0 < j <= |chunks|
    ensures Flatten(chunks[..j]) == chunks[0] + Flatten(chunks[1..][..j - 1])
  {
    assert chunks[..j][1..] == chunks[1..][..j - 1];
  }

  lemma StaysInTwo(rs: seq<Request>, k: nat, k1: nat, k2: nat)
    requires k <= k1 <= k2 <= |rs|
    ensures Stays(rs[k..k2]) <==> Stays(rs[k..k1]) && Stays(rs[k1..k2])
  {
    assert rs[k..k2] == rs[k..k1] + rs[k1..k2];
    assert forall i :: 0 <= i < k1 - k ==> rs[k..k1][i] == rs[k..k2][i];
    assert forall i :: 0 <= i < k2 - k1 ==> rs[k1..k2][i] == rs[k..k2][k1 - k + i];
  }

  /** One read. */
  lemma FeedOne(lower: Lower, st: State, d: bytes, rs: seq<Request>, n: nat)
    requires Sendable(rs) && n <= |Flatten(Requests(rs))|
    requires st.buf == Rest(Requests(rs), n)
    requires GoesOn(Flatten(Requests(rs)), n, d)
    ensures var k, k' := Complete(Requests(rs), n), Complete(Requests(rs), n + |d|);
            && n + |d| <= |Flatten(Requests(rs))|
            && k <= k'
            && Process(lower, st.(buf := st.buf + d))
               == Done(ServeAll(lower, st, rs[k..k']).(buf := Rest(Requests(rs), n + |d|)))
  {
    hide Process, Serve, ServeAll, RequestBytes, Flatten, Complete, Rest, Fits;
    var parts := Requests(rs);
    var k := Complete(parts, n);
    assert parts[k..] == Requests(rs[k..]);
    CutInTwo(parts, n, |d|);
    RestContinues(parts, n, d);
    var st' := st.(buf := st.buf + d);
    ProcessAligned(lower, st', rs[k..]);
    var j := Complete(parts[k..], |st'.buf|);
    assert rs[k..][..j] == rs[k..k + j];
    ServeKeepsBuf(lower, st, st'.buf, rs[k..k + j]);
  }

  lemma {:induction false} ServeInTwo(lower: Lower, st: State, a: seq<Request>, b: seq<Request>)
    ensures ServeAll(lower, ServeAll(lower, st, a), b) == ServeAll(lower, st, a + b)
    decreases |a|
  {
    if a == [] {
      assert a + b == b;
    } else {
      assert (a + b)[1..] == a[1..] + b;
      ServeInTwo(lower, Serve(lower, st, a[0]), a[1..], b);
    }
  }

  // ---------- packets the service has no use for ----------

  lemma UnsupportedNow(lower: Lower, st: State, cmd: byte, msg: bytes, rest: bytes)
    requires |msg| + 2 < TWO_32 && cmd in {1, 2, 4, 5, 6, 7, 8, 9} && st.buf == Packet(cmd, msg) + rest
    ensures var reply := Packet(2, Ascii("tcp service does not support cmd: ") + [48 + cmd]);
            Process(lower, st) == Done(st.(buf := [], queue := st.queue + if st.online then [reply] else []))
  {
    hide *;
    PacketFields(cmd, msg, rest);
    OtherCommand(cmd);
    OtherTaken(lower, st, cmd);
  }

  lemma OtherTaken(lower: Lower, st: State, cmd: nat)
    requires |st.buf| >= 6 && |st.buf| >= FromLE(st.buf[..4]) + 4 >= 6 && FromLE(st.buf[4..6]) == cmd
    requires HasCmd(cmd) && cmd != CMD_SET_PRO && cmd != CMD_TICK
    ensures Process(lower, st)
         == Done(st.(buf := [], queue := st.queue + if st.online then [Unsupported(cmd)] else []))
  {
    hide FromLE, SetProEvent, TICK_OK, SET_PRO_OK, HasCmd, Unsupported;
    assert st.queue + [] == st.queue;
  }

  lemma OtherCommand(cmd: byte)
    requires cmd in {1, 2, 4, 5, 6, 7, 8, 9}
    ensures HasCmd(cmd) && cmd != CMD_SET_PRO && cmd != CMD_TICK
    ensures Unsupported(cmd) == Packet(2, Ascii("tcp service does not support cmd: ") + [48 + cmd])
  {
    hide Packet, Ascii;
  }

  /** A packet with another known command, behind any requests: they are served, the answer names the command,
      and what else has been read is dropped. */
  lemma UnsupportedEndsRead(lower: Lower, st: State, rs: seq<Request>, cmd: byte, msg: bytes, rest: bytes)
    requires Sendable(rs) && |msg| + 2 < TWO_32
    requires cmd in {1, 2, 4, 5, 6, 7, 8, 9}
    requires st.buf == Flatten(Requests(rs)) + (Packet(cmd, msg) + rest)
    ensures var served := ServeAll(lower, st, rs);
            var reply := Packet(2, Ascii("tcp service does not support cmd: ") + [48 + cmd]);
            Process(lower, st)
            == Done(served.(buf := [], queue := served.queue + if served.online then [reply] else []))
  {
    hide Process, Packet, ServeAll, Flatten, Requests, Sendable, Ascii;
    AllServed(lower, st, rs, Packet(cmd, msg) + rest);
    UnsupportedNow(lower, ServeAll(lower, st, rs).(buf := Packet(cmd, msg) + rest), cmd, msg, rest);
  }

  lemma UnknownNow(lower: Lower, st: State, cmd: nat, msg: bytes, rest: bytes)
    requires |msg| + 2 < TWO_32 && 10 <= cmd < 0x1_0000 && st.buf == Packet(cmd, msg) + rest
    ensures Process(lower, st) == Done(st.(buf := []))
  {
    hide FromLE, LE, Packet, SetProEvent, TICK_OK, SET_PRO_OK, Unsupported;
    PacketFields(cmd, msg, rest);
  }

  /** One with an unknown command: they are served, and what else has been read is dropped without an
      answer. */
  lemma UnknownEndsRead(lower: Lower, st: State, rs: seq<Request>, cmd: nat, msg: bytes, rest: bytes)
    requires Sendable(rs) && |msg| + 2 < TWO_32 && 10 <= cmd < 0x1_0000
    requires st.buf == Flatten(Requests(rs)) + (Packet(cmd, msg) + rest)
    ensures Process(lower, st) == Done(ServeAll(lower, st, rs).(buf := []))
  {
    hide Process, Packet, ServeAll, Flatten, Requests, Sendable;
    AllServed(lower, st, rs, Packet(cmd, msg) + rest);
    UnknownNow(lower, ServeAll(lower, st, rs).(buf := Packet(cmd, msg) + rest), cmd, msg, rest);
  }

  lemma NoFlagNow(lower: Lower, st: State, rest: bytes)
    requires st.buf == Packet(0, []) + rest
    ensures Process(lower, st) == Crash
  {
    hide FromLE, LE, Packet, TICK_OK, SET_PRO_OK, Unsupported;
    PacketFields(0, [], rest);
  }

  /** A topic packet without even a flag: they are served, and then the process panics. */
  lemma NoFlagPanics(lower: Lower, st: State, rs: seq<Request>, rest: bytes)
    requires Sendable(rs) && st.buf == Flatten(Requests(rs)) + (Packet(0, []) + rest)
    ensures Process(lower, st) == Crash
  {
    hide Process, Packet, ServeAll, Flatten, Requests, Sendable;
    AllServed(lower, st, rs, Packet(0, []) + rest);
    NoFlagNow(lower, ServeAll(lower, st, rs).(buf := Packet(0, []) + rest), rest);
  }

  /** The two replies, byte for byte. */
  lemma ReplyBytes()
    ensures TICK_OK == [4, 0, 0, 0, 3, 0, 111, 107]
    ensures SET_PRO_OK == [4, 0, 0, 0, 0, 0, 111, 107]
  {
    LowBytes(4);
    LowBytes(CMD_TICK);
    LowBytes(CMD_SET_PRO);
    assert OK == [111, 107];
  }

  // ---------- the topic list ----------

  function Topics(rs: seq<Request>): seq<bytes> {
    if rs == [] then []
    else (if rs[0].Topic? then [rs[0].topic] else []) + Topics(rs[1..])
  }

  /** The ticks before the connection is ended. */
  function Ticks(rs: seq<Request>): nat {
    if rs == [] || rs[0].Flagged? then 0 else (if rs[0].Tick? then 1 else 0) + Ticks(rs[1..])
  }

  /** The topics before that, and a ping that ends it. */
  function Acks(rs: seq<Request>): nat {
    if rs == [] then 0
    else if rs[0].Flagged? then if rs[0].flag == 1 then 1 else 0
    else (if rs[0].Topic? then 1 else 0) + Acks(rs[1..])
  }

  function AddAll(lower: Lower, topics: seq<bytes>, ts: seq<bytes>): seq<bytes>
    decreases |ts|
  {
    if ts == [] then topics else AddAll(lower, WithTopic(lower, topics, ts[0]), ts[1..])
  }

  lemma {:induction false} ServedTopics(lower: Lower, st: State, rs: seq<Request>)
    ensures ServeAll(lower, st, rs).topics == AddAll(lower, st.topics, Topics(rs))
    decreases |rs|
  {
    hide WithTopic, TICK_OK, SET_PRO_OK;
    if rs != [] {
      ServedTopics(lower, Serve(lower, st, rs[0]), rs[1..]);
      if rs[0].Topic? {
        assert ([rs[0].topic] + Topics(rs[1..]))[1..] == Topics(rs[1..]);
      } else {
        assert [] + Topics(rs[1..]) == Topics(rs[1..]);
      }
    }
  }

  lemma {:induction false} ServedClosed(lower: Lower, st: State, rs: seq<Request>)
    requires !st.online
    ensures ServeAll(lower, st, rs).queue == st.queue && ServeAll(lower, st, rs).sent == st.sent
    decreases |rs|
  {
    if rs != [] {
      ServedClosed(lower, Serve(lower, st, rs[0]), rs[1..]);
    }
  }

  lemma {:induction false} ServedReplies(lower: Lower, st: State, rs: seq<Request>)
    requires st.online
    ensures ServeAll(lower, st, rs).queue == st.queue + seq(Ticks(rs), _ => TICK_OK)
    ensures ServeAll(lower, st, rs).sent == st.sent + seq(Acks(rs), _ => SET_PRO_OK)
    decreases |rs|
  {
    hide WithTopic, TICK_OK, SET_PRO_OK;
    if rs != [] {
      if rs[0].Flagged? {
        ServedClosed(lower, Serve(lower, st, rs[0]), rs[1..]);
      } else {
        ServedReplies(lower, Serve(lower, st, rs[0]), rs[1..]);
      }
    }
  }

  /** `r` lists the elements of `xs` once each, in the order of their first occurrence. */
  ghost predicate IsFirstOccurrences(xs: seq<bytes>, r: seq<bytes>) {
    && (forall x :: x in r <==> x in xs)
    && (forall i, j :: 0 <= i < j < |r| ==> r[i] != r[j])
    && (forall i, j :: 0 <= i < j < |r| ==> FirstIndex(xs, r[i]) < FirstIndex(xs, r[j]))
  }

  function FirstIndex(xs: seq<bytes>, x: bytes): nat {
    if xs == [] || xs[0] == x then 0 else 1 + FirstIndex(xs[1..], x)
  }

  lemma {:induction false} FirstIndexAppend(xs: seq<bytes>, y: bytes, x: bytes)
    ensures FirstIndex(xs, x) <= |xs| && (FirstIndex(xs, x) < |xs| <==> x in xs)
    ensures x in xs ==> FirstIndex(xs + [y], x) == FirstIndex(xs, x)
    ensures x !in xs ==> FirstIndex(xs + [y], x) >= |xs|
  {
    if xs != [] {
      FirstIndexAppend(xs[1..], y, x);
      assert (xs + [y])[1..] == xs[1..] + [y];
    }
  }

  function AllNormalised(lower: Lower, ts: seq<bytes>): (r: seq<bytes>)
    ensures |r| == |ts|
  {
    seq(|ts|, i requires 0 <= i < |ts| => Normalised(lower, ts[i]))
  }

  lemma AddKeepsFirstOccurrences(xs: seq<bytes>, r: seq<bytes>, t: bytes)
    requires IsFirstOccurrences(xs, r)
    ensures IsFirstOccurrences(xs + [t], if t in r then r else r + [t])
  {
    var r' := if t in r then r else r + [t];
    forall i, j | 0 <= i < j < |r'|
      ensures FirstIndex(xs + [t], r'[i]) < FirstIndex(xs + [t], r'[j])
    {
      FirstIndexAppend(xs, t, r'[i]);
      FirstIndexAppend(xs, t, r'[j]);
      assert r'[i] in r;
    }
  }

  /** The collected list is the first-occurrence list of the normalised topics. */
  lemma {:induction false} AddAllIsFirstOccurrences(lower: Lower, topics: seq<bytes>, seen: seq<bytes>, ts: seq<bytes>)
    requires IsFirstOccurrences(seen, topics)
    ensures IsFirstOccurrences(seen + AllNormalised(lower, ts), AddAll(lower, topics, ts))
    decreases |ts|
  {
    hide IsFirstOccurrences, Normalised;
    if ts == [] {
      assert seen + AllNormalised(lower, ts) == seen;
    } else {
      var t := Normalised(lower, ts[0]);
      AddKeepsFirstOccurrences(seen, topics, t);
      AddAllIsFirstOccurrences(lower, WithTopic(lower, topics, ts[0]), seen + [t], ts[1..]);
      assert seen + [t] + AllNormalised(lower, ts[1..]) == seen + AllNormalised(lower, ts);
    }
  }

  lemma NothingOccurs()
    ensures IsFirstOccurrences([], [])
  {
  }

  lemma StartOfRequests(rs: seq<Request>)
    ensures Complete(Requests(rs), 0) == 0 && Rest(Requests(rs), 0) == []
  {
    NothingYet(Requests(rs));
  }

  /** The subscription stream: for any interleaving of topics and ticks, with packets that end the connection
      among them, and any way of cutting it. The read that ends the connection, if there is one, is the last,
      but is served to its end: `j` reads are made. The node's topics are the first occurrences of the
      normalised topics completely received, there is one reply for each tick and each topic as long as the
      connection is open, and one for a ping that ends it, and the buffer is what is left. */
  lemma SubscriptionStream(lower: Lower, chunks: seq<bytes>, rs: seq<Request>) returns (j: nat)
    requires Sendable(rs) && Flatten(chunks) <= Flatten(Requests(rs))
    ensures j <= |chunks| && |Flatten(chunks[..j])| <= |Flatten(Requests(rs))|
    ensures var k := Complete(Requests(rs), |Flatten(chunks[..j])|);
            var outcome := FeedAll(lower, State(true, [], [], [], []), chunks);
            && outcome.Done? && (outcome.st.online <==> Stays(rs[..k]))
            && outcome.st.topics == AddAll(lower, [], Topics(rs[..k]))
            && IsFirstOccurrences(AllNormalised(lower, Topics(rs[..k])), outcome.st.topics)
            && outcome.st.queue == seq(Ticks(rs[..k]), _ => [4, 0, 0, 0, 3, 0, 111, 107])
            && outcome.st.sent == seq(Acks(rs[..k]), _ => [4, 0, 0, 0, 0, 0, 111, 107])
            && outcome.st.buf == Rest(Requests(rs), |Flatten(chunks[..j])|)
            && (j < |chunks| ==> !Stays(rs[..k]))
    ensures j > 0 ==> Stays(rs[..Complete(Requests(rs), |Flatten(chunks[..j - 1])|)])
  {
    StartOfRequests(rs);
    hide Process, Serve, ServeAll, IsFirstOccurrences, Packet, AddAll, Topics, Ticks, Acks, Stays, FeedAll;
    hide Flatten, Requests, Complete, Rest, Sendable, TICK_OK, SET_PRO_OK;
    var st := State(true, [], [], [], []);
    GoesOnFromStart(Flatten(Requests(rs)), Flatten(chunks));
    j := FeedMany(lower, st, chunks, rs, 0);
    var k := Complete(Requests(rs), |Flatten(chunks[..j])|);
    assert rs[0..k] == rs[..k];
    if j > 0 {
      var k' := Complete(Requests(rs), |Flatten(chunks[..j - 1])|);
      assert rs[0..k'] == rs[..k'];
    }
    ServeOnline(lower, st, rs[..k]);
    ServedTopics(lower, st, rs[..k]);
    ServedReplies(lower, st, rs[..k]);
    ReplyBytes();
    NothingOccurs();
    AddAllIsFirstOccurrences(lower, [], [], Topics(rs[..k]));
    assert [] + AllNormalised(lower, Topics(rs[..k])) == AllNormalised(lower, Topics(rs[..k]));
  }

  /** The topics are these, with any number of spaces in front and behind. */
  ghost predicate Padded(ts: seq<bytes>, cores: seq<bytes>) {
    |ts| == |cores| &&
    forall i :: 0 <= i < |ts| ==>
      Bare(cores[i]) && exists a: nat, b: nat :: ts[i] == Spaces(a) + cores[i] + Spaces(b)
  }

  /** The node's topics without regard to spaces: the first occurrences of what stands between them, in lower
      case. */
  lemma PaddedTopics(lower: Lower, chunks: seq<bytes>, rs: seq<Request>, cores: seq<bytes>)
    requires Sendable(rs) && Stays(rs) && Flatten(chunks) <= Flatten(Requests(rs))
    requires Padded(Topics(rs[..Complete(Requests(rs), |Flatten(chunks)|)]), cores)
    ensures var outcome := FeedAll(lower, State(true, [], [], [], []), chunks);
            outcome.Done? &&
            IsFirstOccurrences(seq(|cores|, i requires 0 <= i < |cores| => lower(cores[i])), outcome.st.topics)
  {
    hide FeedAll, IsFirstOccurrences, Topics, Flatten, Requests, Complete, Sendable, Trim;
    var j := SubscriptionStream(lower, chunks, rs);
    assert j == |chunks| && chunks[..j] == chunks;
    var ts := Topics(rs[..Complete(Requests(rs), |Flatten(chunks)|)]);
    forall i | 0 <= i < |ts|
      ensures Normalised(lower, ts[i]) == lower(cores[i])
    {
      var a: nat, b: nat :| ts[i] == Spaces(a) + cores[i] + Spaces(b);
      TrimLeavesCore(a, cores[i], b);
    }
    assert AllNormalised(lower, ts) == seq(|cores|, i requires 0 <= i < |cores| => lower(cores[i]));
  }
}
