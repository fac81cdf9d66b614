/** The subscriber's side (client/tcp.go): events are cut out of the byte stream, topics are announced
    once and replayed on every new connection. */
module SubscriberClient {
  import opened Bytes
  import opened Streams
  import opened ServiceUtil
  import SubscriberNode

  /** What the receiving half works on. `events` are the payloads given to the event callbacks, which
      see them through the JSON library. */
  datatype State = State(buf: bytes, times: int64, events: seq<bytes>)

  datatype Outcome = Done(st: State) | Crash

  /** The loop of `onMessage`; here the command is tested before the packet is complete. */
  function Process(st: State): Outcome
    decreases |st.buf|
  {
    if |st.buf| < 6 then Done(st)
    else
      var contentLen := FromLE(st.buf[..4]);
      var cmd := FromLE(st.buf[4..6]);
      if !HasCmd(cmd) then Done(st.(buf := []))
      else if |st.buf| < 4 + contentLen then Done(st)
      else if contentLen < 2 then Crash
      else
        var dataB := st.buf[6..4 + contentLen];
        var rest := st.buf[contentLen + 4..];
        Process(if cmd == CMD_EVENT then State(rest, Wrap64(st.times + 1), st.events + [dataB]) else st.(buf := rest))
  }

  /** `setPro`: the fourth length byte is taken from bit 32 on, not 24. */
  function SetPro(content: bytes): bytes {
    var l := |content| + 3;
    LE(3, l) + [l / TWO_32 % 256] + LE(2, CMD_SET_PRO) + [0] + content
  }

  /** `pack`, with the same slip. */
  function ClientPack(cmd: int, content: bytes): bytes {
    var l := |content| + 2;
    LE(3, l) + [l / TWO_32 % 256] + LE(2, cmd) + content
  }

  lemma HighByte(l: nat)
    ensures LE(3, l) + [l / TWO_32 % 256] == LE(4, l) <==> l / TWO_32 % 256 == l / 0x100_0000 % 256
  {
    hide LE;
    Pow256Values();
    LEPrefix(3, l);
    assert (LE(3, l) + [l / TWO_32 % 256])[3] == l / TWO_32 % 256;
    assert LE(4, l)[3] == l / 0x100_0000 % 256;
  }

  /** The client's topic packet is the one the server's `PackPro` makes exactly if the byte taken from
      bit 32 on is the one from bit 24 on; for a length of four bytes, exactly if it fits three. */
  lemma SetProIsPackPro(topic: bytes)
    ensures var l := |topic| + 3;
            var same := SetPro(topic) == Packet(CMD_SET_PRO, [FLAG_SET_PRO] + topic);
            && (same <==> l / TWO_32 % 256 == l / 0x100_0000 % 256)
            && (l < TWO_32 ==> (same <==> l < 0x100_0000))
  {
    hide LE;
    var l := |topic| + 3;
    HighByte(l);
    var a, b := SetPro(topic), Packet(CMD_SET_PRO, [FLAG_SET_PRO] + topic);
    assert a[..4] == LE(3, l) + [l / TWO_32 % 256];
    assert b[..4] == LE(4, l);
    assert a[4..] == LE(2, CMD_SET_PRO) + [0] + topic;
    assert b[4..] == LE(2, CMD_SET_PRO) + ([FLAG_SET_PRO] + topic);
    assert a[4..] == b[4..];
    assert a == a[..4] + a[4..] && b == b[..4] + b[4..];
  }

  /** The keepalive packet is the server's tick. */
  lemma TickIsPacket()
    ensures ClientPack(CMD_TICK, []) == Packet(CMD_TICK, [])
  {
    HighByte(2);
    assert LE(3, 2) + [2 / TWO_32 % 256] == LE(4, 2);
  }

  /** What is written on a connection, packet by packet. */
  datatype Written = Topic(topic: bytes) | Tick

  function TopicsOf(ws: seq<Written>): seq<bytes> {
    if ws == [] then []
    else
      var n := |ws| - 1;
      TopicsOf(ws[..n]) + if ws[n].Topic? then [ws[n].topic] else []
  }

  lemma TopicsOfAppend(ws: seq<Written>, w: Written)
    ensures TopicsOf(ws + [w]) == TopicsOf(ws) + if w.Topic? then [w.topic] else []
  {
    assert (ws + [w])[..|ws|] == ws;
  }

  /** The replay of a topic list. */
  function Replay(topics: seq<bytes>): seq<Written> {
    seq(|topics|, i requires 0 <= i < |topics| => Topic(topics[i]))
  }

  /** A topic list to which those of `ts` that are new are added one by one. */
  function WithTopics(topics: seq<bytes>, ts: seq<bytes>): seq<bytes>
    decreases |ts|
  {
    if ts == [] then topics
    else WithTopics(if ts[0] in topics then topics else topics + [ts[0]], ts[1..])
  }

  lemma {:induction false} WithTopicsLast(topics: seq<bytes>, ts: seq<bytes>, t: bytes)
    ensures var before := WithTopics(topics, ts);
            WithTopics(topics, ts + [t]) == if t in before then before else before + [t]
    decreases |ts|
  {
    if ts == [] {
      assert [t][1..] == [];
    } else {
      assert (ts + [t])[1..] == ts[1..] + [t];
      WithTopicsLast(if ts[0] in topics then topics else topics + [ts[0]], ts[1..], t);
    }
  }

  lemma NothingNew(topics: seq<bytes>)
    ensures WithTopics(topics, []) == topics && Replay(topics[|topics|..]) == []
  {
  }

  lemma {:induction false} WithTopicsHas(topics: seq<bytes>, ts: seq<bytes>)
    ensures forall t :: t in WithTopics(topics, ts) <==> t in topics || t in ts
    decreases |ts|
  {
    if ts != [] {
      WithTopicsHas(if ts[0] in topics then topics else topics + [ts[0]], ts[1..]);
    }
  }

  lemma ReplayLast(topics: seq<bytes>, t: bytes)
    ensures Replay(topics + [t]) == Replay(topics) + [Topic(t)]
  {
  }

  /** `client.node`: none yet, or the last one, whose connection may be gone. */
  datatype Conn = NoNode | Node(online: bool)

  class Client {
    var buffer: bytes
    var times: int64
    var events: seq<bytes>
    var topics: seq<bytes>
    var node: Conn
    var written: seq<Written>  // on the connection of `node`, while it is online

    /** The topics are distinct, and what is announced on a live connection is exactly all of them, in
        order. */
    ghost predicate Valid()
      reads this
    {
      && (forall i, j :: 0 <= i < j < |topics| ==> topics[i] != topics[j])
      && (node.Node? && node.online ==> TopicsOf(written) == topics)
      && (node.NoNode? ==> topics == [])
    }

    function Current(): State
      reads this
    {
      State(buffer, times, events)
    }

    constructor ()
      ensures Valid() && Current() == State([], 0, []) && node == NoNode && topics == []
    {
      buffer, times, events, topics, node, written := [], 0, [], [], NoNode, [];
    }

    /** `onMessage` */
    method OnMessage(msg: bytes) returns (panicked: bool)
      requires Valid()
      modifies this`buffer, this`times, this`events
      ensures Valid()
      ensures var st := old(Current()).(buf := old(buffer) + msg);
              && (panicked <==> Process(st) == Crash)
              && (!panicked ==> Process(st) == Done(Current()))
    {
      buffer := buffer + msg;
      ghost var outcome := Process(Current());
      while |buffer| >= 6
        invariant Process(Current()) == outcome
        decreases |buffer|
      {
        var contentLen := FromLE(buffer[..4]);
        var cmd := FromLE(buffer[4..6]);
        if !HasCmd(cmd) {
          buffer := [];
          return false;
        }
        if |buffer| < 4 + contentLen {
          return false;
        }
        if contentLen < 2 {
          return true;
        }
        if cmd == CMD_EVENT {
          times := Wrap64(times + 1);
          events := events + [buffer[6..4 + contentLen]];
        }
        buffer := buffer[contentLen + 4..];
      }
      return false;
    }

    method Write(w: Written)
      requires node.Node?
      modifies this`written
      ensures written == if node.online then old(written) + [w] else old(written)
    {
      if node.online {
        written := written + [w];
      }
    }

    /** A new topic is put into the list and announced. */
    method Announce(t: bytes)
      requires Valid() && node.Node? && t !in topics
      modifies this`topics, this`written
      ensures Valid() && topics == old(topics) + [t]
      ensures written == old(written) + if node.online then [Topic(t)] else []
    {
      TopicsOfAppend(written, Topic(t));
      topics := topics + [t];
      Write(Topic(t));
    }

    /** `Subscribe`: only topics not yet in the list are added and announced, in order. */
    method Subscribe(ts: seq<bytes>)
      requires Valid()
      modifies this`topics, this`written
      ensures Valid()
      ensures node.NoNode? ==> topics == old(topics) && written == old(written)
      ensures node.Node? ==>
                && topics == WithTopics(old(topics), ts)
                && (forall t :: t in topics <==> t in old(topics) || t in ts)
                && |topics| >= |old(topics)|
                && written == old(written) + if node.online then Replay(topics[|old(topics)|..]) else []
    {
      hide Replay, TopicsOf, WithTopics;
      if node.NoNode? {
        return;
      }
      NothingNew(topics);
      ghost var before, w := topics, written;
      for i := 0 to |ts|
        invariant Valid() && |before| <= |topics|
        invariant topics == WithTopics(before, ts[..i])
        invariant written == w + if node.online then Replay(topics[|before|..]) else []
      {
        WithTopicsLast(before, ts[..i], ts[i]);
        assert ts[..i + 1] == ts[..i] + [ts[i]];
        var found := false;
        for j := 0 to |topics|
          invariant !found && ts[i] !in topics[..j]
        {
          if topics[j] == ts[i] {
            found := true;
            break;
          }
        }
        if !found {
          ReplayLast(topics[|before|..], ts[i]);
          assert (topics + [ts[i]])[|before|..] == topics[|before|..] + [ts[i]];
          assert w + Replay(topics[|before|..]) + [Topic(ts[i])] == w + (Replay(topics[|before|..]) + [Topic(ts[i])]);
          Announce(ts[i]);
        }
      }
      assert ts[..|ts|] == ts;
      WithTopicsHas(before, ts);
    }

    /** `connect`: the list is replayed on the new connection. */
    method Connect(success: bool)
      requires Valid()
      modifies this`node, this`written
      ensures Valid() && node == Node(success)
      ensures success ==> written == Replay(topics)
    {
      node := Node(success);
      written := [];
      for i := 0 to |topics|
        invariant node == Node(success)
        invariant success ==> written == Replay(topics[..i]) && TopicsOf(written) == topics[..i]
      {
        assert topics[..i + 1] == topics[..i] + [topics[i]];
        TopicsOfAppend(written, Topic(topics[i]));
        Write(Topic(topics[i]));
      }
      assert topics[..|topics|] == topics;
    }

    /** `disconnect` */
    method Disconnect()
      requires Valid()
      modifies this`node
      ensures Valid()
      ensures node == if old(node).NoNode? then NoNode else Node(false)
    {
      if node.NoNode? {
        return;
      }
      node := Node(false);
    }

    /** One round of `keepalive`. */
    method Keepalive()
      requires Valid()
      modifies this`written
      ensures Valid()
      ensures written == if node.Node? && node.online then old(written) + [Tick] else old(written)
    {
      if node.Node? {
        TopicsOfAppend(written, Tick);
        Write(Tick);
      }
    }
  }

  // ---------- what the server sees ----------

  function WrittenBytes(w: Written): bytes {
    match w
    case Topic(t) => SetPro(t)
    case Tick => ClientPack(CMD_TICK, [])
  }

  function Wire(ws: seq<Written>): bytes {
    Flatten(seq(|ws|, i requires 0 <= i < |ws| => WrittenBytes(ws[i])))
  }

  function AsRequest(w: Written): SubscriberNode.Request {
    match w
    case Topic(t) => SubscriberNode.Topic(t)
    case Tick => SubscriberNode.Tick([])
  }

  function AsRequests(ws: seq<Written>): (rs: seq<SubscriberNode.Request>)
    ensures |rs| == |ws|
  {
    seq(|ws|, i requires 0 <= i < |ws| => AsRequest(ws[i]))
  }

  /** The topics are short enough for the client's length field. */
  predicate ShortTopics(ws: seq<Written>) {
    forall i :: 0 <= i < |ws| && ws[i].Topic? ==> |ws[i].topic| + 3 < 0x100_0000
  }

  lemma WireIsRequests(ws: seq<Written>)
    requires ShortTopics(ws)
    ensures Wire(ws) == Flatten(SubscriberNode.Requests(AsRequests(ws)))
    ensures SubscriberNode.Sendable(AsRequests(ws))
  {
    forall i | 0 <= i < |ws|
      ensures WrittenBytes(ws[i]) == SubscriberNode.RequestBytes(AsRequest(ws[i]))
    {
      match ws[i] {
        case Topic(t) => SetProIsPackPro(t);
        case Tick => TickIsPacket();
      }
    }
    assert seq(|ws|, i requires 0 <= i < |ws| => WrittenBytes(ws[i])) == SubscriberNode.Requests(AsRequests(ws));
  }

  lemma {:induction false} SameTopics(ws: seq<Written>)
    ensures SubscriberNode.Topics(AsRequests(ws)) == TopicsOf(ws)
  {
    if ws != [] {
      var n := |ws| - 1;
      SameTopics(ws[..n]);
      assert AsRequests(ws) == AsRequests(ws[..n]) + [AsRequest(ws[n])];
      TopicsAppend(AsRequests(ws[..n]), AsRequest(ws[n]));
    }
  }

  lemma {:induction false} TopicsAppend(rs: seq<SubscriberNode.Request>, r: SubscriberNode.Request)
    ensures SubscriberNode.Topics(rs + [r]) == SubscriberNode.Topics(rs) + if r.Topic? then [r.topic] else []
  {
    if rs != [] {
      TopicsAppend(rs[1..], r);
      assert (rs + [r])[1..] == rs[1..] + [r];
    } else {
      assert rs + [r] == [r];
    }
  }

  /** A connection, read to its end by a fresh server node in any pieces: the node's topic list is a
      function of the topics announced on the connection alone. */
  lemma ServerTopics(lower: SubscriberNode.Lower, ws: seq<Written>, chunks: seq<bytes>)
    requires ShortTopics(ws) && Flatten(chunks) == Wire(ws)
    ensures var outcome := SubscriberNode.FeedAll(lower, SubscriberNode.State(true, [], [], [], []), chunks);
            && outcome.Done?
            && outcome.st.topics == SubscriberNode.AddAll(lower, [], TopicsOf(ws))
            && SubscriberNode.IsFirstOccurrences(SubscriberNode.AllNormalised(lower, TopicsOf(ws)), outcome.st.topics)
            && outcome.st.buf == []
  {
    hide WrittenBytes, Wire, SubscriberNode.FeedAll, SubscriberNode.IsFirstOccurrences, SubscriberNode.RequestBytes;
    var rs := AsRequests(ws);
    WireIsRequests(ws);
    var j := SubscriberNode.SubscriptionStream(lower, chunks, rs);
    assert SubscriberNode.Stays(rs) && chunks[..j] == chunks;
    AllComplete(SubscriberNode.Requests(rs));
    assert rs[..|rs|] == rs;
    SameTopics(ws);
  }

  lemma {:induction false} AllComplete(parts: seq<bytes>)
    ensures Complete(parts, |Flatten(parts)|) == |parts|
    ensures Rest(parts, |Flatten(parts)|) == []
  {
    if parts != [] {
      AllComplete(parts[1..]);
    }
  }

  /** Reconnecting preserves subscriptions: what was announced step by step before the connection was
      lost, and the replay on the next one, leave the two servers with the same topic list. */
  lemma ReconnectPreservesTopics(lower: SubscriberNode.Lower, before: seq<Written>, topics: seq<bytes>,
                                 chunks: seq<bytes>, chunks': seq<bytes>)
    requires TopicsOf(before) == topics
    requires ShortTopics(before)
    requires Flatten(chunks) == Wire(before) && Flatten(chunks') == Wire(Replay(topics))
    ensures var st := SubscriberNode.State(true, [], [], [], []);
            var first, second := SubscriberNode.FeedAll(lower, st, chunks), SubscriberNode.FeedAll(lower, st, chunks');
            first.Done? && second.Done? && first.st.topics == second.st.topics
  {
    hide SubscriberNode.FeedAll, Wire, SubscriberNode.IsFirstOccurrences;
    ReplayTopics(topics);
    ShortReplay(before);
    ServerTopics(lower, before, chunks);
    ServerTopics(lower, Replay(topics), chunks');
  }

  lemma {:induction false} ReplayTopics(topics: seq<bytes>)
    ensures TopicsOf(Replay(topics)) == topics
  {
    if topics != [] {
      var n := |topics| - 1;
      ReplayTopics(topics[..n]);
      assert Replay(topics)[..n] == Replay(topics[..n]);
    }
  }

  lemma {:induction false} ShortReplay(ws: seq<Written>)
    requires ShortTopics(ws)
    ensures ShortTopics(Replay(TopicsOf(ws)))
  {
    if ws != [] {
      var n := |ws| - 1;
      ShortReplay(ws[..n]);
      var before := Replay(TopicsOf(ws[..n]));
      var all := Replay(TopicsOf(ws));
      forall i | 0 <= i < |all|
        ensures |all[i].topic| + 3 < 0x100_0000
      {
        if i < |before| {
          assert all[i] == before[i];
        }
      }
    }
  }

  // ---------- the event stream ----------

  /** A packet the server sends: a command and its content. */
  datatype Parcel = Parcel(cmd: int, msg: bytes)

  function Parcels(ps: seq<Parcel>): (parts: seq<bytes>)
    ensures |parts| == |ps|
  {
    seq(|ps|, i requires 0 <= i < |ps| => Packet(ps[i].cmd, ps[i].msg))
  }

  predicate Known(ps: seq<Parcel>) {
    forall i :: 0 <= i < |ps| ==> HasCmd(ps[i].cmd) && |ps[i].msg| + 2 < TWO_32
  }

  function Events(ps: seq<Parcel>): seq<bytes> {
    if ps == [] then [] else (if ps[0].cmd == CMD_EVENT then [ps[0].msg] else []) + Events(ps[1..])
  }

  /** What the client has taken in: the payloads of the events, and how many there were. */
  predicate Took(st: State, ps: seq<Parcel>, buf: bytes, st': State) {
    st' == State(buf, Wrap64(st.times + |Events(ps)|), st.events + Events(ps))
  }

  lemma {:induction false} ProcessAligned(st: State, ps: seq<Parcel>)
    requires Known(ps) && st.buf <= Flatten(Parcels(ps))
    ensures var k := Complete(Parcels(ps), |st.buf|);
            && Process(st).Done?
            && Took(st, ps[..k], Rest(Parcels(ps), |st.buf|), Process(st).st)
    decreases |ps|
  {
    hide Packet, LE, FromLE, Took, HasCmd;
    var parts := Parcels(ps);
    if ps == [] || |st.buf| < |parts[0]| {
      if |st.buf| >= 6 {
        ParcelFields(ps, st.buf);
      }
      NothingTaken(st);
      assert ps[..0] == [] && Rest(parts, |st.buf|) == st.buf;
    } else {
      ParcelFields(ps, st.buf);
      assert parts[1..] == Parcels(ps[1..]);
      var rest := st.buf[|parts[0]|..];
      assert rest <= Flatten(parts[1..]) by {
        assert Flatten(parts)[|parts[0]|..] == Flatten(parts[1..]);
        assert st.buf == Flatten(parts)[..|st.buf|];
      }
      var st' := AfterOne(st, ps[0], rest);
      assert Process(st) == Process(st');
      TookOne(st, ps[0], rest);
      ProcessAligned(st', ps[1..]);
      var k := Complete(parts[1..], |rest|);
      assert ps[..k + 1] == [ps[0]] + ps[1..][..k];
      TookTwice(st, [ps[0]], rest, st', ps[1..][..k], Rest(parts, |st.buf|), Process(st').st);
    }
  }

  function AfterOne(st: State, p: Parcel, rest: bytes): State {
    if p.cmd == CMD_EVENT then State(rest, Wrap64(st.times + 1), st.events + [p.msg]) else st.(buf := rest)
  }

  lemma TookOne(st: State, p: Parcel, rest: bytes)
    ensures Took(st, [p], rest, AfterOne(st, p, rest))
  {
    assert Events([p][1..]) == [];
    WrapSum(st.times, 0, 0);
  }

  lemma NothingTaken(st: State)
    ensures Took(st, [], st.buf, st)
  {
    WrapSum(st.times, 0, 0);
  }

  /** What the loop reads off a buffer that starts with a packet. */
  lemma ParcelFields(ps: seq<Parcel>, buf: bytes)
    requires ps != [] && Known(ps) && buf <= Flatten(Parcels(ps)) && |buf| >= 6
    ensures var n := |Parcels(ps)[0]|;
            && FromLE(buf[..4]) == n - 4 >= 2
            && FromLE(buf[4..6]) == ps[0].cmd
            && (|buf| >= n ==> buf[6..n] == ps[0].msg)
  {
    hide Packet, LE, FromLE;
    var wire := Flatten(Parcels(ps));
    assert buf[..4] == wire[..4] && buf[4..6] == wire[4..6];
    PacketFields(ps[0].cmd, ps[0].msg, Flatten(Parcels(ps)[1..]));
    var n := |Parcels(ps)[0]|;
    if |buf| >= n {
      assert buf[6..n] == wire[6..n];
    }
  }

  /** A sequence of calls of `onMessage`. */
  function FeedAll(st: State, chunks: seq<bytes>): Outcome
    decreases |chunks|
  {
    if chunks == [] then Done(st)
    else
      match Process(st.(buf := st.buf + chunks[0]))
      case Crash => Crash
      case Done(st') => FeedAll(st', chunks[1..])
  }

  lemma {:induction false} EventsAppend(a: seq<Parcel>, b: seq<Parcel>)
    ensures Events(a + b) == Events(a) + Events(b)
  {
    if a == [] {
      assert a + b == b;
    } else {
      EventsAppend(a[1..], b);
      assert (a + b)[1..] == a[1..] + b && (a + b)[0] == a[0];
      AppendAssoc(if a[0].cmd == CMD_EVENT then [a[0].msg] else [], Events(a[1..]), Events(b));
    }
  }

  lemma AppendAssoc(x: seq<bytes>, y: seq<bytes>, z: seq<bytes>)
    ensures x + (y + z) == x + y + z
  {
  }

  lemma TookTwice(st: State, a: seq<Parcel>, buf1: bytes, st1: State, b: seq<Parcel>, buf2: bytes, st2: State)
    requires Took(st, a, buf1, st1) && Took(st1, b, buf2, st2)
    ensures Took(st, a + b, buf2, st2)
  {
    hide Events, Wrap64;
    EventsAppend(a, b);
    WrapSum(st.times, |Events(a)|, |Events(b)|);
    assert st.events + Events(a) + Events(b) == st.events + (Events(a) + Events(b));
  }

  lemma WrapSum(a: int, n: nat, m: nat)
    ensures Wrap64(Wrap64(a + n) + m) == Wrap64(a + (n + m))
  {
  }

  lemma {:induction false} FeedMany(st: State, chunks: seq<bytes>, ps: seq<Parcel>, n: nat)
    requires Known(ps) && n <= |Flatten(Parcels(ps))|
    requires st.buf == Rest(Parcels(ps), n)
    requires GoesOn(Flatten(Parcels(ps)), n, Flatten(chunks))
    ensures n + |Flatten(chunks)| <= |Flatten(Parcels(ps))|
    ensures var k, k' := Complete(Parcels(ps), n), Complete(Parcels(ps), n + |Flatten(chunks)|);
            && k <= k'
            && FeedAll(st, chunks).Done?
            && Took(st, ps[k..k'], Rest(Parcels(ps), n + |Flatten(chunks)|), FeedAll(st, chunks).st)
    decreases |chunks|
  {
    hide Process, Complete, Rest, Parcels, Took;
    var wire := Flatten(Parcels(ps));
    var k := Complete(Parcels(ps), n);
    if chunks == [] {
      NothingTaken(st);
      assert ps[k..k] == [];
    } else {
      var d := chunks[0];
      GoesOnInTwo(wire, n, d, Flatten(chunks[1..]));
      FeedOne(st, d, ps, n);
      var st1 := Process(st.(buf := st.buf + d)).st;
      TookBuf(st, ps[k..Complete(Parcels(ps), n + |d|)], Rest(Parcels(ps), n + |d|), st1);
      FeedMany(st1, chunks[1..], ps, n + |d|);
      var k1, k2 := Complete(Parcels(ps), n + |d|), Complete(Parcels(ps), n + |Flatten(chunks)|);
      assert ps[k..k1] + ps[k1..k2] == ps[k..k2];
      TookTwice(st, ps[k..k1], st1.buf, st1, ps[k1..k2], Rest(Parcels(ps), n + |Flatten(chunks)|),
                FeedAll(st1, chunks[1..]).st);
    }
  }

  lemma TookIgnoresBuf(st: State, was: bytes, ps: seq<Parcel>, buf: bytes, st': State)
    requires Took(st.(buf := was), ps, buf, st')
    ensures Took(st, ps, buf, st')
  {
  }

  lemma TookBuf(st: State, ps: seq<Parcel>, buf: bytes, st': State)
    requires Took(st, ps, buf, st')
    ensures st'.buf == buf
  {
  }

  /** One read. */
  lemma FeedOne(st: State, d: bytes, ps: seq<Parcel>, n: nat)
    requires Known(ps) && n <= |Flatten(Parcels(ps))|
    requires st.buf == Rest(Parcels(ps), n)
    requires GoesOn(Flatten(Parcels(ps)), n, d)
    ensures n + |d| <= |Flatten(Parcels(ps))|
    ensures var k, k' := Complete(Parcels(ps), n), Complete(Parcels(ps), n + |d|);
            var outcome := Process(st.(buf := st.buf + d));
            && k <= k'
            && outcome.Done?
            && Took(st, ps[k..k'], Rest(Parcels(ps), n + |d|), outcome.st)
  {
    hide Process, Packet, Took, Flatten, Complete, Rest, HasCmd, Events;
    var parts := Parcels(ps);
    var k := Complete(parts, n);
    assert parts[k..] == Parcels(ps[k..]);
    CutInTwo(parts, n, |d|);
    RestContinues(parts, n, d);
    var st' := st.(buf := st.buf + d);
    ProcessAligned(st', ps[k..]);
    var j := Complete(parts[k..], |st'.buf|);
    assert ps[k..][..j] == ps[k..k + j];
    TookIgnoresBuf(st, st'.buf, ps[k..k + j], Rest(parts, n + |d|), Process(st').st);
  }

  lemma StartOfParcels(ps: seq<Parcel>)
    ensures Complete(Parcels(ps), 0) == 0 && Rest(Parcels(ps), 0) == []
  {
    NothingYet(Parcels(ps));
  }

  /** The event stream of one connection: for any packets with known commands and any way of cutting the
      stream, a client whose buffer is empty hands over exactly the payloads of the events completely
      received, in order, counts them, and keeps exactly the unfinished packet. */
  lemma EventStream(st: State, chunks: seq<bytes>, ps: seq<Parcel>)
    requires st.buf == [] && Known(ps) && Flatten(chunks) <= Flatten(Parcels(ps))
    ensures var k := Complete(Parcels(ps), |Flatten(chunks)|);
            FeedAll(st, chunks)
            == Done(State(Rest(Parcels(ps), |Flatten(chunks)|), Wrap64(st.times + |Events(ps[..k])|),
                          st.events + Events(ps[..k])))
  {
    StartOfParcels(ps);
    hide Process, FeedAll, Events, Packet, Complete, Rest, Flatten, Parcels, Known;
    var k := Complete(Parcels(ps), |Flatten(chunks)|);
    GoesOnFromStart(Flatten(Parcels(ps)), Flatten(chunks));
    FeedMany(st, chunks, ps, 0);
    assert ps[0..k] == ps[..k];
  }

  // ---------- the next connection ----------

  /** One turn of the loop. */
  lemma ProcessTakes(st: State)
    requires |st.buf| >= 6
    ensures var x, cmd := FromLE(st.buf[..4]), FromLE(st.buf[4..6]);
            if HasCmd(cmd) && |st.buf| >= 4 + x >= 6 then
              Process(st) == Process(AfterOne(st, Parcel(cmd, st.buf[6..4 + x]), st.buf[4 + x..]))
            else
              Process(st).Done? ==> Process(st).st.events == st.events
  {
    hide FromLE, HasCmd;
  }

  /** Neither `disconnect` nor `connect` empties the buffer, so a packet cut off by the end of one
      connection is completed by the beginning of the next. This is what then counts as an event. */
  lemma SplicedEvent(st: State, msg: bytes, n: nat, d: bytes)
    requires |msg| + 2 < TWO_32 && 6 <= n <= 6 + |msg| == n + |d|
    requires st.buf == Packet(CMD_EVENT, msg)[..n]
    ensures Process(st.(buf := st.buf + d)) == Done(State([], Wrap64(st.times + 1), st.events + [msg[..n - 6] + d]))
  {
    hide Process, FromLE, Packet, LE, AfterOne, HasCmd;
    var spliced := msg[..n - 6] + d;
    var t := st.(buf := st.buf + d);
    SplicedBytes(msg, n, d);
    PacketFields(CMD_EVENT, spliced, []);
    WholeBuffer(t.buf);
    ProcessTakes(t);
    EventTaken(t, spliced);
    NothingLeft(AfterOne(t, Parcel(CMD_EVENT, spliced), []));
  }

  lemma SplicedBytes(msg: bytes, n: nat, d: bytes)
    requires |msg| + 2 < TWO_32 && 6 <= n <= 6 + |msg| == n + |d|
    ensures Packet(CMD_EVENT, msg)[..n] + d == Packet(CMD_EVENT, msg[..n - 6] + d)
  {
    hide LE;
    assert Packet(CMD_EVENT, msg)[..n] == LE(4, |msg| + 2) + LE(2, CMD_EVENT) + msg[..n - 6];
  }

  lemma WholeBuffer(b: bytes)
    ensures b + [] == b && b[|b|..] == []
  {
  }

  lemma EventTaken(t: State, msg: bytes)
    ensures HasCmd(CMD_EVENT)
    ensures AfterOne(t, Parcel(CMD_EVENT, msg), []) == State([], Wrap64(t.times + 1), t.events + [msg])
  {
  }

  lemma NothingLeft(st: State)
    requires st.buf == []
    ensures Process(st) == Done(st)
  {
  }

  /** The client takes from a connection exactly the events that are sent on it. */
  predicate HandsOver(st: State, chunks: seq<bytes>, ps: seq<Parcel>) {
    var events := Events(ps[..Complete(Parcels(ps), |Flatten(chunks)|)]);
    && FeedAll(st, chunks).Done?
    && FeedAll(st, chunks).st.events == st.events + events
    && FeedAll(st, chunks).st.times == Wrap64(st.times + |events|)
  }

  /** Whatever the next connection brings. */
  ghost predicate Survives(st: State) {
    forall chunks, ps | Known(ps) && Flatten(chunks) <= Flatten(Parcels(ps)) :: HandsOver(st, chunks, ps)
  }

  /** No event is longer than what it was cut out of. */
  lemma {:induction false} EventsFit(st: State)
    requires Process(st).Done?
    ensures var events := Process(st).st.events;
            && st.events <= events
            && forall i :: |st.events| <= i < |events| ==> |events[i]| + 6 <= |st.buf|
    decreases |st.buf|
  {
    hide FromLE, HasCmd;
    if |st.buf| >= 6 {
      var contentLen, cmd := FromLE(st.buf[..4]), FromLE(st.buf[4..6]);
      if HasCmd(cmd) && |st.buf| >= 4 + contentLen {
        var rest := st.buf[contentLen + 4..];
        EventsFit(if cmd == CMD_EVENT then State(rest, Wrap64(st.times + 1), st.events + [st.buf[6..4 + contentLen]])
                  else st.(buf := rest));
      }
    }
  }

  lemma {:induction false} SameNumber(a: bytes, b: bytes)
    requires |a| == |b| && FromLE(a) == FromLE(b)
    ensures a == b
  {
    if a != [] {
      SameNumber(a[1..], b[1..]);
      assert a == [a[0]] + a[1..] && b == [b[0]] + b[1..];
    }
  }

  /** A payload that no leftover of the packet `p` can pass for. */
  function Probe(p: Parcel): (msg: bytes)
    ensures 255 <= |msg| <= 256 && |msg| != |p.msg|
  {
    Zeros(if |p.msg| == 255 then 256 else 255)
  }

  lemma ProbeLength(p: Parcel)
    ensures LE(4, |Probe(p)| + 2) == [(|Probe(p)| + 2) % 256, 1, 0, 0]
    ensures (|Probe(p)| + 2) % 256 != 0
  {
    LowBytes(|Probe(p)| + 2);
  }

  /** Its second byte, or its first, stands where a 0 should. */
  lemma Misplaced(r: bytes, len: bytes)
    requires 0 < |r| < 4 && |len| == 4 && len[0] != 0 && len[1] == 1 && len[2] == len[3] == 0
    ensures r + len[..4 - |r|] != len
  {
    var moved := r + len[..4 - |r|];
    if |r| == 3 {
      assert moved[3] == len[0];
    } else {
      assert moved[|r| + 1] == len[1];
    }
  }

  /** Behind a leftover the length that is read is not the probe's. */
  lemma OtherLength(p: Parcel, n: nat)
    requires |p.msg| + 2 < TWO_32 && 0 < n < |Packet(p.cmd, p.msg)|
    ensures var x := FromLE((Packet(p.cmd, p.msg)[..n] + Packet(CMD_EVENT, Probe(p)))[..4]);
            x != |Probe(p)| + 2 && (x < 2 || x + 4 > n)
  {
    hide LE, FromLE, Probe;
    var r, d := Packet(p.cmd, p.msg)[..n], Packet(CMD_EVENT, Probe(p));
    var len := LE(4, |Probe(p)| + 2);
    if n >= 4 {
      assert (r + d)[..4] == LE(4, |p.msg| + 2);
      Nat32RoundTrip(|p.msg| + 2);
    } else {
      ProbeLength(p);
      assert d[..4] == len;
      assert (r + d)[..4] == r + d[..4 - n] && d[..4 - n] == d[..4][..4 - n];
      Misplaced(r, len);
      Nat32RoundTrip(|Probe(p)| + 2);
      if FromLE((r + d)[..4]) == |Probe(p)| + 2 {
        SameNumber(r + len[..4 - n], len);
      }
    }
  }

  /** The event that is sent on the new connection is not the one that is handed over. */
  lemma ProbeIsLost(st: State, p: Parcel, n: nat)
    requires |p.msg| + 2 < TWO_32 && 0 < n < |Packet(p.cmd, p.msg)|
    requires st.buf == Packet(p.cmd, p.msg)[..n]
    ensures var outcome := Process(st.(buf := st.buf + Packet(CMD_EVENT, Probe(p))));
            outcome.Done? ==> outcome.st.events != st.events + [Probe(p)]
  {
    hide Process, Packet, FromLE, HasCmd, Probe, AfterOne;
    var t := st.(buf := st.buf + Packet(CMD_EVENT, Probe(p)));
    OtherLength(p, n);
    ProcessTakes(t);
    var x, cmd := FromLE(t.buf[..4]), FromLE(t.buf[4..6]);
    if HasCmd(cmd) && |t.buf| >= 4 + x >= 6 {
      assert x - 2 != |Probe(p)| && |t.buf| - (4 + x) < |Probe(p)| + 6;
      ProbeNotNext(t, cmd, t.buf[6..4 + x], t.buf[4 + x..], Probe(p));
    } else {
      assert |st.events + [Probe(p)]| > |st.events|;
    }
  }

  lemma ProbeNotNext(t: State, cmd: int, msg: bytes, rest: bytes, probe: bytes)
    requires |msg| != |probe| && |rest| < |probe| + 6
    ensures var outcome := Process(AfterOne(t, Parcel(cmd, msg), rest));
            outcome.Done? ==> outcome.st.events != t.events + [probe]
  {
    hide Process;
    var next := AfterOne(t, Parcel(cmd, msg), rest);
    if Process(next).Done? {
      EventsFit(next);
      ProbeNotAmong(t.events, Process(next).st.events, next.events, probe);
    }
  }

  /** The first new event has another length, or there is none and all the others are too short. */
  lemma ProbeNotAmong(before: seq<bytes>, after: seq<bytes>, next: seq<bytes>, probe: bytes)
    requires next <= after
    requires next == before || (|next| == |before| + 1 && before <= next && |next[|before|]| != |probe|)
    requires next == before ==> forall i :: |next| <= i < |after| ==> |after[i]| < |probe|
    ensures after != before + [probe]
  {
    assert (before + [probe])[|before|] == probe;
  }

  lemma ProbeExpected(p: Parcel)
    ensures var ps := [Parcel(CMD_EVENT, Probe(p))];
            var d := Packet(CMD_EVENT, Probe(p));
            && Known(ps) && Flatten([d]) == d == Flatten(Parcels(ps))
            && Complete(Parcels(ps), |d|) == 1 && Events(ps[..1]) == [Probe(p)]
  {
    hide Packet;
    var ps := [Parcel(CMD_EVENT, Probe(p))];
    var d := Packet(CMD_EVENT, Probe(p));
    assert Parcels(ps) == [d] && Parcels(ps)[1..] == [] && ps[1..] == [] && ps[..1] == ps;
    assert Flatten([d]) == d + [];
    assert Events(ps) == [Probe(p)] + Events(ps[1..]);
  }

  /** When the event stream survives a reconnect: exactly if the connection before ended between two
      packets, so that nothing is left in the buffer. */
  lemma ReconnectSurvives(st: State, p: Parcel, n: nat)
    requires |p.msg| + 2 < TWO_32 && n < |Packet(p.cmd, p.msg)| && st.buf == Packet(p.cmd, p.msg)[..n]
    ensures Survives(st) <==> st.buf == []
  {
    hide Process, Packet, Complete, Rest, Parcels, Events, Known, Probe;
    if n == 0 {
      forall chunks, ps | Known(ps) && Flatten(chunks) <= Flatten(Parcels(ps))
        ensures HandsOver(st, chunks, ps)
      {
        EventStream(st, chunks, ps);
      }
    } else {
      var ps, d := [Parcel(CMD_EVENT, Probe(p))], Packet(CMD_EVENT, Probe(p));
      ProbeExpected(p);
      ProbeIsLost(st, p, n);
      OneChunk(st, d);
      assert !HandsOver(st, [d], ps);
    }
  }

  lemma OneChunk(st: State, d: bytes)
    ensures FeedAll(st, [d]) == Process(st.(buf := st.buf + d))
  {
    hide Process;
    var chunks := [d];
    assert chunks[1..] == [];
  }
}
