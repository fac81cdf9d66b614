/** The connection from a leader to a follower: what the leader's binlog hands to `Broadcast` comes out
    of the follower's dispatcher, through packets, frames and an arbitrarily cut byte stream.
    (main.go, agent/server.go, agent/agent.go, agent/client.go) */
module AgentLink {
  import opened Bytes
  import opened GoSlice
  import opened ServiceUtil
  import opened AgentCodec
  import opened AgentNode

  const KEEPALIVE: bytes := [0]

  /** The agent server with the nodes that are connected to it. */
  class Server {
    var clients: seq<ClientNode>

    ghost predicate Valid()
      reads this, set c | c in clients
    {
      && (forall i, j :: 0 <= i < j < |clients| ==> clients[i] != clients[j])
      && (forall c :: c in clients ==> c.Sends())
    }

    constructor ()
      ensures Valid() && clients == []
    {
      clients := [];
    }

    /** A connection is accepted. */
    method Accept(node: ClientNode)
      requires Valid() && node !in clients && node.Sends()
      modifies this`clients
      ensures Valid() && clients == old(clients) + [node]
    {
      clients := clients + [node];
    }

    /** An online client has taken the message, and its frame stands at the end of its queue; a closed one
        has not. */
    twostate predicate Accepted(c: ClientNode, m: Message)
      reads c
    {
      && c.accepted == old(c.accepted) + (if c.online then [m] else [])
      && c.sendQueue == old(c.sendQueue) + (if c.online then [Frame(m)] else [])
    }

    /** `Broadcast`: every online client accepts the message, and its frame goes to the end of its
        queue. */
    method Broadcast(msgID: int64, data: bytes)
      requires Valid()
      modifies (set c | c in clients)`sendQueue, (set c | c in clients)`accepted
      ensures Valid()
      ensures forall c :: c in clients ==> Accepted(c, Message(msgID, data))
    {
      hide Frame, Frames;
      for i := 0 to |clients|
        invariant Valid()
        invariant forall k :: 0 <= k < i ==> Accepted(clients[k], Message(msgID, data))
        invariant forall k :: i <= k < |clients| ==>
                    clients[k].accepted == old(clients[k].accepted) && clients[k].sendQueue == old(clients[k].sendQueue)
      {
        assert clients[i] in clients;
        clients[i].AsyncSend(msgID, data);
      }
    }

    /** One round of `keepalive`. */
    method Keepalive()
      requires Valid()
      modifies (set c | c in clients)`sendQueue, (set c | c in clients)`accepted
      ensures Valid()
      ensures forall c :: c in clients ==> Accepted(c, Message(1, KEEPALIVE))
    {
      Broadcast(1, KEEPALIVE);
    }
  }

  /** What `json.Unmarshal` and the look-up of the table make of an event: a syntax error, a panic on a
      missing name, or the table. The JSON library itself is not modelled. */
  datatype Parsed = Malformed | NoTable | Table(name: string)

  type Parser = bytes -> Parsed

  /** What the follower does with a message: forward an event to its subscribers, or install a
      checkpoint. */
  datatype Action = Forward(table: string, data: bytes) | Install(record: bytes)

  datatype Reaction = Act(a: Action) | Ignore | Panic

  /** `onClientMessage`, and the test in front of it that drops keepalives. */
  function Dispatch(parse: Parser, content: bytes): Reaction {
    if content == KEEPALIVE then Ignore
    else
      match Unpack(content)
      case ErrDataLen => Ignore
      case Panicked => Panic
      case Unpacked(cmd, data) =>
        if cmd == CMD_EVENT then
          (match parse(data)
           case Malformed => Ignore
           case NoTable => Panic
           case Table(name) => Act(Forward(name, data)))
        else if cmd == CMD_POS then
          if |data| < 18 then Panic else Act(Install(data))
        else Ignore
  }

  /** What becomes of a packet: an event is forwarded if it parses, skipped if it does not, and panics if it
      names no table; a checkpoint is installed, but panics if it is too short for one; any other command is
      ignored. */
  lemma DispatchPacket(parse: Parser, cmd: nat, data: bytes)
    requires cmd < 0x1_0000 && |data| + 2 < TWO_32
    ensures Dispatch(parse, Packet(cmd, data))
         == if cmd == 4 && parse(data).Table? then Act(Forward(parse(data).name, data))
            else if cmd == 9 && |data| >= 18 then Act(Install(data))
            else if cmd == 9 || (cmd == 4 && parse(data).NoTable?) then Panic
            else Ignore
  {
    hide Packet, Unpack;
    UnpackPack(cmd, data, []);
    assert Packet(cmd, data) + [] == Packet(cmd, data);
  }

  /** And of part of one, unless it looks like a keepalive: it panics without a whole length, and is ignored
      with one. */
  lemma DispatchPart(parse: Parser, cmd: nat, data: bytes, n: nat)
    requires n < |Packet(cmd, data)| && |data| + 2 < TWO_32 && Packet(cmd, data)[..n] != [0]
    ensures Dispatch(parse, Packet(cmd, data)[..n]) == if n < 4 then Panic else Ignore
  {
    hide Packet, Unpack;
    UnpackPart(cmd, data, n);
  }

  /** The loop of `Client.onMessage` with the dispatch inside: a panic there is recovered, drops the
      buffer and ends the loop. */
  function DrainTo(parse: Parser, s: Slice): (r: (Slice, seq<Action>))
    requires s.Valid()
    ensures r.0.Valid()
    decreases s.len
  {
    match Decode(s)
    case Decoded(m, pos) =>
      if m.id <= 0 then (s, [])
      else
        var t := if s.len >= pos then s.Shift(pos) else EMPTY;
        (match Dispatch(parse, m.content)
         case Panic => (EMPTY, [])
         case Ignore => DrainTo(parse, t)
         case Act(a) => var (buf, out) := DrainTo(parse, t); (buf, [a] + out))
    case NeedMore => (s, [])
    case Failed(_) => (EMPTY, [])
    case Panicked => (EMPTY, [])
  }

  /** One turn of the loop. */
  lemma DrainToTakes(parse: Parser, s: Slice)
    requires s.Valid() && Decode(s).Decoded? && Decode(s).m.id > 0
    ensures 0 < Decode(s).pos && 0 < s.len
    ensures var t := if s.len >= Decode(s).pos then s.Shift(Decode(s).pos) else EMPTY;
            match Dispatch(parse, Decode(s).m.content)
            case Panic => DrainTo(parse, s) == (EMPTY, [])
            case Ignore => DrainTo(parse, s) == DrainTo(parse, t)
            case Act(a) => DrainTo(parse, s) == (DrainTo(parse, t).0, [a] + DrainTo(parse, t).1)
  {
  }

  lemma DrainToStops(parse: Parser, s: Slice)
    requires s.Valid()
    ensures Decode(s).NeedMore? || (Decode(s).Decoded? && Decode(s).m.id <= 0) ==> DrainTo(parse, s) == (s, [])
    ensures Decode(s).Failed? || Decode(s).Panicked? ==> DrainTo(parse, s) == (EMPTY, [])
    ensures DrainTo(parse, EMPTY) == (EMPTY, [])
  {
  }

  /** The agent client of a follower. Its buffer is a `ClientNode` buffer: the code of the two loops is
      the same. */
  class Client {
    var buffer: ClientNode
    const parse: Parser
    var actions: seq<Action>

    ghost predicate Valid()
      reads this, buffer
    {
      buffer.Valid()
    }

    constructor (parse: Parser)
      ensures Valid() && fresh(buffer) && fresh(buffer.buf)
      ensures this.parse == parse && actions == [] && buffer.RecvBuf() == EMPTY
    {
      this.parse := parse;
      buffer := new ClientNode();
      actions := [];
    }

    ghost function Outcome(): (Slice, seq<Action>)
      requires Valid()
      reads this, buffer, buffer.buf
    {
      (DrainTo(parse, buffer.RecvBuf()).0, actions + DrainTo(parse, buffer.RecvBuf()).1)
    }

    /** Removes a decoded frame and dispatches it. */
    method Consume(m: Message, pos: nat)
      requires Valid() && Decode(buffer.RecvBuf()) == Decoded(m, pos) && m.id > 0
      modifies this`actions, buffer`buf, buffer`len, buffer.buf
      ensures Valid() && (buffer.buf == old(buffer.buf) || fresh(buffer.buf)) && buffer.len < old(buffer.len)
      ensures Outcome() == old(Outcome())
    {
      hide Decode, DrainTo, Dispatch;
      ghost var s := buffer.RecvBuf();
      DrainToTakes(parse, s);
      DrainToStops(parse, s);
      if buffer.len >= pos {
        buffer.Shift(pos);
      } else {
        buffer.Reset();
      }
      assert buffer.RecvBuf() == if s.len >= pos then s.Shift(pos) else EMPTY;
      match Dispatch(parse, m.content) {
        case Panic =>
          buffer.Reset();
        case Ignore =>
        case Act(a) =>
          actions := actions + [a];
          ghost var out := DrainTo(parse, buffer.RecvBuf()).1;
          assert actions + out == old(actions) + ([a] + out);
      }
    }

    /** One turn of the loop; at the end nothing more comes of what is left in the buffer. */
    method Turn() returns (more: bool)
      requires Valid()
      modifies this`actions, buffer`buf, buffer`len, buffer.buf
      ensures Valid() && (buffer.buf == old(buffer.buf) || fresh(buffer.buf))
      ensures Outcome() == old(Outcome())
      ensures if more then buffer.len < old(buffer.len) else Outcome() == (buffer.RecvBuf(), actions)
    {
      hide Decode, DrainTo, Dispatch;
      var d := Decode(buffer.RecvBuf());
      DrainToStops(parse, buffer.RecvBuf());
      assert actions + [] == actions;
      if d.Failed? || d.Panicked? {
        buffer.Reset();
        return false;
      }
      if d.NeedMore? || d.m.id <= 0 {
        return false;
      }
      Consume(d.m, d.pos);
      return true;
    }

    /** `onMessage` */
    method OnMessage(msg: bytes, extra: nat)
      requires Valid()
      modifies this`actions, buffer`buf, buffer`len, buffer.buf
      ensures Valid() && (buffer.buf == old(buffer.buf) || fresh(buffer.buf))
      ensures buffer.RecvBuf() == DrainTo(parse, old(buffer.RecvBuf()).Append(msg, extra)).0
      ensures actions == old(actions) + DrainTo(parse, old(buffer.RecvBuf()).Append(msg, extra)).1
    {
      hide Decode, DrainTo, Dispatch;
      buffer.Append(msg, extra);
      ghost var outcome := Outcome();
      var more := true;
      while more
        invariant Valid() && (buffer.buf == old(buffer.buf) || fresh(buffer.buf))
        invariant Outcome() == outcome
        invariant !more ==> outcome == (buffer.RecvBuf(), actions)
        decreases more, buffer.len
      {
        more := Turn();
      }
    }
  }
}
