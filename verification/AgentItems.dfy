/** What a leader puts on a connection and what a follower does with it: items become packets, frames and
    a byte stream, and come out of reassembly and dispatch as actions. And what becomes of them when the
    client's buffer still holds the end of an earlier connection. (main.go, agent/client.go) */
module AgentItems {
  import opened Bytes
  import opened GoSlice
  import opened Streams
  import opened PosRecord
  import opened ServiceUtil
  import opened AgentCodec
  import opened AgentNode
  import opened AgentLink

  /** What the leader puts on a connection. */
  datatype Item = Event(json: bytes, index: int) | Pos(c: Checkpoint) | Tick

  /** The message the wiring in main.go and the keepalive loop give to the agent server. */
  function MessageOf(item: Item): Message {
    match item
    case Event(json, _) => Message(1, Packet(CMD_EVENT, json))
    case Pos(c) => Message(1, Packet(CMD_POS, Record(c)))
    case Tick => Message(1, KEEPALIVE)
  }

  function Messages(items: seq<Item>): (ms: seq<Message>)
    ensures |ms| == |items|
  {
    seq(|items|, i requires 0 <= i < |items| => MessageOf(items[i]))
  }

  /** The event parses, and the message fits a frame. */
  predicate ItemOk(parse: Parser, item: Item) {
    && |MessageOf(item).content| <= MAX_CONTENT
    && (item.Event? ==> parse(item.json).Table?)
  }

  predicate ItemsOk(parse: Parser, items: seq<Item>) {
    forall i :: 0 <= i < |items| ==> ItemOk(parse, items[i])
  }

  /** What a follower is to do with an item: nothing, forward, or install. */
  function ActionsOf(parse: Parser, item: Item): seq<Action>
    requires ItemOk(parse, item)
  {
    match item
    case Event(json, _) => [Forward(parse(json).name, json)]
    case Pos(c) => [Install(Record(c))]
    case Tick => []
  }

  function Actions(parse: Parser, items: seq<Item>): seq<Action>
    requires ItemsOk(parse, items)
  {
    if items == [] then []
    else Actions(parse, items[..|items| - 1]) + ActionsOf(parse, items[|items| - 1])
  }

  lemma ActionsLast(parse: Parser, items: seq<Item>, item: Item)
    requires ItemsOk(parse, items) && ItemOk(parse, item)
    ensures ItemsOk(parse, items + [item])
    ensures Actions(parse, items + [item]) == Actions(parse, items) + ActionsOf(parse, item)
  {
    hide ItemOk, ActionsOf;
    assert (items + [item])[..|items|] == items;
  }

  lemma {:induction false} ActionsAppend(parse: Parser, a: seq<Item>, b: seq<Item>)
    requires ItemsOk(parse, a) && ItemsOk(parse, b)
    ensures ItemsOk(parse, a + b)
    ensures Actions(parse, a + b) == Actions(parse, a) + Actions(parse, b)
    decreases |b|
  {
    hide ItemOk, ActionsOf, Actions;
    if b == [] {
      assert a + b == a;
      NoAction(parse);
    } else {
      var b', last := b[..|b| - 1], b[|b| - 1];
      ActionsAppend(parse, a, b');
      ActionsLast(parse, a + b', last);
      ActionsLast(parse, b', last);
      assert b == b' + [last] && a + b == (a + b') + [last];
    }
  }

  /** The dispatcher undoes the wiring: packet, record and all. */
  lemma DispatchItem(parse: Parser, item: Item)
    requires ItemOk(parse, item)
    ensures Dispatch(parse, MessageOf(item).content)
         == if item.Tick? then Ignore else Act(ActionsOf(parse, item)[0])
  {
    hide Packet, Record, Unpack;
    match item {
      case Tick =>
      case Event(json, _) =>
        UnpackPack(CMD_EVENT, json, []);
        assert Packet(CMD_EVENT, json) + [] == Packet(CMD_EVENT, json);
      case Pos(c) =>
        UnpackPack(CMD_POS, Record(c), []);
        assert Packet(CMD_POS, Record(c)) + [] == Packet(CMD_POS, Record(c));
    }
  }

  /** The client's loop does what the plain reassembly loop does, and acts on every message. */
  lemma {:induction false} DrainToIsDrain(parse: Parser, s: Slice, items: seq<Item>)
    requires s.Valid() && ItemsOk(parse, items)
    requires Drain(s).1 == Messages(items)
    ensures DrainTo(parse, s) == (Drain(s).0, Actions(parse, items))
    decreases s.len
  {
    hide Decode, Dispatch, Actions, MessageOf;
    DrainStops(s);
    DrainToStops(parse, s);
    if Decode(s).Decoded? && Decode(s).m.id > 0 {
      DrainTakes(s);
      DrainToTakes(parse, s);
      var t := if s.len >= Decode(s).pos then s.Shift(Decode(s).pos) else EMPTY;
      assert Drain(s).1[1..] == Messages(items[1..]);
      assert Drain(s).1[0] == MessageOf(items[0]);
      DispatchItem(parse, items[0]);
      DrainToIsDrain(parse, t, items[1..]);
      ActionsAppend(parse, items[..1], items[1..]);
      assert items == items[..1] + items[1..];
      OneAction(parse, items[0]);
      assert items[..1] == [items[0]];
      assert items[0].Tick? ==> Actions(parse, items) == Actions(parse, items[1..]);
    } else {
      assert items == [];
      NoAction(parse);
    }
  }

  lemma OneAction(parse: Parser, item: Item)
    requires ItemOk(parse, item)
    ensures Actions(parse, [item]) == ActionsOf(parse, item)
    ensures |ActionsOf(parse, item)| == if item.Tick? then 0 else 1
  {
    assert [item][..0] == [];
    assert Actions(parse, []) == [];
  }

  lemma NoAction(parse: Parser)
    ensures Actions(parse, []) == []
  {
  }

  /** A sequence of calls of the client's `onMessage`. */
  function FeedClient(parse: Parser, s: Slice, chunks: seq<Chunk>): (r: (Slice, seq<Action>))
    requires s.Valid()
    ensures r.0.Valid()
    decreases |chunks|
  {
    if chunks == [] then (s, [])
    else
      var (s1, out1) := DrainTo(parse, s.Append(chunks[0].data, chunks[0].extra));
      var (s2, out2) := FeedClient(parse, s1, chunks[1..]);
      (s2, out1 + out2)
  }

  lemma {:induction false} FeedClientIsFeedAll(parse: Parser, s: Slice, chunks: seq<Chunk>, items: seq<Item>)
    requires s.Valid() && ItemsOk(parse, items)
    requires FeedAll(s, chunks).1 == Messages(items)
    ensures FeedClient(parse, s, chunks) == (FeedAll(s, chunks).0, Actions(parse, items))
    decreases |chunks|
  {
    hide Decode, Drain, DrainTo, Actions;
    if chunks == [] {
      assert items == [];
      NoAction(parse);
    } else {
      var t := s.Append(chunks[0].data, chunks[0].extra);
      var (s1, out1) := Drain(t);
      var k := |out1|;
      assert FeedAll(s, chunks).1 == out1 + FeedAll(s1, chunks[1..]).1;
      assert out1 == Messages(items)[..k] == Messages(items[..k]);
      assert FeedAll(s1, chunks[1..]).1 == Messages(items)[k..] == Messages(items[k..]);
      DrainToIsDrain(parse, t, items[..k]);
      FeedClientIsFeedAll(parse, s1, chunks[1..], items[k..]);
      ActionsAppend(parse, items[..k], items[k..]);
      assert items == items[..k] + items[k..];
    }
  }

  lemma ItemsFit(parse: Parser, items: seq<Item>)
    requires ItemsOk(parse, items)
    ensures Positive(Messages(items)) && Fits(Messages(items))
  {
    SendableFits(Messages(items));
  }

  /** What the follower has done is what the items it has completely received call for, in order. */
  predicate Fifo(parse: Parser, s: Slice, chunks: seq<Chunk>, items: seq<Item>)
    requires s.Valid() && ItemsOk(parse, items)
  {
    var k := Complete(Frames(Messages(items)), |Arrived(chunks)|);
    k <= |items| && FeedClient(parse, s, chunks).1 == Actions(parse, items[..k])
  }

  /** One unbroken connection is a FIFO, however its bytes are cut. */
  lemma LinkIsFifo(parse: Parser, s: Slice, chunks: seq<Chunk>, items: seq<Item>)
    requires ItemsOk(parse, items)
    requires AtBoundary(s) && ReadsFit(chunks) && (Primed(s) || FirstReadHasHeader(chunks))
    requires Arrived(chunks) <= Flatten(Frames(Messages(items)))
    ensures Fifo(parse, s, chunks, items)
  {
    hide Decode, Drain, Actions, FeedAll, Flatten, FeedClient, Primed, Fits, Positive, Frames;
    var ms := Messages(items);
    ItemsFit(parse, items);
    ExactWithHeader(s, chunks, ms);
    var k := Complete(Frames(ms), |Arrived(chunks)|);
    assert ms[..k] == Messages(items[..k]);
    FeedClientIsFeedAll(parse, s, chunks, items[..k]);
  }

  // ---------- messages that are no items ----------

  /** The client's loop takes a complete frame at the front. */
  lemma DrainToFrame(parse: Parser, s: Slice, m: Message, ms: seq<Message>)
    requires s.Valid() && Primed(s) && m.id > 0 && s.len <= PACKAGE_MAX_LENGTH
    requires s.Live() == Frame(m) + Flatten(Frames(ms))
    ensures s.len >= |Frame(m)|
    ensures var t := s.Shift(|Frame(m)|);
            && t.Valid() && Primed(t) && t.Live() == Flatten(Frames(ms))
            && match Dispatch(parse, m.content)
               case Panic => DrainTo(parse, s) == (EMPTY, [])
               case Ignore => DrainTo(parse, s) == DrainTo(parse, t)
               case Act(a) => DrainTo(parse, s) == (DrainTo(parse, t).0, [a] + DrainTo(parse, t).1)
  {
    hide Decode, DrainTo, Dispatch, Flatten, Frames, Frame, Primed;
    assert s.len == |s.Live()|;
    ShiftKeepsHeader(s, m, ms);
    var rest := Flatten(Frames(ms));
    AtTheFront(s.Live(), Frame(m), rest);
    NoGap();
    DecodeEncode(s, [], m, rest);
    DrainToTakes(parse, s);
  }

  lemma AtTheFront(live: bytes, frame: bytes, rest: bytes)
    requires live == frame + rest
    ensures live == [] + frame + rest
  {
  }

  /** Behind items that are acted on comes a message; what the loop then does is up to the dispatcher. */
  lemma {:induction false} DrainToBehind(parse: Parser, s: Slice, items: seq<Item>, m: Message, ms: seq<Message>)
      returns (t: Slice)
    requires s.Valid() && Primed(s) && ItemsOk(parse, items) && m.id > 0 && s.len <= PACKAGE_MAX_LENGTH
    requires s.Live() == Flatten(Frames(Messages(items) + ([m] + ms)))
    ensures t.Valid() && Primed(t) && t.Live() == Flatten(Frames(ms)) && t.len <= s.len
    ensures match Dispatch(parse, m.content)
            case Panic => DrainTo(parse, s) == (EMPTY, Actions(parse, items))
            case Ignore => DrainTo(parse, s) == (DrainTo(parse, t).0, Actions(parse, items) + DrainTo(parse, t).1)
            case Act(a) =>
              DrainTo(parse, s) == (DrainTo(parse, t).0, Actions(parse, items) + ([a] + DrainTo(parse, t).1))
    decreases |items|
  {
    hide DrainTo, Dispatch, Flatten, Frames, Frame, Primed, Actions, ActionsOf, MessageOf;
    var all := Messages(items) + ([m] + ms);
    FramesFirst(all);
    if items == [] {
      NoAction(parse);
      assert all[0] == m && all[1..] == ms;
      DrainToFrame(parse, s, m, ms);
      t := s.Shift(|Frame(m)|);
      var out := DrainTo(parse, t).1;
      assert [] + out == out;
      match Dispatch(parse, m.content) {
        case Act(a) => assert [] + ([a] + out) == [a] + out;
        case _ =>
      }
    } else {
      assert all[0] == MessageOf(items[0]);
      assert all[1..] == Messages(items[1..]) + ([m] + ms);
      PositiveItem(items[0]);
      DrainToFrame(parse, s, all[0], all[1..]);
      t := DrainToBehind(parse, s.Shift(|Frame(all[0])|), items[1..], m, ms);
      DispatchItem(parse, items[0]);
      assert ItemOk(parse, items[0]);
      OneAction(parse, items[0]);
      ActionsAppend(parse, items[..1], items[1..]);
      assert items == items[..1] + items[1..] && items[..1] == [items[0]];
      ItemActs(parse, items[0]);
      var first, rest, out := ActionsOf(parse, items[0]), Actions(parse, items[1..]), DrainTo(parse, t).1;
      assert Actions(parse, items) == first + rest;
      var t0 := s.Shift(|Frame(all[0])|);
      if items[0].Tick? {
        assert first == [] && first + DrainTo(parse, t0).1 == DrainTo(parse, t0).1;
      }
      assert DrainTo(parse, s) == (DrainTo(parse, t0).0, first + DrainTo(parse, t0).1);
      assert first + (rest + out) == first + rest + out;
      match Dispatch(parse, m.content) {
        case Act(a) => assert first + (rest + ([a] + out)) == first + rest + ([a] + out);
        case _ =>
      }
    }
  }

  lemma FramesFirst(ms: seq<Message>)
    requires ms != []
    ensures Flatten(Frames(ms)) == Frame(ms[0]) + Flatten(Frames(ms[1..]))
  {
    assert Frames(ms)[1..] == Frames(ms[1..]);
  }

  lemma PositiveItem(item: Item)
    ensures MessageOf(item).id == 1
  {
  }

  lemma ItemActs(parse: Parser, item: Item)
    requires ItemOk(parse, item)
    ensures ActionsOf(parse, item) == if item.Tick? then [] else [ActionsOf(parse, item)[0]]
  {
  }

  /** An event that does not parse is skipped; one that names no table costs everything that has been read with
      it and stands behind it. */
  lemma BadEvent(parse: Parser, s: Slice, items: seq<Item>, json: bytes, items': seq<Item>)
    requires s.Valid() && Primed(s) && ItemsOk(parse, items) && ItemsOk(parse, items') && s.len <= PACKAGE_MAX_LENGTH
    requires s.Live() == Flatten(Frames(Messages(items) + ([Message(1, Packet(4, json))] + Messages(items'))))
    requires |json| + 2 < TWO_32
    ensures parse(json).Malformed? ==>
              DrainTo(parse, s).1 == Actions(parse, items) + Actions(parse, items') && DrainTo(parse, s).0.len == 0
    ensures parse(json).NoTable? ==> DrainTo(parse, s) == (EMPTY, Actions(parse, items))
  {
    hide DrainTo, Dispatch, Flatten, Frames, Frame, Primed, Actions, Messages, Packet;
    DispatchPacket(parse, 4, json);
    var t := DrainToBehind(parse, s, items, Message(1, Packet(4, json)), Messages(items'));
    if parse(json).Malformed? {
      DrainsItems(parse, t, items');
    }
  }

  lemma DrainsItems(parse: Parser, s: Slice, items: seq<Item>)
    requires s.Valid() && Primed(s) && ItemsOk(parse, items) && s.len <= PACKAGE_MAX_LENGTH
    requires s.Live() == Flatten(Frames(Messages(items)))
    ensures DrainTo(parse, s).1 == Actions(parse, items) && DrainTo(parse, s).0.len == 0
  {
    hide DrainTo, Drain, Flatten, Actions, Primed;
    var ms := Messages(items);
    assert |s.Live()| == s.len;
    ItemsFit(parse, items);
    FitsFrames(ms);
    DrainAligned(s, ms);
    WholeStream(Frames(ms));
    assert ms[..|ms|] == ms;
    DrainToIsDrain(parse, s, items);
  }

  lemma {:induction false} WholeStream(parts: seq<bytes>)
    ensures Complete(parts, |Flatten(parts)|) == |parts| && Rest(parts, |Flatten(parts)|) == []
  {
    if parts != [] {
      WholeStream(parts[1..]);
    }
  }

  /** The frames of a leader, byte for byte where they do not carry content: all have id 1. */
  lemma FrameBytes(item: Item)
    ensures MessageOf(item).id == 1
    ensures Frame(MessageOf(item))[..4] == [255, 255, 255, 255]
    ensures Frame(MessageOf(item))[8..16] == [1, 0, 0, 0, 0, 0, 0, 0]
    ensures item.Tick? ==> Frame(MessageOf(item))[4..8] == [9, 0, 0, 0] && Frame(MessageOf(item))[16..] == [0]
    ensures item.Event? ==> Frame(MessageOf(item))[20..22] == [4, 0] && Frame(MessageOf(item))[22..] == item.json
    ensures item.Pos? ==> Frame(MessageOf(item))[20..22] == [9, 0] && Frame(MessageOf(item))[22..] == Record(item.c)
  {
    hide Record, LE, Packet, Frame;
    var m := MessageOf(item);
    FrameLayout(m);
    StoredBytes(1);
    LowBytes(9);
    LowBytes(4);
    match item {
      case Tick =>
      case Event(json, _) => PacketInFrame(m, CMD_EVENT, json);
      case Pos(c) => PacketInFrame(m, CMD_POS, Record(c));
    }
  }

  lemma PacketInFrame(m: Message, cmd: int, msg: bytes)
    requires m.content == Packet(cmd, msg)
    ensures Frame(m)[20..22] == LE(2, cmd) && Frame(m)[22..] == msg
  {
    hide LE, Frame;
    FrameLayout(m);
    assert Frame(m)[16..][4..6] == Frame(m)[20..22] && Frame(m)[16..][6..] == Frame(m)[22..];
    assert Packet(cmd, msg)[4..6] == LE(2, cmd) && Packet(cmd, msg)[6..] == msg;
  }

  // ---------- one read ----------

  /** The bytes of a connection. */
  function Wire(items: seq<Item>): bytes {
    Flatten(Frames(Messages(items)))
  }

  /** A buffer that holds the beginning of the first of these items, and nothing else. */
  predicate Holds(parse: Parser, s: Slice, items: seq<Item>) {
    && ItemsOk(parse, items)
    && s.Valid() && (s.len == 0 || Primed(s))
    && s.Live() <= Wire(items)
    && Complete(Frames(Messages(items)), s.len) == 0
  }

  lemma HoldsValid(parse: Parser, s: Slice, items: seq<Item>)
    requires Holds(parse, s, items)
    ensures s.Valid() && |s.Live()| == s.len && s.Live() <= Wire(items) && (s.len == 0 || Primed(s))
  {
  }

  /** One call of `onMessage` in the middle of a connection: it takes the items the read completes, does
      what they call for, and holds the beginning of the next; what is still under way follows on. */
  lemma ReadTakes(parse: Parser, s: Slice, data: bytes, extra: nat, items: seq<Item>, rest: bytes)
    requires Holds(parse, s, items) && |data| <= READ_SIZE && (Primed(s) || |data| >= 4)
    requires GoesOn(Wire(items), s.len, data + rest)
    ensures var (buf, out) := DrainTo(parse, s.Append(data, extra));
            var k := Complete(Frames(Messages(items)), s.len + |data|);
            && k <= |items|
            && out == Actions(parse, items[..k])
            && Holds(parse, buf, items[k..])
            && Primed(buf)
            && GoesOn(Wire(items[k..]), buf.len, rest)
            && buf.len + |Wire(items)| == s.len + |data| + |Wire(items[k..])|
  {
    hide *;
    var ms, n := Messages(items), s.len + |data|;
    var k := Complete(Frames(ms), n);
    BufferInStream(parse, s, items);
    GoesOnInTwo(Wire(items), s.len, data, rest);
    ReadDrains(s, data, extra, ms);
    SplitItems(parse, items, k);
    DrainToIsDrain(parse, s.Append(data, extra), items[..k]);
    StillHolds(parse, Drain(s.Append(data, extra)).0, items, n, rest);
  }

  lemma BufferInStream(parse: Parser, s: Slice, items: seq<Item>)
    requires Holds(parse, s, items)
    ensures s.Valid() && ItemsOk(parse, items)
    ensures Wire(items) == Flatten(Frames(Messages(items))) && Complete(Frames(Messages(items)), s.len) == 0
    ensures InStream(s, Messages(items), s.len) && Positive(Messages(items)) && Fits(Messages(items))
  {
    ItemsFit(parse, items);
    var parts := Frames(Messages(items));
    RestWhenNone(parts, s.len);
  }

  lemma SplitItems(parse: Parser, items: seq<Item>, k: nat)
    requires ItemsOk(parse, items) && k <= |items|
    ensures ItemsOk(parse, items[..k]) && ItemsOk(parse, items[k..]) && Messages(items[..k]) == Messages(items)[0..k]
  {
  }

  lemma ReadDrains(s: Slice, data: bytes, extra: nat, ms: seq<Message>)
    requires Positive(ms) && Fits(ms) && s.Valid() && InStream(s, ms, s.len) && Complete(Frames(ms), s.len) == 0
    requires |data| <= READ_SIZE && (Primed(s) || |data| >= 4)
    requires GoesOn(Flatten(Frames(ms)), s.len, data)
    ensures var (buf, out) := Drain(s.Append(data, extra));
            && InStream(buf, ms, s.len + |data|) && Primed(buf)
            && out == ms[0..Complete(Frames(ms), s.len + |data|)]
  {
    hide *;
    FeedOne(s, Chunk(data, extra), ms, s.len);
  }

  lemma StillHolds(parse: Parser, buf: Slice, items: seq<Item>, n: nat, rest: bytes)
    requires ItemsOk(parse, items) && Primed(buf) && InStream(buf, Messages(items), n)
    requires GoesOn(Wire(items), n, rest)
    ensures var k := Complete(Frames(Messages(items)), n);
            && Holds(parse, buf, items[k..])
            && GoesOn(Wire(items[k..]), buf.len, rest)
            && buf.len + |Wire(items)| == n + |Wire(items[k..])|
  {
    hide Complete, Rest, Flatten, ItemOk, GoesOn;
    var parts := Frames(Messages(items));
    var k := Complete(parts, n);
    assert parts[k..] == Frames(Messages(items[k..]));
    PartsLeft(parts, n, rest);
  }

  /** The frame of one item, alone on the connection: read whole it is acted on, read in part it is kept. */
  lemma ReadsOne(parse: Parser, s: Slice, item: Item, k: nat, extra: nat)
    requires ItemOk(parse, item) && s.Valid() && s.len == 0 && (Primed(s) || k >= 4)
    requires k <= READ_SIZE && k <= |Frame(MessageOf(item))|
    ensures var (buf, out) := DrainTo(parse, s.Append(Frame(MessageOf(item))[..k], extra));
            && Primed(buf)
            && (k < |Frame(MessageOf(item))| ==> out == [] && buf.Live() == Frame(MessageOf(item))[..k])
            && (k == |Frame(MessageOf(item))| ==> out == ActionsOf(parse, item) && buf.len == 0)
  {
    hide *;
    var items, f := [item], Frame(MessageOf(item));
    HoldsNothingOf(parse, s, item);
    OneItem(item, k);
    InTwo(f, k);
    ReadTakes(parse, s, f[..k], extra, items, f[k..]);
    SliceAll(items);
    if k < |f| {
      NoAction(parse);
      HoldsValid(parse, DrainTo(parse, s.Append(f[..k], extra)).0, items);
    } else {
      OneAction(parse, item);
    }
  }

  lemma InTwo(f: bytes, k: nat)
    requires k <= |f|
    ensures GoesOn(f, 0, f[..k] + f[k..])
  {
    assert f[..k] + f[k..] == f;
    GoesOnFromStart(f, f);
  }

  lemma SliceAll(items: seq<Item>)
    ensures items[..0] == [] && items[0..] == items && items[..|items|] == items
  {
  }

  lemma HoldsNothingOf(parse: Parser, s: Slice, item: Item)
    requires ItemOk(parse, item) && s.Valid() && s.len == 0
    ensures Holds(parse, s, [item])
    ensures |Messages([item])| == 1
  {
    hide MessageOf, ItemOk, Frame;
    NothingYet(Frames(Messages([item])));
  }

  lemma OneItem(item: Item, k: nat)
    requires k <= |Frame(MessageOf(item))|
    ensures var f := Frame(MessageOf(item));
            && Wire([item]) == f && Wire([item][1..]) == []
            && Complete(Frames(Messages([item])), k) == if k < |f| then 0 else 1
  {
    hide MessageOf, Frame;
    var parts, f := Frames(Messages([item])), Frame(MessageOf(item));
    assert parts == [f] && parts[1..] == [];
    assert Flatten(parts) == f + Flatten(parts[1..]);
    assert Messages([item][1..]) == [] && Frames(Messages([item][1..])) == [];
  }

  /** The items that make one more. */
  lemma HoldsMore(parse: Parser, s: Slice, items: seq<Item>, item: Item)
    requires Holds(parse, s, items) && ItemOk(parse, item)
    ensures Holds(parse, s, items + [item])
    ensures Wire(items + [item]) == Wire(items) + Frame(MessageOf(item))
  {
    hide MessageOf, ItemOk, Primed;
    var parts := Frames(Messages(items));
    assert Messages(items + [item]) == Messages(items) + [MessageOf(item)];
    assert Frames(Messages(items + [item])) == parts + [Frame(MessageOf(item))];
    hide Frame;
    FlattenAppend(parts, [Frame(MessageOf(item))]);
    assert Flatten([Frame(MessageOf(item))]) == Frame(MessageOf(item)) + [];
    assert items != [] ==> (parts + [Frame(MessageOf(item))])[0] == parts[0];
  }

  // ---------- the next connection ----------

  /** Neither `Disconnect` nor `Connect` empties the buffer. Of a checkpoint cut off by the end of one
      connection, whatever comes next takes the place of the missing bytes, and the outcome is
      installed. */
  lemma SplicedCheckpoint(parse: Parser, s: Slice, c: Checkpoint, n: nat, d: bytes, extra: nat)
    requires |Frame(MessageOf(Pos(c)))| <= PACKAGE_MAX_LENGTH && Primed(s)
    requires 22 <= n && n + |d| == |Frame(MessageOf(Pos(c)))| && s.Live() == Frame(MessageOf(Pos(c)))[..n]
    ensures DrainTo(parse, s.Append(d, extra)).0.len == 0
    ensures DrainTo(parse, s.Append(d, extra)).1 == [Install(Record(c)[..n - 22] + d)]
  {
    var r := Record(c)[..n - 22] + d;
    var m := Message(1, Packet(CMD_POS, r));
    var t := s.Append(d, extra);
    SplicedFrame(c, n, d);
    hide Decode, Dispatch, Frame, Record, Packet;
    WholeFrame(t, m);
    DispatchRecord(parse, r);
    DrainToTakes(parse, t);
    var rest := t.Shift(t.len);
    NothingToDrain(parse, rest);
    assert [Install(r)] + [] == [Install(r)];
  }

  lemma SplicedFrame(c: Checkpoint, n: nat, d: bytes)
    requires 22 <= n && n + |d| == |Frame(MessageOf(Pos(c)))|
    ensures Frame(MessageOf(Pos(c)))[..n] + d == Frame(Message(1, Packet(CMD_POS, Record(c)[..n - 22] + d)))
  {
    hide LE, Record;
    var r := Record(c);
    var front := HEADER + LE(4, |r| + 6 + 8) + LE(8, 1) + LE(4, |r| + 2) + LE(2, CMD_POS);
    assert Frame(MessageOf(Pos(c))) == front + r;
    assert (front + r)[..n] == front + r[..n - 22];
    assert front + r[..n - 22] + d == front + (r[..n - 22] + d);
  }

  /** A buffer that is one whole frame. */
  lemma WholeFrame(t: Slice, m: Message)
    requires t.Valid() && t.Live() == Frame(m) && t.len <= PACKAGE_MAX_LENGTH
    ensures Decode(t) == Decoded(m, t.len)
  {
    hide Decode, Frame;
    NoGap();
    assert t.Live() == [] + Frame(m) + [];
    DecodeEncode(t, [], m, []);
  }

  lemma NoGap()
    ensures Skippable([])
  {
  }

  lemma DispatchRecord(parse: Parser, r: bytes)
    requires 18 <= |r| && |r| + 2 < TWO_32
    ensures Dispatch(parse, Packet(CMD_POS, r)) == Act(Install(r))
  {
    hide Packet, Unpack;
    UnpackPack(CMD_POS, r, []);
    assert Packet(CMD_POS, r) + [] == Packet(CMD_POS, r);
  }

  lemma NothingToDrain(parse: Parser, s: Slice)
    requires s.Valid() && s.len == 0
    ensures DrainTo(parse, s) == (s, [])
  {
  }

  /** The connection works as a FIFO, whatever it brings. */
  ghost predicate Survives(parse: Parser, s: Slice)
    requires s.Valid()
  {
    forall chunks, items | ItemsOk(parse, items) && ReadsFit(chunks) && (Primed(s) || FirstReadHasHeader(chunks)) &&
        Arrived(chunks) <= Flatten(Frames(Messages(items))) :: Fifo(parse, s, chunks, items)
  }

  /** No record is longer than what it was cut out of. */
  lemma {:induction false} InstallsFit(parse: Parser, s: Slice)
    requires s.Valid()
    ensures forall a :: a in DrainTo(parse, s).1 && a.Install? ==> |a.record| + 22 <= s.len
    decreases s.len
  {
    DrainToStops(parse, s);
    if Decode(s).Decoded? && Decode(s).m.id > 0 {
      ContentFits(s);
      hide Decode, DrainTo, Dispatch;
      DrainToTakes(parse, s);
      RecordFits(parse, Decode(s).m.content);
      InstallsFit(parse, if s.len >= Decode(s).pos then s.Shift(Decode(s).pos) else EMPTY);
    }
  }

  lemma ContentFits(s: Slice)
    requires s.Valid() && Decode(s).Decoded?
    ensures |Decode(s).m.content| + 16 <= s.len
  {
  }

  lemma RecordFits(parse: Parser, content: bytes)
    ensures var r := Dispatch(parse, content);
            r.Act? && r.a.Install? ==> |content| >= 4 && |r.a.record| + 2 == FromLE(content[..4]) <= |content| - 4
  {
  }

  /** A checkpoint that no leftover of the message `m` can pass for. */
  function Probe(m: Message): (c: Checkpoint) {
    Checkpoint(Zeros(if |m.content| >= 4 && FromLE(m.content[..4]) == 21 then 2 else 1), 0, 0)
  }

  function ProbeFrame(m: Message): (r: bytes)
    ensures |r| == 22 + |Record(Probe(m))| && 41 <= |r| <= 42
  {
    Frame(MessageOf(Pos(Probe(m))))
  }

  lemma ProbeBytes(m: Message)
    ensures var l := |Record(Probe(m))| + 14;
            ProbeFrame(m)[..16] == [255, 255, 255, 255, l, 0, 0, 0, 1, 0, 0, 0, 0, 0, 0, 0]
  {
    hide Record, Packet, LE;
    var l := |Record(Probe(m))| + 14;
    LowBytes(l);
    StoredBytes(1);
    assert ProbeFrame(m)[..16] == HEADER + LE(4, l) + LE(8, 1);
  }

  /** Four bytes read as a small number. */
  lemma SmallNumber(b: bytes)
    requires |b| == 4 && FromLE(b) < 256
    ensures b[0] == FromLE(b) && b[3] == 0
  {
    assert FromLE(b) == b[0] + 256 * FromLE(b[1..]);
    assert FromLE(b[1..]) == b[1] + 256 * FromLE(b[2..]);
    assert FromLE(b[2..]) == b[2] + 256 * FromLE(b[3..]);
    assert FromLE(b[3..]) == b[3] + 256 * FromLE(b[4..]);
  }

  lemma LargeNumber(b: bytes)
    requires |b| == 4 && (b[0] == 255 || b[3] == 255)
    ensures FromLE(b) >= 255
  {
    assert FromLE(b) == b[0] + 256 * FromLE(b[1..]);
    assert FromLE(b[1..]) == b[1] + 256 * FromLE(b[2..]);
    assert FromLE(b[2..]) == b[2] + 256 * FromLE(b[3..]);
    assert FromLE(b[3..]) == b[3] + 256 * FromLE(b[4..]);
  }

  /** A leftover and the probe behind it. */
  function Torn(m: Message, n: nat): (r: bytes)
    requires n <= |Frame(m)|
    ensures |r| == n + |ProbeFrame(m)|
  {
    Frame(m)[..n] + ProbeFrame(m)
  }

  lemma TornBytes(m: Message, n: nat)
    requires 0 < n < |Frame(m)|
    ensures Torn(m, n)[..4] == HEADER
    ensures n < 8 ==> FromLE(Torn(m, n)[4..8]) >= 255
    ensures n >= 8 ==> Torn(m, n)[4..8] == LE(4, |m.content| + 8)
  {
    hide ProbeFrame, Frame, FromLE, LE;
    ProbeBytes(m);
    FrameLayout(m);
    var p := ProbeFrame(m);
    assert forall i :: 0 <= i < 16 ==> p[..16][i] == p[i];
    assert forall i :: 0 <= i < 4 ==> Frame(m)[i] == HEADER[i];
    if n < 8 {
      var b := Torn(m, n)[4..8];
      assert n >= 4 ==> b[3] == p[7 - n];
      assert n < 4 ==> b[0] == p[4 - n];
      LargeNumber(b);
    } else {
      SliceOfSlice(Frame(m), 0, n, 4, 8);
      assert Torn(m, n)[4..8] == Frame(m)[..n][4..8];
    }
  }

  /** Behind a leftover the length of the packet that is read is not the probe's. */
  lemma OtherLength(m: Message, n: nat)
    requires 8 <= n < |Frame(m)| && |m.content| >= 4 && n + |ProbeFrame(m)| >= |Frame(m)|
    ensures FromLE(Torn(m, n)[16..20]) != |Record(Probe(m))| + 2
  {
    hide Frame, Record, Probe, ProbeFrame, FromLE;
    var b, p := Torn(m, n)[16..20], ProbeFrame(m);
    ProbeBytes(m);
    ProbeAvoids(m);
    assert forall i :: 0 <= i < 16 ==> p[..16][i] == p[i];
    if n >= 20 {
      FrameLayout(m);
      SliceOfSlice(Frame(m), 0, n, 16, 20);
      SliceOfSlice(Frame(m), 16, |Frame(m)|, 0, 4);
      assert b == Frame(m)[..n][16..20] == m.content[..4];
    } else {
      assert n >= 16 ==> b[3] == p[19 - n] == 255;
      assert n < 16 ==> b[0] == p[16 - n] != |Record(Probe(m))| + 2;
      if FromLE(b) < 256 {
        SmallNumber(b);
      }
    }
  }

  lemma ProbeAvoids(m: Message)
    ensures 19 <= |Record(Probe(m))| <= 20
    ensures |m.content| >= 4 ==> FromLE(m.content[..4]) != |Record(Probe(m))| + 2
  {
    hide Record, FromLE;
  }

  /** What the decoder makes of it: it waits, or takes a message as long as the one that was cut. */
  lemma TornDecode(t: Slice, m: Message, n: nat)
    requires 0 < n < |Frame(m)| && |m.content| <= MAX_CONTENT
    requires t.Valid() && t.Live() == Torn(m, n)
    ensures if n < 8 || t.len < |Frame(m)| then Decode(t) == NeedMore
            else Decode(t).Decoded? && Decode(t).pos == |Frame(m)| && Decode(t).m.content == Torn(m, n)[16..|Frame(m)|]
  {
    hide Torn, Frame, LE, FromLE, ProbeFrame;
    TornBytes(m, n);
    assert t.mem[..4] == t.Live()[..4];
    assert t.mem[4..8] == t.Live()[4..8];
    if n >= 8 {
      Nat32RoundTrip(|m.content| + 8);
      if t.len >= |Frame(m)| {
        SliceOfSlice(t.mem, 0, t.len, 16, |Frame(m)|);
      }
    }
  }

  /** The checkpoint that is sent on the new connection is not what is installed. */
  lemma ProbeIsLost(parse: Parser, t: Slice, m: Message, n: nat)
    requires 0 < n < |Frame(m)| && |m.content| <= MAX_CONTENT
    requires t.Valid() && t.Live() == Torn(m, n)
    ensures DrainTo(parse, t).1 != [Install(Record(Probe(m)))]
  {
    hide Decode, DrainTo, Dispatch, Torn, Frame, Record, Probe, ProbeFrame, FromLE, LE;
    TornDecode(t, m, n);
    DrainToStops(parse, t);
    var probe := Install(Record(Probe(m)));
    if Decode(t).Decoded? && Decode(t).m.id > 0 {
      DrainToTakes(parse, t);
      var content, rest := Decode(t).m.content, t.Shift(Decode(t).pos);
      assert |t.Live()| == t.len && |rest.Live()| == rest.len < |ProbeFrame(m)|;
      RecordFits(parse, content);
      InstallsFit(parse, rest);
      if |content| >= 4 {
        OtherLength(m, n);
        SliceOfSlice(Torn(m, n), 16, |Frame(m)|, 0, 4);
      }
      NotTheProbe(DrainTo(parse, rest).1, probe);
    }
  }

  lemma NotTheProbe(rest: seq<Action>, probe: Action)
    requires probe !in rest
    ensures rest != [probe]
    ensures forall a :: a != probe ==> [a] + rest != [probe]
  {
    assert [probe][0] == probe;
    assert forall a :: ([a] + rest)[0] == a;
  }

  lemma ProbeExpected(parse: Parser, m: Message)
    ensures var items, chunks := [Pos(Probe(m))], [Chunk(ProbeFrame(m), 0)];
            && ItemsOk(parse, items) && ReadsFit(chunks)
            && Arrived(chunks) == ProbeFrame(m) == Flatten(Frames(Messages(items)))
            && Complete(Frames(Messages(items)), |Arrived(chunks)|) == 1
            && Actions(parse, items[..1]) == [Install(Record(Probe(m)))]
  {
    hide Record;
    var items, chunks := [Pos(Probe(m))], [Chunk(ProbeFrame(m), 0)];
    assert Frames(Messages(items)) == [ProbeFrame(m)] && Frames(Messages(items))[1..] == [];
    assert chunks[1..] == [] && Arrived(chunks) == ProbeFrame(m) + [];
    assert Flatten(Frames(Messages(items))) == ProbeFrame(m) + [];
    assert items[..1] == items;
    OneAction(parse, items[0]);
  }

  lemma OneChunk(parse: Parser, s: Slice, c: Chunk)
    requires s.Valid()
    ensures FeedClient(parse, s, [c]).1 == DrainTo(parse, s.Append(c.data, c.extra)).1
  {
    hide DrainTo;
    var (s1, out1) := DrainTo(parse, s.Append(c.data, c.extra));
    assert FeedClient(parse, s1, [c][1..]) == (s1, []);
    assert out1 + [] == out1;
  }

  /** When a connection works as a FIFO although the buffer was not emptied: exactly if the connection
      before ended between two frames. */
  lemma ReconnectSurvives(parse: Parser, s: Slice, m: Message, n: nat)
    requires Primed(s) && |m.content| <= MAX_CONTENT
    requires n < |Frame(m)| && s.Live() == Frame(m)[..n]
    ensures Survives(parse, s) <==> s.len == 0
  {
    if n == 0 {
      SurvivesBetween(parse, s);
    } else {
      ProbeLost(parse, s, m, n);
    }
  }

  lemma SurvivesBetween(parse: Parser, s: Slice)
    requires Primed(s) && s.len == 0
    ensures Survives(parse, s)
  {
    assert s.Valid();
    hide Frames, Flatten, FeedClient, ItemsOk, Primed, ReadsFit, Arrived, Fifo;
    forall chunks, items | ItemsOk(parse, items) && ReadsFit(chunks) && (Primed(s) || FirstReadHasHeader(chunks)) &&
        Arrived(chunks) <= Flatten(Frames(Messages(items)))
      ensures Fifo(parse, s, chunks, items)
    {
      LinkIsFifo(parse, s, chunks, items);
    }
  }

  lemma ProbeLost(parse: Parser, s: Slice, m: Message, n: nat)
    requires Primed(s) && |m.content| <= MAX_CONTENT
    requires 0 < n < |Frame(m)| && s.Live() == Frame(m)[..n]
    ensures !Survives(parse, s)
  {
    assert s.Valid();
    hide Frame, Frames, Flatten, Complete, FeedClient, DrainTo, ItemsOk, Actions;
    hide Probe, ProbeFrame, Primed, ReadsFit, Arrived, Record;
    var items, chunks := [Pos(Probe(m))], [Chunk(ProbeFrame(m), 0)];
    ProbeExpected(parse, m);
    ProbeIsLost(parse, s.Append(ProbeFrame(m), 0), m, n);
    OneChunk(parse, s, chunks[0]);
    assert !Fifo(parse, s, chunks, items);
  }
}
