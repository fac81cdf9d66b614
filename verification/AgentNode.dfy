/** Reassembly of agent frames from a TCP stream (agent/node.go, and the same loop in
    agent/client.go): a growing buffer, decoded and shifted in place. */
module AgentNode {
  import opened Bytes
  import opened GoSlice
  import opened Streams
  import opened AgentCodec

  /** The size of the buffer a read fills. */
  const READ_SIZE := 4096

  /** The largest content that survives every way of cutting the stream. */
  const MAX_CONTENT := PACKAGE_MAX_LENGTH - READ_SIZE - PACKAGE_MIN_LENGTH + 1

  /** The decode loop: the buffer it leaves and the messages it hands to the callbacks. An error or a
      recovered panic drops the buffer; a message without a positive id stops the loop. */
  function Drain(s: Slice): (r: (Slice, seq<Message>))
    requires s.Valid()
    ensures r.0.Valid()
    decreases s.len
  {
    match Decode(s)
    case Decoded(m, pos) =>
      if m.id <= 0 then (s, [])
      else
        var (buf, out) := Drain(if s.len >= pos then s.Shift(pos) else EMPTY);
        (buf, [m] + out)
    case NeedMore => (s, [])
    case Failed(_) => (EMPTY, [])
    case Panicked => (EMPTY, [])
  }

  lemma DrainStops(s: Slice)
    requires s.Valid()
    ensures Decode(s).NeedMore? || (Decode(s).Decoded? && Decode(s).m.id <= 0) ==> Drain(s) == (s, [])
    ensures Decode(s).Failed? || Decode(s).Panicked? ==> Drain(s) == (EMPTY, [])
    ensures Drain(EMPTY) == (EMPTY, [])
  {
  }

  /** One turn of the loop. */
  lemma DrainTakes(s: Slice)
    requires s.Valid() && Decode(s).Decoded? && Decode(s).m.id > 0
    ensures var t := Drain(if s.len >= Decode(s).pos then s.Shift(Decode(s).pos) else EMPTY);
            Drain(s) == (t.0, [Decode(s).m] + t.1)
    ensures 0 < Decode(s).pos && 0 < s.len
  {
  }

  class ClientNode {
    var buf: array<byte>      // the backing array of recvBuf
    var len: nat              // the length of recvBuf
    var online: bool
    var sendQueue: seq<bytes>
    var received: seq<Message>        // what the message callbacks were called with
    var written: bytes                // what was written to the connection
    ghost var accepted: seq<Message>  // what `AsyncSend` took

    ghost predicate Valid()
      reads this
    {
      len <= buf.Length
    }

    function RecvBuf(): (s: Slice)
      requires Valid()
      reads this, buf
      ensures s.Valid()
    {
      Slice(buf[..], len)
    }

    constructor ()
      ensures Valid() && fresh(buf)
      ensures RecvBuf() == EMPTY && online && received == [] && accepted == [] && Sends()
    {
      buf, len := new byte[0], 0;
      online, sendQueue, received, written, accepted := true, [], [], [], [];
    }

    /** What has been written is the beginning of the frames accepted; while the node is online, the rest
        of them is in the queue. */
    ghost predicate Sends()
      reads this
    {
      && written <= Flatten(Frames(accepted))
      && (online ==> written + Flatten(sendQueue) == Flatten(Frames(accepted)))
    }

    /** `append(node.recvBuf, msg...)` */
    method Append(msg: bytes, extra: nat)
      requires Valid()
      modifies this`buf, this`len, buf
      ensures Valid() && (buf == old(buf) || fresh(buf))
      ensures RecvBuf() == old(RecvBuf()).Append(msg, extra)
    {
      ghost var mem := buf[..];
      var n := len + |msg|;
      if n <= buf.Length {
        forall i | 0 <= i < |msg| {
          buf[len + i] := msg[i];
        }
        assert buf[..] == mem[..len] + msg + mem[n..];
      } else {
        var grown := new byte[n + extra](_ => 0);
        forall i | 0 <= i < len {
          grown[i] := buf[i];
        }
        forall i | 0 <= i < |msg| {
          grown[len + i] := msg[i];
        }
        assert grown[..] == mem[..len] + msg + Zeros(extra);
        buf := grown;
      }
      len := n;
    }

    /** `append(node.recvBuf[:0], node.recvBuf[pos:]...)` */
    method Shift(pos: nat)
      requires Valid() && pos <= len
      modifies this`len, buf
      ensures Valid()
      ensures RecvBuf() == old(RecvBuf()).Shift(pos)
    {
      ghost var mem, rest := buf[..], buf[pos..len];
      forall i | 0 <= i < len - pos {
        buf[i] := buf[pos + i];
      }
      assert rest == mem[..len][pos..];
      assert buf[..] == rest + mem[len - pos..];
      len := len - pos;
    }

    method Reset()
      modifies this`buf, this`len
      ensures Valid() && fresh(buf) && RecvBuf() == EMPTY
    {
      buf, len := new byte[0], 0;
    }

    /** What the loop will have left and handed over when it ends. */
    ghost function Outcome(): (Slice, seq<Message>)
      requires Valid()
      reads this, buf
    {
      (Drain(RecvBuf()).0, received + Drain(RecvBuf()).1)
    }

    /** Removes a decoded frame and hands it to the callbacks. */
    method Consume(m: Message, pos: nat)
      requires Valid() && Decode(RecvBuf()) == Decoded(m, pos) && m.id > 0
      modifies this`buf, this`len, this`received, buf
      ensures Valid() && (buf == old(buf) || fresh(buf)) && len < old(len)
      ensures Outcome() == old(Outcome())
    {
      hide Decode, Drain;
      ghost var s := RecvBuf();
      DrainTakes(s);
      if len >= pos {
        Shift(pos);
      } else {
        Reset();
      }
      received := received + [m];
      assert RecvBuf() == if s.len >= pos then s.Shift(pos) else EMPTY;
      assert received + Drain(RecvBuf()).1 == old(received) + ([m] + Drain(RecvBuf()).1);
    }

    /** `onMessage`: one read arrives. `extra` is the spare capacity if the buffer has to grow. */
    method OnMessage(msg: bytes, extra: nat)
      requires Valid()
      modifies this`buf, this`len, this`received, buf
      ensures Valid() && (buf == old(buf) || fresh(buf))
      ensures RecvBuf() == Drain(old(RecvBuf()).Append(msg, extra)).0
      ensures received == old(received) + Drain(old(RecvBuf()).Append(msg, extra)).1
    {
      hide Decode, Drain;
      Append(msg, extra);
      ghost var outcome := Outcome();
      while true
        invariant Valid() && (buf == old(buf) || fresh(buf))
        invariant Outcome() == outcome
        decreases len
      {
        var d := Decode(RecvBuf());
        DrainStops(RecvBuf());
        if d.Failed? || d.Panicked? {
          Reset();
          return;
        }
        if d.NeedMore? || d.m.id <= 0 {
          return;
        }
        Consume(d.m, d.pos);
      }
    }

    /** `close`: the queue of a closed node is never drained again. */
    method Close()
      requires written <= Flatten(Frames(accepted))
      modifies this`online
      ensures Sends() && !online
    {
      online := false;
    }

    /** `AsyncSend`, once the queue has room. */
    method AsyncSend(msgID: int64, data: bytes)
      requires Sends()
      modifies this`sendQueue, this`accepted
      ensures Sends()
      ensures accepted == if online then old(accepted) + [Message(msgID, data)] else old(accepted)
      ensures sendQueue == if online then old(sendQueue) + [Frame(Message(msgID, data))] else old(sendQueue)
    {
      if !online {
        return;
      }
      hide Frame, Flatten, Frames;
      var m := Message(msgID, data);
      var senddata := Encode(m);
      QueueAppend(written, sendQueue, accepted, m);
      sendQueue := sendQueue + [senddata[..]];
      accepted := accepted + [m];
    }

    /** One round of `asyncSendService`. The connection takes `n` bytes of the frame; if these are not
        all of it, that is an error and closes the node. */
    method SendNext(n: nat)
      requires Sends()
      requires sendQueue != [] && n <= |sendQueue[0]|
      modifies this`sendQueue, this`written, this`online
      ensures Sends()
      ensures !old(online) ==> sendQueue == old(sendQueue) && written == old(written) && !online
      ensures old(online) ==> sendQueue == old(sendQueue)[1..] && written == old(written) + old(sendQueue)[0][..n]
      ensures old(online) ==> (online <==> n == |old(sendQueue)[0]|)
    {
      if !online {
        return;
      }
      var msg := sendQueue[0];
      assert written + Flatten(sendQueue) == written + msg + Flatten(sendQueue[1..]);
      assert written + msg[..n] + msg[n..] == written + msg;
      sendQueue := sendQueue[1..];
      written := written + msg[..n];
      if n < |msg| {
        Close();
      }
    }
  }

  function Frames(ms: seq<Message>): (parts: seq<bytes>)
    ensures |parts| == |ms|
  {
    seq(|ms|, i requires 0 <= i < |ms| => Frame(ms[i]))
  }

  /** A frame more at the end of the queue. */
  lemma QueueAppend(written: bytes, queue: seq<bytes>, ms: seq<Message>, m: Message)
    requires written + Flatten(queue) == Flatten(Frames(ms))
    ensures written + Flatten(queue + [Frame(m)]) == Flatten(Frames(ms + [m]))
  {
    hide Flatten, Frame;
    assert Frames(ms + [m]) == Frames(ms) + [Frame(m)];
    hide Frames;
    FlattenAppend(Frames(ms), [Frame(m)]);
    FlattenAppend(queue, [Frame(m)]);
    assert written + (Flatten(queue) + Flatten([Frame(m)])) == written + Flatten(queue) + Flatten([Frame(m)]);
  }

  predicate Positive(ms: seq<Message>) {
    forall i :: 0 <= i < |ms| ==> ms[i].id > 0
  }

  /** How long the buffer can get when frame `k` completes: all but its last byte is there, and a read
      brings that one and as much of what follows as it can. */
  function LongestBuffer(ms: seq<Message>, k: nat): nat
    requires k < |ms|
  {
    var ahead := 1 + |Flatten(Frames(ms[k + 1..]))|;
    |Frame(ms[k])| - 1 + if ahead < READ_SIZE then ahead else READ_SIZE
  }

  /** The buffer stays within the maximal length, however the stream is cut. */
  predicate Fits(ms: seq<Message>) {
    forall k :: 0 <= k < |ms| ==> LongestBuffer(ms, k) <= PACKAGE_MAX_LENGTH
  }

  /** A simple test that suffices, whatever follows a frame. */
  predicate Sendable(ms: seq<Message>) {
    forall i :: 0 <= i < |ms| ==> ms[i].id > 0 && |ms[i].content| <= MAX_CONTENT
  }

  lemma SendableFits(ms: seq<Message>)
    requires Sendable(ms)
    ensures Positive(ms) && Fits(ms)
  {
  }

  /** The simple test is necessary for a frame with enough behind it. */
  lemma BoundIsSharp(m: Message, more: seq<Message>)
    requires Fits(more) && |Flatten(Frames(more))| >= 4095
    ensures Fits([m] + more) <==> |m.content| <= 1019889
  {
    var ms := [m] + more;
    assert ms[1..] == more;
    forall k | 0 < k < |ms|
      ensures LongestBuffer(ms, k) == LongestBuffer(more, k - 1)
    {
      assert ms[k + 1..] == more[k..];
    }
    assert LongestBuffer(ms, 0) == |Frame(m)| - 1 + READ_SIZE;
  }

  /** The first four bytes of the backing array hold the header, although some of them may be stale.
      This is what makes a leftover of one to three bytes decodable. */
  predicate Primed(s: Slice) {
    s.Valid() && |s.mem| >= 4 && s.mem[..4] == HEADER
  }

  lemma BeginsWithHeader(ms: seq<Message>)
    ensures Flatten(Frames(ms)) != [] ==> HEADER <= Flatten(Frames(ms))
  {
    if ms != [] {
      assert HEADER <= Frame(ms[0]) <= Flatten(Frames(ms));
    }
  }

  lemma ShiftStands(s: Slice, first: bytes, wire: bytes)
    requires s.Valid() && s.len >= |first| && s.Live() <= first + wire
    ensures s.Shift(|first|).Live() <= wire
  {
    var n := s.len - |first|;
    assert s.Live() == (first + wire)[..s.len];
    assert s.Live()[|first|..] == wire[..n];
  }

  lemma ShiftedHeader(s: Slice, k: nat, wire: bytes)
    requires Primed(s) && k <= s.len && s.Shift(k).Live() <= wire
    requires wire != [] ==> HEADER <= wire
    ensures Primed(s.Shift(k))
  {
    var t := s.Shift(k);
    forall i | 0 <= i < 4
      ensures t.mem[i] == 255
    {
      if i < t.len {
        assert t.mem[i] == t.Live()[i] == wire[i] == HEADER[i];
      } else {
        assert t.mem[i] == s.mem[i] == s.mem[..4][i];
      }
    }
  }

  /** Shifting a decoded frame out keeps the header in front, if need be from stale bytes. */
  lemma ShiftKeepsHeader(s: Slice, m: Message, ms: seq<Message>)
    requires Primed(s) && s.len >= |Frame(m)|
    requires s.Live() <= Frame(m) + Flatten(Frames(ms))
    ensures Primed(s.Shift(|Frame(m)|))
    ensures s.Shift(|Frame(m)|).Live() <= Flatten(Frames(ms))
  {
    hide Frame, Frames, Flatten;
    ShiftStands(s, Frame(m), Flatten(Frames(ms)));
    BeginsWithHeader(ms);
    ShiftedHeader(s, |Frame(m)|, Flatten(Frames(ms)));
  }

  /** The loop takes a complete frame at the front. */
  lemma DrainFrame(s: Slice, m: Message, ms: seq<Message>)
    requires Primed(s) && m.id > 0 && |Frame(m)| <= s.len <= PACKAGE_MAX_LENGTH
    requires s.Live() <= Frame(m) + Flatten(Frames(ms))
    ensures var t := s.Shift(|Frame(m)|);
            && Drain(s) == (Drain(t).0, [m] + Drain(t).1)
            && Primed(t) && t.Live() <= Flatten(Frames(ms))
  {
    ShiftKeepsHeader(s, m, ms);
    hide Decode, Flatten, Frames, Primed, Frame;
    var rest := s.Live()[|Frame(m)|..];
    assert s.Live() == [] + Frame(m) + rest;
    DecodeEncode(s, [], m, rest);
  }

  /** The decode loop on a buffer that starts at a frame boundary. */
  lemma {:induction false} DrainAligned(s: Slice, ms: seq<Message>)
    requires Primed(s) && Positive(ms)
    requires forall i :: 0 <= i < |ms| ==> |Frame(ms[i])| <= PACKAGE_MAX_LENGTH
    requires s.Live() <= Flatten(Frames(ms)) && s.len <= PACKAGE_MAX_LENGTH
    ensures var (buf, out) := Drain(s);
            && Primed(buf)
            && out == ms[..Complete(Frames(ms), s.len)]
            && buf.Live() == Rest(Frames(ms), s.len)
    decreases |ms|
  {
    hide Decode, Drain, Frame;
    var parts := Frames(ms);
    if ms == [] {
      DrainNothing(s);
    } else if s.len < |parts[0]| {
      assert s.Live() <= Frame(ms[0]);
      DecodePartial(s, ms[0]);
      DrainStops(s);
    } else {
      hide Primed;
      assert parts[1..] == Frames(ms[1..]);
      DrainFrame(s, ms[0], ms[1..]);
      DrainAligned(s.Shift(|parts[0]|), ms[1..]);
      var k := Complete(parts[1..], s.len - |parts[0]|);
      assert ms[..k + 1] == [ms[0]] + ms[1..][..k];
    }
  }

  /** One read from the connection, with the spare capacity the run time would choose. */
  datatype Chunk = Chunk(data: bytes, extra: nat)

  function Arrived(chunks: seq<Chunk>): bytes {
    if chunks == [] then [] else chunks[0].data + Arrived(chunks[1..])
  }

  /** A sequence of calls of `onMessage`. */
  function FeedAll(s: Slice, chunks: seq<Chunk>): (r: (Slice, seq<Message>))
    requires s.Valid()
    ensures r.0.Valid()
    decreases |chunks|
  {
    if chunks == [] then (s, [])
    else
      var (s1, out1) := Drain(s.Append(chunks[0].data, chunks[0].extra));
      var (s2, out2) := FeedAll(s1, chunks[1..]);
      (s2, out1 + out2)
  }

  predicate ReadsFit(chunks: seq<Chunk>) {
    forall i :: 0 <= i < |chunks| ==> |chunks[i].data| <= READ_SIZE
  }

  /** The first read that brings anything brings a whole header. */
  predicate FirstReadHasHeader(chunks: seq<Chunk>) {
    chunks != [] ==>
      if chunks[0].data == [] then FirstReadHasHeader(chunks[1..]) else |chunks[0].data| >= 4
  }

  lemma AppendPrimes(s: Slice, data: bytes, extra: nat, ms: seq<Message>)
    requires s.Valid() && s.Live() + data <= Flatten(Frames(ms))
    requires Primed(s) || (s.len == 0 && |data| >= 4)
    ensures Primed(s.Append(data, extra))
  {
    var t := s.Append(data, extra);
    var wire := Flatten(Frames(ms));
    if t.len > 0 {
      assert ms != [] && HEADER <= Frame(ms[0]) <= wire;
    }
    forall i | 0 <= i < 4
      ensures |t.mem| >= 4 && t.mem[i] == 255
    {
      if i < t.len {
        assert t.mem[i] == t.Live()[i] == wire[i] == HEADER[i];
      } else {
        assert t.mem[i] == s.mem[i] == s.mem[..4][i];
      }
    }
  }

  /** The buffer after the first `n` bytes of the stream. */
  predicate InStream(s: Slice, ms: seq<Message>, n: nat) {
    && n <= |Flatten(Frames(ms))|
    && s.Valid()
    && s.Live() == Rest(Frames(ms), n)
    && (Primed(s) || (s.len == 0 && n == 0))
  }

  /** The buffer with one more read is again the start of a stream of frames, and within bounds. */
  lemma ReadFits(s: Slice, c: Chunk, ms: seq<Message>, n: nat)
    requires Fits(ms) && InStream(s, ms, n) && |c.data| <= READ_SIZE
    requires GoesOn(Flatten(Frames(ms)), n, c.data)
    ensures s.Live() + c.data <= Flatten(Frames(ms[Complete(Frames(ms), n)..]))
    ensures s.len + |c.data| <= PACKAGE_MAX_LENGTH
  {
    var k := Complete(Frames(ms), n);
    assert Frames(ms)[k..] == Frames(ms[k..]);
    CutIsExact(Frames(ms), n);
    RestContinues(Frames(ms), n, c.data);
    if k < |ms| {
      assert Frames(ms[k..])[1..] == Frames(ms[k + 1..]);
      assert |Flatten(Frames(ms[k..]))| == |Frame(ms[k])| + |Flatten(Frames(ms[k + 1..]))|;
      assert LongestBuffer(ms, k) <= PACKAGE_MAX_LENGTH;
    }
  }

  /** One read: the frames it completes are handed over, and the buffer is again in the stream. */
  lemma FeedOne(s: Slice, c: Chunk, ms: seq<Message>, n: nat)
    requires Positive(ms) && Fits(ms) && InStream(s, ms, n) && |c.data| <= READ_SIZE
    requires GoesOn(Flatten(Frames(ms)), n, c.data)
    requires !Primed(s) ==> c.data == [] || |c.data| >= 4
    ensures var (buf, out) := Drain(s.Append(c.data, c.extra));
            && InStream(buf, ms, n + |c.data|)
            && (Primed(s) || c.data != [] ==> Primed(buf))
            && Complete(Frames(ms), n) <= Complete(Frames(ms), n + |c.data|)
            && out == ms[Complete(Frames(ms), n)..Complete(Frames(ms), n + |c.data|)]
  {
    hide Decode, Drain, Frame, Flatten;
    var parts := Frames(ms);
    var k := Complete(parts, n);
    var t := s.Append(c.data, c.extra);
    assert parts[k..] == Frames(ms[k..]);
    ReadFits(s, c, ms, n);
    CutInTwo(parts, n, |c.data|);
    FitsFrames(ms);
    if Primed(s) || |c.data| >= 4 {
      AppendPrimes(s, c.data, c.extra, ms[k..]);
      DrainAligned(t, ms[k..]);
    } else {
      assert t == s;
      DrainNothing(t);
    }
  }

  lemma FitsFrames(ms: seq<Message>)
    requires Fits(ms)
    ensures forall i :: 0 <= i < |ms| ==> |Frame(ms[i])| <= PACKAGE_MAX_LENGTH
  {
    forall i | 0 <= i < |ms|
      ensures |Frame(ms[i])| <= PACKAGE_MAX_LENGTH
    {
      assert LongestBuffer(ms, i) <= PACKAGE_MAX_LENGTH;
    }
  }

  lemma DrainNothing(s: Slice)
    requires s.Valid() && s.len == 0
    ensures Drain(s) == (s, [])
  {
  }

  lemma {:induction false} FeedMany(s: Slice, chunks: seq<Chunk>, ms: seq<Message>, n: nat)
    requires Positive(ms) && Fits(ms) && InStream(s, ms, n) && ReadsFit(chunks)
    requires GoesOn(Flatten(Frames(ms)), n, Arrived(chunks))
    requires !Primed(s) ==> FirstReadHasHeader(chunks)
    ensures var (buf, out) := FeedAll(s, chunks);
            var n' := n + |Arrived(chunks)|;
            && InStream(buf, ms, n')
            && Complete(Frames(ms), n) <= Complete(Frames(ms), n')
            && out == ms[Complete(Frames(ms), n)..Complete(Frames(ms), n')]
    decreases |chunks|
  {
    hide Decode, Drain, Complete, Rest, Flatten, Primed, Fits, Positive, GoesOn, Frames;
    if chunks != [] {
      var d := chunks[0].data;
      GoesOnInTwo(Flatten(Frames(ms)), n, d, Arrived(chunks[1..]));
      FeedOne(s, chunks[0], ms, n);
      FeedMany(Drain(s.Append(d, chunks[0].extra)).0, chunks[1..], ms, n + |d|);
    }
  }

  /** A buffer between two frames: the one a node starts with, or one that frames have left empty. */
  predicate AtBoundary(s: Slice) {
    s == EMPTY || (Primed(s) && s.len == 0)
  }

  /** The node has handed over the completed frames and kept what is left, byte for byte. */
  predicate Exact(s: Slice, chunks: seq<Chunk>, ms: seq<Message>)
    requires AtBoundary(s) && Arrived(chunks) <= Flatten(Frames(ms))
  {
    var (buf, out) := FeedAll(s, chunks);
    && out == ms[..Complete(Frames(ms), |Arrived(chunks)|)]
    && buf.Live() == Rest(Frames(ms), |Arrived(chunks)|)
  }

  lemma {:induction false} ArrivedOfPrefix(chunks: seq<Chunk>, j: nat)
    requires j <= |chunks|
    ensures Arrived(chunks[..j]) <= Arrived(chunks)
  {
    if j > 0 {
      ArrivedOfPrefix(chunks[1..], j - 1);
      assert chunks[..j][1..] == chunks[1..][..j - 1];
    }
  }

  /** A first read of one to three bytes is dropped: nothing stale completes the header. */
  lemma ShortReadIsDropped(c: Chunk)
    requires 0 < |c.data| < 4
    ensures Drain(EMPTY.Append(c.data, c.extra)) == (EMPTY, [])
  {
    var t := EMPTY.Append(c.data, c.extra);
    if |t.mem| >= 4 {
      assert t.mem[..4][3] == 0;
      assert !HeaderAt(t.Live(), 0);
    }
  }

  lemma {:induction false} ShortFirstRead(chunks: seq<Chunk>) returns (j: nat)
    requires !FirstReadHasHeader(chunks)
    ensures j <= |chunks| && 0 < |Arrived(chunks[..j])| < 4
    ensures FeedAll(EMPTY, chunks[..j]) == (EMPTY, [])
  {
    hide Decode, Drain;
    var c := chunks[0];
    var none: seq<Message> := [];
    assert none + none == none;
    if c.data == [] {
      assert EMPTY.Append(c.data, c.extra) == EMPTY;
      DrainNothing(EMPTY);
      j := ShortFirstRead(chunks[1..]);
      assert chunks[..j + 1][1..] == chunks[1..][..j];
      j := j + 1;
    } else {
      ShortReadIsDropped(c);
      j := 1;
      assert chunks[..1] == [c] && Arrived([c]) == c.data + Arrived([]);
      assert FeedAll(EMPTY, []) == (EMPTY, []);
      assert chunks[..1][1..] == [];
    }
  }

  lemma StartOfStream(s: Slice, ms: seq<Message>)
    requires AtBoundary(s)
    ensures InStream(s, ms, 0) && Complete(Frames(ms), 0) == 0
  {
    NothingYet(Frames(ms));
  }

  lemma ExactWithHeader(s: Slice, chunks: seq<Chunk>, ms: seq<Message>)
    requires Positive(ms) && Fits(ms) && ReadsFit(chunks) && Arrived(chunks) <= Flatten(Frames(ms))
    requires AtBoundary(s) && (!Primed(s) ==> FirstReadHasHeader(chunks))
    ensures Exact(s, chunks, ms)
  {
    hide *;
    StartOfStream(s, ms);
    GoesOnFromStart(Flatten(Frames(ms)), Arrived(chunks));
    FeedMany(s, chunks, ms, 0);
    ExactInStream(s, chunks, ms);
  }

  lemma ExactInStream(s: Slice, chunks: seq<Chunk>, ms: seq<Message>)
    requires AtBoundary(s) && Arrived(chunks) <= Flatten(Frames(ms))
    requires InStream(FeedAll(s, chunks).0, ms, |Arrived(chunks)|)
    requires FeedAll(s, chunks).1 == ms[0..Complete(Frames(ms), |Arrived(chunks)|)]
    ensures Exact(s, chunks, ms)
  {
    hide FeedAll, Arrived, Primed;
    var k := Complete(Frames(ms), |Arrived(chunks)|);
    assert ms[0..k] == ms[..k];
  }

  lemma NotExactWhenDropped(chunks: seq<Chunk>, ms: seq<Message>)
    requires Arrived(chunks) <= Flatten(Frames(ms)) && 0 < |Arrived(chunks)| < 4
    requires FeedAll(EMPTY, chunks) == (EMPTY, [])
    ensures !Exact(EMPTY, chunks, ms)
  {
    assert ms != [];
    assert |Frames(ms)[0]| >= PACKAGE_MIN_LENGTH;
  }

  predicate ExactAfter(j: nat, s: Slice, chunks: seq<Chunk>, ms: seq<Message>)
    requires AtBoundary(s)
  {
    && j <= |chunks|
    && Arrived(chunks[..j]) <= Flatten(Frames(ms))
    && Exact(s, chunks[..j], ms)
  }

  lemma ExactSoFar(j: nat, s: Slice, chunks: seq<Chunk>, ms: seq<Message>)
    requires Positive(ms) && Fits(ms) && ReadsFit(chunks) && Arrived(chunks) <= Flatten(Frames(ms))
    requires AtBoundary(s) && j <= |chunks| && (Primed(s) || FirstReadHasHeader(chunks))
    ensures ExactAfter(j, s, chunks, ms)
  {
    hide Decode, Drain, FeedAll, Exact, Flatten, Fits, Positive, Frames, Primed;
    ArrivedOfPrefix(chunks, j);
    if !Primed(s) {
      HeaderOfPrefix(chunks, j);
    }
    ExactWithHeader(s, chunks[..j], ms);
  }

  /** Chunking independence, for the reads: however a stream of frames that fit is cut, after every read
      the node has handed over exactly the frames completed so far, in order, and holds exactly the
      bytes of the unfinished one, if and only if the first bytes come with a whole header, or find
      one left in the array. */
  lemma ChunkingIndependence(s: Slice, chunks: seq<Chunk>, ms: seq<Message>)
    requires Positive(ms) && Fits(ms) && ReadsFit(chunks) && Arrived(chunks) <= Flatten(Frames(ms))
    requires AtBoundary(s)
    ensures (forall j: nat | j <= |chunks| :: ExactAfter(j, s, chunks, ms)) <==> Primed(s) || FirstReadHasHeader(chunks)
  {
    hide Decode, Drain, FeedAll, Exact, Flatten, Fits, Positive, Frames, Primed;
    if Primed(s) || FirstReadHasHeader(chunks) {
      forall j: nat | j <= |chunks|
        ensures ExactAfter(j, s, chunks, ms)
      {
        ExactSoFar(j, s, chunks, ms);
      }
    } else {
      var j := ShortFirstRead(chunks);
      ArrivedOfPrefix(chunks, j);
      NotExactWhenDropped(chunks[..j], ms);
      assert !ExactAfter(j, s, chunks, ms);
    }
  }

  lemma {:induction false} HeaderOfPrefix(chunks: seq<Chunk>, j: nat)
    requires j <= |chunks| && FirstReadHasHeader(chunks)
    ensures FirstReadHasHeader(chunks[..j])
  {
    if j > 0 && chunks[0].data == [] {
      HeaderOfPrefix(chunks[1..], j - 1);
      assert chunks[..j][1..] == chunks[1..][..j - 1];
    }
  }

  // ---------- which streams survive every cutting ----------

  /** Four bytes, and then one at a time. */
  function Trickle(b: bytes): seq<Chunk> {
    if |b| <= 4 then [Chunk(b, 0)] else Trickle(b[..|b| - 1]) + [Chunk([b[|b| - 1]], 0)]
  }

  lemma {:induction false} TrickleArrives(b: bytes)
    requires |b| >= 4
    ensures Trickle(b) != [] && |Trickle(b)[0].data| == 4
    ensures ReadsFit(Trickle(b)) && FirstReadHasHeader(Trickle(b)) && Arrived(Trickle(b)) == b
  {
    if |b| > 4 {
      hide Arrived;
      var n := |b| - 1;
      var before, c := Trickle(b[..n]), Chunk([b[n]], 0);
      TrickleArrives(b[..n]);
      ArrivedAppend(before, c);
      HeaderStays(before, c);
      assert b[..n] + [b[n]] == b;
    } else {
      var c := Chunk(b, 0);
      assert Arrived([c][1..]) == [];
      assert Arrived([c]) == b + [];
    }
  }

  lemma {:induction false} ArrivedAppend(chunks: seq<Chunk>, c: Chunk)
    ensures Arrived(chunks + [c]) == Arrived(chunks) + c.data
  {
    if chunks == [] {
      assert Arrived([c][1..]) == [];
    } else {
      ArrivedAppend(chunks[1..], c);
      assert (chunks + [c])[1..] == chunks[1..] + [c];
    }
  }

  lemma {:induction false} FeedAppend(s: Slice, chunks: seq<Chunk>, c: Chunk)
    requires s.Valid()
    ensures var (buf, out) := FeedAll(s, chunks);
            var (buf', out') := Drain(buf.Append(c.data, c.extra));
            FeedAll(s, chunks + [c]) == (buf', out + out')
    decreases |chunks|
  {
    hide Drain;
    if chunks == [] {
      var (buf', out') := Drain(s.Append(c.data, c.extra));
      assert FeedAll(buf', [c][1..]) == (buf', []) && [c] == chunks + [c];
      assert out' + [] == [] + out';
    } else {
      var (s1, out1) := Drain(s.Append(chunks[0].data, chunks[0].extra));
      FeedAppend(s1, chunks[1..], c);
      assert (chunks + [c])[1..] == chunks[1..] + [c];
      var (buf, out) := FeedAll(s1, chunks[1..]);
      var out' := Drain(buf.Append(c.data, c.extra)).1;
      assert out1 + (out + out') == (out1 + out) + out';
    }
  }

  /** A buffer beyond the maximal length is given up. */
  lemma OverlongIsDropped(s: Slice)
    requires s.Valid() && s.len > PACKAGE_MAX_LENGTH
    ensures Drain(s) == (EMPTY, [])
  {
  }

  /** A read that makes the buffer too long is lost, and with it what the buffer held. */
  lemma NotExactWhenOverlong(chunks: seq<Chunk>, c: Chunk, ms: seq<Message>)
    requires Arrived(chunks + [c]) <= Flatten(Frames(ms)) && Arrived(chunks) + c.data == Arrived(chunks + [c])
    requires Exact(EMPTY, chunks, ms) && c.data != []
    requires |Rest(Frames(ms), |Arrived(chunks)|)| + |c.data| > PACKAGE_MAX_LENGTH
    ensures !Exact(EMPTY, chunks + [c], ms)
  {
    hide Drain, Flatten, FeedAll, Frames, Complete, Rest, Arrived;
    var (buf, out) := FeedAll(EMPTY, chunks);
    FeedAppend(EMPTY, chunks, c);
    OverlongIsDropped(buf.Append(c.data, c.extra));
    assert out + [] == out;
    MoreShows(Frames(ms), |Arrived(chunks)|, |c.data|);
  }

  /** Where a frame that does not fit can be cut: behind its first `n` bytes the next `d` are too many. */
  lemma OverlongCut(ms: seq<Message>, k: nat) returns (n: nat, d: nat)
    requires k < |ms| && LongestBuffer(ms, k) > PACKAGE_MAX_LENGTH
    ensures 4 <= n < n + d <= |Flatten(Frames(ms))| && d <= READ_SIZE
    ensures |Rest(Frames(ms), n)| + d > PACKAGE_MAX_LENGTH
  {
    var parts := Frames(ms);
    var l := if |parts[k]| - 1 < PACKAGE_MAX_LENGTH then |parts[k]| - 1 else PACKAGE_MAX_LENGTH;
    CutWithin(parts, k, l);
    assert parts[k + 1..] == Frames(ms[k + 1..]);
    n := |Flatten(parts[..k])| + l;
    var left := |Flatten(parts)| - n;
    d := if left < READ_SIZE then left else READ_SIZE;
  }

  /** The cutting that shows it. */
  lemma Overlong(ms: seq<Message>, k: nat) returns (chunks: seq<Chunk>)
    requires k < |ms| && LongestBuffer(ms, k) > PACKAGE_MAX_LENGTH
    ensures ReadsFit(chunks) && FirstReadHasHeader(chunks) && Arrived(chunks) <= Flatten(Frames(ms))
    ensures !Exact(EMPTY, chunks, ms)
  {
    var n, d := OverlongCut(ms, k);
    hide Rest, Flatten, Exact, Trickle, LongestBuffer, Frames;
    var wire := Flatten(Frames(ms));
    var c := Chunk(wire[n..n + d], 0);
    var before := Trickle(wire[..n]);
    TrickleArrives(wire[..n]);
    ArrivedAppend(before, c);
    assert wire[..n] + c.data == wire[..n + d];
    HeaderStays(before, c);
    if Exact(EMPTY, before, ms) {
      NotExactWhenOverlong(before, c, ms);
      chunks := before + [c];
    } else {
      chunks := before;
    }
  }

  lemma HeaderStays(chunks: seq<Chunk>, c: Chunk)
    requires chunks != [] && |chunks[0].data| >= 4
    ensures FirstReadHasHeader(chunks + [c])
  {
  }

  ghost predicate SurvivesEveryCutting(ms: seq<Message>) {
    forall s, chunks | AtBoundary(s) && (Primed(s) || FirstReadHasHeader(chunks)) &&
        ReadsFit(chunks) && Arrived(chunks) <= Flatten(Frames(ms)) :: Exact(s, chunks, ms)
  }

  /** Chunking independence, for the frames: a stream comes through every cutting exactly if no frame of
      it can make the buffer too long, counting what a read may bring along behind it. */
  lemma FrameSizes(ms: seq<Message>)
    requires Positive(ms)
    ensures SurvivesEveryCutting(ms) <==> Fits(ms)
  {
    hide Exact, AtBoundary, Primed, LongestBuffer, Flatten, ReadsFit, FirstReadHasHeader;
    if Fits(ms) {
      forall s, chunks | AtBoundary(s) && (Primed(s) || FirstReadHasHeader(chunks)) &&
          ReadsFit(chunks) && Arrived(chunks) <= Flatten(Frames(ms))
        ensures Exact(s, chunks, ms)
      {
        ExactWithHeader(s, chunks, ms);
      }
    } else {
      var k :| 0 <= k < |ms| && LongestBuffer(ms, k) > PACKAGE_MAX_LENGTH;
      var chunks := Overlong(ms, k);
      assert AtBoundary(EMPTY) by {
        EmptyAtBoundary();
      }
    }
  }

  lemma EmptyAtBoundary()
    ensures AtBoundary(EMPTY)
  {
  }

  // ---------- resynchronisation ----------

  /** Frames separated by garbage. */
  function WithGaps(items: seq<(bytes, Message)>): bytes {
    if items == [] then [] else items[0].0 + Frame(items[0].1) + WithGaps(items[1..])
  }

  /** Resynchronisation: of a buffer held whole, the loop skips exactly the gaps. */
  lemma {:induction false} DrainSkipsGaps(s: Slice, items: seq<(bytes, Message)>)
    requires s.Valid() && s.Live() == WithGaps(items) && s.len <= PACKAGE_MAX_LENGTH
    requires forall i :: 0 <= i < |items| ==> Skippable(items[i].0) && items[i].1.id > 0
    ensures Drain(s).0.len == 0
    ensures Drain(s).1 == seq(|items|, i requires 0 <= i < |items| => items[i].1)
    decreases |items|
  {
    hide Decode;
    if items == [] {
      DrainNothing(s);
    } else {
      var (gap, m) := items[0];
      var rest := WithGaps(items[1..]);
      DecodeEncode(s, gap, m, rest);
      var pos := |gap| + |Frame(m)|;
      assert s.Live()[pos..] == rest;
      DrainSkipsGaps(s.Shift(pos), items[1..]);
    }
  }

  /** A frame that arrives in part behind a gap, when gap and part are long enough to pass for all of it:
      what is handed over ends in stale bytes, or nothing is; either way the part is lost. */
  lemma StaleBytesDelivered(s: Slice, gap: bytes, m: Message, n: nat)
    requires s.Valid() && gap != [] && Skippable(gap)
    requires 16 <= n < |Frame(m)| && s.Live() == gap + Frame(m)[..n]
    requires |Frame(m)| <= s.len <= PACKAGE_MAX_LENGTH && m.id > 0
    ensures var end := |gap| + |Frame(m)|;
            Drain(s) == (EMPTY, if end <= |s.mem| then [Message(m.id, m.content[..n - 16] + s.mem[s.len..end])] else [])
  {
    hide Decode;
    PartialBehindGap(s, gap, m, n);
    DrainStops(s);
    if Decode(s).Decoded? {
      DrainTakes(s);
      var out := [Decode(s).m];
      assert out + [] == out;
    }
  }
}
