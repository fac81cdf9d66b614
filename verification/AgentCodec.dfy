/** The frames agents exchange (agent/codec.go): a four-byte header, a little-endian content length,
    a message id and the content. */
module AgentCodec {
  import opened Bytes
  import opened GoSlice

  const PACKAGE_MAX_LENGTH := 1024000
  const PACKAGE_MIN_LENGTH := 16
  const CONTENT_MIN_LEN := 8
  const HEADER: bytes := [255, 255, 255, 255]

  datatype Message = Message(id: int64, content: bytes)

  datatype CodecError = ErrInvalidPackage | ErrMaxPackError | ErrDataLenError

  /** What `Decode` answers: a frame and the position behind it; nothing yet; an error; or a run-time
      panic on a slice expression beyond the capacity. */
  datatype Decoded = Decoded(m: Message, pos: nat) | NeedMore | Failed(error: CodecError) | Panicked

  /** The bytes of a frame. The length field keeps 32 bits. */
  function Frame(m: Message): (r: bytes)
    ensures |r| == PACKAGE_MIN_LENGTH + |m.content|
    ensures HEADER <= r
  {
    HEADER + LE(4, |m.content| + 8) + LE(8, m.id) + m.content
  }

  /** `Encode`: fills a freshly allocated slice in place. */
  method Encode(m: Message) returns (r: array<byte>)
    ensures fresh(r)
    ensures r[..] == Frame(m)
  {
    var l := |m.content|;
    r := new byte[4 + l + 4 + 8];
    r[0], r[1], r[2], r[3] := 255, 255, 255, 255;
    var length, id := LE(4, l + 8), LE(8, m.id);
    forall i | 0 <= i < 4 {
      r[4 + i] := length[i];
    }
    forall i | 0 <= i < 8 {
      r[8 + i] := id[i];
    }
    forall i | 0 <= i < l {
      r[16 + i] := m.content[i];
    }
    assert r[..] == r[..4] + r[4..8] + r[8..16] + r[16..];
  }

  predicate HeaderAt(s: bytes, i: nat) {
    i + 4 <= |s| && s[i..i + 4] == HEADER
  }

  /** `bytes.Index(s, PackageHeader)`, counted from `from`: the first occurrence, or -1. */
  function HeaderIndex(s: bytes, from: nat): (r: int)
    ensures r == -1 || from <= r < |s|
    ensures r == -1 ==> forall i: nat :: from <= i ==> !HeaderAt(s, i)
    ensures r >= 0 ==> HeaderAt(s, r) && forall i: nat :: from <= i < r ==> !HeaderAt(s, i)
    decreases |s| - from
  {
    if from >= |s| then -1
    else if HeaderAt(s, from) then from
    else HeaderIndex(s, from + 1)
  }

  /** Where the header is found: at the front of the backing array, or else within the data. */
  function HeaderStart(s: Slice): int
    requires s.Valid() && |s.mem| >= 4
  {
    if s.mem[..4] == HEADER then 0 else HeaderIndex(s.Live(), 0)
  }

  /** `Decode`. Slice expressions are checked against the capacity, as Go does, so a header found
      late in the data makes it read stale bytes or panic; the tests on `s.len` are the code's. */
  function Decode(s: Slice): Decoded
    requires s.Valid()
  {
    if s.len == 0 then NeedMore
    else if |s.mem| < 4 then Panicked
    else
      var i := HeaderStart(s);
      if i < 0 then Failed(ErrInvalidPackage)
      else if s.len > PACKAGE_MAX_LENGTH then Failed(ErrMaxPackError)
      else if s.len < PACKAGE_MIN_LENGTH then NeedMore
      else
        var startPos := i + 4;
        if startPos + 4 > |s.mem| then Panicked
        else
          var clen := FromLE(s.mem[startPos..startPos + 4]);
          if clen < CONTENT_MIN_LEN then Failed(ErrDataLenError)
          else if s.len < clen + 8 then NeedMore
          else if startPos + clen + 4 > |s.mem| then Panicked
          else
            var msgID := Wrap64(FromLE(s.mem[startPos + 4..startPos + 12]));
            var content := s.mem[startPos + 12..startPos + clen + 4];
            Decoded(Message(msgID, content), startPos + clen + 4)
  }

  /** The gap in front of a frame can be skipped: the first header in gap and frame is the frame's. */
  predicate Skippable(gap: bytes) {
    (gap != [] ==> gap[|gap| - 1] != 255) && HeaderIndex(gap, 0) == -1
  }

  /** Which gaps resynchronisation recognises: exactly those with no header of their own and a last
      byte that does not run into the header of what follows. */
  lemma GapEndsAtHeader(gap: bytes, tail: bytes)
    requires HEADER <= tail
    ensures HeaderIndex(gap + tail, 0) == |gap| <==> Skippable(gap)
  {
    var s := gap + tail;
    assert s[|gap|..|gap| + 4] == tail[..4] == HEADER;
    assert HeaderAt(s, |gap|);
    if Skippable(gap) {
      forall i: nat | i < |gap|
        ensures !HeaderAt(s, i)
      {
        assert !HeaderAt(gap, i);
        if i + 4 <= |gap| {
          assert s[i..i + 4] == gap[i..i + 4];
        } else {
          assert s[i..i + 4][|gap| - 1 - i] == gap[|gap| - 1];
        }
      }
    } else if HeaderIndex(gap, 0) != -1 {
      var i := HeaderIndex(gap, 0);
      assert s[i..i + 4] == gap[i..i + 4];
      assert HeaderAt(s, i);
    } else {
      var i := |gap| - 1;
      assert s[i..i + 4] == [255, 255, 255, 255];
      assert HeaderAt(s, i);
    }
  }

  lemma StartBehindGap(s: Slice, gap: bytes, tail: bytes)
    requires s.Valid() && s.Live() == gap + tail && HEADER <= tail && Skippable(gap)
    ensures |s.mem| >= 4 && HeaderStart(s) == |gap|
  {
    GapEndsAtHeader(gap, tail);
    assert s.mem[..4] == s.Live()[..4];
    if gap == [] {
      assert s.mem[..4] == HEADER;
    } else {
      assert !HeaderAt(s.Live(), 0);
    }
  }

  lemma FrameFields(m: Message)
    requires |m.content| + 8 < TWO_32
    ensures FromLE(Frame(m)[4..8]) == |m.content| + 8
    ensures Wrap64(FromLE(Frame(m)[8..16])) == m.id
    ensures Frame(m)[16..] == m.content
  {
    hide Frame, LE, FromLE, Wrap64;
    FrameLayout(m);
    Int64RoundTrip(m.id);
    Nat32RoundTrip(|m.content| + 8);
  }

  lemma FrameLayout(m: Message)
    ensures Frame(m)[4..8] == LE(4, |m.content| + 8)
    ensures Frame(m)[8..16] == LE(8, m.id)
    ensures Frame(m)[16..] == m.content
  {
  }

  /** Where the fields of a frame stand in the backing array. */
  lemma FrameInMemory(s: Slice, at: nat, m: Message)
    requires s.Valid() && at + |Frame(m)| <= s.len
    requires s.Live()[at..at + |Frame(m)|] == Frame(m)
    requires |m.content| + 8 < TWO_32
    ensures FromLE(s.mem[at + 4..at + 8]) == |m.content| + 8
    ensures Wrap64(FromLE(s.mem[at + 8..at + 16])) == m.id
    ensures s.mem[at + 16..at + 16 + |m.content|] == m.content
  {
    FrameFields(m);
    var n := at + |Frame(m)|;
    assert s.mem[at..n] == Frame(m);
    SliceOfSlice(s.mem, at, n, 4, 8);
    SliceOfSlice(s.mem, at, n, 8, 16);
    SliceOfSlice(s.mem, at, n, 16, n - at);
  }

  /** Decoding undoes encoding, behind any gap resynchronisation recognises and in front of any
      further bytes, exactly as long as the buffer does not exceed the maximal length. */
  lemma DecodeEncode(s: Slice, gap: bytes, m: Message, rest: bytes)
    requires s.Valid() && s.Live() == gap + Frame(m) + rest
    requires Skippable(gap)
    ensures s.len <= PACKAGE_MAX_LENGTH ==> Decode(s) == Decoded(m, |gap| + |Frame(m)|)
    ensures s.len > PACKAGE_MAX_LENGTH ==> Decode(s) == Failed(ErrMaxPackError)
  {
    hide HeaderStart, Skippable, Frame;
    assert gap + Frame(m) + rest == gap + (Frame(m) + rest);
    StartBehindGap(s, gap, Frame(m) + rest);
    if s.len <= PACKAGE_MAX_LENGTH {
      assert s.Live()[|gap|..|gap| + |Frame(m)|] == Frame(m);
      FrameInMemory(s, |gap|, m);
    }
  }

  /** A frame that has arrived in part only is left alone, provided the first four bytes of the
      backing array, stale ones included, hold the header. */
  lemma DecodePartial(s: Slice, m: Message)
    requires s.Valid() && |s.mem| >= 4 && s.mem[..4] == HEADER
    requires s.Live() <= Frame(m) && s.len < |Frame(m)| <= PACKAGE_MAX_LENGTH
    ensures Decode(s) == NeedMore
  {
    if s.len >= PACKAGE_MIN_LENGTH {
      FrameFields(m);
      assert s.mem[4..8] == Frame(m)[4..8] by {
        assert s.Live() == Frame(m)[..s.len];
        SliceOfSlice(s.mem, 0, s.len, 4, 8);
        SliceOfSlice(Frame(m), 0, s.len, 4, 8);
      }
    }
  }

  /** Behind a gap it is different: the test for completeness leaves the gap out of account. A part that
      ends within the header is not found, and the buffer is given up. */
  lemma HeaderCutBehindGap(s: Slice, gap: bytes, m: Message, n: nat)
    requires s.Valid() && gap != [] && Skippable(gap)
    requires n < 4 && s.Live() == gap + Frame(m)[..n]
    ensures Decode(s) == if |s.mem| < 4 then Panicked else Failed(ErrInvalidPackage)
  {
    forall i: nat
      ensures !HeaderAt(s.Live(), i)
    {
      assert !HeaderAt(gap, i);
      if i + 4 <= |gap| {
        assert s.Live()[i..i + 4] == gap[i..i + 4];
      } else if i + 4 <= s.len {
        assert s.Live()[i..i + 4][|gap| - 1 - i] == gap[|gap| - 1];
      }
    }
    if |s.mem| >= 4 {
      assert s.mem[..4] != HEADER by {
        if |gap| <= 4 {
          assert s.mem[..4][|gap| - 1] == s.Live()[|gap| - 1];
        } else {
          assert s.mem[..4] == s.Live()[0..4];
        }
      }
    }
  }

  /** A part that ends within the length is measured by a length whose upper bytes are stale. */
  lemma LengthCutBehindGap(s: Slice, gap: bytes, m: Message, n: nat)
    requires s.Valid() && gap != [] && Skippable(gap)
    requires 4 <= n < 8 && s.Live() == gap + Frame(m)[..n] && s.len <= PACKAGE_MAX_LENGTH
    ensures s.len < PACKAGE_MIN_LENGTH ==> Decode(s) == NeedMore
    ensures s.len >= PACKAGE_MIN_LENGTH && |s.mem| < |gap| + 8 ==> Decode(s) == Panicked
    ensures s.len >= PACKAGE_MIN_LENGTH && |s.mem| >= |gap| + 8 ==>
              var clen := FromLE(Frame(m)[4..n] + s.mem[s.len..|gap| + 8]);
              && (Decode(s) == NeedMore <==> clen >= CONTENT_MIN_LEN && s.len < clen + 8)
              && (Decode(s) == Failed(ErrDataLenError) <==> clen < CONTENT_MIN_LEN)
  {
    hide HeaderStart, Skippable, Frame, FromLE;
    StartBehindGap(s, gap, Frame(m)[..n]);
    if |s.mem| >= |gap| + 8 {
      var k := |gap| + 4;
      assert s.mem[k..k + 4] == s.mem[k..s.len] + s.mem[s.len..k + 4];
      assert s.mem[k..s.len] == s.Live()[k..] == Frame(m)[4..n];
    }
  }

  /** With the length complete, the frame is waited for exactly as long as gap and part together are
      shorter than the frame. After that the decoder takes what is missing from stale bytes, or panics
      if there are not enough of them. */
  lemma PartialBehindGap(s: Slice, gap: bytes, m: Message, n: nat)
    requires s.Valid() && gap != [] && Skippable(gap)
    requires 8 <= n < |Frame(m)| && s.Live() == gap + Frame(m)[..n]
    requires PACKAGE_MIN_LENGTH <= s.len <= PACKAGE_MAX_LENGTH && |m.content| + 8 < TWO_32
    ensures Decode(s) == NeedMore <==> s.len < |Frame(m)|
    ensures s.len >= |Frame(m)| && |s.mem| < |gap| + |Frame(m)| ==> Decode(s) == Panicked
    ensures s.len >= |Frame(m)| && |s.mem| >= |gap| + |Frame(m)| && n >= 16 ==>
              Decode(s) == Decoded(Message(m.id, m.content[..n - 16] + s.mem[s.len..|gap| + |Frame(m)|]),
                                   |gap| + |Frame(m)|)
    ensures s.len >= |Frame(m)| && |s.mem| >= |gap| + |Frame(m)| && n < 16 ==>
              var id := Wrap64(FromLE(Frame(m)[8..n] + s.mem[s.len..|gap| + 16]));
              Decode(s) == Decoded(Message(id, s.mem[|gap| + 16..|gap| + |Frame(m)|]), |gap| + |Frame(m)|)
  {
    hide HeaderStart, Skippable, Frame, FromLE, LE, Decode, Wrap64;
    StartBehindGap(s, gap, Frame(m)[..n]);
    FrameFields(m);
    InPart(s, gap, m, n, 4, 8);
    DecodeLength(s, |gap|, |m.content| + 8);
    if n >= 16 {
      InPart(s, gap, m, n, 8, 16);
      SliceOfSlice(Frame(m), 16, |Frame(m)|, 0, n - 16);
      if |gap| + |Frame(m)| <= |s.mem| {
        StaleBehind(s, gap, m, n, 16, |Frame(m)|);
      }
    } else if |gap| + 16 <= |s.mem| {
      StaleBehind(s, gap, m, n, 8, 16);
    }
  }

  /** What the decoder makes of a header and a length it accepts. */
  lemma DecodeLength(s: Slice, at: nat, clen: nat)
    requires s.Valid() && PACKAGE_MIN_LENGTH <= s.len <= PACKAGE_MAX_LENGTH && |s.mem| >= 4 && HeaderStart(s) == at
    requires at + 8 <= |s.mem| && FromLE(s.mem[at + 4..at + 8]) == clen >= CONTENT_MIN_LEN
    ensures Decode(s)
         == if s.len < clen + 8 then NeedMore
            else if at + clen + 8 > |s.mem| then Panicked
            else Decoded(Message(Wrap64(FromLE(s.mem[at + 8..at + 16])), s.mem[at + 16..at + clen + 8]), at + clen + 8)
  {
    hide HeaderStart, FromLE, Wrap64;
  }

  /** Behind the part the array goes on with what is stale. */
  lemma StaleBehind(s: Slice, gap: bytes, m: Message, n: nat, from: nat, to: nat)
    requires s.Valid() && n <= |Frame(m)| && s.Live() == gap + Frame(m)[..n]
    requires from <= n <= to && |gap| + to <= |s.mem|
    ensures s.mem[|gap| + from..|gap| + to] == Frame(m)[from..n] + s.mem[s.len..|gap| + to]
  {
    hide Frame;
    InPart(s, gap, m, n, from, n);
    assert s.len == |gap| + n;
    var end := |gap| + to;
    assert s.mem[|gap| + from..end] == s.mem[|gap| + from..s.len] + s.mem[s.len..end];
  }

  /** The bytes of the part, where they stand in the backing array. */
  lemma InPart(s: Slice, gap: bytes, m: Message, n: nat, from: nat, to: nat)
    requires s.Valid() && n <= |Frame(m)| && s.Live() == gap + Frame(m)[..n] && from <= to <= n
    ensures s.mem[|gap| + from..|gap| + to] == Frame(m)[from..to]
  {
    SliceOfSlice(s.mem, 0, s.len, |gap| + from, |gap| + to);
    assert (gap + Frame(m)[..n])[|gap| + from..|gap| + to] == Frame(m)[..n][from..to];
    SliceOfSlice(Frame(m), 0, n, from, to);
  }
}
