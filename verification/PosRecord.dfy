/** The checkpoint record of binlog/binlog_util.go: a length, a position, an event index and the
    name of the binlog file. */
module PosRecord {
  import opened Wrappers
  import opened Bytes

  datatype Checkpoint = Checkpoint(file: bytes, pos: int64, index: int64)

  /** What `unpackPos` answers for a record it rejects. */
  const NO_CHECKPOINT := Checkpoint([], 0, 0)

  /** The layout of a record. Only the low 16 bits of the length are stored. */
  function Record(c: Checkpoint): (r: bytes)
    ensures |r| == 18 + |c.file|
  {
    LE(2, 16 + |c.file|) + LE(8, c.pos) + LE(8, c.index) + c.file
  }

  lemma RecordBytes(c: Checkpoint)
    ensures Record(c)[..2] == LE(2, 16 + |c.file|)
    ensures Record(c)[2..10] == LE(8, c.pos)
    ensures Record(c)[10..18] == LE(8, c.index)
    ensures Record(c)[18..] == c.file
  {
  }

  lemma StoredBytes(v: int)
    ensures LE(8, v) == [v % 256, v / 0x100 % 256, v / 0x1_0000 % 256, v / 0x100_0000 % 256,
                         v / 0x1_0000_0000 % 256, v / 0x100_0000_0000 % 256,
                         v / 0x1_0000_0000_0000 % 256, v / 0x100_0000_0000_0000 % 256]
  {
    Pow256Values();
    LEAt(8, v, 0);
    LEAt(8, v, 1);
    LEAt(8, v, 2);
    LEAt(8, v, 3);
    LEAt(8, v, 4);
    LEAt(8, v, 5);
    LEAt(8, v, 6);
    LEAt(8, v, 7);
  }

  lemma StoredLength(v: int)
    ensures LE(2, v) == [v % 256, v / 0x100 % 256]
  {
    Pow256Values();
    LEAt(2, v, 0);
    LEAt(2, v, 1);
  }

  /** Stores the eight bytes of an int64 at `at`. */
  method PutInt64(r: array<byte>, at: nat, v: int64)
    requires at + 8 <= r.Length
    modifies r
    ensures r[at..at + 8] == LE(8, v)
    ensures forall i :: 0 <= i < r.Length && !(at <= i < at + 8) ==> r[i] == old(r[i])
  {
    r[at], r[at + 1] := v % 256, v / 0x100 % 256;
    r[at + 2], r[at + 3] := v / 0x1_0000 % 256, v / 0x100_0000 % 256;
    r[at + 4], r[at + 5] := v / 0x1_0000_0000 % 256, v / 0x100_0000_0000 % 256;
    r[at + 6], r[at + 7] := v / 0x1_0000_0000_0000 % 256, v / 0x100_0000_0000_0000 % 256;
    StoredBytes(v);
  }

  /** `packPos`: allocate, fill in place, append the name within the capacity. */
  method PackPos(file: bytes, pos: int64, eventIndex: int64) returns (r: array<byte>)
    ensures fresh(r)
    ensures r[..] == Record(Checkpoint(file, pos, eventIndex))
  {
    hide LE;
    var l := 16 + |file|;
    r := new byte[l + 2];
    r[0] := l % 256;
    r[1] := l / 0x100 % 256;
    StoredLength(l);
    assert r[..2] == LE(2, l);
    PutInt64(r, 2, pos);
    PutInt64(r, 10, eventIndex);
    forall i | 0 <= i < |file| {
      r[18 + i] := file[i];
    }
    assert r[..] == r[..2] + r[2..10] + r[10..18] + r[18..];
  }

  /** `unpackPos`; `None` is the run-time panic on an index beyond the data. */
  function UnpackPos(data: bytes): Option<Checkpoint> {
    if |data| < 18 then None
    else
      var dl := FromLE(data[..2]);
      var pos := Wrap64(FromLE(data[2..10]));
      var eventIndex := Wrap64(FromLE(data[10..18]));
      if dl + 2 < 18 || dl > |data| - 2 then Some(NO_CHECKPOINT)
      else Some(Checkpoint(data[18..dl + 2], pos, eventIndex))
  }

  /** What `unpackPos` makes of a record, whatever follows it and however long its name is. */
  lemma UnpackRecord(c: Checkpoint, data: bytes)
    requires |data| >= 18
    requires forall i :: 0 <= i < 18 ==> data[i] == Record(c)[i]
    ensures var dl := (16 + |c.file|) % 0x1_0000;
            UnpackPos(data) == if dl < 16 || dl > |data| - 2 then Some(NO_CHECKPOINT)
                               else Some(Checkpoint(data[18..dl + 2], c.pos, c.index))
  {
    hide LE, FromLE, Wrap64;
    RecordBytes(c);
    assert data[..2] == Record(c)[..2] == LE(2, 16 + |c.file|);
    assert data[2..10] == Record(c)[2..10];
    assert data[10..18] == Record(c)[10..18];
    Int64RoundTrip(c.pos);
    Int64RoundTrip(c.index);
    LERoundTrip(2, 16 + |c.file|);
    Pow256Values();
  }

  /** The round trip, for every position and index an int64 can hold and whatever junk follows:
      it succeeds exactly when the length fits the two bytes it is stored in. */
  lemma RoundTrip(c: Checkpoint, junk: bytes)
    ensures UnpackPos(Record(c) + junk) == Some(c) <==> |c.file| + 16 < 0x1_0000
  {
    hide UnpackPos, LE;
    var data := Record(c) + junk;
    UnpackRecord(c, data);
    RecordBytes(c);
    if |c.file| + 16 < 0x1_0000 {
      assert data[18..18 + |c.file|] == c.file;
    }
  }
}
