/** The file that holds the last checkpoint (binlog/binlog_handler.go): every save overwrites the
    start of the file and never truncates it, a restart reads the first 512 bytes. */
module CacheFile {
  import opened Bytes
  import opened PosRecord

  /** The size of the read buffer. */
  const MIN_READ := 512

  /** `os.File.WriteAt(r, 0)`: what lies behind the written bytes stays. */
  function WriteAt(file: bytes, r: bytes): (file': bytes)
    ensures r <= file'
    ensures |file'| == if |r| < |file| then |file| else |r|
    ensures forall i :: |r| <= i < |file| ==> file'[i] == file[i]
  {
    r + if |r| < |file| then file[|r|..] else []
  }

  /** `getBinlogPositionCache` on an open handle: bytes the read does not fill stay zero. */
  function ReadBack(file: bytes): Checkpoint {
    if |file| == 0 then NO_CHECKPOINT
    else
      var n := if |file| < MIN_READ then |file| else MIN_READ;
      UnpackPos(file[..n] + Zeros(MIN_READ - n)).value
  }

  function SaveAll(file: bytes, saved: seq<Checkpoint>): bytes {
    if saved == [] then file
    else WriteAt(SaveAll(file, saved[..|saved| - 1]), Record(saved[|saved| - 1]))
  }

  /** Reading a file that begins with a record, whatever older records left behind it. */
  lemma ReadRecord(c: Checkpoint, file: bytes)
    requires Record(c) <= file
    ensures ReadBack(file) == c <==> |c.file| <= 494
    ensures 494 < |c.file| < 65520 ==> ReadBack(file) == NO_CHECKPOINT
  {
    hide LE, FromLE, UnpackPos;
    var n := if |file| < MIN_READ then |file| else MIN_READ;
    var data := file[..n] + Zeros(MIN_READ - n);
    forall i | 0 <= i < 18
      ensures data[i] == Record(c)[i]
    {
      assert Record(c) == file[..|Record(c)|];
    }
    UnpackRecord(c, data);
    if |c.file| <= 494 {
      RecordBytes(c);
      assert data[18..18 + |c.file|] == file[18..18 + |c.file|] == Record(c)[18..];
    }
  }

  /** The file refines a register holding the last checkpoint saved: after any history of saves of
      records of any lengths, over any file left by an earlier life, a restart reads the last one
      back exactly when its name fits what is left of the 512 bytes. */
  lemma RefinesRegister(file: bytes, saved: seq<Checkpoint>)
    requires saved != []
    ensures var last := saved[|saved| - 1];
            && (ReadBack(SaveAll(file, saved)) == last <==> |last.file| <= 494)
            && (494 < |last.file| < 65520 ==> ReadBack(SaveAll(file, saved)) == NO_CHECKPOINT)
  {
    ReadRecord(saved[|saved| - 1], SaveAll(file, saved));
  }
}
