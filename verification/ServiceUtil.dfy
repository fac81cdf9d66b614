/** The packets of the subscriber protocol (services/service_util.go), which also travel inside agent
    frames: a length, a command, the content. */
module ServiceUtil {
  import opened Bytes

  const CMD_SET_PRO := 0
  const CMD_AUTH := 1
  const CMD_ERROR := 2
  const CMD_TICK := 3
  const CMD_EVENT := 4
  const CMD_AGENT := 5
  const CMD_STOP := 6
  const CMD_RELOAD := 7
  const CMD_SHOW_MEMBERS := 8
  const CMD_POS := 9

  const FLAG_SET_PRO := 0
  const FLAG_PING := 1

  /** The layout of a packet; the length counts the command and the content. */
  function Packet(cmd: int, msg: bytes): (r: bytes)
    ensures |r| == 6 + |msg|
  {
    LE(4, |msg| + 2) + LE(2, cmd) + msg
  }

  lemma LowBytes(v: int)
    ensures LE(4, v) == [v % 256, v / 0x100 % 256, v / 0x1_0000 % 256, v / 0x100_0000 % 256]
    ensures LE(2, v) == [v % 256, v / 0x100 % 256]
  {
    Pow256Values();
    LEAt(4, v, 0);
    LEAt(4, v, 1);
    LEAt(4, v, 2);
    LEAt(4, v, 3);
    LEAt(2, v, 0);
    LEAt(2, v, 1);
  }

  /** `Pack` */
  method Pack(cmd: int, msg: bytes) returns (r: array<byte>)
    ensures fresh(r) && r[..] == Packet(cmd, msg)
  {
    var l := |msg|;
    r := new byte[l + 6];
    var cl := l + 2;
    r[0], r[1], r[2], r[3] := cl % 256, cl / 0x100 % 256, cl / 0x1_0000 % 256, cl / 0x100_0000 % 256;
    r[4], r[5] := cmd % 256, cmd / 0x100 % 256;
    forall i | 0 <= i < l {
      r[6 + i] := msg[i];
    }
    LowBytes(cl);
    LowBytes(cmd);
    assert r[..] == r[..4] + r[4..6] + r[6..];
  }

  /** `PackPro`: a topic packet; the flag precedes the topic. */
  method PackPro(flag: int, content: bytes) returns (r: array<byte>)
    ensures fresh(r) && r[..] == Packet(CMD_SET_PRO, [flag % 256] + content)
  {
    var l := |content| + 3;
    r := new byte[l + 4];
    r[0], r[1], r[2], r[3] := l % 256, l / 0x100 % 256, l / 0x1_0000 % 256, l / 0x100_0000 % 256;
    r[4], r[5], r[6] := CMD_SET_PRO % 256, CMD_SET_PRO / 0x100 % 256, flag % 256;
    forall i | 0 <= i < |content| {
      r[7 + i] := content[i];
    }
    LowBytes(l);
    LowBytes(CMD_SET_PRO);
    assert r[..] == r[..4] + r[4..6] + (r[6..7] + r[7..]);
  }

  datatype Unpacked = Unpacked(cmd: int, content: bytes) | ErrDataLen | Panicked

  /** `Unpack`; an index or a slice bound out of range panics. */
  function Unpack(data: bytes): Unpacked {
    if |data| < 4 then Panicked
    else
      var clen := FromLE(data[..4]);
      if |data| < clen + 4 then ErrDataLen
      else if |data| < 6 || clen + 4 < 6 then Panicked
      else Unpacked(FromLE(data[4..6]), data[6..clen + 4])
  }

  /** What stands in the fields of a packet, whatever follows it. */
  lemma PacketFields(cmd: int, msg: bytes, rest: bytes)
    ensures var data := Packet(cmd, msg) + rest;
            && FromLE(data[..4]) == (|msg| + 2) % TWO_32
            && FromLE(data[4..6]) == cmd % 0x1_0000
            && data[6..6 + |msg|] == msg
  {
    var data := Packet(cmd, msg) + rest;
    assert data[..4] == LE(4, |msg| + 2);
    assert data[4..6] == LE(2, cmd);
    LERoundTrip(4, |msg| + 2);
    LERoundTrip(2, cmd);
    Pow256Values();
  }

  /** Unpacking undoes packing, whatever follows the packet, exactly if the command fits two bytes and
      the length four. */
  lemma UnpackPack(cmd: int, msg: bytes, rest: bytes)
    ensures Unpack(Packet(cmd, msg) + rest) == Unpacked(cmd, msg) <==> 0 <= cmd < 0x1_0000 && |msg| + 2 < TWO_32
  {
    hide Packet, LE, FromLE;
    PacketFields(cmd, msg, rest);
  }

  /** A packet cut off: with less than its length the index panics, otherwise it is an error. */
  lemma UnpackPart(cmd: int, msg: bytes, n: nat)
    requires n < |Packet(cmd, msg)| && |msg| + 2 < TWO_32
    ensures Unpack(Packet(cmd, msg)[..n]) == if n < 4 then Panicked else ErrDataLen
  {
    hide LE, FromLE;
    PacketFields(cmd, msg, []);
    assert Packet(cmd, msg) + [] == Packet(cmd, msg);
    if n >= 4 {
      assert Packet(cmd, msg)[..n][..4] == Packet(cmd, msg)[..4];
    }
  }

  /** A length that does not even count the command panics. */
  lemma UnpackShort(data: bytes)
    requires |data| >= 4 && FromLE(data[..4]) < 2 && |data| >= FromLE(data[..4]) + 4
    ensures Unpack(data) == Panicked
  {
  }

  /** `hasCmd` */
  predicate HasCmd(cmd: int) {
    cmd == CMD_SET_PRO || cmd == CMD_AUTH || cmd == CMD_ERROR || cmd == CMD_TICK || cmd == CMD_EVENT ||
    cmd == CMD_AGENT || cmd == CMD_STOP || cmd == CMD_RELOAD || cmd == CMD_SHOW_MEMBERS || cmd == CMD_POS
  }
}
