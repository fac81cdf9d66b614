/** A Go byte slice that starts at the beginning of its backing array: the array (its length is the
    capacity) and the length of the slice. Bytes beyond the length are stale but real: a slice
    expression may reach them, up to the capacity. */
module GoSlice {
  import opened Bytes

  datatype Slice = Slice(mem: bytes, len: nat) {
    predicate Valid() {
      len <= |mem|
    }

    function Live(): (r: bytes)
      requires Valid()
      ensures |r| == len
    {
      mem[..len]
    }

    /** `append(s, data...)`: in place when the capacity allows it, otherwise into a new zeroed
        array whose spare capacity `extra` is the run time's choice. */
    function Append(data: bytes, extra: nat): (r: Slice)
      requires Valid()
      ensures r.Valid() && r.Live() == Live() + data
    {
      var n := len + |data|;
      if n <= |mem| then
        assert (Live() + data + mem[n..])[..n] == Live() + data;
        Slice(Live() + data + mem[n..], n)
      else
        assert (Live() + data + Zeros(extra))[..n] == Live() + data;
        Slice(Live() + data + Zeros(extra), n)
    }

    /** `append(s[:0], s[pos:]...)`: the bytes move to the front, what lies behind them stays. */
    function Shift(pos: nat): (r: Slice)
      requires Valid() && pos <= len
      ensures r.Valid() && r.Live() == Live()[pos..] && |r.mem| == |mem|
    {
      assert (Live()[pos..] + mem[len - pos..])[..len - pos] == Live()[pos..];
      Slice(Live()[pos..] + mem[len - pos..], len - pos)
    }
  }

  /** `make([]byte, 0)`. */
  const EMPTY := Slice([], 0)
}
