/** The SET branch of `fieldDecode` (binlog/binlog_util.go): a bit mask becomes the comma-separated list
    of the members whose bits are set. */
module FieldDecode {
  import opened Bytes

  function Pow2(n: nat): (r: nat)
    ensures r > 0
  {
    if n == 0 then 1 else 2 * Pow2(n - 1)
  }

  /** `(v & (1 << i)) > 0` on the unsigned value; beyond the 64 bits Go shifts the one out. */
  predicate Bit(v: nat, i: nat) {
    v / Pow2(i) % 2 == 1
  }

  /** The members whose bits are set, in the order of their declaration. */
  function Selected(v: nat, names: seq<string>): seq<string> {
    if names == [] then []
    else
      var n := |names| - 1;
      Selected(v, names[..n]) + if Bit(v, n) then [names[n]] else []
  }

  /** What the loop builds up: a comma only behind something that is not empty. */
  function Accumulated(sel: seq<string>): string {
    if sel == [] then ""
    else
      var n := |sel| - 1;
      var res := Accumulated(sel[..n]);
      (if res != "" then res + "," else res) + sel[n]
  }

  /** The mask of an int64 field. */
  function Mask(edata: int64): nat {
    edata % TWO_64
  }

  method DecodeSet(edata: int64, setValues: seq<string>) returns (res: string)
    ensures res == Text(edata, setValues)
  {
    var v := edata % TWO_64;
    res := "";
    var bit := 1;
    for i := 0 to |setValues|
      invariant bit == Pow2(i)
      invariant res == Accumulated(Selected(v, setValues[..i]))
    {
      assert setValues[..i + 1][..i] == setValues[..i];
      if v / bit % 2 == 1 {
        var sel := Selected(v, setValues[..i]) + [setValues[i]];
        assert sel[..|sel| - 1] == Selected(v, setValues[..i]);
        if res != "" {
          res := res + ",";
        }
        res := res + setValues[i];
      } else {
        assert Selected(v, setValues[..i + 1]) == Selected(v, setValues[..i]);
      }
      bit := 2 * bit;
    }
    assert setValues[..|setValues|] == setValues;
  }

  // ---------- reading the list back ----------

  predicate CommaFree(s: string) {
    ',' !in s
  }

  predicate AllCommaFree(names: seq<string>) {
    forall i :: 0 <= i < |names| ==> CommaFree(names[i])
  }

  predicate NonemptyAndDistinct(names: seq<string>) {
    && (forall i :: 0 <= i < |names| ==> names[i] != "")
    && (forall i, j :: 0 <= i < j < |names| ==> names[i] != names[j])
  }

  /** The place of the last comma among the first `n` characters, or -1. */
  function LastComma(s: string, n: nat): (r: int)
    requires n <= |s|
    ensures -1 <= r < n
    ensures r >= 0 ==> s[r] == ','
    ensures forall i :: r < i < n ==> s[i] != ','
  {
    if n == 0 then -1 else if s[n - 1] == ',' then n - 1 else LastComma(s, n - 1)
  }

  /** `strings.Split(s, ",")`, with no members for the empty string. */
  function SplitCommas(s: string): seq<string>
    decreases |s|
  {
    if s == "" then []
    else
      var p := LastComma(s, |s|);
      if p < 0 then [s] else SplitCommas(s[..p]) + [s[p + 1..]]
  }

  /** Where the last comma is, if one is known and none behind it. */
  lemma LastCommaIs(s: string, n: nat, p: nat)
    requires p < n <= |s| && s[p] == ',' && forall i :: p < i < n ==> s[i] != ','
    ensures LastComma(s, n) == p
  {
    hide LastComma;
    var r := LastComma(s, n);
    assert r >= p;
  }

  lemma CommaBehind(a: string, tail: string)
    requires tail != "" && tail[0] == ',' && CommaFree(tail[1..])
    ensures LastComma(a + tail, |a| + |tail|) == |a|
  {
    hide LastComma;
    var s := a + tail;
    forall i | |a| < i < |s|
      ensures s[i] != ','
    {
      assert s[i] == tail[1..][i - |a| - 1];
    }
    LastCommaIs(s, |s|, |a|);
  }

  lemma LastCommaAt(a: string, x: string)
    requires CommaFree(x)
    ensures LastComma(a + "," + x, |a| + 1 + |x|) == |a|
  {
    var tail := "," + x;
    assert a + "," + x == a + tail;
    assert tail[0] == ',' && tail[1..] == x;
    CommaBehind(a, tail);
  }

  lemma NoComma(x: string)
    requires CommaFree(x)
    ensures LastComma(x, |x|) == -1
  {
  }

  lemma SplitOne(x: string)
    requires CommaFree(x) && x != ""
    ensures SplitCommas(x) == [x]
  {
    NoComma(x);
  }

  lemma InThree(a: string, b: string, c: string)
    ensures (a + b + c)[..|a|] == a && (a + b + c)[|a| + |b|..] == c
  {
    assert a + b + c == a + (b + c);
  }

  lemma SplitAt(s: string, p: nat)
    requires s != "" && p < |s| && LastComma(s, |s|) == p
    ensures SplitCommas(s) == SplitCommas(s[..p]) + [s[p + 1..]]
  {
    hide LastComma;
  }

  lemma SplitLast(res: string, x: string)
    requires CommaFree(x)
    ensures SplitCommas(res + "," + x) == SplitCommas(res) + [x]
  {
    hide LastComma, SplitCommas, CommaFree;
    LastCommaAt(res, x);
    InThree(res, ",", x);
    SplitAt(res + "," + x, |res|);
  }

  lemma AccumulatedLast(sel: seq<string>, x: string)
    ensures Accumulated(sel + [x]) == (if Accumulated(sel) != "" then Accumulated(sel) + "," else "") + x
  {
    assert (sel + [x])[..|sel|] == sel;
  }

  /** Splitting the accumulated list yields the members. */
  lemma {:induction false} SplitAccumulated(sel: seq<string>)
    requires AllCommaFree(sel) && forall i :: 0 <= i < |sel| ==> sel[i] != ""
    ensures SplitCommas(Accumulated(sel)) == sel
    ensures sel != [] ==> Accumulated(sel) != ""
  {
    if sel == [] {
      assert Accumulated(sel) == "";
    } else {
      hide SplitCommas, Accumulated, CommaFree;
      var n := |sel| - 1;
      SplitAccumulated(sel[..n]);
      assert sel == sel[..n] + [sel[n]];
      AccumulatedLast(sel[..n], sel[n]);
      if n == 0 {
        AccumulatedNone();
        assert sel[..0] == [] && "" + sel[0] == sel[0];
        SplitOne(sel[0]);
      } else {
        SplitLast(Accumulated(sel[..n]), sel[n]);
      }
    }
  }

  lemma AccumulatedNone()
    ensures Accumulated([]) == ""
  {
  }

  lemma {:induction false} SelectedIsBits(v: nat, names: seq<string>)
    ensures forall x :: x in Selected(v, names) <==> exists i :: 0 <= i < |names| && Bit(v, i) && names[i] == x
    ensures AllCommaFree(names) ==> AllCommaFree(Selected(v, names))
  {
    if names != [] {
      var n := |names| - 1;
      SelectedIsBits(v, names[..n]);
      assert forall i :: 0 <= i < n ==> names[..n][i] == names[i];
      assert AllCommaFree(names) ==> AllCommaFree(names[..n]);
      forall x
        ensures x in Selected(v, names) <==> exists i :: 0 <= i < |names| && Bit(v, i) && names[i] == x
      {
        if x in Selected(v, names[..n]) {
          var i :| 0 <= i < n && Bit(v, i) && names[..n][i] == x;
          assert names[i] == x;
        }
        if i :| 0 <= i < |names| && Bit(v, i) && names[i] == x {
          if i < n {
            assert names[..n][i] == x;
            assert x in Selected(v, names[..n]);
          } else {
            assert x == names[n];
          }
        }
      }
    }
  }

  lemma HalfBits(v: nat, i: nat)
    ensures Bit(v, 0) <==> v % 2 == 1
    ensures Bit(v, i + 1) <==> Bit(v / 2, i)
  {
    DivDiv(v, 2, Pow2(i));
  }

  /** A number below 2^l is determined by its low `l` bits. */
  lemma {:induction false} BitsDetermine(v: nat, w: nat, l: nat)
    requires v < Pow2(l) && w < Pow2(l)
    requires forall i: nat :: i < l ==> (Bit(v, i) <==> Bit(w, i))
    ensures v == w
  {
    if l > 0 {
      HalfBits(v, 0);
      HalfBits(w, 0);
      forall i: nat | i < l - 1
        ensures Bit(v / 2, i) <==> Bit(w / 2, i)
      {
        HalfBits(v, i);
        HalfBits(w, i);
        assert Bit(v, i + 1) <==> Bit(w, i + 1);
      }
      assert Bit(v, 0) <==> Bit(w, 0);
      BitsDetermine(v / 2, w / 2, l - 1);
    }
  }

  /** The members a mask of 64 bits can select. */
  function InMask(names: seq<string>): seq<string> {
    if |names| > 64 then names[..64] else names
  }

  /** The text a field decodes to. */
  function Text(edata: int64, names: seq<string>): string {
    Accumulated(Selected(Mask(edata), names))
  }

  /** A field with no bits but those of its members. */
  predicate OnlyMembers(edata: int64, names: seq<string>) {
    |names| >= 64 || 0 <= edata < Pow2(|names|)
  }

  /** Different fields decode differently. */
  ghost predicate Invertible(names: seq<string>) {
    forall a: int64, b: int64 | OnlyMembers(a, names) && OnlyMembers(b, names) ::
      Text(a, names) == Text(b, names) ==> a == b
  }

  lemma {:induction false} PowersOfByte(k: nat)
    ensures Pow2(8 * k) == Pow256(k)
  {
    if k > 0 {
      PowersOfByte(k - 1);
      var n := 8 * k;
      assert Pow2(n - 6) == 4 * Pow2(n - 8);
      assert Pow2(n - 4) == 4 * Pow2(n - 6);
      assert Pow2(n - 2) == 4 * Pow2(n - 4);
      assert Pow2(n) == 4 * Pow2(n - 2);
    }
  }

  lemma MaskBits(names: seq<string>)
    ensures Pow2(64) == TWO_64
    ensures Pow2(|InMask(names)|) == if Pow2(|names|) < TWO_64 then Pow2(|names|) else TWO_64
  {
    PowersOfByte(8);
    Pow256Values();
    if |names| < 64 {
      Pow2Grows(|names|, 64);
    } else if |names| > 64 {
      Pow2Grows(64, |names|);
    }
  }

  /** Bits beyond the mask select nothing. */
  lemma {:induction false} SelectedInMask(v: nat, names: seq<string>)
    requires v < TWO_64
    ensures Selected(v, names) == Selected(v, InMask(names))
  {
    if |names| > 64 {
      var n := |names| - 1;
      MaskBits(names[..n]);
      if n > 64 {
        Pow2Grows(64, n);
      }
      assert v / Pow2(n) == 0;
      SelectedInMask(v, names[..n]);
      assert names[..n][..64] == names[..64];
    }
  }

  lemma SelectedHas(v: nat, names: seq<string>, i: nat)
    requires NonemptyAndDistinct(names) && i < |names|
    ensures names[i] in Selected(v, names) <==> Bit(v, i)
  {
    hide Bit;
    SelectedIsBits(v, names);
  }

  lemma SelectedSplits(v: nat, names: seq<string>)
    requires AllCommaFree(names) && NonemptyAndDistinct(names)
    ensures SplitCommas(Accumulated(Selected(v, names))) == Selected(v, names)
  {
    SelectedIsBits(v, names);
    forall k | 0 <= k < |Selected(v, names)|
      ensures Selected(v, names)[k] != ""
    {
      assert Selected(v, names)[k] in Selected(v, names);
    }
    SplitAccumulated(Selected(v, names));
  }

  /** The decoded text gives back exactly the selected members, and through them the mask. */
  lemma RecoverMask(v: nat, w: nat, names: seq<string>)
    requires AllCommaFree(names) && NonemptyAndDistinct(names)
    requires v < Pow2(|names|) && w < Pow2(|names|)
    requires Accumulated(Selected(v, names)) == Accumulated(Selected(w, names))
    ensures v == w
  {
    hide Bit, Selected, SplitCommas, Accumulated;
    SelectedSplits(v, names);
    SelectedSplits(w, names);
    forall i: nat | i < |names|
      ensures Bit(v, i) <==> Bit(w, i)
    {
      SelectedHas(v, names, i);
      SelectedHas(w, names, i);
    }
    BitsDetermine(v, w, |names|);
  }

  lemma {:induction false} SelectOne(names: seq<string>, k: nat)
    requires k < |names|
    ensures Pow2(k) < Pow2(|names|)
    ensures Selected(Pow2(k), names) == [names[k]]
  {
    var n := |names| - 1;
    OneBit(k, n);
    if k < n {
      SelectOne(names[..n], k);
    } else {
      SelectNone(names[..n], k);
    }
  }

  lemma {:induction false} SelectNone(names: seq<string>, k: nat)
    requires |names| <= k
    ensures Selected(Pow2(k), names) == []
  {
    if names != [] {
      OneBit(k, |names| - 1);
      SelectNone(names[..|names| - 1], k);
    }
  }

  lemma {:induction false} SelectZero(names: seq<string>)
    ensures Selected(0, names) == []
  {
    if names != [] {
      SelectZero(names[..|names| - 1]);
    }
  }

  lemma {:induction false} OneBit(k: nat, i: nat)
    ensures Bit(Pow2(k), i) <==> i == k
    decreases k + i
  {
    HalfBits(Pow2(k), 0);
    if k > 0 && i > 0 {
      HalfBits(Pow2(k), i - 1);
      OneBit(k - 1, i - 1);
    } else if i > 0 {
      HalfBits(1, i - 1);
      assert 0 / Pow2(i - 1) == 0;
    }
  }

  /** A mask of 64 bits is that of one field, which is its two's complement. */
  lemma MaskOfField(edata: int64, names: seq<string>)
    ensures Mask(edata) < TWO_64 && Wrap64(Mask(edata)) == edata
    ensures OnlyMembers(edata, names) ==> Mask(edata) < Pow2(|InMask(names)|)
  {
    MaskBits(names);
  }

  lemma FieldOfMask(v: nat, names: seq<string>)
    requires v < Pow2(|InMask(names)|)
    ensures v < TWO_64 && Mask(Wrap64(v)) == v && OnlyMembers(Wrap64(v), names)
  {
    MaskBits(names);
    if |names| < 64 {
      if |names| < 63 {
        Pow2Grows(|names|, 63);
      }
      assert Pow2(64) == 2 * Pow2(63);
    }
  }

  /** Which SET columns decode without loss: when no member contains a comma, the field can be recovered
      from the decoded text exactly if no member within the 64 bits is empty and no two are equal. */
  lemma InvertibleIff(names: seq<string>)
    requires AllCommaFree(InMask(names))
    ensures Invertible(names) <==> NonemptyAndDistinct(InMask(names))
  {
    hide NonemptyAndDistinct, AllCommaFree, Accumulated, Selected, OnlyMembers, Wrap64, Mask, InMask;
    var ns := InMask(names);
    if NonemptyAndDistinct(ns) {
      forall a: int64, b: int64 | OnlyMembers(a, names) && OnlyMembers(b, names) && Text(a, names) == Text(b, names)
        ensures a == b
      {
        MaskOfField(a, names);
        MaskOfField(b, names);
        SelectedInMask(Mask(a), names);
        SelectedInMask(Mask(b), names);
        RecoverMask(Mask(a), Mask(b), ns);
      }
    } else {
      var v, w := Clash(ns);
      FieldOfMask(v, names);
      FieldOfMask(w, names);
      SelectedInMask(v, names);
      SelectedInMask(w, names);
      assert Text(Wrap64(v), names) == Text(Wrap64(w), names);
    }
  }

  // ---------- which members, and in which order ----------

  lemma {:induction false} PowersMultiply(i: nat, j: nat)
    ensures Pow2(i + j) == Pow2(i) * Pow2(j)
  {
    if i > 0 {
      PowersMultiply(i - 1, j);
      Doubled(Pow2(i - 1), Pow2(j));
    }
  }

  lemma Doubled(x: nat, y: nat)
    ensures 2 * (x * y) == (2 * x) * y
  {
  }

  lemma AddMultiple(v: int, q: int, d: nat)
    requires d > 0
    ensures (v + 2 * (q * d)) / d % 2 == v / d % 2
  {
    var x, r := v / d, v % d;
    assert v == x * d + r;
    assert (x + 2 * q) * d == x * d + 2 * (q * d);
    Quotient(v + 2 * (q * d), d, x + 2 * q, r);
  }

  lemma SplitWidth(i: nat)
    requires i < 64
    ensures TWO_64 == 2 * (Pow2(63 - i) * Pow2(i))
  {
    PowersOfByte(8);
    Pow256Values();
    PowersMultiply(63 - i, i);
    assert Pow2(64) == 2 * Pow2(63);
  }

  lemma NoHighBit(v: nat, i: nat)
    requires v < TWO_64 && i >= 64
    ensures !Bit(v, i)
  {
    PowersOfByte(8);
    Pow256Values();
    if i > 64 {
      Pow2Grows(64, i);
    }
    assert v / Pow2(i) == 0;
  }

  /** The bits of the mask are those of the field in two's complement; from 64 on there are none. */
  lemma BitsOfField(edata: int64, i: nat)
    ensures Bit(Mask(edata), i) <==> i < 64 && edata / Pow2(i) % 2 == 1
  {
    hide Pow2;
    if i < 64 {
      SplitWidth(i);
      if edata < 0 {
        assert Mask(edata) == edata + TWO_64;
        AddMultiple(edata, Pow2(63 - i), Pow2(i));
      }
    } else {
      NoHighBit(Mask(edata), i);
    }
  }

  /** The selected members are those whose bits are set in the field, from the lowest bit on, each in its
      place: `places` are their indices. */
  lemma {:induction false} SelectedMembers(edata: int64, names: seq<string>) returns (places: seq<nat>)
    ensures |places| == |Selected(Mask(edata), names)|
    ensures forall k :: 0 <= k < |places| ==>
              places[k] < |names| && Selected(Mask(edata), names)[k] == names[places[k]]
    ensures forall i: nat :: i in places <==> i < |names| && i < 64 && edata / Pow2(i) % 2 == 1
    ensures forall k, l :: 0 <= k < l < |places| ==> places[k] < places[l]
  {
    hide Mask, Bit;
    if names == [] {
      places := [];
    } else {
      var n := |names| - 1;
      places := SelectedMembers(edata, names[..n]);
      BitsOfField(edata, n);
      assert forall k :: 0 <= k < |places| ==> names[..n][places[k]] == names[places[k]];
      if Bit(Mask(edata), n) {
        places := places + [n];
      }
    }
  }

  /** What splitting the decoded text yields: the member at `i` stands in it exactly if bit `i` of the field is
      set, in the order of declaration. */
  lemma DecodedMembers(edata: int64, names: seq<string>) returns (places: seq<nat>)
    requires AllCommaFree(InMask(names)) && NonemptyAndDistinct(InMask(names))
    ensures var members := SplitCommas(Text(edata, names));
            && |members| == |places|
            && forall k :: 0 <= k < |places| ==> places[k] < |names| && members[k] == names[places[k]]
    ensures forall i: nat :: i in places <==> i < |names| && i < 64 && edata / Pow2(i) % 2 == 1
    ensures forall k, l :: 0 <= k < l < |places| ==> places[k] < places[l]
    ensures forall i: nat :: i < |names| && i < 64 ==>
              (names[i] in SplitCommas(Text(edata, names)) <==> edata / Pow2(i) % 2 == 1)
  {
    hide Mask, Selected, SplitCommas, Accumulated, Bit, Pow2;
    MaskOfField(edata, names);
    SelectedInMask(Mask(edata), names);
    SelectedSplits(Mask(edata), InMask(names));
    places := SelectedMembers(edata, names);
    forall i: nat | i < |names| && i < 64
      ensures names[i] in Selected(Mask(edata), names) <==> edata / Pow2(i) % 2 == 1
    {
      BitsOfField(edata, i);
      SelectedHas(Mask(edata), InMask(names), i);
    }
  }

  lemma Clash(names: seq<string>) returns (v: nat, w: nat)
    requires !NonemptyAndDistinct(names)
    ensures v != w && v < Pow2(|names|) && w < Pow2(|names|)
    ensures Accumulated(Selected(v, names)) == Accumulated(Selected(w, names))
  {
    if i: nat :| i < |names| && names[i] == "" {
      SelectOne(names, i);
      SelectZero(names);
      assert Accumulated([names[i]][..0]) == "";
      v, w := Pow2(i), 0;
    } else {
      var i: nat, j: nat :| i < j < |names| && names[i] == names[j];
      SelectOne(names, i);
      SelectOne(names, j);
      Pow2Grows(i, j);
      v, w := Pow2(i), Pow2(j);
    }
  }

  lemma {:induction false} Pow2Grows(i: nat, j: nat)
    requires i < j
    ensures Pow2(i) < Pow2(j)
  {
    if i + 1 < j {
      Pow2Grows(i, j - 1);
    }
  }
}
