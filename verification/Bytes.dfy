/** Bytes, little-endian numbers and two's-complement 64-bit integers, as the Go code uses them.

    A shift `v >> 8k` of a signed integer is floor division by 256^k and the conversion `byte(..)`
    keeps the value modulo 256; Dafny's Euclidean `/` and `%` agree with both for negative `v`.
    An `|` of bytes shifted to disjoint places is their sum (`OrOfBytesIsSum`). */
module Bytes {

  type byte = b: int | 0 <= b < 256

  type bytes = seq<byte>

  const TWO_32 := 0x1_0000_0000
  const TWO_63 := 0x8000_0000_0000_0000
  const TWO_64 := 0x1_0000_0000_0000_0000

  type int64 = v: int | -TWO_63 <= v < TWO_63

  /** The conversion to int64: the representative of `v` modulo 2^64 in the signed range. */
  function Wrap64(v: int): (r: int64)
    ensures (r - v) % TWO_64 == 0
  {
    var m := v % TWO_64;
    if m < TWO_63 then m else m - TWO_64
  }

  /** Adding one to a wrapped counter. */
  lemma WrapNext(v: int)
    ensures Wrap64(Wrap64(v) + 1) == Wrap64(v + 1)
  {
    WrapShift(v);
    var k := (v - Wrap64(v)) / TWO_64;
    SameWrap(Wrap64(v) + 1, k);
    hide Wrap64;
    assert Wrap64(v) + 1 + TWO_64 * k == v + 1;
  }

  lemma WrapShift(v: int)
    ensures v == Wrap64(v) + TWO_64 * ((v - Wrap64(v)) / TWO_64)
  {
  }

  lemma SameWrap(v: int, k: int)
    ensures Wrap64(v + TWO_64 * k) == Wrap64(v)
  {
    assert (v + TWO_64 * k) % TWO_64 == v % TWO_64;
  }

  function Pow256(n: nat): (r: nat)
    ensures r > 0
  {
    if n == 0 then 1 else 256 * Pow256(n - 1)
  }

  /** The `n` low bytes of `v`, least significant first. */
  function LE(n: nat, v: int): (r: bytes)
    ensures |r| == n
  {
    if n == 0 then [] else [v % 256] + LE(n - 1, v / 256)
  }

  /** The number whose little-endian bytes are `s`. */
  function FromLE(s: bytes): nat {
    if s == [] then 0 else s[0] + 256 * FromLE(s[1..])
  }

  /** Division with remainder has only one answer. */
  lemma DivisionIsUnique(d: nat, q: int, r: int, q': int, r': int)
    requires q * d + r == q' * d + r'
    requires 0 <= r < d && 0 <= r' < d
    ensures q == q' && r == r'
  {
    if q > q' {
      assert (q - q') * d == q * d - q' * d;
      LeMul(1, q - q', d);
    } else if q < q' {
      assert (q' - q) * d == q' * d - q * d;
      LeMul(1, q' - q, d);
    }
  }

  lemma LeMul(x: int, y: int, d: nat)
    requires x <= y
    ensures x * d <= y * d
  {
  }

  lemma Quotient(v: int, d: nat, q: int, r: int)
    requires d > 0 && 0 <= r < d && v == q * d + r
    ensures v / d == q && v % d == r
  {
    DivisionIsUnique(d, q, r, v / d, v % d);
  }

  lemma DivDiv(v: int, a: nat, b: nat)
    requires a > 0 && b > 0
    ensures a * b > 0 && v / a / b == v / (a * b)
  {
    var u := v / a;
    var q, r, m := u / b, u % b, v % a;
    assert v == u * a + m && u == q * b + r;
    assert (q * b + r) * a == q * (a * b) + r * a;
    LeMul(r, b - 1, a);
    assert (b - 1) * a == a * b - a;
    LeMul(0, r, a);
    Quotient(v, a * b, q, r * a + m);
  }

  /** Each byte of `LE` is the shifted and truncated value the Go code stores there. */
  lemma {:induction false} LEAt(n: nat, v: int, k: nat)
    requires k < n
    ensures LE(n, v)[k] == (v / Pow256(k)) % 256
  {
    if k > 0 {
      LEAt(n - 1, v / 256, k - 1);
      DivDiv(v, 256, Pow256(k - 1));
    }
  }

  lemma LEPrefix(n: nat, v: int)
    ensures LE(n + 1, v) == LE(n, v) + [(v / Pow256(n)) % 256]
  {
    forall k | 0 <= k < n
      ensures LE(n + 1, v)[k] == LE(n, v)[k]
    {
      LEAt(n + 1, v, k);
      LEAt(n, v, k);
    }
    LEAt(n + 1, v, n);
  }

  lemma LowByteFirst(v: int, p: nat)
    requires p > 0
    ensures 256 * p > 0 && v % (256 * p) == v % 256 + 256 * (v / 256 % p)
  {
    var q, r := v / 256 / p, v / 256 % p;
    assert 256 * (q * p) == q * (256 * p);
    Quotient(v, 256 * p, q, 256 * r + v % 256);
  }

  /** Reading back what `LE` wrote loses exactly the bits above the `n` bytes. */
  lemma {:induction false} LERoundTrip(n: nat, v: int)
    ensures FromLE(LE(n, v)) == v % Pow256(n)
  {
    if n > 0 {
      LERoundTrip(n - 1, v / 256);
      assert LE(n, v)[1..] == LE(n - 1, v / 256);
      LowByteFirst(v, Pow256(n - 1));
    }
  }

  lemma Pow256Values()
    ensures Pow256(1) == 0x100 && Pow256(2) == 0x1_0000 && Pow256(3) == 0x100_0000 && Pow256(4) == TWO_32
    ensures Pow256(5) == 0x100_0000_0000 && Pow256(6) == 0x1_0000_0000_0000
    ensures Pow256(7) == 0x100_0000_0000_0000 && Pow256(8) == TWO_64
  {
    assert Pow256(1) == 256 * Pow256(0);
    assert Pow256(2) == 256 * Pow256(1);
    assert Pow256(3) == 256 * Pow256(2);
    assert Pow256(4) == 256 * Pow256(3);
    assert Pow256(5) == 256 * Pow256(4);
    assert Pow256(6) == 256 * Pow256(5);
    assert Pow256(7) == 256 * Pow256(6);
    assert Pow256(8) == 256 * Pow256(7);
  }

  /** Any int64 survives the eight bytes it is written to. */
  lemma Int64RoundTrip(v: int64)
    ensures Wrap64(FromLE(LE(8, v))) == v
  {
    LERoundTrip(8, v);
    Pow256Values();
    WrapOfMod(v);
  }

  /** Any number below 2^32 survives the four bytes it is written to. */
  lemma Nat32RoundTrip(v: nat)
    requires v < TWO_32
    ensures FromLE(LE(4, v)) == v
  {
    LERoundTrip(4, v);
    Pow256Values();
  }

  lemma WrapOfMod(v: int64)
    ensures Wrap64(v % TWO_64) == v
  {
  }

  /** The Go source assembles integers with `|`; on bytes in disjoint places it is a sum. */
  lemma OrOfBytesIsSum(a: bv64, b: bv64, c: bv64, d: bv64, e: bv64, f: bv64, g: bv64, h: bv64)
    requires a < 256 && b < 256 && c < 256 && d < 256 && e < 256 && f < 256 && g < 256 && h < 256
    ensures a | (b << 8) | (c << 16) | (d << 24) | (e << 32) | (f << 40) | (g << 48) | (h << 56)
         == a + (b << 8) + (c << 16) + (d << 24) + (e << 32) + (f << 40) + (g << 48) + (h << 56)
  {
  }

  lemma SliceOfSlice(s: bytes, a: nat, b: nat, c: nat, d: nat)
    requires a <= b <= |s| && c <= d <= b - a
    ensures s[a..b][c..d] == s[a + c..a + d]
  {
    assert forall i :: 0 <= i < d - c ==> s[a..b][c..d][i] == s[a + c..a + d][i];
  }

  function Zeros(n: nat): (r: bytes)
    ensures |r| == n && forall i :: 0 <= i < n ==> r[i] == 0
  {
    seq(n, _ => 0)
  }
}
