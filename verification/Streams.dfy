/** Byte streams made of consecutive parts, cut at arbitrary places. */
module Streams {
  import opened Bytes

  function Flatten(parts: seq<bytes>): bytes {
    if parts == [] then [] else parts[0] + Flatten(parts[1..])
  }

  /** How many parts lie completely within the first `n` bytes. */
  function Complete(parts: seq<bytes>, n: nat): (k: nat)
    ensures k <= |parts|
  {
    if parts == [] || n < |parts[0]| then 0 else 1 + Complete(parts[1..], n - |parts[0]|)
  }

  /** The bytes among the first `n` that belong to a part not yet complete. */
  function Rest(parts: seq<bytes>, n: nat): bytes
    requires n <= |Flatten(parts)|
  {
    if parts == [] || n < |parts[0]| then Flatten(parts)[..n]
    else Rest(parts[1..], n - |parts[0]|)
  }

  /** These bytes come behind the first `n`. */
  predicate GoesOn(wire: bytes, n: nat, more: bytes) {
    n <= |wire| && wire[..n] + more <= wire
  }

  lemma GoesOnInTwo(wire: bytes, n: nat, a: bytes, b: bytes)
    requires GoesOn(wire, n, a + b)
    ensures GoesOn(wire, n, a) && GoesOn(wire, n + |a|, b) && n + |a| + |b| <= |wire|
  {
    assert wire[..n] + (a + b) == wire[..n] + a + b;
    assert wire[..n] + a == wire[..n + |a|];
  }

  lemma GoesOnFromStart(wire: bytes, more: bytes)
    requires more <= wire
    ensures GoesOn(wire, 0, more)
  {
    assert wire[..0] + more == more;
  }

  lemma GoesOnLess(wire: bytes, n: nat, more: bytes, less: bytes)
    requires GoesOn(wire, n, more) && less <= more
    ensures GoesOn(wire, n, less)
  {
    assert more == less + more[|less|..];
    GoesOnInTwo(wire, n, less, more[|less|..]);
  }

  /** When they are all there is, more may follow. */
  lemma GoesOnLonger(wire: bytes, n: nat, more: bytes, end: bytes)
    requires GoesOn(wire, n, more) && n + |more| == |wire|
    ensures GoesOn(wire + end, n, more + end)
  {
    assert wire[..n] + more == wire;
    assert (wire + end)[..n] == wire[..n];
    assert wire[..n] + (more + end) == wire[..n] + more + end;
  }

  lemma {:induction false} CutConcatenates(parts: seq<bytes>, n: nat)
    requires n <= |Flatten(parts)|
    ensures Flatten(parts)[..n] == Flatten(parts[..Complete(parts, n)]) + Rest(parts, n)
  {
    if parts != [] && n >= |parts[0]| {
      var m := n - |parts[0]|;
      var k := Complete(parts[1..], m);
      CutConcatenates(parts[1..], m);
      assert parts[..k + 1][1..] == parts[1..][..k];
      TakeBehind(parts[0], Flatten(parts[1..]), m);
      Regroup(parts[0], Flatten(parts[1..][..k]), Rest(parts[1..], m));
    }
  }

  lemma TakeBehind(a: bytes, b: bytes, m: nat)
    requires m <= |b|
    ensures (a + b)[..|a| + m] == a + b[..m]
  {
  }

  lemma Regroup(a: bytes, b: bytes, c: bytes)
    ensures a + (b + c) == a + b + c
  {
  }

  lemma {:induction false} RestIsPartial(parts: seq<bytes>, n: nat)
    requires n <= |Flatten(parts)|
    ensures var k := Complete(parts, n);
            && Rest(parts, n) <= Flatten(parts[k..])
            && (k < |parts| ==> |Rest(parts, n)| < |parts[k]|)
            && (k == |parts| ==> Rest(parts, n) == [])
  {
    if parts != [] && n >= |parts[0]| {
      RestIsPartial(parts[1..], n - |parts[0]|);
      assert parts[1..][Complete(parts, n) - 1..] == parts[Complete(parts, n)..];
    } else {
      assert parts[0..] == parts;
    }
  }

  /** Parts and rest are what was received: nothing lost, nothing added, and nothing complete is
      left in the rest. */
  lemma CutIsExact(parts: seq<bytes>, n: nat)
    requires n <= |Flatten(parts)|
    ensures var k := Complete(parts, n);
            && Flatten(parts)[..n] == Flatten(parts[..k]) + Rest(parts, n)
            && Rest(parts, n) <= Flatten(parts[k..])
            && (k < |parts| ==> |Rest(parts, n)| < |parts[k]|)
            && (k == |parts| ==> Rest(parts, n) == [])
  {
    CutConcatenates(parts, n);
    RestIsPartial(parts, n);
  }

  /** Whether the first part is whole or not. */
  lemma FirstPart(parts: seq<bytes>, n: nat)
    requires n <= |Flatten(parts)|
    ensures parts != [] && n >= |parts[0]| ==>
              var m := n - |parts[0]|;
              && m <= |Flatten(parts[1..])|
              && Complete(parts, n) == 1 + Complete(parts[1..], m) && Rest(parts, n) == Rest(parts[1..], m)
    ensures parts == [] || n < |parts[0]| ==> Complete(parts, n) == 0 && Rest(parts, n) == Flatten(parts)[..n]
  {
  }

  /** Cutting in two steps: first `n` bytes, then `m` more counted from the rest. */
  lemma {:induction false} CutInTwo(parts: seq<bytes>, n: nat, m: nat)
    requires n + m <= |Flatten(parts)|
    ensures var k := Complete(parts, n);
            var r := |Rest(parts, n)|;
            && r + m <= |Flatten(parts[k..])|
            && Complete(parts, n + m) == k + Complete(parts[k..], r + m)
            && Rest(parts, n + m) == Rest(parts[k..], r + m)
  {
    hide Complete, Rest, Flatten;
    FirstPart(parts, n);
    if parts != [] && n >= |parts[0]| {
      FirstPart(parts, n + m);
      CutInTwo(parts[1..], n - |parts[0]|, m);
      var k := Complete(parts[1..], n - |parts[0]|);
      assert parts[1..][k..] == parts[k + 1..];
    } else {
      assert parts[0..] == parts;
    }
  }

  /** More bytes complete a part, or leave a rest. */
  lemma MoreShows(parts: seq<bytes>, n: nat, m: nat)
    requires n + m <= |Flatten(parts)| && m > 0
    ensures Complete(parts, n + m) > Complete(parts, n) || Rest(parts, n + m) != []
  {
    CutInTwo(parts, n, m);
    if Complete(parts, n + m) == Complete(parts, n) {
      RestWhenNone(parts[Complete(parts, n)..], |Rest(parts, n)| + m);
    }
  }

  lemma RestWhenNone(parts: seq<bytes>, n: nat)
    requires n <= |Flatten(parts)| && Complete(parts, n) == 0
    ensures Rest(parts, n) == Flatten(parts)[..n]
  {
  }

  /** A place within part `k`. */
  lemma {:induction false} CutWithin(parts: seq<bytes>, k: nat, l: nat)
    requires k < |parts| && l < |parts[k]|
    ensures |Flatten(parts)| == |Flatten(parts[..k])| + |parts[k]| + |Flatten(parts[k + 1..])|
    ensures Complete(parts, |Flatten(parts[..k])| + l) == k
    ensures |Rest(parts, |Flatten(parts[..k])| + l)| == l
  {
    if k > 0 {
      CutWithin(parts[1..], k - 1, l);
      assert parts[..k][1..] == parts[1..][..k - 1];
      assert parts[1..][k..] == parts[k + 1..];
    } else {
      assert parts[..0] == [];
    }
  }

  lemma NothingYet(parts: seq<bytes>)
    requires parts != [] ==> parts[0] != []
    ensures Complete(parts, 0) == 0 && Rest(parts, 0) == []
  {
  }

  lemma {:induction false} FlattenAppend(a: seq<bytes>, b: seq<bytes>)
    ensures Flatten(a + b) == Flatten(a) + Flatten(b)
  {
    if a == [] {
      assert a + b == b;
    } else {
      FlattenAppend(a[1..], b);
      assert (a + b)[1..] == a[1..] + b;
      assert Flatten(a + b) == a[0] + (Flatten(a[1..]) + Flatten(b));
    }
  }

  /** What follows the first `n` bytes also follows the rest they leave. */
  lemma RestContinues(parts: seq<bytes>, n: nat, more: bytes)
    requires GoesOn(Flatten(parts), n, more)
    ensures Rest(parts, n) + more <= Flatten(parts[Complete(parts, n)..])
  {
    var k := Complete(parts, n);
    CutIsExact(parts, n);
    assert parts == parts[..k] + parts[k..];
    FlattenAppend(parts[..k], parts[k..]);
    DropCommon(Flatten(parts[..k]), Rest(parts, n), more, Flatten(parts[k..]));
  }

  lemma DropCommon(a: bytes, b: bytes, c: bytes, d: bytes)
    requires a + b + c <= a + d
    ensures b + c <= d
  {
    assert (a + b + c)[|a|..] == b + c;
    assert (a + d)[|a|..] == d;
  }

  /** What is left behind the complete parts is the beginning of the others, and what follows goes on. */
  lemma PartsLeft(parts: seq<bytes>, n: nat, rest: bytes)
    requires GoesOn(Flatten(parts), n, rest)
    ensures var k := Complete(parts, n);
            var left := Rest(parts, n);
            && left <= Flatten(parts[k..])
            && GoesOn(Flatten(parts[k..]), |left|, rest)
            && Complete(parts[k..], |left|) == 0
            && |left| + |Flatten(parts)| == n + |Flatten(parts[k..])|
  {
    var k := Complete(parts, n);
    CutIsExact(parts, n);
    RestContinues(parts, n, rest);
    NoneLeft(parts, n);
    hide Complete, Rest, Flatten;
    assert parts == parts[..k] + parts[k..];
    FlattenAppend(parts[..k], parts[k..]);
    var left := Rest(parts, n);
    assert Flatten(parts[k..])[..|left|] == left;
  }

  lemma NoneLeft(parts: seq<bytes>, n: nat)
    requires n <= |Flatten(parts)|
    ensures Complete(parts[Complete(parts, n)..], |Rest(parts, n)|) == 0
  {
    CutIsExact(parts, n);
    var k := Complete(parts, n);
    hide Rest, Flatten;
    if k < |parts| {
      assert parts[k..][0] == parts[k];
    }
  }
}
