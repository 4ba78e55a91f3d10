/** Length-framed byte strings: self-delimiting, so concatenations parse in one way. */
module Frames {
  import opened ByteOrder

  type Bytes = seq<nat>

  const COLON: nat := 58

  /** Decimal text. */
  function Decimal(n: nat): (r: Bytes)
    ensures r != [] && (|r| == 1 <==> n < 10) && forall i :: 0 <= i < |r| ==> 48 <= r[i] < 58
  {
    if n < 10 then [48 + n] else Decimal(n / 10) + [48 + n % 10]
  }

  function Header(tag: nat, n: nat): Bytes { [tag] + Decimal(n) + [COLON] }

  /** Tag, body length in decimal, a colon, the body. */
  function Frame(tag: nat, body: Bytes): (r: Bytes)
    ensures r != []
  {
    Header(tag, |body|) + body
  }

  /** The number that a text of digits denotes. */
  function ReadDecimal(b: Bytes): int { if b == [] then 0 else 10 * ReadDecimal(b[..|b| - 1]) + b[|b| - 1] - 48 }

  /** Decimal text denotes its number, with no zero in front of another digit. */
  lemma {:induction false} DecimalReads(n: nat)
    ensures ReadDecimal(Decimal(n)) == n && (n > 0 ==> Decimal(n)[0] != 48)
  {
    var d := Decimal(n);
    if n >= 10 {
      DecimalReads(n / 10);
      assert d[..|d| - 1] == Decimal(n / 10);
    } else {
      assert d[..0] == [];
    }
  }

  lemma {:induction false} DecimalInjective(m: nat, n: nat)
    requires Decimal(m) == Decimal(n)
    ensures m == n
  {
    var d, e := Decimal(m), Decimal(n);
    if m >= 10 {
      assert d[|d| - 1] == 48 + m % 10 && e[|e| - 1] == 48 + n % 10;
      assert Decimal(m / 10) == d[..|d| - 1] && Decimal(n / 10) == e[..|e| - 1];
      DecimalInjective(m / 10, n / 10);
    }
  }

  /** Text without a colon, then a colon: the first colon ends it. */
  lemma {:induction false} UpToColon(d: Bytes, e: Bytes, x: Bytes, y: Bytes)
    requires (forall i :: 0 <= i < |d| ==> d[i] != COLON) && (forall i :: 0 <= i < |e| ==> e[i] != COLON)
    requires d + [COLON] + x == e + [COLON] + y
    ensures d == e && x == y
  {
    var l, r := d + [COLON] + x, e + [COLON] + y;
    assert forall i :: 0 <= i < |d| ==> l[i] != COLON;
    assert forall i :: 0 <= i < |e| ==> r[i] != COLON;
    assert l[|d|] == COLON && l[|e|] == COLON;
    assert |d| == |e|;
    assert d == l[..|d|] && e == r[..|e|] && x == l[|d| + 1..] && y == r[|e| + 1..];
  }

  /** A frame can be told apart from whatever follows it. */
  lemma FrameIsDelimited(s: nat, a: Bytes, x: Bytes, t: nat, b: Bytes, y: Bytes)
    requires Frame(s, a) + x == Frame(t, b) + y
    ensures s == t && a == b && x == y
  {
    var l, r := Frame(s, a) + x, Frame(t, b) + y;
    assert l[0] == s && r[0] == t;
    assert l[1..] == Decimal(|a|) + [COLON] + (a + x);
    assert r[1..] == Decimal(|b|) + [COLON] + (b + y);
    UpToColon(Decimal(|a|), Decimal(|b|), a + x, b + y);
    DecimalInjective(|a|, |b|);
    assert a == (a + x)[..|a|] && b == (b + y)[..|b|];
    assert x == (a + x)[|a|..] && y == (b + y)[|b|..];
  }

  lemma FrameInjective(s: nat, a: Bytes, t: nat, b: Bytes)
    requires Frame(s, a) == Frame(t, b)
    ensures s == t && a == b
  {
    assert Frame(s, a) + [] == Frame(t, b) + [];
    FrameIsDelimited(s, a, [], t, b, []);
  }

  // -- units: one frame, or two side by side --------------------------------------------------------

  ghost predicate IsFrame(x: Bytes) { exists t, b :: x == Frame(t, b) }

  ghost predicate IsUnit(pairs: bool, x: Bytes) {
    if pairs then exists a, b :: IsFrame(a) && IsFrame(b) && x == a + b else IsFrame(x)
  }

  lemma UnitIsDelimited(pairs: bool, u: Bytes, x: Bytes, v: Bytes, y: Bytes)
    requires IsUnit(pairs, u) && IsUnit(pairs, v) && u + x == v + y
    ensures u == v && x == y && u != []
  {
    hide IsFrame;
    if pairs {
      var a, b :| IsFrame(a) && IsFrame(b) && u == a + b;
      var c, d :| IsFrame(c) && IsFrame(d) && v == c + d;
      PairsSplit(a, b, x, c, d, y);
    } else {
      FramesSplit(u, x, v, y);
    }
  }

  lemma PairsSplit(a: Bytes, b: Bytes, x: Bytes, c: Bytes, d: Bytes, y: Bytes)
    requires IsFrame(a) && IsFrame(b) && IsFrame(c) && IsFrame(d) && (a + b) + x == (c + d) + y
    ensures a == c && b == d && x == y && a + b != []
  {
    hide IsFrame;
    assert a + (b + x) == (a + b) + x && c + (d + y) == (c + d) + y;
    FramesSplit(a, b + x, c, d + y);
    FramesSplit(b, x, d, y);
  }

  lemma FramesSplit(u: Bytes, x: Bytes, v: Bytes, y: Bytes)
    requires IsFrame(u) && IsFrame(v) && u + x == v + y
    ensures u == v && x == y && u != []
  {
    var s, a :| u == Frame(s, a);
    var t, b :| v == Frame(t, b);
    FrameIsDelimited(s, a, x, t, b, y);
  }

  function Concat(parts: seq<Bytes>): Bytes {
    if parts == [] then [] else parts[0] + Concat(parts[1..])
  }

  ghost predicate AllUnits(pairs: bool, parts: seq<Bytes>) { forall i :: 0 <= i < |parts| ==> IsUnit(pairs, parts[i]) }

  lemma ConcatEmpty(pairs: bool, xs: seq<Bytes>)
    requires AllUnits(pairs, xs)
    ensures Concat(xs) == [] <==> xs == []
  {
    hide IsUnit;
    if xs != [] {
      UnitIsDelimited(pairs, xs[0], Concat(xs[1..]), xs[0], Concat(xs[1..]));
    }
  }

  /** A concatenation of units parses in one way. */
  lemma {:induction false} ConcatInjective(pairs: bool, xs: seq<Bytes>, ys: seq<Bytes>)
    requires AllUnits(pairs, xs) && AllUnits(pairs, ys) && Concat(xs) == Concat(ys)
    ensures xs == ys
    decreases |xs|
  {
    hide IsUnit;
    ConcatEmpty(pairs, xs);
    ConcatEmpty(pairs, ys);
    if xs != [] {
      UnitIsDelimited(pairs, xs[0], Concat(xs[1..]), ys[0], Concat(ys[1..]));
      ConcatInjective(pairs, xs[1..], ys[1..]);
      assert xs == [xs[0]] + xs[1..] && ys == [ys[0]] + ys[1..];
    }
  }

  // -- sorting by bytes -----------------------------------------------------------------------------------

  ghost predicate Sorted(xs: seq<Bytes>) { forall i, j :: 0 <= i < j < |xs| ==> !Less(xs[j], xs[i]) }

  function Insert(xs: seq<Bytes>, x: Bytes): (r: seq<Bytes>)
    ensures multiset(r) == multiset(xs) + multiset{x}
  {
    if xs == [] then [x]
    else
      assert xs == [xs[0]] + xs[1..];
      if Less(x, xs[0]) then [x] + xs else [xs[0]] + Insert(xs[1..], x)
  }

  function Sort(xs: seq<Bytes>): (r: seq<Bytes>)
    ensures multiset(r) == multiset(xs)
  {
    if xs == [] then []
    else
      assert xs == [xs[0]] + xs[1..];
      Insert(Sort(xs[1..]), xs[0])
  }

  lemma NotLessTrans(a: Bytes, b: Bytes, c: Bytes)
    requires !Less(b, a) && !Less(c, b)
    ensures !Less(c, a)
  {
    LessTotal(a, b);
    LessTotal(b, c);
    if Less(c, a) {
      if Less(a, b) {
        LessTrans(c, a, b);
      }
    }
  }

  lemma {:induction false} InsertSorted(xs: seq<Bytes>, x: Bytes)
    requires Sorted(xs)
    ensures Sorted(Insert(xs, x))
  {
    hide Less;
    if xs != [] {
      var r := Insert(xs, x);
      LessTotal(x, xs[0]);
      NotLessSelf(x);
      if Less(x, xs[0]) {
        LessAsym(x, xs[0]);
        forall j | 0 <= j < |xs| ensures !Less(xs[j], x) {
          if j > 0 {
            NotLessTrans(x, xs[0], xs[j]);
          }
        }
      } else {
        InsertSorted(xs[1..], x);
        var t := Insert(xs[1..], x);
        forall j | 0 <= j < |t| ensures !Less(t[j], xs[0]) {
          assert t[j] in multiset(t);
          if t[j] != x {
            assert t[j] in xs[1..];
            var k :| 0 <= k < |xs[1..]| && xs[1..][k] == t[j];
            assert xs[k + 1] == t[j];
          }
        }
      }
    }
  }

  lemma LessAsym(a: Bytes, b: Bytes)
    requires Less(a, b)
    ensures !Less(b, a)
  {
    if Less(b, a) {
      LessTrans(a, b, a);
      NotLessSelf(a);
    }
  }

  lemma {:induction false} SortSorts(xs: seq<Bytes>)
    ensures Sorted(Sort(xs))
  {
    if xs != [] {
      SortSorts(xs[1..]);
      InsertSorted(Sort(xs[1..]), xs[0]);
    }
  }

  lemma SortedHead(xs: seq<Bytes>, ys: seq<Bytes>)
    requires xs != [] && ys != [] && Sorted(xs) && Sorted(ys) && xs[0] in ys && ys[0] in xs
    ensures xs[0] == ys[0]
  {
    hide Less;
    var i :| 0 <= i < |ys| && ys[i] == xs[0];
    var j :| 0 <= j < |xs| && xs[j] == ys[0];
    LessTotal(xs[0], ys[0]);
    NotLessSelf(xs[0]);
  }

  lemma TailMultiset(xs: seq<Bytes>)
    requires xs != []
    ensures multiset(xs[1..]) == multiset(xs) - multiset{xs[0]} && xs[0] in multiset(xs)
  {
    assert xs == [xs[0]] + xs[1..];
  }

  /** A sorted arrangement is determined by its members. */
  lemma {:induction false} SortedUnique(xs: seq<Bytes>, ys: seq<Bytes>)
    requires Sorted(xs) && Sorted(ys) && multiset(xs) == multiset(ys)
    ensures xs == ys
    decreases |xs|
  {
    hide Less;
    assert |xs| == |multiset(xs)| == |multiset(ys)| == |ys|;
    if xs != [] {
      TailMultiset(xs);
      TailMultiset(ys);
      assert xs[0] in multiset(ys) && ys[0] in multiset(xs);
      SortedHead(xs, ys);
      SortedUnique(xs[1..], ys[1..]);
      assert xs == [xs[0]] + xs[1..] && ys == [ys[0]] + ys[1..];
    }
  }

  /** Sorting and joining units loses exactly their order. */
  lemma SortedConcat(pairs: bool, xs: seq<Bytes>, ys: seq<Bytes>)
    requires AllUnits(pairs, xs) && AllUnits(pairs, ys)
    ensures Concat(Sort(xs)) == Concat(Sort(ys)) <==> multiset(xs) == multiset(ys)
  {
    hide IsUnit, Concat, Sort;
    if Concat(Sort(xs)) == Concat(Sort(ys)) {
      SortUnits(pairs, xs);
      SortUnits(pairs, ys);
      ConcatInjective(pairs, Sort(xs), Sort(ys));
    }
    if multiset(xs) == multiset(ys) {
      SortSorts(xs);
      SortSorts(ys);
      SortedUnique(Sort(xs), Sort(ys));
    }
  }

  lemma SortUnits(pairs: bool, xs: seq<Bytes>)
    requires AllUnits(pairs, xs)
    ensures AllUnits(pairs, Sort(xs))
  {
    hide IsUnit;
    var r := Sort(xs);
    forall i | 0 <= i < |r| ensures IsUnit(pairs, r[i]) {
      assert r[i] in multiset(r);
      assert r[i] in xs;
    }
  }

  // -- the loops -------------------------------------------------------------------------------------------

  /** Byte order, as a sign. */
  method CompareBytes(a: Bytes, b: Bytes) returns (sign: int)
    ensures sign == if Less(a, b) then -1 else if a == b then 0 else 1
  {
    var shared := if |a| < |b| then |a| else |b|;
    var i := 0;
    assert a[0..] == a && b[0..] == b;
    while i < shared
      invariant i <= shared && a[..i] == b[..i]
      invariant Less(a, b) <==> Less(a[i..], b[i..])
    {
      assert a[i..][1..] == a[i + 1..] && b[i..][1..] == b[i + 1..];
      if a[i] != b[i] {
        return if a[i] < b[i] then -1 else 1;
      }
      i := i + 1;
    }
    if |a| == |b| {
      assert a == a[..i] && b == b[..i];
      NotLessSelf(a);
      return 0;
    }
    sign := if |a| < |b| then -1 else 1;
  }

  /** One buffer, filled part by part. */
  method ConcatBytes(parts: seq<Bytes>) returns (out: array<nat>)
    ensures out[..] == Concat(parts)
  {
    var total := 0;
    var i := 0;
    while i < |parts|
      invariant i <= |parts| && total + |Concat(parts[i..])| == |Concat(parts)|
    {
      assert parts[i..][0] == parts[i] && parts[i..][1..] == parts[i + 1..];
      total := total + |parts[i]|;
      i := i + 1;
    }
    assert parts[|parts|..] == [];
    out := new nat[total];
    var at := 0;
    i := 0;
    assert parts[0..] == parts;
    while i < |parts|
      invariant i <= |parts| && 0 <= at <= total == out.Length && at + |Concat(parts[i..])| == total
      invariant Concat(parts) == out[..at] + Concat(parts[i..])
    {
      assert parts[i..][0] == parts[i] && parts[i..][1..] == parts[i + 1..];
      ghost var done := out[..at];
      forall k | 0 <= k < |parts[i]| {
        out[at + k] := parts[i][k];
      }
      assert out[..at + |parts[i]|] == done + parts[i];
      at := at + |parts[i]|;
      i := i + 1;
    }
  }
}
