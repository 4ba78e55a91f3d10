/** Canonical bytes of plain values: equal exactly when the values agree, order counting only in sequences. */
module Canonical {
  import opened Basics
  import opened Frames

  /**
   An observed value: integers are exact, numbers are their eight bytes, strings their UTF-8 bytes;
   Opaque is anything without an encoding, such as a function or undefined.
   */
  datatype Value =
    | Null | Bool(b: bool) | Int(i: int) | Number(bits: Bytes) | Text(utf8: Bytes) | Buffer(bytes: Bytes)
    | List(items: seq<Value>) | Set(members: seq<Value>) | Map(entries: seq<Entry>) | Opaque

  datatype Entry = Entry(key: Value, value: Value)

  // -- which values are encodable -----------------------------------------------------------------

  predicate Plain(v: Value)
    decreases v
  {
    match v
    case List(xs) => AllPlain(xs)
    case Set(xs) => AllPlain(xs)
    case Map(es) => AllPlainEntries(es)
    case Opaque => false
    case _ => true
  }

  predicate AllPlain(xs: seq<Value>)
    decreases xs
  {
    xs == [] || (Plain(xs[0]) && AllPlain(xs[1..]))
  }

  predicate AllPlainEntries(es: seq<Entry>)
    decreases es
  {
    es == [] || (PlainEntry(es[0]) && AllPlainEntries(es[1..]))
  }

  predicate PlainEntry(e: Entry)
    decreases e
  {
    Plain(e.key) && Plain(e.value)
  }

  // -- the encoding --------------------------------------------------------------------------------------

  const MINUS: nat := 45

  function IntText(i: int): Bytes { if i < 0 then [MINUS] + Decimal(-i) else Decimal(i) }

  function Encode(v: Value): (r: Bytes)
    requires Plain(v)
    ensures IsFrame(r)
    decreases v
  {
    match v
    case Null => Frame('n' as nat, [])
    case Bool(b) => Frame('b' as nat, [if b then '1' as nat else '0' as nat])
    case Int(i) => Frame('i' as nat, IntText(i))
    case Number(bits) => Frame('f' as nat, bits)
    case Text(utf8) => Frame('s' as nat, utf8)
    case Buffer(bytes) => Frame('y' as nat, bytes)
    case List(xs) => Frame('l' as nat, Concat(EncodeAll(xs)))
    case Set(xs) => Frame('t' as nat, Concat(Sort(EncodeAll(xs))))
    case Map(es) => Frame('m' as nat, Concat(Sort(EncodeEntries(es))))
  }

  function EncodeAll(xs: seq<Value>): (r: seq<Bytes>)
    requires AllPlain(xs)
    ensures |r| == |xs| && AllUnits(false, r)
    decreases xs
  {
    if xs == [] then [] else [Encode(xs[0])] + EncodeAll(xs[1..])
  }

  function EncodeEntries(es: seq<Entry>): (r: seq<Bytes>)
    requires AllPlainEntries(es)
    ensures |r| == |es| && AllUnits(true, r)
    decreases es
  {
    if es == [] then [] else [EncodeEntry(es[0])] + EncodeEntries(es[1..])
  }

  function EncodeEntry(e: Entry): (r: Bytes)
    requires PlainEntry(e)
    ensures IsUnit(true, r)
    decreases e
  {
    Encode(e.key) + Encode(e.value)
  }

  /** None is the encoder's refusal. */
  function CanonicalBytes(v: Value): Option<Bytes> { if Plain(v) then Some(Encode(v)) else None }

  // -- when two observed values agree -----------------------------------------------------------------------

  function WithoutAt<T>(s: seq<T>, i: nat): (r: seq<T>)
    requires i < |s|
    ensures |r| == |s| - 1
  {
    s[..i] + s[i + 1..]
  }

  /** Scalars are equal, sequences agree in order, sets and maps pair off member by member. */
  ghost predicate Same(a: Value, b: Value)
    decreases a
  {
    match a
    case List(xs) => b.List? && SameList(xs, b.items)
    case Set(xs) => b.Set? && SameBag(xs, b.members)
    case Map(es) => b.Map? && SameEntries(es, b.entries)
    case _ => a == b
  }

  ghost predicate SameList(xs: seq<Value>, ys: seq<Value>)
    decreases xs
  {
    if xs == [] then ys == [] else ys != [] && Same(xs[0], ys[0]) && SameList(xs[1..], ys[1..])
  }

  ghost predicate SameBag(xs: seq<Value>, ys: seq<Value>)
    decreases xs
  {
    if xs == [] then ys == []
    else exists j: nat {:trigger WithoutAt(ys, j)} :: j < |ys| && Same(xs[0], ys[j]) && SameBag(xs[1..], WithoutAt(ys, j))
  }

  ghost predicate SameEntries(es: seq<Entry>, fs: seq<Entry>)
    decreases es
  {
    if es == [] then fs == []
    else exists j: nat {:trigger WithoutAt(fs, j)} ::
      j < |fs| && SameEntry(es[0], fs[j]) && SameEntries(es[1..], WithoutAt(fs, j))
  }

  ghost predicate SameEntry(e: Entry, f: Entry)
    decreases e
  {
    Same(e.key, f.key) && Same(e.value, f.value)
  }

  // -- scalar texts --------------------------------------------------------------------------------------------

  lemma IntTextInjective(i: int, j: int)
    requires IntText(i) == IntText(j)
    ensures i == j
  {
    assert i >= 0 ==> IntText(i)[0] >= 48;
    assert j >= 0 ==> IntText(j)[0] >= 48;
    if i < 0 && j < 0 {
      assert IntText(i)[1..] == Decimal(-i) && IntText(j)[1..] == Decimal(-j);
      DecimalInjective(-i, -j);
    } else if i >= 0 && j >= 0 {
      DecimalInjective(i, j);
    }
  }

  // -- members removed ----------------------------------------------------------------------------------------------

  lemma {:induction false} PlainWithout(ys: seq<Value>, j: nat)
    requires AllPlain(ys) && j < |ys|
    ensures Plain(ys[j]) && AllPlain(WithoutAt(ys, j)) && EncodeAll(ys)[j] == Encode(ys[j])
    ensures EncodeAll(WithoutAt(ys, j)) == WithoutAt(EncodeAll(ys), j)
    decreases |ys|
  {
    hide Encode, Plain;
    if j > 0 {
      PlainWithout(ys[1..], j - 1);
      assert WithoutAt(ys, j) == [ys[0]] + WithoutAt(ys[1..], j - 1);
      assert WithoutAt(ys, j)[1..] == WithoutAt(ys[1..], j - 1);
    } else {
      assert WithoutAt(ys, 0) == ys[1..];
    }
  }

  lemma {:induction false} PlainEntriesWithout(fs: seq<Entry>, j: nat)
    requires AllPlainEntries(fs) && j < |fs|
    ensures PlainEntry(fs[j]) && AllPlainEntries(WithoutAt(fs, j))
    ensures EncodeEntries(fs)[j] == EncodeEntry(fs[j])
    ensures EncodeEntries(WithoutAt(fs, j)) == WithoutAt(EncodeEntries(fs), j)
    decreases |fs|
  {
    hide EncodeEntry, PlainEntry, Plain, Encode, IsUnit;
    if j > 0 {
      PlainEntriesWithout(fs[1..], j - 1);
      assert WithoutAt(fs, j) == [fs[0]] + WithoutAt(fs[1..], j - 1);
      assert WithoutAt(fs, j)[1..] == WithoutAt(fs[1..], j - 1);
    } else {
      assert WithoutAt(fs, 0) == fs[1..];
    }
  }

  lemma HeadMultiset(xs: seq<Bytes>)
    requires xs != []
    ensures multiset(xs) == multiset{xs[0]} + multiset(xs[1..])
  {
    assert xs == [xs[0]] + xs[1..];
  }

  lemma SomeIndex(xs: seq<Bytes>, x: Bytes) returns (j: nat)
    requires x in multiset(xs)
    ensures j < |xs| && xs[j] == x
  {
    assert x in xs;
    j :| 0 <= j < |xs| && xs[j] == x;
  }

  // -- the encoding is injective on the intended classes -----------------------------------------------------------------

  lemma {:induction false} EncodesSame(a: Value, b: Value)
    requires Plain(a) && Plain(b)
    ensures Encode(a) == Encode(b) <==> Same(a, b)
    decreases a, 2
  {
    hide Frame, Sort, Concat;
    match a
    case Null => TagsApart(a, b);
    case Bool(_) => TagsApart(a, b);
    case Int(_) => TagsApart(a, b);
    case Number(_) => TagsApart(a, b);
    case Text(_) => TagsApart(a, b);
    case Buffer(_) => TagsApart(a, b);
    case List(xs) =>
      TagsApart(a, b);
      if b.List? {
        ListSame(xs, b.items);
        BodiesApart(a, b);
        if Concat(EncodeAll(xs)) == Concat(EncodeAll(b.items)) {
          ConcatInjective(false, EncodeAll(xs), EncodeAll(b.items));
        }
      }
    case Set(xs) =>
      TagsApart(a, b);
      if b.Set? {
        BagSame(xs, b.members);
        BodiesApart(a, b);
        SortedConcat(false, EncodeAll(xs), EncodeAll(b.members));
      }
    case Map(es) =>
      TagsApart(a, b);
      if b.Map? {
        EntriesSame(es, b.entries);
        BodiesApart(a, b);
        SortedConcat(true, EncodeEntries(es), EncodeEntries(b.entries));
      }
  }

  function Tag(v: Value): nat {
    match v
    case Null => 'n' as nat
    case Bool(_) => 'b' as nat
    case Int(_) => 'i' as nat
    case Number(_) => 'f' as nat
    case Text(_) => 's' as nat
    case Buffer(_) => 'y' as nat
    case List(_) => 'l' as nat
    case Set(_) => 't' as nat
    case Map(_) => 'm' as nat
    case Opaque => 0
  }

  function Body(v: Value): Bytes
    requires Plain(v)
  {
    match v
    case Null => []
    case Bool(b) => [if b then '1' as nat else '0' as nat]
    case Int(i) => IntText(i)
    case Number(bits) => bits
    case Text(utf8) => utf8
    case Buffer(bytes) => bytes
    case List(xs) => Concat(EncodeAll(xs))
    case Set(xs) => Concat(Sort(EncodeAll(xs)))
    case Map(es) => Concat(Sort(EncodeEntries(es)))
  }

  lemma EncodeIsFrame(v: Value)
    requires Plain(v)
    ensures Encode(v) == Frame(Tag(v), Body(v))
  {
    hide Frame, Sort, Concat, EncodeAll, EncodeEntries;
  }

  /** Equal encodings carry equal tags and bodies. */
  lemma BodiesApart(a: Value, b: Value)
    requires Plain(a) && Plain(b)
    ensures Encode(a) == Encode(b) <==> Tag(a) == Tag(b) && Body(a) == Body(b)
  {
    hide Encode, Tag, Body, Frame;
    EncodeIsFrame(a);
    EncodeIsFrame(b);
    if Encode(a) == Encode(b) {
      FrameInjective(Tag(a), Body(a), Tag(b), Body(b));
    }
  }

  /** The tag tells the class of a value, and a scalar's body the scalar. */
  lemma TagsApart(a: Value, b: Value)
    requires Plain(a) && Plain(b)
    ensures (a.List? == b.List? && a.Set? == b.Set? && a.Map? == b.Map?) || (Encode(a) != Encode(b) && !Same(a, b))
    ensures !a.List? && !a.Set? && !a.Map? ==> (Encode(a) == Encode(b) <==> a == b)
  {
    hide Encode, SameList, SameBag, SameEntries, EncodeAll, EncodeEntries, Concat, Sort;
    BodiesApart(a, b);
    if a.Int? && b.Int? && IntText(a.i) == IntText(b.i) {
      IntTextInjective(a.i, b.i);
    }
  }

  // -- the layout, byte by byte --------------------------------------------------------------------------------

  /** The text of an integer: a minus sign if it is negative, and the digits of its size. */
  predicate Spells(body: Bytes, i: int) {
    if i < 0 then body != [] && body[0] == '-' as nat && ReadDecimal(body[1..]) == -i else ReadDecimal(body) == i
  }

  /** The encodings of the items, one by one. */
  ghost predicate Items(parts: seq<Bytes>, xs: seq<Value>) {
    |parts| == |xs| && forall i :: 0 <= i < |xs| ==> Plain(xs[i]) && parts[i] == Encode(xs[i])
  }

  /** The encodings of the entries, each its key's and then its value's. */
  ghost predicate Pairs(parts: seq<Bytes>, es: seq<Entry>) {
    |parts| == |es| && forall i :: 0 <= i < |es| ==> PlainEntry(es[i]) && parts[i] == Encode(es[i].key) + Encode(es[i].value)
  }

  /** The parts joined in ascending byte order. */
  ghost predicate JoinsSorted(body: Bytes, parts: seq<Bytes>) {
    exists sorted :: Sorted(sorted) && multiset(sorted) == multiset(parts) && body == Concat(sorted)
  }

  /** What stands between the colon and the end: items in order, members and entries in the order of their bytes. */
  ghost predicate Holds(body: Bytes, v: Value)
    requires Plain(v)
  {
    match v
    case Null => body == []
    case Bool(b) => body == if b then ['1' as nat] else ['0' as nat]
    case Int(i) => Spells(body, i)
    case Number(bits) => body == bits
    case Text(utf8) => body == utf8
    case Buffer(bytes) => body == bytes
    case List(xs) => exists parts :: Items(parts, xs) && body == Concat(parts)
    case Set(xs) => exists parts :: Items(parts, xs) && JoinsSorted(body, parts)
    case Map(es) => exists parts :: Pairs(parts, es) && JoinsSorted(body, parts)
  }

  /** A letter for the class, the length of the body in decimal, a colon, and the body. */
  lemma Layout(v: Value)
    requires Plain(v)
    ensures exists digits, body ::
      Encode(v) == [Tag(v)] + digits + [':' as nat] + body && ReadDecimal(digits) == |body| && Holds(body, v)
  {
    hide Encode, Holds, Body;
    var body := Body(v);
    EncodeIsFrame(v);
    DecimalReads(|body|);
    BodyHolds(v);
    assert Encode(v) == [Tag(v)] + Decimal(|body|) + [':' as nat] + body;
  }

  lemma BodyHolds(v: Value)
    requires Plain(v)
    ensures Holds(Body(v), v)
  {
    hide Sort, Concat, EncodeAll, EncodeEntries, Items, Pairs, Sorted;
    match v
    case Int(i) =>
      DecimalReads(if i < 0 then -i else i);
      assert i < 0 ==> IntText(i)[1..] == Decimal(-i);
    case List(xs) => AllItems(xs);
    case Set(xs) =>
      AllItems(xs);
      SortSorts(EncodeAll(xs));
    case Map(es) =>
      AllPairs(es);
      SortSorts(EncodeEntries(es));
    case _ =>
  }

  lemma AllItems(xs: seq<Value>)
    requires AllPlain(xs)
    ensures Items(EncodeAll(xs), xs)
  {
    hide Encode, Plain;
    forall i | 0 <= i < |xs| ensures Plain(xs[i]) && EncodeAll(xs)[i] == Encode(xs[i]) {
      PlainWithout(xs, i);
    }
  }

  lemma AllPairs(es: seq<Entry>)
    requires AllPlainEntries(es)
    ensures Pairs(EncodeEntries(es), es)
  {
    hide Encode, Plain;
    forall i | 0 <= i < |es| ensures PlainEntry(es[i]) && EncodeEntries(es)[i] == Encode(es[i].key) + Encode(es[i].value) {
      PlainEntriesWithout(es, i);
    }
  }

  lemma {:induction false} ListSame(xs: seq<Value>, ys: seq<Value>)
    requires AllPlain(xs) && AllPlain(ys)
    ensures EncodeAll(xs) == EncodeAll(ys) <==> SameList(xs, ys)
    decreases xs, 1
  {
    hide Encode, Plain, Same;
    if xs != [] && ys != [] {
      EncodesSame(xs[0], ys[0]);
      ListSame(xs[1..], ys[1..]);
      var e, f := EncodeAll(xs), EncodeAll(ys);
      assert e == [Encode(xs[0])] + EncodeAll(xs[1..]) && f == [Encode(ys[0])] + EncodeAll(ys[1..]);
      assert e == f <==> e[0] == f[0] && e[1..] == f[1..];
    }
  }

  lemma {:induction false} BagSame(xs: seq<Value>, ys: seq<Value>)
    requires AllPlain(xs) && AllPlain(ys)
    ensures multiset(EncodeAll(xs)) == multiset(EncodeAll(ys)) <==> SameBag(xs, ys)
    decreases xs, 1
  {
    hide EncodeAll, SameBag;
    if multiset(EncodeAll(xs)) == multiset(EncodeAll(ys)) {
      BagPairs(xs, ys);
    }
    if SameBag(xs, ys) {
      PairsBag(xs, ys);
    }
  }

  lemma {:induction false} BagPairs(xs: seq<Value>, ys: seq<Value>)
    requires AllPlain(xs) && AllPlain(ys) && multiset(EncodeAll(xs)) == multiset(EncodeAll(ys))
    ensures SameBag(xs, ys)
    decreases xs, 0
  {
    hide Encode, Plain, Same, EncodeAll;
    if xs == [] {
      NoneLeft(EncodeAll(xs), EncodeAll(ys));
    } else {
      EncodeHead(xs);
      HeadMultiset(EncodeAll(xs));
      var j := SomeIndex(EncodeAll(ys), EncodeAll(xs)[0]);
      BagStep(xs, ys, j);
      PlainWithout(ys, j);
      EncodesSame(xs[0], ys[j]);
      BagPairs(xs[1..], WithoutAt(ys, j));
    }
  }

  lemma {:induction false} PairsBag(xs: seq<Value>, ys: seq<Value>)
    requires AllPlain(xs) && AllPlain(ys) && SameBag(xs, ys)
    ensures multiset(EncodeAll(xs)) == multiset(EncodeAll(ys))
    decreases xs, 0
  {
    hide Encode, Plain, Same, EncodeAll;
    if xs != [] {
      var j: nat :| j < |ys| && Same(xs[0], ys[j]) && SameBag(xs[1..], WithoutAt(ys, j));
      BagStep(xs, ys, j);
      EncodesSame(xs[0], ys[j]);
      PairsBag(xs[1..], WithoutAt(ys, j));
    }
  }

  lemma NoneLeft(e: seq<Bytes>, f: seq<Bytes>)
    requires e == []
    ensures multiset(e) == multiset(f) <==> f == []
  {
    if f != [] {
      HeadMultiset(f);
    }
  }

  lemma EncodeHead(xs: seq<Value>)
    requires AllPlain(xs) && xs != []
    ensures Plain(xs[0]) && AllPlain(xs[1..]) && EncodeAll(xs)[0] == Encode(xs[0]) && EncodeAll(xs)[1..] == EncodeAll(xs[1..])
  {
    hide Encode, Plain;
  }

  lemma BagStep(xs: seq<Value>, ys: seq<Value>, j: nat)
    requires AllPlain(xs) && AllPlain(ys) && xs != [] && j < |ys|
    ensures Plain(xs[0]) && Plain(ys[j]) && AllPlain(xs[1..]) && AllPlain(WithoutAt(ys, j))
    ensures Encode(xs[0]) == Encode(ys[j]) ==>
      (multiset(EncodeAll(xs)) == multiset(EncodeAll(ys)) <==> multiset(EncodeAll(xs[1..])) == multiset(EncodeAll(WithoutAt(ys, j))))
  {
    hide Encode, Plain, EncodeAll;
    EncodeHead(xs);
    PlainWithout(ys, j);
    if Encode(xs[0]) == Encode(ys[j]) {
      PairOut(EncodeAll(xs), EncodeAll(ys), j);
    }
  }

  lemma {:induction false} EntriesSame(es: seq<Entry>, fs: seq<Entry>)
    requires AllPlainEntries(es) && AllPlainEntries(fs)
    ensures multiset(EncodeEntries(es)) == multiset(EncodeEntries(fs)) <==> SameEntries(es, fs)
    decreases es, 1
  {
    hide EncodeEntries, SameEntries;
    if multiset(EncodeEntries(es)) == multiset(EncodeEntries(fs)) {
      EntriesPair(es, fs);
    }
    if SameEntries(es, fs) {
      PairedEntries(es, fs);
    }
  }

  lemma {:induction false} EntriesPair(es: seq<Entry>, fs: seq<Entry>)
    requires AllPlainEntries(es) && AllPlainEntries(fs) && multiset(EncodeEntries(es)) == multiset(EncodeEntries(fs))
    ensures SameEntries(es, fs)
    decreases es, 0
  {
    hide EncodeEntry, PlainEntry, SameEntry, EncodeEntries;
    if es == [] {
      NoneLeft(EncodeEntries(es), EncodeEntries(fs));
    } else {
      EntryHead(es);
      HeadMultiset(EncodeEntries(es));
      var j := SomeIndex(EncodeEntries(fs), EncodeEntries(es)[0]);
      EntryStep(es, fs, j);
      PlainEntriesWithout(fs, j);
      EntryApart(es[0], fs[j]);
      EntriesPair(es[1..], WithoutAt(fs, j));
    }
  }

  lemma {:induction false} PairedEntries(es: seq<Entry>, fs: seq<Entry>)
    requires AllPlainEntries(es) && AllPlainEntries(fs) && SameEntries(es, fs)
    ensures multiset(EncodeEntries(es)) == multiset(EncodeEntries(fs))
    decreases es, 0
  {
    hide EncodeEntry, PlainEntry, SameEntry, EncodeEntries;
    if es != [] {
      var j: nat :| j < |fs| && SameEntry(es[0], fs[j]) && SameEntries(es[1..], WithoutAt(fs, j));
      EntryStep(es, fs, j);
      EntryApart(es[0], fs[j]);
      PairedEntries(es[1..], WithoutAt(fs, j));
    }
  }

  lemma EntryHead(es: seq<Entry>)
    requires AllPlainEntries(es) && es != []
    ensures PlainEntry(es[0]) && AllPlainEntries(es[1..])
    ensures EncodeEntries(es)[0] == EncodeEntry(es[0]) && EncodeEntries(es)[1..] == EncodeEntries(es[1..])
  {
    hide EncodeEntry, PlainEntry;
  }

  /** Two frames side by side determine both. */
  lemma {:induction false} EntryApart(a: Entry, b: Entry)
    requires PlainEntry(a) && PlainEntry(b)
    ensures EncodeEntry(a) == EncodeEntry(b) <==> SameEntry(a, b)
    decreases a
  {
    hide Plain, Encode, IsFrame, Same;
    EncodesSame(a.key, b.key);
    EncodesSame(a.value, b.value);
    if EncodeEntry(a) == EncodeEntry(b) {
      FramesSplit(Encode(a.key), Encode(a.value), Encode(b.key), Encode(b.value));
    }
  }

  /** Taking a matching pair out of both sides. */
  lemma PairOut(e: seq<Bytes>, f: seq<Bytes>, j: nat)
    requires e != [] && j < |f| && e[0] == f[j]
    ensures multiset(e) == multiset(f) <==> multiset(e[1..]) == multiset(WithoutAt(f, j))
  {
    HeadMultiset(e);
    assert multiset(f) == multiset{f[j]} + multiset(WithoutAt(f, j)) by {
      assert f == f[..j] + [f[j]] + f[j + 1..];
    }
    if multiset(e) == multiset(f) {
      assert multiset(e[1..]) == multiset(e) - multiset{e[0]};
      assert multiset(WithoutAt(f, j)) == multiset(f) - multiset{f[j]};
    }
  }

  lemma EntryStep(es: seq<Entry>, fs: seq<Entry>, j: nat)
    requires AllPlainEntries(es) && AllPlainEntries(fs) && es != [] && j < |fs|
    ensures PlainEntry(es[0]) && PlainEntry(fs[j]) && AllPlainEntries(es[1..]) && AllPlainEntries(WithoutAt(fs, j))
    ensures EncodeEntries(es)[0] == EncodeEntry(es[0]) && EncodeEntries(fs)[j] == EncodeEntry(fs[j])
    ensures EncodeEntry(es[0]) == EncodeEntry(fs[j]) ==>
      (multiset(EncodeEntries(es)) == multiset(EncodeEntries(fs)) <==>
         multiset(EncodeEntries(es[1..])) == multiset(EncodeEntries(WithoutAt(fs, j))))
  {
    hide EncodeEntry, PlainEntry, EncodeEntries;
    EntryHead(es);
    PlainEntriesWithout(fs, j);
    if EncodeEntry(es[0]) == EncodeEntry(fs[j]) {
      PairOut(EncodeEntries(es), EncodeEntries(fs), j);
    }
  }

  /** Two encodable values have equal canonical bytes exactly when they agree. */
  lemma CanonicalIffSame(a: Value, b: Value)
    requires Plain(a) && Plain(b)
    ensures CanonicalBytes(a) == CanonicalBytes(b) <==> Same(a, b)
  {
    hide Same, Encode, Plain;
    EncodesSame(a, b);
  }
}
