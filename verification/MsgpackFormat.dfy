/** The byte layouts of the MessagePack specification, and that packer and unpacker keep to them. */
module MsgpackFormat {
  import opened Basics
  import opened Msgpack

  /** The formats of the specification, with the width of the number that follows the first byte where there is one. */
  datatype Form =
    | PositiveFixInt | FixMap | FixArray | FixStr | NilForm | NeverUsed | FalseForm | TrueForm
    | BinForm | ExtForm | FloatForm | UintForm(w: nat) | IntForm(w: nat) | FixExt
    | StrForm(w: nat) | ArrayForm(w: nat) | MapForm(w: nat) | NegativeFixInt

  /** The overview table of the specification, by first byte. */
  function FormOf(tag: nat): Form
    requires tag < 256
  {
    if tag <= 0x7f then PositiveFixInt
    else if tag <= 0x8f then FixMap
    else if tag <= 0x9f then FixArray
    else if tag <= 0xbf then FixStr
    else if tag >= 0xe0 then NegativeFixInt
    else
      match tag
      case 0xc0 => NilForm
      case 0xc1 => NeverUsed
      case 0xc2 => FalseForm
      case 0xc3 => TrueForm
      case 0xc4 => BinForm
      case 0xc5 => BinForm
      case 0xc6 => BinForm
      case 0xc7 => ExtForm
      case 0xc8 => ExtForm
      case 0xc9 => ExtForm
      case 0xca => FloatForm
      case 0xcb => FloatForm
      case 0xcc => UintForm(1)
      case 0xcd => UintForm(2)
      case 0xce => UintForm(4)
      case 0xcf => UintForm(8)
      case 0xd0 => IntForm(1)
      case 0xd1 => IntForm(2)
      case 0xd2 => IntForm(4)
      case 0xd3 => IntForm(8)
      case 0xd9 => StrForm(1)
      case 0xda => StrForm(2)
      case 0xdb => StrForm(4)
      case 0xdc => ArrayForm(2)
      case 0xdd => ArrayForm(4)
      case 0xde => MapForm(2)
      case 0xdf => MapForm(4)
      case _ => FixExt
  }

  // -- what a stretch of bytes says ------------------------------------------------------------------------

  /** A first byte of this form, and a big-endian number of its width. */
  predicate Counts(b: Bytes, w: nat, n: nat) { |b| == 1 + w && FromBE(b[1..]) == n }

  ghost predicate SaysInt(b: Bytes, n: int)
    requires b != [] && b[0] < 256
  {
    match FormOf(b[0])
    case PositiveFixInt => |b| == 1 && n == b[0]
    case NegativeFixInt => |b| == 1 && n + 0x100 == b[0]
    case UintForm(w) => |b| == 1 + w && n == FromBE(b[1..])
    case IntForm(w) => |b| == 1 + w && w > 0 && n == FromSigned(b[1..])
    case _ => false
  }

  /** A header that announces a string of `n` bytes, an array of `n` values, or a map of `n` pairs. */
  ghost predicate HeadsStr(b: Bytes, n: nat)
    requires b != [] && b[0] < 256
  {
    match FormOf(b[0])
    case FixStr => |b| == 1 && n == b[0] - 0xa0
    case StrForm(w) => Counts(b, w, n)
    case _ => false
  }

  ghost predicate HeadsArray(b: Bytes, n: nat)
    requires b != [] && b[0] < 256
  {
    match FormOf(b[0])
    case FixArray => |b| == 1 && n == b[0] - 0x90
    case ArrayForm(w) => Counts(b, w, n)
    case _ => false
  }

  ghost predicate HeadsMap(b: Bytes, n: nat)
    requires b != [] && b[0] < 256
  {
    match FormOf(b[0])
    case FixMap => |b| == 1 && n == b[0] - 0x80
    case MapForm(w) => Counts(b, w, n)
    case _ => false
  }

  predicate Begun(b: Bytes) { b != [] && b[0] < 256 }

  ghost predicate SaysStr(b: Bytes, s: Bytes) {
    exists k :: 0 < k <= |b| && Begun(b[..k]) && HeadsStr(b[..k], |s|) && b[k..] == s
  }

  /** The bytes are an encoding of the value; byte payloads are arrays of integers, and undefined is nil. */
  ghost predicate Says(b: Bytes, v: Value)
    decreases v, 1
  {
    && Begun(b)
    && match v
       case Nil => |b| == 1 && FormOf(b[0]) == NilForm
       case Undefined => |b| == 1 && FormOf(b[0]) == NilForm
       case Bool(x) => |b| == 1 && FormOf(b[0]) == if x then TrueForm else FalseForm
       case Int(n) => SaysInt(b, n)
       case Float => false
       case Str(s) => SaysStr(b, s)
       case Blob(s) => exists k :: 0 < k <= |b| && Begun(b[..k]) && HeadsArray(b[..k], |s|) && SaysInts(b[k..], s)
       case Arr(xs) => exists k :: 0 < k <= |b| && Begun(b[..k]) && HeadsArray(b[..k], |xs|) && SaysAll(b[k..], xs)
       case Obj(fs, _) => exists k :: 0 < k <= |b| && Begun(b[..k]) && HeadsMap(b[..k], |Written(fs)|) && SaysFields(b[k..], fs)
  }

  ghost predicate SaysInts(b: Bytes, s: Bytes)
    decreases s
  {
    if s == [] then b == []
    else exists k :: 0 < k <= |b| && Begun(b[..k]) && SaysInt(b[..k], s[0]) && SaysInts(b[k..], s[1..])
  }

  /** One value after the other. */
  ghost predicate SaysAll(b: Bytes, xs: seq<Value>)
    decreases xs, 0
  {
    if xs == [] then b == [] else exists k :: 0 <= k <= |b| && Says(b[..k], xs[0]) && SaysAll(b[k..], xs[1..])
  }

  /** One pair after the other, each key before its value, undefined fields left out. */
  ghost predicate SaysFields(b: Bytes, fs: seq<Field>)
    decreases fs, 0
  {
    if fs == [] then b == []
    else if fs[0].value.Undefined? then SaysFields(b, fs[1..])
    else exists k :: 0 <= k <= |b| && SaysField(b[..k], fs[0]) && SaysFields(b[k..], fs[1..])
  }

  ghost predicate SaysField(b: Bytes, f: Field)
    decreases f, 0
  {
    exists k :: 0 <= k <= |b| && SaysStr(b[..k], f.key) && Says(b[k..], f.value)
  }

  // -- the packer keeps to it -------------------------------------------------------------------------------

  lemma SplitAt(a: Bytes, b: Bytes)
    ensures (a + b)[..|a|] == a && (a + b)[|a|..] == b
  {
  }

  lemma TagFirst(tag: nat, b: Bytes)
    ensures ([tag] + b)[0] == tag && ([tag] + b)[1..] == b && |[tag] + b| == 1 + |b|
  {
  }

  lemma OneByte(n: nat)
    requires n < 256
    ensures BE(n, 1) == [n] && forall tag: nat :: [tag, n] == [tag] + BE(n, 1)
  {
    assert BE(n / 256, 0) == [];
  }

  lemma PositiveSays(n: int)
    requires 0 <= n <= MAX_SAFE
    ensures Begun(PackInt(n)) && SaysInt(PackInt(n), n)
  {
    hide FromBE, BE, FromSigned;
    Widths();
    if n < 0x80 {
    } else if n <= 0xff {
      OneByte(n);
      TagFirst(0xcc, BE(n, 1));
      BEInverse(n, 1);
    } else if n <= 0xffff {
      TagFirst(0xcd, BE(n, 2));
      BEInverse(n, 2);
    } else if n <= 0xffff_ffff {
      TagFirst(0xce, BE(n, 4));
      BEInverse(n, 4);
    } else {
      TagFirst(0xcf, BE(n, 8));
      BEInverse(n, 8);
    }
  }

  lemma NegativeSays(n: int)
    requires -MAX_SAFE <= n < 0
    ensures Begun(PackInt(n)) && SaysInt(PackInt(n), n)
  {
    hide FromBE, BE, FromSigned, HighHalf, LowHalf;
    Widths();
    if n >= -32 {
    } else if n >= -0x80 {
      OneByte(n + 0x100);
      TagFirst(0xd0, BE(n + 0x100, 1));
      SignedInverse(n, 1);
    } else if n >= -0x8000 {
      TagFirst(0xd1, BE(n + 0x1_0000, 2));
      SignedInverse(n, 2);
    } else if n >= -0x8000_0000 {
      TagFirst(0xd2, BE(n + TWO32, 4));
      SignedInverse(n, 4);
    } else {
      Halves(n);
      assert PackInt(n) == [0xd3] + BE(n + TWO32 * TWO32, 8);
      TagFirst(0xd3, BE(n + TWO32 * TWO32, 8));
      SignedInverse(n, 8);
    }
  }

  lemma IntSays(n: int)
    requires Safe(n)
    ensures Begun(PackInt(n)) && SaysInt(PackInt(n), n)
  {
    hide PackInt, SaysInt;
    if n >= 0 {
      PositiveSays(n);
    } else {
      NegativeSays(n);
    }
  }

  /** What comes before the bytes of a string. */
  function StrHead(len: nat): Bytes {
    if len < 32 then [0xa0 + len]
    else if len <= 0xff then [0xd9, len]
    else if len <= 0xffff then [0xda] + BE(len, 2)
    else [0xdb] + BE(len, 4)
  }

  lemma StrSays(s: Bytes)
    requires |s| < TWO32
    ensures Begun(PackStr(s)) && SaysStr(PackStr(s), s)
  {
    hide FromBE, BE;
    Widths();
    var len := |s|;
    var head := StrHead(len);
    SplitAt(head, s);
    assert PackStr(s) == head + s;
    if len >= 32 {
      if len <= 0xff {
        OneByte(len);
        BEInverse(len, 1);
      } else if len <= 0xffff {
        BEInverse(len, 2);
      } else {
        BEInverse(len, 4);
      }
    }
    assert Begun(head) && HeadsStr(head, len);
    assert PackStr(s)[..|head|] == head && PackStr(s)[|head|..] == s;
  }

  lemma ArrayHead(n: nat)
    requires n < TWO32
    ensures var h := Header(n, 0x90, 16, 0xdc); Begun(h) && HeadsArray(h, n)
  {
    hide FromBE, BE;
    Widths();
    if n >= 16 {
      if n <= 0xffff {
        BEInverse(n, 2);
      } else {
        BEInverse(n, 4);
      }
    }
  }

  lemma MapHead(n: nat)
    requires n < TWO32
    ensures var h := Header(n, 0x80, 16, 0xde); Begun(h) && HeadsMap(h, n)
  {
    hide FromBE, BE;
    Widths();
    if n >= 16 {
      if n <= 0xffff {
        BEInverse(n, 2);
      } else {
        BEInverse(n, 4);
      }
    }
  }

  /** Whatever packs, packs to an encoding of itself. */
  lemma {:induction false} PackSays(v: Value)
    requires Held(v) && Pack(v).Some?
    ensures Says(Pack(v).value, v)
    decreases v, 1
  {
    hide Header, PackStr, PackInt, HeadsArray, HeadsMap, SaysInt, SaysStr, PackAll, PackFields, PackBytes, SaysAll, SaysFields, SaysInts;
    match v
    case Nil =>
    case Undefined =>
    case Bool(_) =>
    case Int(n) => IntSays(n);
    case Str(s) => StrSays(s);
    case Blob(s) =>
      var head := Header(|s|, 0x90, 16, 0xdc);
      ArrayHead(|s|);
      BytesSay(s);
      SplitAt(head, PackBytes(s));
      assert Begun((head + PackBytes(s))[..|head|]);
    case Arr(xs) =>
      var head := Header(|xs|, 0x90, 16, 0xdc);
      ArrayHead(|xs|);
      AllSay(xs);
      SplitAt(head, PackAll(xs).value);
      assert Begun((head + PackAll(xs).value)[..|head|]);
    case Obj(fs, _) =>
      var head := Header(|Written(fs)|, 0x80, 16, 0xde);
      MapHead(|Written(fs)|);
      FieldsSay(fs);
      SplitAt(head, PackFields(fs).value);
      assert Begun((head + PackFields(fs).value)[..|head|]);
  }

  lemma {:induction false} BytesSay(s: Bytes)
    requires forall i :: 0 <= i < |s| ==> IsByte(s[i])
    ensures SaysInts(PackBytes(s), s)
  {
    hide PackInt, SaysInt;
    if s != [] {
      IntSays(s[0]);
      BytesSay(s[1..]);
      SplitAt(PackInt(s[0]), PackBytes(s[1..]));
      assert Begun(PackBytes(s)[..|PackInt(s[0])|]);
    }
  }

  lemma {:induction false} AllSay(xs: seq<Value>)
    requires AllHeld(xs) && PackAll(xs).Some?
    ensures SaysAll(PackAll(xs).value, xs)
    decreases xs, 0
  {
    hide Pack, Held, Says;
    if xs != [] {
      var head, rest := Pack(xs[0]).value, PackAll(xs[1..]).value;
      PackSays(xs[0]);
      AllSay(xs[1..]);
      SplitAt(head, rest);
      assert Says((head + rest)[..|head|], xs[0]);
    }
  }

  lemma {:induction false} FieldsSay(fs: seq<Field>)
    requires AllFieldsHeld(fs) && PackFields(fs).Some?
    ensures SaysFields(PackFields(fs).value, fs)
    decreases fs, 0
  {
    hide PackField, FieldHeld, SaysField;
    if fs != [] {
      var f, rest := fs[0], fs[1..];
      var head, tail := PackField(f).value, PackFields(rest).value;
      FieldsSay(rest);
      if f.value.Undefined? {
        UnwrittenField(f);
        assert [] + tail == tail;
      } else {
        FieldSays(f);
        SplitAt(head, tail);
        assert SaysField((head + tail)[..|head|], f);
      }
    }
  }

  lemma {:induction false} FieldSays(f: Field)
    requires FieldHeld(f) && !f.value.Undefined? && PackField(f).Some?
    ensures SaysField(PackField(f).value, f)
    decreases f
  {
    hide PackStr, Pack, Held, Says, SaysStr;
    var (k, v) := (PackStr(f.key), Pack(f.value).value);
    StrSays(f.key);
    PackSays(f.value);
    SplitAt(k, v);
    assert SaysStr((k + v)[..|k|], f.key);
  }

  // -- in the shortest form ---------------------------------------------------------------------------------------

  predicate AllBytes(b: Bytes) { forall i :: 0 <= i < |b| ==> b[i] < 256 }

  lemma {:induction false} FromBEBound(b: Bytes)
    requires AllBytes(b)
    ensures FromBE(b) < Pow(|b|)
  {
    if b != [] {
      FromBEBound(b[..|b| - 1]);
    }
  }

  lemma FromSignedBound(b: Bytes)
    requires AllBytes(b) && b != []
    ensures -128 * Pow(|b| - 1) <= FromSigned(b) < 128 * Pow(|b| - 1)
  {
    FromBEBound(b);
    LeadingByte(b);
  }

  lemma {:induction false} LeadingByte(b: Bytes)
    requires AllBytes(b) && b != []
    ensures b[0] * Pow(|b| - 1) <= FromBE(b) < (b[0] + 1) * Pow(|b| - 1)
  {
    var less := b[..|b| - 1];
    if less != [] {
      LeadingByte(less);
      Scale(b[0], Pow(|less| - 1), FromBE(less), b[|b| - 1]);
    } else {
      assert FromBE(less) == 0;
    }
  }

  lemma Scale(a: nat, p: nat, v: nat, c: nat)
    requires a * p <= v < (a + 1) * p && c < 256
    ensures a * (256 * p) <= v * 256 + c < (a + 1) * (256 * p)
  {
    assert a * (256 * p) == 256 * (a * p) && (a + 1) * (256 * p) == 256 * ((a + 1) * p);
  }

  /** No encoding of an integer is shorter than the packed one. */
  lemma ShortestInt(b: Bytes, n: int)
    requires Safe(n) && Begun(b) && AllBytes(b) && SaysInt(b, n)
    ensures |PackInt(n)| <= |b|
  {
    hide FromBE, BE, FromSigned;
    Widths();
    if FormOf(b[0]).UintForm? {
      FromBEBound(b[1..]);
    } else if FormOf(b[0]).IntForm? {
      FromSignedBound(b[1..]);
    }
  }

  /** No header is shorter than the packed one. */
  lemma ShortestHeads(b: Bytes, n: nat)
    requires n < TWO32 && Begun(b) && AllBytes(b)
    ensures HeadsStr(b, n) ==> |StrHead(n)| <= |b|
    ensures HeadsArray(b, n) ==> |Header(n, 0x90, 16, 0xdc)| <= |b|
    ensures HeadsMap(b, n) ==> |Header(n, 0x80, 16, 0xde)| <= |b|
  {
    hide FromBE, BE;
    Widths();
    FromBEBound(b[1..]);
  }

  // -- the unpacker reads all of it ---------------------------------------------------------------------------------

  lemma FirstOf(b: Bytes, x: Bytes)
    requires b != []
    ensures (b + x)[0] == b[0] && (b + x)[1..] == b[1..] + x && b + x != []
  {
  }

  lemma ReadNumber(b: Bytes, w: nat, n: nat, x: Bytes)
    requires Counts(b, w, n) && Safe(n)
    ensures Unsigned(b[1..] + x, w) == Some((n, x))
  {
    NextOf(b[1..], x);
  }

  lemma ReadInt(b: Bytes, n: int, x: Bytes)
    requires Begun(b) && SaysInt(b, n) && Safe(n)
    ensures Unpack(b + x) == Some((Int(n), x))
  {
    hide FromBE, FromSigned, Sized, ArrOf, ObjOf, StrOf;
    FirstOf(b, x);
    NextOf(b[1..], x);
    if |b| == 1 {
      assert b[1..] + x == x;
    }
  }

  /** A header in a sized form is one of the tagged cases, and its length is read first. */
  lemma SizedTag(b: Bytes, w: nat, n: nat, x: Bytes)
    requires Begun(b) && Counts(b, w, n) && n < TWO32
    requires FormOf(b[0]) == StrForm(w) || FormOf(b[0]) == ArrayForm(w) || FormOf(b[0]) == MapForm(w)
    ensures 0xd9 <= b[0] <= 0xdf && Unpack(b + x) == Tagged(b[0], b[1..] + x)
    ensures |x| <= |b[1..] + x| && Tagged(b[0], b[1..] + x) == Sized(b[0], Some((n, x)), b[1..] + x)
  {
    hide FromBE, Unsigned, Sized, Counts;
    FirstOf(b, x);
    ReadNumber(b, w, n, x);
  }

  /** What a sized form goes on with. */
  lemma SizedOf(tag: nat, n: nat, x: Bytes, y: Bytes)
    requires 0xd9 <= tag <= 0xdf && |x| <= |y|
    ensures Sized(tag, Some((n, x)), y) == if tag <= 0xdb then StrOf(x, n) else if tag <= 0xdd then ArrOf(x, n) else ObjOf(x, n)
  {
    hide StrOf, ArrOf, ObjOf;
  }

  /** A lone first byte goes on with its own count. */
  lemma FixedOf(tag: nat, x: Bytes)
    requires 0x80 <= tag <= 0xbf
    ensures Unpack([tag] + x) ==
      if tag <= 0x8f then ObjOf(x, tag - 0x80) else if tag <= 0x9f then ArrOf(x, tag - 0x90) else StrOf(x, tag - 0xa0)
  {
    hide StrOf, ArrOf, ObjOf;
    TagFirst(tag, x);
  }

  lemma ReadStrHead(b: Bytes, n: nat, x: Bytes)
    requires Begun(b) && HeadsStr(b, n) && n < TWO32
    ensures Unpack(b + x) == StrOf(x, n)
  {
    hide Unpack, Tagged, Sized, StrOf, ArrOf, ObjOf, FromBE;
    if FormOf(b[0]).StrForm? {
      SizedTag(b, FormOf(b[0]).w, n, x);
      SizedOf(b[0], n, x, b[1..] + x);
    } else {
      assert b == [b[0]];
      FixedOf(b[0], x);
    }
  }

  lemma ReadArrayHead(b: Bytes, n: nat, x: Bytes)
    requires Begun(b) && HeadsArray(b, n) && n < TWO32
    ensures Unpack(b + x) == ArrOf(x, n)
  {
    hide Unpack, Tagged, Sized, StrOf, ArrOf, ObjOf, FromBE;
    if FormOf(b[0]).ArrayForm? {
      SizedTag(b, FormOf(b[0]).w, n, x);
      SizedOf(b[0], n, x, b[1..] + x);
    } else {
      assert b == [b[0]];
      FixedOf(b[0], x);
    }
  }

  lemma ReadMapHead(b: Bytes, n: nat, x: Bytes)
    requires Begun(b) && HeadsMap(b, n) && n < TWO32
    ensures Unpack(b + x) == ObjOf(x, n)
  {
    hide Unpack, Tagged, Sized, StrOf, ArrOf, ObjOf, FromBE;
    if FormOf(b[0]).MapForm? {
      SizedTag(b, FormOf(b[0]).w, n, x);
      SizedOf(b[0], n, x, b[1..] + x);
    } else {
      assert b == [b[0]];
      FixedOf(b[0], x);
    }
  }

  lemma ReadStr(b: Bytes, s: Bytes, x: Bytes)
    requires SaysStr(b, s) && |s| < TWO32
    ensures Unpack(b + x) == Some((Str(Strip(s)), x))
  {
    hide Unpack, HeadsStr, Strip;
    var k :| 0 < k <= |b| && Begun(b[..k]) && HeadsStr(b[..k], |s|) && b[k..] == s;
    Rejoin(b, k, x);
    ReadStrHead(b[..k], |s|, s + x);
    NextOf(s, x);
  }

  lemma Rejoin(b: Bytes, k: nat, x: Bytes)
    requires k <= |b|
    ensures b + x == b[..k] + (b[k..] + x)
  {
  }

  /** Every encoding of a value, in whatever form, reads back like the packed one, and what followed is left. */
  lemma {:induction false} EveryFormReads(b: Bytes, v: Value, x: Bytes)
    requires Held(v) && Pack(v).Some? && Says(b, v)
    ensures Unpack(b + x) == Some((Back(v), x))
    decreases v, 1
  {
    hide Unpack, PackStr, PackInt, HeadsArray, HeadsMap, SaysInt, SaysStr, PackAll, PackFields, SaysAll, SaysFields, SaysInts,
      BackAll, BackFields, UnpackAll, UnpackFields;
    match v
    case Nil => ReadLone(b, x);
    case Undefined => ReadLone(b, x);
    case Bool(_) => ReadLone(b, x);
    case Int(n) => ReadInt(b, n, x);
    case Str(s) => ReadStr(b, s, x);
    case Blob(s) =>
      var k :| 0 < k <= |b| && Begun(b[..k]) && HeadsArray(b[..k], |s|) && SaysInts(b[k..], s);
      Rejoin(b, k, x);
      ReadArrayHead(b[..k], |s|, b[k..] + x);
      IntsRead(b[k..], s, x);
    case Arr(xs) =>
      var k :| 0 < k <= |b| && Begun(b[..k]) && HeadsArray(b[..k], |xs|) && SaysAll(b[k..], xs);
      Rejoin(b, k, x);
      ReadArrayHead(b[..k], |xs|, b[k..] + x);
      AllRead(b[k..], xs, x);
    case Obj(fs, _) =>
      var k :| 0 < k <= |b| && Begun(b[..k]) && HeadsMap(b[..k], |Written(fs)|) && SaysFields(b[k..], fs);
      Rejoin(b, k, x);
      ReadMapHead(b[..k], |Written(fs)|, b[k..] + x);
      FieldsRead(b[k..], fs, FRESH, x);
  }

  lemma ReadLone(b: Bytes, x: Bytes)
    requires |b| == 1 && Begun(b)
    ensures FormOf(b[0]) == NilForm ==> Unpack(b + x) == Some((Nil, x))
    ensures FormOf(b[0]) == TrueForm ==> Unpack(b + x) == Some((Bool(true), x))
    ensures FormOf(b[0]) == FalseForm ==> Unpack(b + x) == Some((Bool(false), x))
  {
    FirstOf(b, x);
    assert b[1..] + x == x;
  }

  lemma {:induction false} IntsRead(b: Bytes, s: Bytes, x: Bytes)
    requires SaysInts(b, s) && forall i :: 0 <= i < |s| ==> IsByte(s[i])
    ensures UnpackAll(b + x, |s|) == Some((Ints(s), x))
    decreases s
  {
    hide Unpack, SaysInt;
    if s == [] {
      assert b + x == x;
    } else {
      var k :| 0 < k <= |b| && Begun(b[..k]) && SaysInt(b[..k], s[0]) && SaysInts(b[k..], s[1..]);
      Rejoin(b, k, x);
      ReadInt(b[..k], s[0], b[k..] + x);
      IntsRead(b[k..], s[1..], x);
    }
  }

  lemma {:induction false} AllRead(b: Bytes, xs: seq<Value>, x: Bytes)
    requires AllHeld(xs) && PackAll(xs).Some? && SaysAll(b, xs)
    ensures UnpackAll(b + x, |xs|) == Some((BackAll(xs), x))
    decreases xs, 0
  {
    hide Unpack, Pack, Held, Says, Back;
    if xs == [] {
      assert b + x == x;
    } else {
      var k :| 0 <= k <= |b| && Says(b[..k], xs[0]) && SaysAll(b[k..], xs[1..]);
      Rejoin(b, k, x);
      EveryFormReads(b[..k], xs[0], b[k..] + x);
      AllRead(b[k..], xs[1..], x);
    }
  }

  lemma {:induction false} FieldsRead(b: Bytes, fs: seq<Field>, d: Draft, x: Bytes)
    requires AllFieldsHeld(fs) && PackFields(fs).Some? && SaysFields(b, fs)
    ensures UnpackFields(b + x, |Written(fs)|, d) == Some((BackFields(fs, d), x))
    decreases fs, 0
  {
    hide Unpack, PackField, FieldHeld, Written, Assign, Back, SaysField;
    if fs == [] {
      WrittenNil();
      assert b + x == x;
    } else {
      var f, rest := fs[0], fs[1..];
      WrittenCons(fs);
      if f.value.Undefined? {
        FieldsRead(b, rest, d, x);
      } else {
        var k :| 0 <= k <= |b| && SaysField(b[..k], f) && SaysFields(b[k..], rest);
        Rejoin(b, k, x);
        FieldReads(b[..k], f, b[k..] + x);
        FieldsRead(b[k..], rest, Assign(d, Field(Strip(f.key), Back(f.value))), x);
      }
    }
  }

  lemma {:induction false} FieldReads(b: Bytes, f: Field, x: Bytes)
    requires FieldHeld(f) && !f.value.Undefined? && PackField(f).Some? && SaysField(b, f)
    ensures Unpack(b + x).Some?
    ensures var (k, y) := Unpack(b + x).value; k == Str(Strip(f.key)) && Unpack(y) == Some((Back(f.value), x))
    decreases f
  {
    hide Unpack, Pack, Held, Says, SaysStr, Back;
    var k :| 0 <= k <= |b| && SaysStr(b[..k], f.key) && Says(b[k..], f.value);
    Rejoin(b, k, x);
    ReadStr(b[..k], f.key, b[k..] + x);
    EveryFormReads(b[k..], f.value, x);
  }

  /** Byte payloads in their own form, extensions, floats and the unused byte are refused. */
  lemma Refuses(b: Bytes)
    requires Begun(b) && (var f := FormOf(b[0]); f == BinForm || f == ExtForm || f == FixExt || f == FloatForm || f == NeverUsed)
    ensures Unpack(b).None?
  {
  }
}
