/** The MessagePack value codec: a printer and a parser that undo each other across every width. */
module Msgpack {
  import opened Basics

  type Bytes = seq<nat>

  /** A value tree; strings are their UTF-8 bytes, an object its own enumerated fields and its prototype. */
  datatype Value =
    | Nil | Undefined | Bool(b: bool) | Int(n: int) | Float | Str(utf8: Bytes) | Blob(bytes: Bytes)
    | Arr(items: seq<Value>) | Obj(fields: seq<Field>, proto: Proto)

  datatype Field = Field(key: Bytes, value: Value)

  /** The prototype of plain objects, none at all, or another value. */
  datatype Proto = Plain | NoProto | Of(value: Value)

  /** The name whose assignment sets the prototype: the bytes of `__proto__`. */
  const PROTO: Bytes := [95, 95, 112, 114, 111, 116, 111, 95, 95]

  /** The bytes of the mark that a text decoder drops from the front of what it decodes. */
  const MARK: Bytes := [0xEF, 0xBB, 0xBF]

  const TWO32: int := 0x1_0000_0000

  // -- big-endian integers -----------------------------------------------------------------------

  function Pow(w: nat): (r: nat)
    ensures r > 0
  {
    if w == 0 then 1 else 256 * Pow(w - 1)
  }

  /** The low `w` bytes, most significant first. */
  function BE(v: nat, w: nat): (r: Bytes)
    ensures |r| == w && forall i :: 0 <= i < w ==> r[i] < 256
  {
    if w == 0 then [] else BE(v / 256, w - 1) + [v % 256]
  }

  function FromBE(b: Bytes): nat {
    if b == [] then 0 else FromBE(b[..|b| - 1]) * 256 + b[|b| - 1]
  }

  /** The leading byte carries the sign. */
  function FromSigned(b: Bytes): int
    requires b != []
  {
    if b[0] >= 128 then FromBE(b) - Pow(|b|) else FromBE(b)
  }

  lemma {:induction false} BEInverse(v: nat, w: nat)
    requires v < Pow(w)
    ensures FromBE(BE(v, w)) == v
  {
    if w > 0 {
      BEInverse(v / 256, w - 1);
      assert BE(v, w)[..w - 1] == BE(v / 256, w - 1);
    }
  }

  lemma {:induction false} TopByte(v: nat, w: nat)
    requires w > 0 && v < Pow(w)
    ensures BE(v, w)[0] >= 128 <==> v >= 128 * Pow(w - 1)
  {
    if w > 1 {
      TopByte(v / 256, w - 1);
      assert BE(v, w)[0] == BE(v / 256, w - 1)[0];
    }
  }

  /** Two's complement in `w` bytes reads back negative. */
  lemma SignedInverse(n: int, w: nat)
    requires w > 0 && -128 * Pow(w - 1) <= n < 0
    ensures n + Pow(w) >= 0 && FromSigned(BE(n + Pow(w), w)) == n
  {
    BEInverse(n + Pow(w), w);
    TopByte(n + Pow(w), w);
  }

  lemma {:induction false} BEConcat(h: nat, l: nat, w: nat, k: nat)
    requires l < Pow(k)
    ensures BE(h, w) + BE(l, k) == BE(h * Pow(k) + l, w + k)
    decreases k
  {
    if k == 0 {
      assert BE(h, w) + [] == BE(h, w);
    } else {
      BEConcat(h, l / 256, w, k - 1);
      var v := h * Pow(k) + l;
      HalvesDivide(h, Pow(k - 1), l);
      assert BE(v, w + k) == BE(v / 256, w + k - 1) + [v % 256];
    }
  }

  lemma HalvesDivide(h: nat, p: nat, l: nat)
    ensures (h * (256 * p) + l) / 256 == h * p + l / 256 && (h * (256 * p) + l) % 256 == l % 256
  {
    assert h * (256 * p) == 256 * (h * p);
  }

  lemma Widths()
    ensures Pow(1) == 0x100 && Pow(2) == 0x1_0000 && Pow(4) == TWO32 && Pow(8) == TWO32 * TWO32
    ensures Pow(3) == 0x100_0000 && Pow(7) == 0x100_0000 * TWO32 && Pow(0) == 1
  {
    assert Pow(5) == 256 * Pow(4) && Pow(6) == 256 * Pow(5) && Pow(7) == 256 * Pow(6) && Pow(8) == 256 * Pow(7);
  }

  // -- packing ---------------------------------------------------------------------------------------

  /** JavaScript's remainder: it has the dividend's sign. */
  function Remainder(n: int, m: int): int
    requires m > 0
  {
    if n >= 0 then n % m else -((-n) % m)
  }

  /** The low half of a negative integer, made non-negative. */
  function LowHalf(n: int): nat {
    var low := Remainder(n, TWO32);
    if low < 0 then low + TWO32 else low
  }

  function HighHalf(n: int): int {
    var high := n / TWO32;
    if high < 0 then high + TWO32 else high
  }

  predicate Safe(n: int) { -MAX_SAFE <= n <= MAX_SAFE }

  function PackInt(n: int): Bytes
    requires Safe(n)
  {
    if n >= 0 then
      if n < 0x80 then [n]
      else if n <= 0xff then [0xcc, n]
      else if n <= 0xffff then [0xcd] + BE(n, 2)
      else if n <= 0xffff_ffff then [0xce] + BE(n, 4)
      else [0xcf] + BE(n, 8)
    else if n >= -32 then [0xe0 + (n + 32)]
    else if n >= -0x80 then [0xd0, n + 0x100]
    else if n >= -0x8000 then [0xd1] + BE(n + 0x1_0000, 2)
    else if n >= -0x8000_0000 then [0xd2] + BE(n + TWO32, 4)
    else [0xd3] + BE(HighHalf(n), 4) + BE(LowHalf(n), 4)
  }

  function Header(len: nat, fix: nat, limit: nat, tag16: nat): Bytes {
    if len < limit then [fix + len] else if len <= 0xffff then [tag16] + BE(len, 2) else [tag16 + 1] + BE(len, 4)
  }

  function PackStr(s: Bytes): Bytes {
    var len := |s|;
    var head :=
      if len < 32 then [0xa0 + len]
      else if len <= 0xff then [0xd9, len]
      else if len <= 0xffff then [0xda] + BE(len, 2)
      else [0xdb] + BE(len, 4);
    head + s
  }

  /** The fields that are written: undefined ones are left out. */
  function Written(fs: seq<Field>): (r: seq<Field>)
    ensures |r| <= |fs| && forall i :: 0 <= i < |r| ==> !r[i].value.Undefined?
    decreases fs
  {
    if fs == [] then [] else (if fs[0].value.Undefined? then [] else [fs[0]]) + Written(fs[1..])
  }

  predicate IsByte(b: nat) { b < 256 }
  predicate ByteString(s: Bytes) { |s| < TWO32 && forall i :: 0 <= i < |s| ==> IsByte(s[i]) }

  /** What the runtime can hold: lengths below two to the thirty-two, bytes below 256, distinct field names. */
  predicate Held(v: Value)
    decreases v
  {
    match v
    case Str(s) => ByteString(s)
    case Blob(s) => ByteString(s)
    case Arr(xs) => |xs| < TWO32 && AllHeld(xs)
    case Obj(fs, _) => |fs| < TWO32 && AllFieldsHeld(fs) && DistinctKeys(fs)
    case _ => true
  }

  predicate AllHeld(xs: seq<Value>)
    decreases xs
  {
    xs == [] || (Held(xs[0]) && AllHeld(xs[1..]))
  }

  predicate AllFieldsHeld(fs: seq<Field>)
    decreases fs
  {
    fs == [] || (FieldHeld(fs[0]) && AllFieldsHeld(fs[1..]))
  }

  predicate FieldHeld(f: Field)
    decreases f
  {
    ByteString(f.key) && Held(f.value)
  }

  predicate DistinctKeys(fs: seq<Field>) { forall i, j :: 0 <= i < j < |fs| ==> fs[i].key != fs[j].key }

  /** The frame's bytes, or None where the encoder refuses: floats and integers that are not safe. */
  function Pack(v: Value): Option<Bytes>
    decreases v
  {
    match v
    case Nil => Some([0xc0])
    case Undefined => Some([0xc0])
    case Bool(b) => Some([if b then 0xc3 else 0xc2])
    case Int(n) => if Safe(n) then Some(PackInt(n)) else None
    case Float => None
    case Str(s) => Some(PackStr(s))
    case Blob(s) => Some(Header(|s|, 0x90, 16, 0xdc) + PackBytes(s))
    case Arr(xs) =>
      var body := PackAll(xs);
      if body.None? then None else Some(Header(|xs|, 0x90, 16, 0xdc) + body.value)
    case Obj(fs, _) =>
      var body := PackFields(fs);
      if body.None? then None else Some(Header(|Written(fs)|, 0x80, 16, 0xde) + body.value)
  }

  /** A byte payload: an array of integers. */
  function PackBytes(s: Bytes): Bytes {
    if s == [] then [] else (if Safe(s[0]) then PackInt(s[0]) else []) + PackBytes(s[1..])
  }

  function PackAll(xs: seq<Value>): Option<Bytes>
    decreases xs
  {
    if xs == [] then Some([])
    else
      var head, rest := Pack(xs[0]), PackAll(xs[1..]);
      if head.None? || rest.None? then None else Some(head.value + rest.value)
  }

  function PackFields(fs: seq<Field>): Option<Bytes>
    decreases fs
  {
    if fs == [] then Some([])
    else
      var head, rest := PackField(fs[0]), PackFields(fs[1..]);
      if head.None? || rest.None? then None else Some(head.value + rest.value)
  }

  function PackField(f: Field): Option<Bytes>
    decreases f
  {
    if f.value.Undefined? then Some([])
    else
      var v := Pack(f.value);
      if v.None? then None else Some(PackStr(f.key) + v.value)
  }

  // -- unpacking -------------------------------------------------------------------------------------------

  type Parsed<+T> = Option<(T, Bytes)>

  /** The next `w` bytes and what follows them. */
  function Next(b: Bytes, w: nat): Parsed<Bytes> { if w <= |b| then Some((b[..w], b[w..])) else None }

  function Unsigned(b: Bytes, w: nat): Parsed<nat> {
    match Next(b, w)
    case None => None
    case Some((s, rest)) => if Safe(FromBE(s)) then Some((FromBE(s), rest)) else None
  }

  function Signed(b: Bytes, w: nat): Parsed<Value>
    requires w > 0
  {
    match Next(b, w)
    case None => None
    case Some((s, rest)) => if Safe(FromSigned(s)) then Some((Int(FromSigned(s)), rest)) else None
  }

  function IntOf(p: Parsed<nat>): Parsed<Value> { if p.None? then None else Some((Int(p.value.0), p.value.1)) }

  /** A negative one-byte integer. */
  function Fixed(tag: int): int { tag - 0x100 }

  predicate Marked(s: Bytes) { MARK <= s }

  /** Decoding text drops one leading mark. */
  function Strip(s: Bytes): (r: Bytes)
    ensures if Marked(s) then s == MARK + r else r == s
  {
    if Marked(s) then s[|MARK|..] else s
  }

  function StrOf(b: Bytes, len: nat): Parsed<Value> {
    match Next(b, len)
    case None => None
    case Some((s, rest)) => Some((Str(Strip(s)), rest))
  }

  lemma Unmarked(s: Bytes)
    requires s == [] || s[0] != MARK[0]
    ensures !Marked(s) && Strip(s) == s
  {
  }

  predicate KeyIn(fs: seq<Field>, k: Bytes) { exists i :: 0 <= i < |fs| && fs[i].key == k }

  /** Whether assigning `__proto__` to an object with this prototype still reaches the prototype setter. */
  predicate Inherits(p: Proto)
    decreases p
  {
    match p
    case Plain => true
    case NoProto => false
    case Of(Obj(fs, q)) => !KeyIn(fs, PROTO) && Inherits(q)
    case Of(_) => true
  }

  /** What the prototype setter does: objects and null become the prototype, anything else is ignored. */
  function SetProto(p: Proto, v: Value): Proto {
    match v
    case Nil => NoProto
    case Arr(_) => Of(v)
    case Obj(_, _) => Of(v)
    case Blob(_) => Of(v)
    case _ => p
  }

  /** An object under construction. */
  datatype Draft = Draft(fields: seq<Field>, proto: Proto)

  const FRESH := Draft([], Plain)

  function PutField(fs: seq<Field>, f: Field): seq<Field> {
    if fs == [] then [f]
    else if fs[0].key == f.key then [f] + fs[1..]
    else [fs[0]] + PutField(fs[1..], f)
  }

  /** Assigning a field of the object under construction; `__proto__` goes to the setter where there is one. */
  function Assign(d: Draft, f: Field): Draft {
    if f.key == PROTO && !KeyIn(d.fields, PROTO) && Inherits(d.proto) then d.(proto := SetProto(d.proto, f.value))
    else d.(fields := PutField(d.fields, f))
  }

  function Unpack(b: Bytes): (r: Parsed<Value>)
    ensures r.Some? ==> |r.value.1| < |b|
    decreases |b|, 0
  {
    if b == [] then None
    else
      var tag, rest := b[0], b[1..];
      if tag <= 0x7f then Some((Int(tag), rest))
      else if tag >= 0xe0 then Some((Int(Fixed(tag)), rest))
      else if tag <= 0x8f then ObjOf(rest, tag - 0x80)
      else if tag <= 0x9f then ArrOf(rest, tag - 0x90)
      else if tag <= 0xbf then StrOf(rest, tag - 0xa0)
      else Tagged(tag, rest)
  }

  function Tagged(tag: nat, b: Bytes): (r: Parsed<Value>)
    ensures r.Some? ==> |r.value.1| <= |b|
    decreases |b|, 3
  {
    if tag == 0xc0 then Some((Nil, b))
    else if tag == 0xc2 then Some((Bool(false), b))
    else if tag == 0xc3 then Some((Bool(true), b))
    else if tag == 0xcc then IntOf(Unsigned(b, 1))
    else if tag == 0xcd then IntOf(Unsigned(b, 2))
    else if tag == 0xce then IntOf(Unsigned(b, 4))
    else if tag == 0xcf then IntOf(Unsigned(b, 8))
    else if tag == 0xd0 then Signed(b, 1)
    else if tag == 0xd1 then Signed(b, 2)
    else if tag == 0xd2 then Signed(b, 4)
    else if tag == 0xd3 then Signed(b, 8)
    else if tag == 0xd9 then Sized(tag, Unsigned(b, 1), b)
    else if tag == 0xda || tag == 0xdc || tag == 0xde then Sized(tag, Unsigned(b, 2), b)
    else if tag == 0xdb || tag == 0xdd || tag == 0xdf then Sized(tag, Unsigned(b, 4), b)
    else None
  }

  /** A string, array or map whose length was just read. */
  function Sized(tag: nat, len: Parsed<nat>, b: Bytes): (r: Parsed<Value>)
    requires len.Some? ==> |len.value.1| <= |b|
    ensures r.Some? ==> |r.value.1| <= |b|
    decreases |b|, 2
  {
    if len.None? then None
    else
      var (n, rest) := len.value;
      if tag <= 0xdb then StrOf(rest, n) else if tag <= 0xdd then ArrOf(rest, n) else ObjOf(rest, n)
  }

  function ArrOf(b: Bytes, n: nat): (r: Parsed<Value>)
    ensures r.Some? ==> |r.value.1| <= |b|
    decreases |b|, 1, n + 1
  {
    var p := UnpackAll(b, n);
    if p.None? then None else Some((Arr(p.value.0), p.value.1))
  }

  function ObjOf(b: Bytes, n: nat): (r: Parsed<Value>)
    ensures r.Some? ==> |r.value.1| <= |b|
    decreases |b|, 1, n + 1
  {
    var p := UnpackFields(b, n, FRESH);
    if p.None? then None else Some((Obj(p.value.0.fields, p.value.0.proto), p.value.1))
  }

  function UnpackAll(b: Bytes, n: nat): (r: Parsed<seq<Value>>)
    ensures r.Some? ==> |r.value.1| <= |b|
    decreases |b|, 1, n
  {
    if n == 0 then Some(([], b))
    else
      var head := Unpack(b);
      if head.None? then None
      else
        var rest := UnpackAll(head.value.1, n - 1);
        if rest.None? then None else Some(([head.value.0] + rest.value.0, rest.value.1))
  }

  function UnpackFields(b: Bytes, n: nat, done: Draft): (r: Parsed<Draft>)
    ensures r.Some? ==> |r.value.1| <= |b|
    decreases |b|, 1, n
  {
    if n == 0 then Some((done, b))
    else
      var key := Unpack(b);
      if key.None? || !key.value.0.Str? then None
      else
        var value := Unpack(key.value.1);
        if value.None? then None
        else UnpackFields(value.value.1, n - 1, Assign(done, Field(key.value.0.utf8, value.value.0)))
  }

  // -- the round trip -------------------------------------------------------------------------------------

  /** What should come back: byte payloads as integers, undefined as nil, unwritten fields gone, plain objects. */
  function Norm(v: Value): Value
    decreases v
  {
    match v
    case Undefined => Nil
    case Blob(s) => Arr(Ints(s))
    case Arr(xs) => Arr(NormAll(xs))
    case Obj(fs, _) => Obj(NormFields(fs), Plain)
    case _ => v
  }

  function Ints(s: Bytes): (r: seq<Value>)
    ensures |r| == |s|
  {
    if s == [] then [] else [Int(s[0])] + Ints(s[1..])
  }

  function NormAll(xs: seq<Value>): (r: seq<Value>)
    ensures |r| == |xs|
    decreases xs
  {
    if xs == [] then [] else [Norm(xs[0])] + NormAll(xs[1..])
  }

  function NormFields(fs: seq<Field>): (r: seq<Field>)
    ensures |r| == |Written(fs)|
    decreases fs
  {
    if fs == [] then [] else NormField(fs[0]) + NormFields(fs[1..])
  }

  function NormField(f: Field): (r: seq<Field>)
    ensures |r| == if f.value.Undefined? then 0 else 1
    decreases f
  {
    if f.value.Undefined? then [] else [Field(f.key, Norm(f.value))]
  }

  /** A key that does not come back as it is: the decoder shortens it, or assigns the prototype. */
  predicate Renamed(f: Field) { !f.value.Undefined? && (f.key == PROTO || Marked(f.key)) }

  /** No string or written key at any depth starts with a mark, and no written field is named `__proto__`. */
  predicate Nameable(v: Value)
    decreases v
  {
    match v
    case Str(s) => !Marked(s)
    case Arr(xs) => AllNameable(xs)
    case Obj(fs, _) => FieldsNameable(fs)
    case _ => true
  }

  predicate AllNameable(xs: seq<Value>)
    decreases xs
  {
    xs == [] || (Nameable(xs[0]) && AllNameable(xs[1..]))
  }

  predicate FieldsNameable(fs: seq<Field>)
    decreases fs
  {
    fs == [] || (FieldNameable(fs[0]) && FieldsNameable(fs[1..]))
  }

  predicate FieldNameable(f: Field)
    decreases f
  {
    f.value.Undefined? || (!Renamed(f) && Nameable(f.value))
  }

  /** What does come back: strings and keys without a leading mark, the fields assigned one after the other. */
  function Back(v: Value): (r: Value)
    ensures v.Str? == r.Str? && v.Obj? == r.Obj?
    decreases v
  {
    match v
    case Undefined => Nil
    case Str(s) => Str(Strip(s))
    case Blob(s) => Arr(Ints(s))
    case Arr(xs) => Arr(BackAll(xs))
    case Obj(fs, _) => var d := BackFields(fs, FRESH); Obj(d.fields, d.proto)
    case _ => v
  }

  function BackAll(xs: seq<Value>): (r: seq<Value>)
    ensures |r| == |xs|
    decreases xs
  {
    if xs == [] then [] else [Back(xs[0])] + BackAll(xs[1..])
  }

  function BackFields(fs: seq<Field>, d: Draft): Draft
    decreases fs
  {
    if fs == [] then d else BackFields(fs[1..], BackField(fs[0], d))
  }

  function BackField(f: Field, d: Draft): Draft
    decreases f
  {
    if f.value.Undefined? then d else Assign(d, Field(Strip(f.key), Back(f.value)))
  }

  lemma NextOf(s: Bytes, x: Bytes)
    ensures Next(s + x, |s|) == Some((s, x))
  {
    assert (s + x)[..|s|] == s && (s + x)[|s|..] == x;
  }

  lemma UnsignedOf(v: nat, w: nat, x: Bytes)
    requires v < Pow(w) && v <= MAX_SAFE
    ensures Unsigned(BE(v, w) + x, w) == Some((v, x))
  {
    NextOf(BE(v, w), x);
    BEInverse(v, w);
  }

  lemma SignedOf(n: int, w: nat, x: Bytes)
    requires w > 0 && -128 * Pow(w - 1) <= n < 0 && Safe(n)
    ensures n + Pow(w) >= 0 && Signed(BE(n + Pow(w), w) + x, w) == Some((Int(n), x))
  {
    SignedInverse(n, w);
    NextOf(BE(n + Pow(w), w), x);
  }

  lemma NegativeRemainder(n: int)
    requires n < 0
    ensures (-n) % TWO32 == if n % TWO32 == 0 then 0 else TWO32 - n % TWO32
  {
    var q, r := n / TWO32, n % TWO32;
    assert -n == (-q - 1) * TWO32 + (TWO32 - r);
  }

  lemma LowHalfIs(n: int)
    requires n < 0
    ensures LowHalf(n) == n % TWO32
  {
    NegativeRemainder(n);
  }

  lemma HighHalfIs(n: int)
    requires -MAX_SAFE <= n < 0
    ensures HighHalf(n) == n / TWO32 + TWO32 && 0 <= HighHalf(n) < TWO32
  {
  }

  /** The two halves of a negative integer are its two's complement. */
  lemma Halves(n: int)
    requires -MAX_SAFE <= n < 0
    ensures 0 <= HighHalf(n) < TWO32 && LowHalf(n) < TWO32 && HighHalf(n) * TWO32 + LowHalf(n) == n + TWO32 * TWO32
    ensures BE(HighHalf(n), 4) + BE(LowHalf(n), 4) == BE(n + TWO32 * TWO32, 8)
  {
    hide LowHalf, HighHalf, BE;
    LowHalfIs(n);
    HighHalfIs(n);
    Widths();
    assert n == (n / TWO32) * TWO32 + n % TWO32;
    BEConcat(HighHalf(n), LowHalf(n), 4, 4);
  }

  /** A tag that is not a one-byte form, and what follows it. */
  lemma Dispatch(tag: nat, body: Bytes, x: Bytes)
    requires 0xc0 <= tag < 0xe0
    ensures Unpack([tag] + body + x) == Tagged(tag, body + x)
  {
    hide Tagged;
    Untag(tag, body, x);
  }

  lemma Untag(tag: nat, body: Bytes, x: Bytes)
    ensures ([tag] + body + x)[0] == tag && ([tag] + body + x)[1..] == body + x
  {
    assert [tag] + body + x == [tag] + (body + x);
  }

  lemma {:induction false} IntRoundTrip(n: int, x: Bytes)
    requires Safe(n)
    ensures Unpack(PackInt(n) + x) == Some((Int(n), x))
  {
    hide BE, FromBE, FromSigned, Unsigned, Signed;
    Widths();
    var b := PackInt(n) + x;
    if 0 <= n < 0x80 || -32 <= n < 0 {
      assert b[1..] == x;
    } else if n >= 0 {
      PositiveRoundTrip(n, x);
    } else {
      NegativeRoundTrip(n, x);
    }
  }

  lemma PositiveRoundTrip(n: int, x: Bytes)
    requires 0x80 <= n <= MAX_SAFE
    ensures Unpack(PackInt(n) + x) == Some((Int(n), x))
  {
    hide FromBE, FromSigned, Unsigned, Signed, Unpack;
    Widths();
    if n <= 0xff {
      assert BE(n, 1) == [n] && PackInt(n) == [0xcc] + BE(n, 1);
      Dispatch(0xcc, BE(n, 1), x);
      UnsignedOf(n, 1, x);
    } else if n <= 0xffff {
      Dispatch(0xcd, BE(n, 2), x);
      UnsignedOf(n, 2, x);
    } else if n <= 0xffff_ffff {
      Dispatch(0xce, BE(n, 4), x);
      UnsignedOf(n, 4, x);
    } else {
      Dispatch(0xcf, BE(n, 8), x);
      UnsignedOf(n, 8, x);
    }
  }

  lemma NegativeRoundTrip(n: int, x: Bytes)
    requires -MAX_SAFE <= n < -32
    ensures Unpack(PackInt(n) + x) == Some((Int(n), x))
  {
    hide FromBE, FromSigned, Unsigned, Signed, Unpack, HighHalf, LowHalf;
    Widths();
    if n >= -0x80 {
      assert BE(n + 0x100, 1) == [n + 0x100] && PackInt(n) == [0xd0] + BE(n + 0x100, 1);
      Dispatch(0xd0, BE(n + 0x100, 1), x);
      SignedOf(n, 1, x);
    } else if n >= -0x8000 {
      Dispatch(0xd1, BE(n + 0x1_0000, 2), x);
      SignedOf(n, 2, x);
    } else if n >= -0x8000_0000 {
      Dispatch(0xd2, BE(n + TWO32, 4), x);
      SignedOf(n, 4, x);
    } else {
      Halves(n);
      assert PackInt(n) == [0xd3] + BE(n + TWO32 * TWO32, 8);
      Dispatch(0xd3, BE(n + TWO32 * TWO32, 8), x);
      SignedOf(n, 8, x);
    }
  }

  lemma LongStr(tag: nat, w: nat, s: Bytes, x: Bytes)
    requires (tag == 0xd9 && w == 1) || (tag == 0xda && w == 2) || (tag == 0xdb && w == 4)
    requires |s| < Pow(w) && |s| <= MAX_SAFE
    ensures Unpack([tag] + BE(|s|, w) + s + x) == Some((Str(Strip(s)), x))
  {
    hide BE, Unsigned, Unpack, Sized;
    var b := BE(|s|, w) + (s + x);
    assert [tag] + BE(|s|, w) + s + x == [tag] + BE(|s|, w) + (s + x);
    Dispatch(tag, BE(|s|, w), s + x);
    UnsignedOf(|s|, w, s + x);
    SizedStr(tag, |s|, b, s, x);
  }

  lemma {:induction false} StrRoundTrip(s: Bytes, x: Bytes)
    requires |s| < TWO32
    ensures Unpack(PackStr(s) + x) == Some((Str(Strip(s)), x))
  {
    Widths();
    var len := |s|;
    if len < 32 {
      ShortStr(s, x);
    } else if len <= 0xff {
      assert BE(len, 1) == [len] && [0xd9, len] == [0xd9] + BE(len, 1);
      hide Unpack, BE;
      LongStr(0xd9, 1, s, x);
    } else if len <= 0xffff {
      hide Unpack, BE;
      LongStr(0xda, 2, s, x);
    } else {
      hide Unpack, BE;
      LongStr(0xdb, 4, s, x);
    }
  }

  lemma ShortStr(s: Bytes, x: Bytes)
    requires |s| < 32
    ensures Unpack(PackStr(s) + x) == Some((Str(Strip(s)), x))
  {
    NextOf(s, x);
    Untag(0xa0 + |s|, s, x);
  }

  lemma SizedStr(tag: nat, len: nat, b: Bytes, s: Bytes, x: Bytes)
    requires tag <= 0xdb && len == |s| && |s + x| <= |b|
    ensures Sized(tag, Some((len, s + x)), b) == Some((Str(Strip(s)), x))
  {
    NextOf(s, x);
  }

  lemma ArrHeader(n: nat, x: Bytes)
    requires n < TWO32
    ensures Unpack(Header(n, 0x90, 16, 0xdc) + x) == ArrOf(x, n)
  {
    hide FromBE, FromSigned, Unsigned, Signed, ArrOf, ObjOf;
    Widths();
    if n < 16 {
      assert ([0x90 + n] + x)[1..] == x;
    } else if n <= 0xffff {
      Dispatch(0xdc, BE(n, 2), x);
      UnsignedOf(n, 2, x);
    } else {
      Dispatch(0xdd, BE(n, 4), x);
      UnsignedOf(n, 4, x);
    }
  }

  lemma ObjHeader(n: nat, x: Bytes)
    requires n < TWO32
    ensures Unpack(Header(n, 0x80, 16, 0xde) + x) == ObjOf(x, n)
  {
    hide FromBE, FromSigned, Unsigned, Signed, ArrOf, ObjOf;
    Widths();
    if n < 16 {
      assert ([0x80 + n] + x)[1..] == x;
    } else if n <= 0xffff {
      Dispatch(0xde, BE(n, 2), x);
      UnsignedOf(n, 2, x);
    } else {
      Dispatch(0xdf, BE(n, 4), x);
      UnsignedOf(n, 4, x);
    }
  }

  /** Unpacking a packed value followed by anything gives what comes back and exactly what followed. */
  lemma {:induction false} ComesBack(v: Value, x: Bytes)
    requires Held(v) && Pack(v).Some?
    ensures Unpack(Pack(v).value + x) == Some((Back(v), x))
    decreases v, 1
  {
    hide Header, PackStr, PackInt, UnpackAll, UnpackFields, PackAll, PackFields, BackAll, BackFields;
    match v
    case Nil => assert ([0xc0] + x)[1..] == x;
    case Undefined => assert ([0xc0] + x)[1..] == x;
    case Bool(b) => assert ([if b then 0xc3 else 0xc2] + x)[1..] == x;
    case Int(n) => IntRoundTrip(n, x);
    case Str(s) => StrRoundTrip(s, x);
    case Blob(s) =>
      hide Unpack;
      ArrHeader(|s|, PackBytes(s) + x);
      BytesRoundTrip(s, x);
      Reassociate(Header(|s|, 0x90, 16, 0xdc), PackBytes(s), x);
    case Arr(xs) =>
      hide Unpack;
      ArrHeader(|xs|, PackAll(xs).value + x);
      AllComeBack(xs, x);
      Reassociate(Header(|xs|, 0x90, 16, 0xdc), PackAll(xs).value, x);
    case Obj(fs, _) =>
      hide Unpack;
      ObjHeader(|Written(fs)|, PackFields(fs).value + x);
      FieldsComeBack(fs, FRESH, x);
      Reassociate(Header(|Written(fs)|, 0x80, 16, 0xde), PackFields(fs).value, x);
  }

  lemma Reassociate(a: Bytes, b: Bytes, c: Bytes)
    ensures a + b + c == a + (b + c)
  {
  }

  lemma {:induction false} BytesRoundTrip(s: Bytes, x: Bytes)
    requires forall i :: 0 <= i < |s| ==> IsByte(s[i])
    ensures UnpackAll(PackBytes(s) + x, |s|) == Some((Ints(s), x))
  {
    hide Unpack, PackInt;
    if s == [] {
      assert PackBytes(s) + x == x;
    } else {
      Reassociate(PackInt(s[0]), PackBytes(s[1..]), x);
      IntRoundTrip(s[0], PackBytes(s[1..]) + x);
      BytesRoundTrip(s[1..], x);
    }
  }

  lemma {:induction false} AllComeBack(xs: seq<Value>, x: Bytes)
    requires AllHeld(xs) && PackAll(xs).Some?
    ensures UnpackAll(PackAll(xs).value + x, |xs|) == Some((BackAll(xs), x))
    decreases xs, 0
  {
    hide Unpack, Pack, Back, Held;
    if xs == [] {
      assert PackAll(xs).value + x == x;
    } else {
      var head, rest := Pack(xs[0]).value, PackAll(xs[1..]).value;
      Reassociate(head, rest, x);
      ComesBack(xs[0], rest + x);
      AllComeBack(xs[1..], x);
    }
  }

  lemma {:induction false} FieldsComeBack(fs: seq<Field>, d: Draft, x: Bytes)
    requires AllFieldsHeld(fs) && PackFields(fs).Some?
    ensures UnpackFields(PackFields(fs).value + x, |Written(fs)|, d) == Some((BackFields(fs, d), x))
    decreases fs, 0
  {
    hide Unpack, PackField, FieldHeld, PackStr, Written, Assign, Back;
    if fs == [] {
      WrittenNil();
      assert PackFields(fs).value + x == x;
    } else {
      var f, rest := fs[0], fs[1..];
      var head, tail := PackField(f).value, PackFields(rest).value;
      WrittenCons(fs);
      Reassociate(head, tail, x);
      if f.value.Undefined? {
        UnwrittenField(f);
        assert [] + (tail + x) == tail + x;
        FieldsComeBack(rest, d, x);
      } else {
        FieldComesBack(f, tail + x);
        FieldsComeBack(rest, Assign(d, Field(Strip(f.key), Back(f.value))), x);
      }
    }
  }

  lemma WrittenNil()
    ensures Written([]) == []
  {
  }

  lemma WrittenCons(fs: seq<Field>)
    requires fs != []
    ensures |Written(fs)| == |Written(fs[1..])| + if fs[0].value.Undefined? then 0 else 1
  {
  }

  lemma UnwrittenField(f: Field)
    requires f.value.Undefined?
    ensures PackField(f) == Some([])
  {
  }

  lemma {:induction false} FieldComesBack(f: Field, x: Bytes)
    requires FieldHeld(f) && !f.value.Undefined? && PackField(f).Some?
    ensures Unpack(PackField(f).value + x).Some?
    ensures var (k, y) := Unpack(PackField(f).value + x).value; k == Str(Strip(f.key)) && Unpack(y) == Some((Back(f.value), x))
    decreases f
  {
    hide Unpack, PackStr, Pack, Back, Held;
    var v := Pack(f.value).value;
    Reassociate(PackStr(f.key), v, x);
    StrRoundTrip(f.key, v + x);
    ComesBack(f.value, x);
  }

  // -- what comes back is what should ---------------------------------------------------------------------------

  /** The bytes of all keys. */
  function KeyBytes(fs: seq<Field>): nat { if fs == [] then 0 else |fs[0].key| + KeyBytes(fs[1..]) }

  /** Putting a field adds at most its key. */
  lemma {:induction false} PutBytes(fs: seq<Field>, f: Field)
    ensures KeyBytes(PutField(fs, f)) <= KeyBytes(fs) + |f.key|
  {
    if fs != [] {
      if fs[0].key == f.key {
        assert ([f] + fs[1..])[1..] == fs[1..];
      } else {
        PutBytes(fs[1..], f);
        assert ([fs[0]] + PutField(fs[1..], f))[1..] == PutField(fs[1..], f);
      }
    }
  }

  lemma AssignBytes(d: Draft, f: Field)
    ensures KeyBytes(Assign(d, f).fields) <= KeyBytes(d.fields) + |f.key|
  {
    PutBytes(d.fields, f);
  }

  /** The keys of an object never grow on the way. */
  lemma {:induction false} BackBytes(fs: seq<Field>, d: Draft)
    ensures KeyBytes(BackFields(fs, d).fields) <= KeyBytes(d.fields) + KeyBytes(NormFields(fs))
    decreases |fs|
  {
    hide Assign, Norm, Back;
    if fs != [] {
      NormBytes(fs);
      BackBytes(fs[1..], BackField(fs[0], d));
      AssignBytes(d, Field(Strip(fs[0].key), Back(fs[0].value)));
    }
  }

  lemma NormBytes(fs: seq<Field>)
    requires fs != []
    ensures KeyBytes(NormFields(fs)) == (if fs[0].value.Undefined? then 0 else |fs[0].key|) + KeyBytes(NormFields(fs[1..]))
  {
    hide Norm;
    if fs[0].value.Undefined? {
      assert [] + NormFields(fs[1..]) == NormFields(fs[1..]);
    } else {
      var f := Field(fs[0].key, Norm(fs[0].value));
      assert ([f] + NormFields(fs[1..]))[1..] == NormFields(fs[1..]);
    }
  }

  /** An object that still has its prototype setter in reach. */
  predicate Settable(d: Draft) { d.proto == Plain && !KeyIn(d.fields, PROTO) }

  ghost predicate SomeRenamed(fs: seq<Field>) { exists i :: 0 <= i < |fs| && Renamed(fs[i]) }

  lemma SomeRenamedRest(fs: seq<Field>)
    requires fs != []
    ensures SomeRenamed(fs) <==> Renamed(fs[0]) || SomeRenamed(fs[1..])
  {
    if SomeRenamed(fs) && !Renamed(fs[0]) {
      var i :| 0 <= i < |fs| && Renamed(fs[i]);
      assert fs[1..][i - 1] == fs[i];
    }
  }

  /** They shrink as soon as one of them is renamed. */
  lemma {:induction false} RenamedBytes(fs: seq<Field>, d: Draft)
    requires Settable(d) && SomeRenamed(fs)
    ensures KeyBytes(BackFields(fs, d).fields) < KeyBytes(d.fields) + KeyBytes(NormFields(fs))
    decreases |fs|
  {
    hide Norm, Back;
    var f, rest := fs[0], fs[1..];
    var g := Field(Strip(f.key), Back(f.value));
    NormBytes(fs);
    SomeRenamedRest(fs);
    if Renamed(f) {
      BackBytes(rest, Assign(d, g));
      AssignBytes(d, g);
      if f.key == PROTO {
        Unmarked(PROTO);
        assert Assign(d, g).fields == d.fields;
      }
    } else if f.value.Undefined? {
      RenamedBytes(rest, d);
    } else {
      AssignBytes(d, g);
      PutSettable(d, g);
      RenamedBytes(rest, Assign(d, g));
    }
  }

  lemma PutSettable(d: Draft, f: Field)
    requires Settable(d) && f.key != PROTO
    ensures Assign(d, f) == d.(fields := PutField(d.fields, f)) && Settable(Assign(d, f))
  {
    PutKeys(d.fields, f, PROTO);
  }

  lemma {:induction false} PutKeys(fs: seq<Field>, f: Field, k: Bytes)
    ensures KeyIn(PutField(fs, f), k) ==> KeyIn(fs, k) || k == f.key
  {
    if fs != [] && fs[0].key != f.key {
      PutKeys(fs[1..], f, k);
      KeyInCons(fs[0], PutField(fs[1..], f), k);
      KeyInCons(fs[0], fs[1..], k);
      assert fs == [fs[0]] + fs[1..];
    } else if fs != [] {
      KeyInCons(f, fs[1..], k);
      KeyInCons(fs[0], fs[1..], k);
      assert fs == [fs[0]] + fs[1..];
    }
  }

  lemma KeyInCons(f: Field, fs: seq<Field>, k: Bytes)
    ensures KeyIn([f] + fs, k) <==> f.key == k || KeyIn(fs, k)
  {
    var all := [f] + fs;
    assert all[0] == f && forall i :: 0 <= i < |fs| ==> all[i + 1] == fs[i];
  }

  /** Putting a new key appends it. */
  lemma {:induction false} PutNew(fs: seq<Field>, f: Field)
    requires !KeyIn(fs, f.key)
    ensures PutField(fs, f) == fs + [f]
  {
    if fs != [] {
      assert fs == [fs[0]] + fs[1..];
      KeyInCons(fs[0], fs[1..], f.key);
      PutNew(fs[1..], f);
    }
  }

  ghost predicate Disjoint(fs: seq<Field>, gs: seq<Field>) { forall i, j :: 0 <= i < |fs| && 0 <= j < |gs| ==> fs[i].key != gs[j].key }

  /** The written fields, each with what its value comes back as. */
  function Kept(fs: seq<Field>): (r: seq<Field>)
    ensures |r| == |Written(fs)|
    decreases fs
  {
    if fs == [] then [] else KeptOne(fs[0]) + Kept(fs[1..])
  }

  function KeptOne(f: Field): (r: seq<Field>)
    ensures |r| == if f.value.Undefined? then 0 else 1
  {
    if f.value.Undefined? then [] else [Field(f.key, Back(f.value))]
  }

  /** Keys that are not renamed are appended in order. */
  lemma {:induction false} KeptBack(fs: seq<Field>, d: Draft)
    requires Settable(d) && !SomeRenamed(fs) && DistinctKeys(fs) && Disjoint(d.fields, fs)
    ensures BackFields(fs, d) == Draft(d.fields + Kept(fs), d.proto)
    decreases |fs|
  {
    hide Back, Assign, Settable, Disjoint, DistinctKeys, SomeRenamed, KeyIn, Renamed, Strip, PutField, Written, BackField;
    if fs == [] {
      assert d.fields + [] == d.fields;
    } else {
      var f, rest := fs[0], fs[1..];
      SomeRenamedRest(fs);
      RestDisjoint(fs, d.fields);
      KeptStep(f, rest, d);
      KeptBack(rest, BackField(f, d));
      Appended(d.fields, KeptOne(f), Kept(rest));
    }
  }

  lemma Appended(a: seq<Field>, b: seq<Field>, c: seq<Field>)
    ensures (a + b) + c == a + (b + c)
  {
  }

  lemma KeptStep(f: Field, rest: seq<Field>, d: Draft)
    requires Settable(d) && !Renamed(f) && !KeyIn(d.fields, f.key) && Disjoint(d.fields, rest)
    requires forall v :: Disjoint(d.fields + [Field(f.key, v)], rest)
    ensures var t := BackField(f, d); t == Draft(d.fields + KeptOne(f), d.proto) && Settable(t) && Disjoint(t.fields, rest)
  {
    hide Back, Assign, Settable, Disjoint, KeyIn, Renamed, Strip, PutField;
    if f.value.Undefined? {
      assert d.fields + [] == d.fields;
    } else {
      var g := Field(f.key, Back(f.value));
      KeyStays(f);
      PutSettable(d, g);
      PutNew(d.fields, g);
    }
  }

  lemma KeyStays(f: Field)
    requires !f.value.Undefined? && !Renamed(f)
    ensures f.key != PROTO && Strip(f.key) == f.key
  {
  }

  lemma RestDisjoint(fs: seq<Field>, done: seq<Field>)
    requires fs != [] && DistinctKeys(fs) && Disjoint(done, fs)
    ensures DistinctKeys(fs[1..]) && Disjoint(done, fs[1..]) && !KeyIn(done, fs[0].key)
    ensures forall v :: Disjoint(done + [Field(fs[0].key, v)], fs[1..])
  {
  }

  /**
   The value itself comes back exactly when no string or written key at any depth starts with a mark and
   no written field is named `__proto__`.
   */
  lemma {:induction false} BackIsNorm(v: Value)
    requires Held(v)
    ensures Back(v) == Norm(v) <==> Nameable(v)
    decreases v, 1
  {
    match v
    case Arr(xs) => AllBackIsNorm(xs);
    case Obj(fs, _) =>
      hide Back, Norm, Nameable, BackFields, KeyBytes;
      ObjParts(fs, v.proto);
      if SomeRenamed(fs) {
        RenamedBytes(fs, FRESH);
        RenamedUnnameable(fs);
        NoBytes();
      } else {
        KeptBack(fs, FRESH);
        assert [] + Kept(fs) == Kept(fs);
        KeptIsNorm(fs);
      }
    case _ =>
  }

  lemma NoBytes()
    ensures KeyBytes([]) == 0 && Settable(FRESH)
  {
  }

  lemma ObjParts(fs: seq<Field>, proto: Proto)
    ensures var v, d := Obj(fs, proto), BackFields(fs, FRESH);
      Back(v) == Obj(d.fields, d.proto) && Norm(v) == Obj(NormFields(fs), Plain) && (Nameable(v) <==> FieldsNameable(fs))
  {
  }

  lemma {:induction false} RenamedUnnameable(fs: seq<Field>)
    requires SomeRenamed(fs)
    ensures !FieldsNameable(fs)
  {
    SomeRenamedRest(fs);
    if !Renamed(fs[0]) {
      RenamedUnnameable(fs[1..]);
    }
  }

  lemma {:induction false} AllBackIsNorm(xs: seq<Value>)
    requires AllHeld(xs)
    ensures BackAll(xs) == NormAll(xs) <==> AllNameable(xs)
    decreases xs, 0
  {
    hide Back, Norm, Nameable;
    if xs != [] {
      BackIsNorm(xs[0]);
      AllBackIsNorm(xs[1..]);
      ConsEqual(Back(xs[0]), BackAll(xs[1..]), Norm(xs[0]), NormAll(xs[1..]));
    }
  }

  lemma ConsEqual<T>(a: T, s: seq<T>, b: T, t: seq<T>)
    ensures [a] + s == [b] + t <==> a == b && s == t
  {
    if [a] + s == [b] + t {
      assert ([a] + s)[0] == ([b] + t)[0];
      assert s == ([a] + s)[1..] && t == ([b] + t)[1..];
    }
  }

  lemma {:induction false} KeptIsNorm(fs: seq<Field>)
    requires AllFieldsHeld(fs) && !SomeRenamed(fs)
    ensures Kept(fs) == NormFields(fs) <==> FieldsNameable(fs)
    decreases fs, 0
  {
    hide Back, Norm, Nameable, Held;
    if fs != [] {
      var f, rest := fs[0], fs[1..];
      SomeRenamedRest(fs);
      KeptIsNorm(rest);
      if f.value.Undefined? {
        assert [] + Kept(rest) == Kept(rest) && [] + NormFields(rest) == NormFields(rest);
      } else {
        FieldBackIsNorm(f);
        ConsEqual(Field(f.key, Back(f.value)), Kept(rest), Field(f.key, Norm(f.value)), NormFields(rest));
      }
    }
  }

  lemma {:induction false} FieldBackIsNorm(f: Field)
    requires FieldHeld(f) && !f.value.Undefined?
    ensures Back(f.value) == Norm(f.value) <==> Nameable(f.value)
    decreases f
  {
    BackIsNorm(f.value);
  }

  /**
   Unpacking a packed value followed by anything gives the value back, and exactly what followed, if and
   only if no string or written key at any depth starts with a mark and no written field is named `__proto__`.
   */
  lemma RoundTrip(v: Value, x: Bytes)
    requires Held(v) && Pack(v).Some?
    ensures Unpack(Pack(v).value + x) == Some((Norm(v), x)) <==> Nameable(v)
  {
    hide Held, Pack, Unpack, Norm, Back, Nameable;
    ComesBack(v, x);
    BackIsNorm(v);
  }

  /** An object with the one field `__proto__` comes back empty, and with null in it without a prototype either. */
  lemma ProtoIsLost(n: int, x: Bytes)
    requires Safe(n)
    ensures var (v, w) := (Obj([Field(PROTO, Int(n))], Plain), Obj([Field(PROTO, Nil)], Plain));
      && Held(v) && Pack(v).Some? && Unpack(Pack(v).value + x) == Some((Obj([], Plain), x))
      && Held(w) && Pack(w).Some? && Unpack(Pack(w).value + x) == Some((Obj([], NoProto), x))
  {
    hide PackInt, Unpack;
    Unmarked(PROTO);
    OneField(PROTO, Int(n), x);
    OneField(PROTO, Nil, x);
  }

  /** An object with one field comes back with what assigning that one gives. */
  lemma OneField(key: Bytes, e: Value, x: Bytes)
    requires ByteString(key) && Held(e) && Pack(e).Some? && !e.Undefined?
    ensures var v, d := Obj([Field(key, e)], Plain), Assign(FRESH, Field(Strip(key), Back(e)));
      Held(v) && Pack(v).Some? && Unpack(Pack(v).value + x) == Some((Obj(d.fields, d.proto), x))
  {
    hide Unpack, PackStr, Header, Assign, Back;
    var f := Field(key, e);
    OneHeld(f);
    ObjParts([f], Plain);
    OneBack(f, FRESH);
    ComesBack(Obj([f], Plain), x);
  }

  lemma OneHeld(f: Field)
    requires ByteString(f.key) && Held(f.value) && Pack(f.value).Some? && !f.value.Undefined?
    ensures Held(Obj([f], Plain)) && Pack(Obj([f], Plain)).Some?
  {
    hide PackStr, Header;
    assert [f][1..] == [] && AllFieldsHeld([]) && PackFields([]) == Some([]);
    assert FieldHeld(f) && PackField(f).Some? && PackFields([f]).Some?;
  }

  lemma OneBack(f: Field, d: Draft)
    requires !f.value.Undefined?
    ensures BackFields([f], d) == Assign(d, Field(Strip(f.key), Back(f.value)))
  {
    hide Assign, Back;
    assert [f][1..] == [] && BackFields([], BackField(f, d)) == BackField(f, d);
  }

  /**
   The mark is gone from the front of a text and of a key; a key that was told from another by the mark
   alone meets it, and one that is `__proto__` without the mark sets the prototype.
   */
  lemma MarkIsLost(n: int, m: int, x: Bytes)
    requires Safe(n) && Safe(m)
    ensures var (t, u) := (Str(MARK + [120]), Obj([Field(MARK + PROTO, Nil)], Plain));
      && Held(t) && Unpack(Pack(t).value + x) == Some((Str([120]), x))
      && Held(u) && Pack(u).Some? && Unpack(Pack(u).value + x) == Some((Obj([], NoProto), x))
    ensures var w := Obj([Field(MARK + [97], Int(n)), Field([97], Int(m))], Plain);
      Held(w) && Pack(w).Some? && Unpack(Pack(w).value + x) == Some((Obj([Field([97], Int(m))], Plain), x))
  {
    hide PackInt, PackStr, Unpack;
    assert Strip(MARK + [120]) == [120] && Strip(MARK + PROTO) == PROTO;
    ComesBack(Str(MARK + [120]), x);
    OneField(MARK + PROTO, Nil, x);
    TwoMeet(n, m, x);
  }

  lemma TwoMeet(n: int, m: int, x: Bytes)
    requires Safe(n) && Safe(m)
    ensures var w := Obj([Field(MARK + [97], Int(n)), Field([97], Int(m))], Plain);
      Held(w) && Pack(w).Some? && Unpack(Pack(w).value + x) == Some((Obj([Field([97], Int(m))], Plain), x))
  {
    hide Unpack, Held, Pack, BackFields, BackField;
    var f, g := Field(MARK + [97], Int(n)), Field([97], Int(m));
    assert |f.key| == 4;
    TwoHeld(f, g);
    TwoBack(f, g);
    Unmarked([97]);
    TwoAssigned(n, m);
    ObjParts([f, g], Plain);
    ComesBack(Obj([f, g], Plain), x);
  }

  lemma TwoHeld(f: Field, g: Field)
    requires ByteString(f.key) && ByteString(g.key) && f.key != g.key && f.value.Int? && g.value.Int?
    requires Safe(f.value.n) && Safe(g.value.n)
    ensures Held(Obj([f, g], Plain)) && Pack(Obj([f, g], Plain)).Some?
  {
    hide PackStr, PackInt, Header;
    var fs := [f, g];
    assert fs[1..] == [g] && [g][1..] == [];
    NumberHeld(f);
    NumberHeld(g);
    assert AllFieldsHeld([]) && PackFields([]) == Some([]);
    assert AllFieldsHeld([g]) && PackFields([g]).Some?;
    assert AllFieldsHeld(fs) && PackFields(fs).Some?;
  }

  lemma NumberHeld(f: Field)
    requires ByteString(f.key) && f.value.Int? && Safe(f.value.n)
    ensures FieldHeld(f) && PackField(f).Some?
  {
    hide PackStr, PackInt;
    assert Held(f.value) && Pack(f.value).Some?;
  }

  lemma TwoBack(f: Field, g: Field)
    requires f.value.Int? && g.value.Int?
    ensures BackFields([f, g], FRESH) == Assign(Assign(FRESH, Field(Strip(f.key), f.value)), Field(Strip(g.key), g.value))
  {
    hide Assign;
    OneBack(g, BackField(f, FRESH));
    assert [f, g][1..] == [g];
    assert Back(f.value) == f.value && Back(g.value) == g.value;
  }

  lemma TwoAssigned(n: int, m: int)
    ensures Strip(MARK + [97]) == [97]
    ensures Assign(Assign(FRESH, Field([97], Int(n))), Field([97], Int(m))) == Draft([Field([97], Int(m))], Plain)
  {
    assert |PROTO| == 9;
    var d := Assign(FRESH, Field([97], Int(n)));
    assert d == Draft([Field([97], Int(n))], Plain) && d.fields[1..] == [];
  }

  // -- whole frames -----------------------------------------------------------------------------------------

  /** A frame is one value and nothing after it. */
  function Decode(b: Bytes): Option<Value> {
    var p := Unpack(b);
    if p.Some? && p.value.1 == [] then Some(p.value.0) else None
  }

  /** Decoding a frame gives the value back under the same condition; with anything after it, the frame is refused. */
  lemma FrameRoundTrip(v: Value, x: Bytes)
    requires Held(v) && Pack(v).Some?
    ensures (Decode(Pack(v).value) == Some(Norm(v)) <==> Nameable(v)) && (x != [] ==> Decode(Pack(v).value + x) == None)
  {
    hide Pack, Unpack, Norm, Held, Nameable, Back;
    ComesBack(v, []);
    BackIsNorm(v);
    assert Pack(v).value + [] == Pack(v).value;
    ComesBack(v, x);
  }
}
