/** The packer that appends to a byte buffer and the unpacker that advances over one. */
module MsgpackCodec {
  import opened Basics
  import opened Msgpack

  // -- bytes by shifting -------------------------------------------------------------------------

  lemma Multiples(k: int, p: nat)
    ensures (k >= 1 ==> k * p >= p) && (k <= -1 ==> k * p + p <= 0)
  {
  }

  lemma QuotientIs(x: nat, p: nat, q: nat, r: nat)
    requires p > 0 && x == q * p + r && r < p
    ensures x / p == q
  {
    var d, e := x / p, x % p;
    assert x == d * p + e;
    Multiples(d - q, p);
    assert (d - q) * p == d * p - q * p;
  }

  lemma Divide(v: nat, m: nat) returns (q: nat, r: nat)
    requires m > 0
    ensures v == q * m + r && r < m && q == v / m
  {
    q, r := v / m, v % m;
  }

  lemma DivideTwice(v: nat, p: nat)
    requires p > 0
    ensures (v / 256) / p == v / (256 * p)
  {
    var q, r := Divide(v, 256 * p);
    HalvesDivide(q, p, r);
    SmallByte(r, p);
    QuotientIs(v / 256, p, q, r / 256);
  }

  lemma SmallByte(r: nat, p: nat)
    requires r < 256 * p
    ensures r / 256 < p
  {
  }

  /** The leading byte by one shift, the rest by the others. */
  lemma {:induction false} LeadingByte(v: nat, w: nat)
    requires w > 0
    ensures BE(v, w) == [(v / Pow(w - 1)) % 256] + BE(v, w - 1)
  {
    if w == 1 {
      assert Pow(0) == 1;
    } else {
      LeadingByte(v / 256, w - 1);
      DivideTwice(v, Pow(w - 2));
      assert BE(v, w) == BE(v / 256, w - 1) + [v % 256];
      assert BE(v, w - 1) == BE(v / 256, w - 2) + [v % 256];
    }
  }

  lemma {:induction false} AccumulateNext(b: Bytes, i: nat)
    requires i < |b|
    ensures FromBE(b[..i + 1]) == FromBE(b[..i]) * 256 + b[i]
  {
    assert b[..i + 1][..i] == b[..i];
  }

  class Packer {
    var bytes: Bytes

    constructor ()
      ensures bytes == []
    {
      bytes := [];
    }

    method Byte(value: nat)
      modifies this
      ensures bytes == old(bytes) + [value % 256]
    {
      bytes := bytes + [value % 256];
    }

    method Raw(values: Bytes)
      requires forall i :: 0 <= i < |values| ==> values[i] < 256
      modifies this
      ensures bytes == old(bytes) + values
    {
      var i := 0;
      while i < |values|
        invariant i <= |values| && bytes == old(bytes) + values[..i]
      {
        Byte(values[i]);
        i := i + 1;
      }
      assert values[..|values|] == values;
    }

    /** Byte by byte, the high shifts first. */
    method BigEndian(value: nat, width: nat)
      modifies this
      ensures bytes == old(bytes) + BE(value, width)
    {
      var left := width;
      while left > 0
        invariant 0 <= left <= width && bytes + BE(value, left) == old(bytes) + BE(value, width)
      {
        LeadingByte(value, left);
        ghost var before := bytes;
        Byte(value / Pow(left - 1));
        assert before + ([(value / Pow(left - 1)) % 256] + BE(value, left - 1)) == bytes + BE(value, left - 1);
        left := left - 1;
      }
    }

    /** Refused outside the safe integers; otherwise the shortest form. */
    method Integer(value: int) returns (ok: bool)
      modifies this
      ensures ok == Safe(value) && (ok ==> bytes == old(bytes) + PackInt(value))
    {
      hide BE;
      ok := Safe(value);
      if !ok {
        return;
      }
      if value >= 0 {
        NonNegative(value);
      } else {
        Negative(value);
      }
    }

    method NonNegative(value: nat)
      requires Safe(value)
      modifies this
      ensures bytes == old(bytes) + PackInt(value)
    {
      hide BE;
      if value < 0x80 {
        Byte(value);
      } else if value <= 0xff {
        Raw([0xcc, value]);
      } else if value <= 0xffff {
        Byte(0xcd);
        BigEndian(value, 2);
      } else if value <= 0xffff_ffff {
        Byte(0xce);
        BigEndian(value, 4);
      } else {
        Byte(0xcf);
        BigEndian(value, 8);
      }
    }

    method Negative(value: int)
      requires Safe(value) && value < 0
      modifies this
      ensures bytes == old(bytes) + PackInt(value)
    {
      hide BE;
      if value >= -32 {
        Byte(0xe0 + (value + 32));
      } else if value >= -0x80 {
        Raw([0xd0, value + 0x100]);
      } else if value >= -0x8000 {
        Byte(0xd1);
        BigEndian(value + 0x1_0000, 2);
      } else if value >= -0x8000_0000 {
        Byte(0xd2);
        BigEndian(value + TWO32, 4);
      } else {
        NegativeHalves(value);
      }
    }

    /** Two's complement in two 32-bit halves. */
    method NegativeHalves(value: int)
      requires -MAX_SAFE <= value < -0x8000_0000
      modifies this
      ensures bytes == old(bytes) + PackInt(value)
    {
      hide BE;
      LowHalfIs(value);
      HighHalfIs(value);
      Byte(0xd3);
      var low := Remainder(value, TWO32);
      var high := value / TWO32;
      if low < 0 {
        low := low + TWO32;
      }
      if high < 0 {
        high := high + TWO32;
      }
      assert low == LowHalf(value) && high == HighHalf(value);
      BigEndian(high, 4);
      BigEndian(low, 4);
    }

    method Text(encoded: Bytes)
      requires ByteString(encoded)
      modifies this
      ensures bytes == old(bytes) + PackStr(encoded)
    {
      hide BE;
      var len := |encoded|;
      if len < 32 {
        Byte(0xa0 + len);
      } else if len <= 0xff {
        Raw([0xd9, len]);
      } else if len <= 0xffff {
        Byte(0xda);
        BigEndian(len, 2);
      } else {
        Byte(0xdb);
        BigEndian(len, 4);
      }
      Raw(encoded);
    }

    method WriteHeader(len: nat, fix: nat, tag16: nat)
      requires fix + 15 < 256 && tag16 + 1 < 256
      modifies this
      ensures bytes == old(bytes) + Header(len, fix, 16, tag16)
    {
      hide BE;
      if len < 16 {
        Byte(fix + len);
      } else if len <= 0xffff {
        Byte(tag16);
        BigEndian(len, 2);
      } else {
        Byte(tag16 + 1);
        BigEndian(len, 4);
      }
    }

    /** Append the value's bytes; false where the encoder refuses it. */
    method PackValue(v: Value) returns (ok: bool)
      requires Held(v)
      modifies this
      ensures ok == Pack(v).Some? && (ok ==> bytes == old(bytes) + Pack(v).value)
      decreases v, 1
    {
      hide PackInt, PackStr, Header, PackAll, PackFields, BE;
      ok := true;
      match v {
        case Nil => Byte(0xc0);
        case Undefined => Byte(0xc0);
        case Bool(b) => Byte(if b then 0xc3 else 0xc2);
        case Int(n) => ok := Integer(n);
        case Float => ok := false;
        case Str(s) => Text(s);
        case Blob(s) =>
          WriteHeader(|s|, 0x90, 0xdc);
          Integers(s);
        case Arr(xs) =>
          WriteHeader(|xs|, 0x90, 0xdc);
          ok := PackItems(xs);
        case Obj(fs, _) =>
          WriteHeader(|Written(fs)|, 0x80, 0xde);
          ok := PackEntries(fs);
      }
    }

    method Integers(s: Bytes)
      requires ByteString(s)
      modifies this
      ensures bytes == old(bytes) + PackBytes(s)
    {
      hide PackInt;
      var i := 0;
      assert s[0..] == s;
      while i < |s|
        invariant i <= |s| && bytes + PackBytes(s[i..]) == old(bytes) + PackBytes(s)
      {
        assert s[i..][0] == s[i] && s[i..][1..] == s[i + 1..] && IsByte(s[i]);
        ghost var before := bytes;
        var _ := Integer(s[i]);
        Reassociate(before, PackInt(s[i]), PackBytes(s[i + 1..]));
        i := i + 1;
      }
      assert s[|s|..] == [];
    }

    method PackItems(xs: seq<Value>) returns (ok: bool)
      requires AllHeld(xs)
      modifies this
      ensures ok == PackAll(xs).Some? && (ok ==> bytes == old(bytes) + PackAll(xs).value)
      decreases xs, 0
    {
      hide Pack, Held;
      var i := 0;
      assert xs[0..] == xs;
      while i < |xs|
        invariant i <= |xs| && AllHeld(xs[i..]) && (PackAll(xs).Some? <==> PackAll(xs[i..]).Some?)
        invariant PackAll(xs).Some? ==> bytes + PackAll(xs[i..]).value == old(bytes) + PackAll(xs).value
      {
        ghost var rest := xs[i..];
        assert rest[0] == xs[i] && rest[1..] == xs[i + 1..];
        ghost var before := bytes;
        ok := PackValue(xs[i]);
        if !ok {
          return;
        }
        if PackAll(xs).Some? {
          Reassociate(before, Pack(xs[i]).value, PackAll(rest[1..]).value);
        }
        i := i + 1;
      }
      assert xs[|xs|..] == [];
      ok := true;
    }

    method PackEntries(fs: seq<Field>) returns (ok: bool)
      requires AllFieldsHeld(fs)
      modifies this
      ensures ok == PackFields(fs).Some? && (ok ==> bytes == old(bytes) + PackFields(fs).value)
      decreases fs, 0
    {
      hide PackField, FieldHeld;
      var i := 0;
      assert fs[0..] == fs;
      while i < |fs|
        invariant i <= |fs| && AllFieldsHeld(fs[i..]) && (PackFields(fs).Some? <==> PackFields(fs[i..]).Some?)
        invariant PackFields(fs).Some? ==> bytes + PackFields(fs[i..]).value == old(bytes) + PackFields(fs).value
      {
        ghost var rest := fs[i..];
        assert rest[0] == fs[i] && rest[1..] == fs[i + 1..];
        ghost var before := bytes;
        ok := PackEntry(fs[i]);
        if !ok {
          return;
        }
        if PackFields(fs).Some? {
          Reassociate(before, PackField(fs[i]).value, PackFields(rest[1..]).value);
        }
        i := i + 1;
      }
      assert fs[|fs|..] == [];
      ok := true;
    }

    method PackEntry(f: Field) returns (ok: bool)
      requires FieldHeld(f)
      modifies this
      ensures ok == PackField(f).Some? && (ok ==> bytes == old(bytes) + PackField(f).value)
      decreases f
    {
      hide Pack, Held, PackStr;
      if f.value.Undefined? {
        return true;
      }
      Text(f.key);
      ok := PackValue(f.value);
    }
  }

  class Unpacker {
    const view: Bytes
    var offset: nat

    ghost predicate Valid()
      reads this
    {
      offset <= |view|
    }

    ghost function Left(): Bytes
      requires Valid()
      reads this
    {
      view[offset..]
    }

    constructor (bytes: Bytes)
      ensures Valid() && Left() == bytes && view == bytes
    {
      view, offset := bytes, 0;
    }

    /** Advance over `count` bytes, or fail on a truncated frame. */
    method Need(count: nat) returns (start: Option<nat>)
      requires Valid()
      modifies this
      ensures Valid() && start == if old(offset) + count <= |view| then Some(old(offset)) else None
      ensures start.Some? ==> offset == old(offset) + count
      ensures start.None? ==> offset == old(offset)
    {
      if offset + count > |view| {
        return None;
      }
      start := Some(offset);
      offset := offset + count;
    }

    method BigEndian(width: nat) returns (r: Option<nat>)
      requires Valid()
      modifies this
      ensures Valid() && offset >= old(offset)
      ensures var p := Unsigned(old(Left()), width);
        (r.Some? <==> p.Some?) && (r.Some? ==> r.value == p.value.0 && Left() == p.value.1)
    {
      hide FromBE;
      var start := Need(width);
      if start.None? {
        return None;
      }
      ghost var s := view[start.value..start.value + width];
      assert s == old(Left())[..width];
      var value := 0;
      var i := 0;
      FromNothing();
      while i < width
        invariant i <= width && value == FromBE(s[..i]) && offset == start.value + width && value >= 0
      {
        AccumulateNext(s, i);
        value := value * 256 + view[start.value + i];
        i := i + 1;
      }
      assert s[..width] == s;
      r := if Safe(value) then Some(value) else None;
    }

    method Signed(width: nat) returns (r: Option<Value>)
      requires Valid() && width > 0
      modifies this
      ensures Valid() && offset >= old(offset)
      ensures var p := Msgpack.Signed(old(Left()), width);
        (r.Some? <==> p.Some?) && (r.Some? ==> r.value == p.value.0 && Left() == p.value.1)
    {
      hide FromBE, Pow;
      var start := Need(width);
      if start.None? {
        return None;
      }
      ghost var s := view[start.value..start.value + width];
      assert s == old(Left())[..width];
      var first := view[start.value];
      var value: int := first;
      if first >= 128 {
        value := value - 256;
      }
      ghost var sign := if first >= 128 then 1 else 0;
      SignStart(s);
      var i := 1;
      while i < width
        invariant 1 <= i <= width && value == FromBE(s[..i]) - sign * Pow(i) && offset == start.value + width
      {
        AccumulateNext(s, i);
        SignNext(sign, i);
        value := value * 256 + view[start.value + i];
        i := i + 1;
      }
      assert s[..width] == s;
      r := if Safe(value) then Some(Int(value)) else None;
    }

    method Text(len: nat) returns (r: Option<Value>)
      requires Valid()
      modifies this
      ensures Valid() && offset >= old(offset)
      ensures var p := StrOf(old(Left()), len);
        (r.Some? <==> p.Some?) && (r.Some? ==> r.value == p.value.0 && Left() == p.value.1)
    {
      var start := Need(len);
      if start.None? {
        return None;
      }
      r := Some(Str(Strip(view[start.value..start.value + len])));
    }

    method UnpackArray(len: nat) returns (r: Option<Value>)
      requires Valid()
      modifies this
      ensures Valid() && offset >= old(offset)
      ensures var p := ArrOf(old(Left()), len);
        (r.Some? <==> p.Some?) && (r.Some? ==> r.value == p.value.0 && Left() == p.value.1)
      decreases |view| - offset, 1
    {
      hide Unpack;
      ghost var start := Left();
      var out: seq<Value> := [];
      var i := 0;
      NoPrefix(UnpackAll(start, len));
      while i < len
        invariant i <= len && Valid() && offset >= old(offset)
        invariant UnpackAll(start, len) == Prefix(out, UnpackAll(Left(), len - i))
      {
        AllStep(Left(), len - i);
        var item := UnpackValue();
        if item.None? {
          return None;
        }
        PrefixTwice(out, item.value, UnpackAll(Left(), len - i - 1));
        out := out + [item.value];
        i := i + 1;
      }
      r := Some(Arr(out));
    }

    method UnpackMap(len: nat) returns (r: Option<Value>)
      requires Valid()
      modifies this
      ensures Valid() && offset >= old(offset)
      ensures var p := ObjOf(old(Left()), len);
        (r.Some? <==> p.Some?) && (r.Some? ==> r.value == p.value.0 && Left() == p.value.1)
      decreases |view| - offset, 1
    {
      hide Unpack;
      ghost var start := Left();
      var out := FRESH;
      var i := 0;
      while i < len
        invariant i <= len && Valid() && offset >= old(offset)
        invariant UnpackFields(start, len, FRESH) == UnpackFields(Left(), len - i, out)
      {
        FieldsStep(Left(), len - i, out);
        var key := UnpackValue();
        if key.None? || !key.value.Str? {
          return None;
        }
        var item := UnpackValue();
        if item.None? {
          return None;
        }
        out := Assign(out, Field(key.value.utf8, item.value));
        i := i + 1;
      }
      r := Some(Obj(out.fields, out.proto));
    }

    /** Read one value from here on. */
    method UnpackValue() returns (r: Option<Value>)
      requires Valid()
      modifies this
      ensures Valid() && offset >= old(offset)
      ensures var p := Unpack(old(Left()));
        (r.Some? <==> p.Some?) && (r.Some? ==> r.value == p.value.0 && Left() == p.value.1)
      decreases |view| - offset, 0
    {
      hide ArrOf, ObjOf, StrOf, Tagged;
      var start := Need(1);
      if start.None? {
        return None;
      }
      var tag := view[start.value];
      if tag <= 0x7f {
        r := Some(Int(tag));
      } else if tag >= 0xe0 {
        r := Some(Int(Fixed(tag)));
      } else if tag <= 0x8f {
        r := UnpackMap(tag - 0x80);
      } else if tag <= 0x9f {
        r := UnpackArray(tag - 0x90);
      } else if tag <= 0xbf {
        r := Text(tag - 0xa0);
      } else {
        r := UnpackTagged(tag);
      }
    }

    method UnpackTagged(tag: nat) returns (r: Option<Value>)
      requires Valid()
      modifies this
      ensures Valid() && offset >= old(offset)
      ensures var p := Tagged(tag, old(Left()));
        (r.Some? <==> p.Some?) && (r.Some? ==> r.value == p.value.0 && Left() == p.value.1)
      decreases |view| - offset, 3
    {
      hide Sized, Msgpack.Signed, Unsigned;
      if tag == 0xc0 {
        r := Some(Nil);
      } else if tag == 0xc2 {
        r := Some(Bool(false));
      } else if tag == 0xc3 {
        r := Some(Bool(true));
      } else if 0xcc <= tag <= 0xcf {
        var n := BigEndian(if tag == 0xcc then 1 else if tag == 0xcd then 2 else if tag == 0xce then 4 else 8);
        r := if n.Some? then Some(Int(n.value)) else None;
      } else if 0xd0 <= tag <= 0xd3 {
        r := Signed(if tag == 0xd0 then 1 else if tag == 0xd1 then 2 else if tag == 0xd2 then 4 else 8);
      } else if 0xd9 <= tag <= 0xdf {
        r := UnpackSized(tag, if tag == 0xd9 then 1 else if tag == 0xda || tag == 0xdc || tag == 0xde then 2 else 4);
      } else {
        r := None;
      }
    }

    method UnpackSized(tag: nat, width: nat) returns (r: Option<Value>)
      requires Valid()
      modifies this
      ensures Valid() && offset >= old(offset)
      ensures var p := SizedAt(tag, old(Left()), width);
        (r.Some? <==> p.Some?) && (r.Some? ==> r.value == p.value.0 && Left() == p.value.1)
      decreases |view| - offset, 2
    {
      hide ArrOf, ObjOf, StrOf, Unsigned;
      var n := BigEndian(width);
      if n.None? {
        return None;
      }
      if tag <= 0xdb {
        r := Text(n.value);
      } else if tag <= 0xdd {
        r := UnpackArray(n.value);
      } else {
        r := UnpackMap(n.value);
      }
    }
  }

  /** Read a width, then that much. */
  ghost function SizedAt(tag: nat, b: Bytes, width: nat): Parsed<Value> { Sized(tag, Unsigned(b, width), b) }

  lemma FromNothing()
    ensures FromBE([]) == 0
  {
  }

  lemma SignStart(s: Bytes)
    requires s != []
    ensures FromBE(s[..1]) == s[0] && Pow(1) == 256
  {
    assert s[..1][..0] == [];
  }

  lemma SignNext(sign: int, i: nat)
    ensures sign * Pow(i + 1) == (sign * Pow(i)) * 256
  {
  }

  /** Items already read, put in front of a parse. */
  ghost function Prefix(out: seq<Value>, p: Parsed<seq<Value>>): Parsed<seq<Value>> {
    if p.None? then None else Some((out + p.value.0, p.value.1))
  }

  lemma NoPrefix(p: Parsed<seq<Value>>)
    ensures Prefix([], p) == p
  {
    if p.Some? {
      assert [] + p.value.0 == p.value.0;
    }
  }

  lemma PrefixTwice(out: seq<Value>, v: Value, p: Parsed<seq<Value>>)
    ensures Prefix(out, Prefix([v], p)) == Prefix(out + [v], p)
  {
    if p.Some? {
      assert out + ([v] + p.value.0) == (out + [v]) + p.value.0;
    }
  }

  lemma AllStep(b: Bytes, n: nat)
    requires n > 0
    ensures var head := Unpack(b);
      UnpackAll(b, n) == if head.None? then None else Prefix([head.value.0], UnpackAll(head.value.1, n - 1))
  {
    hide Unpack;
  }

  lemma FieldsStep(b: Bytes, n: nat, done: Draft)
    requires n > 0
    ensures var key := Unpack(b);
      UnpackFields(b, n, done) ==
        if key.None? || !key.value.0.Str? || Unpack(key.value.1).None? then None
        else
          var item := Unpack(key.value.1).value;
          UnpackFields(item.1, n - 1, Assign(done, Field(key.value.0.utf8, item.0)))
  {
    hide Unpack;
  }
}
