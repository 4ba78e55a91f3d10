/** The order on byte strings shared by sort keys and canonical encodings. */
module ByteOrder {
  /** Lexicographic order, a prefix before its extensions. */
  predicate Less(a: seq<nat>, b: seq<nat>) {
    b != [] && (a == [] || a[0] < b[0] || (a[0] == b[0] && Less(a[1..], b[1..])))
  }

  lemma {:induction false} NotLessSelf(k: seq<nat>)
    ensures !Less(k, k)
  {
    if k != [] {
      NotLessSelf(k[1..]);
    }
  }

  lemma {:induction false} LessTrans(a: seq<nat>, b: seq<nat>, c: seq<nat>)
    requires Less(a, b) && Less(b, c)
    ensures Less(a, c)
  {
    if a != [] && a[0] == b[0] && b[0] == c[0] {
      LessTrans(a[1..], b[1..], c[1..]);
    }
  }

  lemma {:induction false} LessTotal(a: seq<nat>, b: seq<nat>)
    ensures Less(a, b) || a == b || Less(b, a)
  {
    if a != [] && b != [] && a[0] == b[0] {
      LessTotal(a[1..], b[1..]);
      assert a == [a[0]] + a[1..] && b == [b[0]] + b[1..];
    }
  }

  lemma LessStep(a: nat, x: seq<nat>, b: nat, y: seq<nat>)
    ensures Less([a] + x, [b] + y) <==> a < b || (a == b && Less(x, y))
  {
  }
}
