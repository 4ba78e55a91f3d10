/** What every component uses: optional values, and least and greatest numbers. */
module Basics {
  datatype Option<+T> = None | Some(value: T)

  /** The largest integer a double holds exactly along with all smaller ones. */
  const MAX_SAFE: int := 0x1F_FFFF_FFFF_FFFF

  function Max(a: nat, b: nat): nat { if a < b then b else a }

  function Min(a: nat, b: nat): nat { if a < b then a else b }

  /** A set of numbers has a least member. */
  lemma {:induction false} LeastOf(s: set<nat>) returns (p: nat)
    requires s != {}
    ensures p in s && forall q :: q in s ==> p <= q
  {
    p :| p in s;
    if s != {p} {
      var y := LeastOf(s - {p});
      forall q | q in s ensures q == p || y <= q {
        assert q == p || q in s - {p};
      }
      p := Min(p, y);
    }
  }
}
