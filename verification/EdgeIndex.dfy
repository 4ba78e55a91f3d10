/** Wide edge lists carry a position index: it is the exact inverse of the list, and changes nothing else. */
module EdgeIndex {
  import opened Basics
  import opened Edges

  /** Lists of this width get an index on their next insertion. */
  const EDGE_INDEX_PROMOTE: nat := 160

  /** Position by id: exactly the members, each at its place. */
  ghost predicate Inverse(es: seq<Id>, pos: map<Id, nat>) {
    && (forall x :: x in pos <==> x in es)
    && (forall x :: x in pos ==> pos[x] < |es| && es[pos[x]] == x)
  }

  /** A duplicate-free list with its index, once it has one; without one it is narrow. */
  ghost predicate IndexOk(es: seq<Id>, index: Option<map<Id, nat>>) {
    NoDup(es) && (if index.Some? then Inverse(es, index.value) else |es| <= EDGE_INDEX_PROMOTE)
  }

  lemma InverseAt(es: seq<Id>, pos: map<Id, nat>, id: Id)
    requires NoDup(es) && Inverse(es, pos) && id in es
    ensures pos[id] == IndexOf(es, id)
  {
    var i := IndexOf(es, id);
    assert es[i] == es[pos[id]];
  }

  lemma InverseSnoc(es: seq<Id>, pos: map<Id, nat>, id: Id)
    requires Inverse(es, pos) && id !in es
    ensures Inverse(es + [id], pos[id := |es|])
  {
  }

  function Swapped(pos: map<Id, nat>, id: Id, moved: Id): map<Id, nat>
    requires id in pos
  {
    if moved != id then (pos - {id})[moved := pos[id]] else pos - {id}
  }

  lemma InverseSwap(es: seq<Id>, pos: map<Id, nat>, id: Id)
    requires NoDup(es) && Inverse(es, pos) && id in es
    ensures es[pos[id] := es[|es| - 1]][..|es| - 1] == Remove(es, id)
    ensures Inverse(Remove(es, id), Swapped(pos, id, es[|es| - 1]))
  {
    hide NoDup;
    InverseAt(es, pos, id);
    RemoveIsDifference(es, id);
    var last := |es| - 1;
    assert es[last] in es;
    SwapPositions(es, pos, id);
    var r, p := Remove(es, id), Swapped(pos, id, es[last]);
    forall x ensures x in p <==> x in r {
      assert x in es <==> x in pos;
    }
  }

  lemma SwapPositions(es: seq<Id>, pos: map<Id, nat>, id: Id)
    requires NoDup(es) && Inverse(es, pos) && id in es
    ensures var r, p := es[pos[id] := es[|es| - 1]][..|es| - 1], Swapped(pos, id, es[|es| - 1]);
      forall x :: x in p ==> p[x] < |r| && r[p[x]] == x
  {
    var last := |es| - 1;
    var moved := es[last];
    assert moved in pos && pos[moved] == last;
    var p := Swapped(pos, id, moved);
    forall x | x in p && x != moved ensures p[x] == pos[x] && pos[x] != last && pos[x] != pos[id] {
      assert es[pos[x]] == x;
    }
  }

  /** The index of the first `n` elements. */
  ghost predicate BuiltTo(es: seq<Id>, n: nat, pos: map<Id, nat>)
    requires n <= |es|
  {
    Inverse(es[..n], pos)
  }

  method BuildIndex(es: seq<Id>) returns (pos: map<Id, nat>)
    requires NoDup(es)
    ensures Inverse(es, pos)
  {
    pos := map[];
    var i := 0;
    while i < |es|
      invariant i <= |es| && BuiltTo(es, i, pos)
    {
      assert es[..i + 1] == es[..i] + [es[i]];
      assert es[i] !in es[..i];
      InverseSnoc(es[..i], pos, es[i]);
      pos := pos[es[i] := i];
      i := i + 1;
    }
    assert es[..|es|] == es;
  }

  /** Deduplicating append: scan while narrow, promote at the threshold, look up from then on. */
  method InsertIndexed(es: seq<Id>, id: Id, index: Option<map<Id, nat>>) returns (fs: seq<Id>, after: Option<map<Id, nat>>, added: bool)
    requires IndexOk(es, index)
    ensures fs == Insert(es, id) && added == (id !in es) && IndexOk(fs, after)
    ensures index.Some? || |es| >= EDGE_INDEX_PROMOTE ==> after.Some?
  {
    InsertIsUnion(es, id);
    if index.Some? {
      if id in index.value {
        return es, index, false;
      }
      InverseSnoc(es, index.value, id);
      return es + [id], Some(index.value[id := |es|]), true;
    }
    if |es| < EDGE_INDEX_PROMOTE {
      var i := 0;
      while i < |es|
        invariant i <= |es| && id !in es[..i]
      {
        if es[i] == id {
          return es, None, false;
        }
        i := i + 1;
      }
      assert es[..|es|] == es;
      return es + [id], None, true;
    }
    var built := BuildIndex(es);
    if id in built {
      return es, Some(built), false;
    }
    InverseSnoc(es, built, id);
    return es + [id], Some(built[id := |es|]), true;
  }

  /** Swap-remove: by scanning while narrow, by position once indexed. */
  method RemoveIndexed(es: seq<Id>, id: Id, index: Option<map<Id, nat>>) returns (fs: seq<Id>, after: Option<map<Id, nat>>, removed: bool)
    requires IndexOk(es, index)
    ensures fs == Remove(es, id) && removed == (id in es) && IndexOk(fs, after) && after.Some? == index.Some?
  {
    RemoveIsDifference(es, id);
    if index.None? {
      var i := 0;
      while i < |es|
        invariant i <= |es| && id !in es[..i]
      {
        if es[i] == id {
          FirstAt(es, id, i);
          return es[i := es[|es| - 1]][..|es| - 1], None, true;
        }
        i := i + 1;
      }
      assert es[..|es|] == es;
      return es, None, false;
    }
    var pos := index.value;
    if id !in pos {
      return es, index, false;
    }
    InverseSwap(es, pos, id);
    var last := |es| - 1;
    var moved := es[last];
    fs := es[pos[id] := moved][..last];
    after := Some(Swapped(pos, id, moved));
    removed := true;
  }

  lemma FirstAt(es: seq<Id>, id: Id, i: nat)
    requires i < |es| && es[i] == id && id !in es[..i]
    ensures IndexOf(es, id) == i
  {
    assert forall k :: 0 <= k < i ==> es[..i][k] == es[k];
  }
}
