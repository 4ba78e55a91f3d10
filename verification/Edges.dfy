/** Edge lists of the reactive graph: duplicate-free arrays with an optional position index. */
module Edges {
  type Id = nat

  ghost predicate NoDup(es: seq<Id>) {
    forall i, j :: 0 <= i < j < |es| ==> es[i] != es[j]
  }

  /** Position of the first occurrence. */
  function IndexOf(es: seq<Id>, id: Id): (i: nat)
    requires id in es
    ensures i < |es| && es[i] == id
    ensures forall j :: 0 <= j < i ==> es[j] != id
  {
    if es[0] == id then 0 else 1 + IndexOf(es[1..], id)
  }

  /** Appending insert: an id already present leaves the list alone. */
  function Insert(es: seq<Id>, id: Id): seq<Id> {
    if id in es then es else es + [id]
  }

  /** Swap-remove: the last element takes the hole. */
  function Remove(es: seq<Id>, id: Id): seq<Id> {
    if id in es then es[IndexOf(es, id) := es[|es| - 1]][..|es| - 1] else es
  }

  lemma InsertIsUnion(es: seq<Id>, id: Id)
    requires NoDup(es)
    ensures NoDup(Insert(es, id))
    ensures forall x :: x in Insert(es, id) <==> x in es || x == id
  {
  }

  lemma RemoveIsDifference(es: seq<Id>, id: Id)
    requires NoDup(es)
    ensures NoDup(Remove(es, id))
    ensures forall x :: x in Remove(es, id) <==> x in es && x != id
  {
    if id in es {
      var at, last := IndexOf(es, id), |es| - 1;
      var r := Remove(es, id);
      forall x | x in es && x != id ensures x in r {
        var k :| 0 <= k < |es| && es[k] == x;
        assert r[if k == last then at else k] == x;
      }
    }
  }
}
