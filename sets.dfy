/**
 The library's generic set: a map from elements to nothing, updated in place.
 Iteration over it has no defined order. Also the slice of shape IDs used to
 remember which shapes a cell selection has already visited.
 */
module GenericSets {

  /** The elements of a sequence, as a set. */
  function Elements<E>(xs: seq<E>): set<E>
  {
    set x | x in xs
  }

  class Set<E(==)> {
    var elems: set<E>

    /** newSet: an empty set. */
    constructor ()
      ensures elems == {}
    {
      elems := {};
    }

    predicate Contains(element: E)
      reads this
    {
      element in elems
    }

    /** Adds every given element, one after the other. */
    method Add(elements: seq<E>)
      modifies this
      ensures elems == old(elems) + Elements(elements)
      ensures forall x :: x in elems <==> x in old(elems) || x in elements
    {
      for i := 0 to |elements|
        invariant elems == old(elems) + Elements(elements[..i])
      {
        assert elements[..i + 1] == elements[..i] + [elements[i]];
        elems := elems + {elements[i]};
      }
      assert elements[..|elements|] == elements;
    }

    /** Removes every given element, one after the other. */
    method Remove(elements: seq<E>)
      modifies this
      ensures elems == old(elems) - Elements(elements)
      ensures forall x :: x in elems <==> x in old(elems) && x !in elements
    {
      for i := 0 to |elements|
        invariant elems == old(elems) - Elements(elements[..i])
      {
        assert elements[..i + 1] == elements[..i] + [elements[i]];
        elems := elems - {elements[i]};
      }
      assert elements[..|elements|] == elements;
    }

    /** Deletes the elements one at a time until none is left. */
    method Clear()
      modifies this
      ensures elems == {}
    {
      while elems != {}
        decreases elems
      {
        var v :| v in elems;
        elems := elems - {v};
      }
    }

    /** Adds every element of `other` to this set. `other` may be this set. */
    method Combine(other: Set<E>)
      modifies this
      ensures elems == old(elems) + old(other.elems)
      ensures forall x :: x in elems <==> x in old(elems) || x in old(other.elems)
    {
      var todo := other.elems;
      ghost var source := todo;
      while todo != {}
        invariant todo <= source
        invariant elems == old(elems) + (source - todo)
        decreases todo
      {
        var element :| element in todo;
        Add([element]);
        todo := todo - {element};
      }
    }

    /** Clears this set, then combines `other` into it. When `other` is this
        very set, it is empty by the time it is combined, so the result is empty. */
    method Set(other: Set<E>)
      modifies this
      ensures other != this ==> elems == old(other.elems)
      ensures other == this ==> elems == {}
    {
      Clear();
      Combine(other);
    }

    /** A new set with the same elements; this set is left as it was. */
    method Clone() returns (c: Set<E>)
      ensures fresh(c) && c.elems == elems
    {
      c := new Set();
      c.Combine(this);
    }

    /** Calls `f` on the elements, in no particular order, until a call returns
        false. Returns the elements `f` was called on, in call order. */
    method ForEach(f: E -> bool) returns (called: seq<E>)
      ensures forall i, j :: 0 <= i < j < |called| ==> called[i] != called[j]
      ensures forall x :: x in called ==> x in elems
      ensures forall i :: 0 <= i < |called| - 1 ==> f(called[i])
      ensures (|called| > 0 && !f(called[|called| - 1])) || Elements(called) == elems
    {
      var todo := elems;
      called := [];
      while todo != {}
        invariant todo <= elems
        invariant forall x :: x in called <==> x in elems && x !in todo
        invariant forall i, j :: 0 <= i < j < |called| ==> called[i] != called[j]
        invariant forall i :: 0 <= i < |called| ==> f(called[i])
        decreases todo
      {
        var element :| element in todo;
        called := called + [element];
        if !f(element) {
          break;
        }
        todo := todo - {element};
      }
    }
  }

  newtype uint32 = x: int | 0 <= x < 0x1_0000_0000

  /** The IDs of the shapes already visited, in visiting order. */
  type ShapeIdSet = seq<uint32>

  /** Linear scan with early return. */
  method IdInSet(s: ShapeIdSet, id: uint32) returns (r: bool)
    ensures r <==> id in s
  {
    for i := 0 to |s|
      invariant forall k :: 0 <= k < i ==> s[k] != id
    {
      if s[i] == id {
        return true;
      }
    }
    return false;
  }
}
