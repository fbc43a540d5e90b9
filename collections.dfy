/** Sequences used as ordered sets: the visiting orders of Go map iterations and the name lists built from them. */
module Collections {

  function Elems<T>(s: seq<T>): set<T>
  {
    set x | x in s
  }

  predicate Distinct<T(==)>(s: seq<T>)
  {
    forall i, j | 0 <= i < j < |s| :: s[i] != s[j]
  }

  lemma ElemsSnoc<T>(s: seq<T>, x: T)
    ensures Elems(s + [x]) == Elems(s) + {x}
  {
    assert forall y | y in s + [x] :: y in s || y == x;
  }

  lemma DistinctSnoc<T>(s: seq<T>, x: T)
    requires Distinct(s) && x !in Elems(s)
    ensures Distinct(s + [x])
  {
  }

  /**
   * One more step of a Go map iteration over `keys`: `order` lists the keys visited so far,
   * each once, and `remaining` the keys still to visit. Visiting `x` keeps that bookkeeping.
   */
  lemma VisitStep<T>(keys: set<T>, order: seq<T>, visited: set<T>, remaining: set<T>, x: T)
    requires visited == Elems(order) && remaining !! visited && remaining + visited == keys
    requires Distinct(order) && x in remaining
    ensures visited + {x} == Elems(order + [x])
    ensures remaining - {x} !! visited + {x} && (remaining - {x}) + (visited + {x}) == keys
    ensures Distinct(order + [x])
    ensures |remaining - {x}| < |remaining|
  {
    ElemsSnoc(order, x);
    DistinctSnoc(order, x);
  }

  /** A sequence without repetitions has as many elements as the set of its elements. */
  lemma {:induction false} DistinctCard<T>(s: seq<T>)
    requires Distinct(s)
    ensures |Elems(s)| == |s|
    decreases |s|
  {
    if s != [] {
      var n := |s|;
      var prefix := s[..n - 1];
      assert s == prefix + [s[n - 1]];
      assert Distinct(prefix);
      DistinctCard(prefix);
      ElemsSnoc(prefix, s[n - 1]);
      assert s[n - 1] !in Elems(prefix);
    }
  }
}
