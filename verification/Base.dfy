/** Types and small facts shared by all models. */
module Base {

  /** A thread, named by the id of the waiter structure it uses. */
  type Tid = nat

  datatype Option<+T> = None | Some(value: T)

  /** No value occurs twice. */
  predicate Distinct<T(==)>(q: seq<T>) {
    forall i, j :: 0 <= i < j < |q| ==> q[i] != q[j]
  }

  ghost function Elems<T>(q: seq<T>): set<T> {
    set x | x in q
  }

  lemma {:induction false} DistinctCount<T>(q: seq<T>)
    requires Distinct(q)
    ensures |Elems(q)| == |q|
  {
    if q != [] {
      var n := |q| - 1;
      DistinctCount(q[..n]);
      assert Elems(q) == Elems(q[..n]) + {q[n]};
      assert q[n] !in Elems(q[..n]);
    }
  }
}
