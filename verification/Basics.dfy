/** Shared vocabulary: optional values and facts about sequences. */
module Basics {

  datatype Option<+T> = None | Some(value: T)

  predicate Distinct<T(==)>(a: seq<T>) {
    forall i, j | 0 <= i < j < |a| :: a[i] != a[j]
  }

  function Elements<T(==)>(a: seq<T>): set<T> {
    set e | e in a
  }

  lemma {:induction false} DistinctSize<T>(a: seq<T>)
    ensures |Elements(a)| <= |a|
    ensures Distinct(a) ==> |Elements(a)| == |a|
  {
    if a == [] {
      assert Elements(a) == {};
    } else {
      DistinctSize(a[1..]);
      assert Elements(a) == {a[0]} + Elements(a[1..]);
    }
  }

  lemma SubsetSize<T>(a: set<T>, b: set<T>)
    requires a <= b
    ensures |a| <= |b|
    ensures |a| == |b| ==> a == b
  {
    assert b == a + (b - a);
  }

  /** Neighbours differ. */
  predicate StutterFree<T(==)>(xs: seq<T>) {
    forall i | 0 <= i < |xs| - 1 :: xs[i] != xs[i + 1]
  }

  lemma PrependStutterFree<T>(x: T, xs: seq<T>)
    requires StutterFree(xs) && (xs != [] ==> xs[0] != x)
    ensures StutterFree([x] + xs)
  {
    var all := [x] + xs;
    forall i | 0 <= i < |all| - 1 ensures all[i] != all[i + 1] {
      if i > 0 {
        var j := i - 1;
        assert all[i] == xs[j] && all[i + 1] == xs[j + 1];
      }
    }
  }
}
