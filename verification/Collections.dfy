/** Small facts about sequences and finite sets. */
module Collections {

  predicate Distinct<T(==)>(s: seq<T>) {
    forall i, j :: 0 <= i < j < |s| ==> s[i] != s[j]
  }

  lemma {:induction false} SubsetSize<T>(a: set<T>, b: set<T>)
    requires a <= b
    ensures |a| <= |b|
    ensures |a| == |b| ==> a == b
  {
    assert b == a + (b - a);
  }

  /** A sequence without repeats is as long as the set of its elements. */
  lemma {:induction false} DistinctSize<T>(s: seq<T>)
    ensures |set x | x in s| <= |s|
    ensures Distinct(s) ==> |set x | x in s| == |s|
  {
    if s != [] {
      var before, x := s[..|s| - 1], s[|s| - 1];
      DistinctSize(before);
      assert s == before + [x];
      assert (set y | y in s) == (set y | y in before) + {x};
      if Distinct(s) {
        assert forall i, j :: 0 <= i < j < |before| ==> before[i] == s[i] && before[j] == s[j];
        assert x !in (set y | y in before);
      }
    }
  }
}
