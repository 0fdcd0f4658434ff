/** Counting the elements of lists without repetition. */
module Lists {
  import opened Types

  lemma LossOfOne(before: seq<int>, after: seq<int>, e: int)
    requires NoDup(before) && NoDup(after) && forall h :: h in before ==> h in after || h == e
    ensures |after| >= |before| - 1
  {
    DistinctCount(before);
    DistinctCount(after);
    var x, y := set h | h in before, set h | h in after;
    assert x - {e} <= y;
    assert |x| - 1 <= |x - {e}|;
    SubsetCount(x - {e}, y);
  }

  lemma LossIsShorter(before: seq<int>, after: seq<int>, e: int)
    requires NoDup(before) && NoDup(after) && forall h :: h in after ==> h in before
    requires e in before && e !in after
    ensures |after| < |before|
  {
    DistinctCount(before);
    DistinctCount(after);
    var x, y := set h | h in before, set h | h in after;
    assert y <= x - {e};
    SubsetCount(y, x - {e});
  }

  lemma {:induction false} DistinctCount(s: seq<int>)
    requires NoDup(s)
    ensures |set h | h in s| == |s|
  {
    if s != [] {
      DistinctCount(s[1..]);
      assert (set h | h in s) == {s[0]} + set h | h in s[1..];
    }
  }

  lemma SubsetCount(x: set<int>, y: set<int>)
    requires x <= y
    ensures |x| <= |y|
  {
    assert y == x + (y - x);
  }
}
