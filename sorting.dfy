/**
 * `Array.prototype.sort` with a comparator, as both the report list and the
 * officer ranking use it: an in-place sort of an array by a total preorder
 * (`before(x, y)` means the comparator does not put `y` ahead of `x`).
 */
module Sorting {

  ghost predicate IsTotalPreorder<T(!new)>(before: (T, T) -> bool) {
    && (forall x, y :: before(x, y) || before(y, x))
    && (forall x, y, z :: before(x, y) && before(y, z) ==> before(x, z))
  }

  ghost predicate SortedBy<T>(s: seq<T>, before: (T, T) -> bool) {
    forall i, j :: 0 <= i < j < |s| ==> before(s[i], s[j])
  }

  /** Sorts `a` in place by insertion; the result is an ordered permutation of the input. */
  method InsertionSort<T(!new)>(a: array<T>, before: (T, T) -> bool)
    requires IsTotalPreorder(before)
    modifies a
    ensures SortedBy(a[..], before)
    ensures multiset(a[..]) == old(multiset(a[..]))
  {
    var i := 0;
    while i < a.Length
      invariant 0 <= i <= a.Length
      invariant forall k, l :: 0 <= k < l < i ==> before(a[k], a[l])
      invariant multiset(a[..]) == old(multiset(a[..]))
    {
      var j := i;
      while j > 0 && !before(a[j - 1], a[j])
        invariant 0 <= j <= i
        invariant forall k, l :: 0 <= k < l <= i && k != j && l != j ==> before(a[k], a[l])
        invariant forall l :: j < l <= i ==> before(a[j], a[l])
        invariant multiset(a[..]) == old(multiset(a[..]))
      {
        a[j - 1], a[j] := a[j], a[j - 1];
        j := j - 1;
      }
      i := i + 1;
    }
  }
}
