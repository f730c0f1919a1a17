/** The linear-scan reference definitions of lower and upper bound
    (linear_lower_bound / linear_upper_bound in safesearch.c), used here as
    the specification of the binary searches, and what they mean on a
    non-descending sequence. */
module LinearOracle {
  import opened SafeSearchTypes

  /** Non-descending order: ascending with duplicates allowed. */
  ghost predicate NonDescending(s: seq<Int32>) {
    forall i, j :: 0 <= i <= j < |s| ==> s[i] <= s[j]
  }

  /** The scan of linear_lower_bound from position i on: the first index
      at or after i whose element is >= key, or |s| if there is none. */
  function LowerFrom(s: seq<Int32>, key: Int32, i: nat): (r: nat)
    requires i <= |s|
    ensures i <= r <= |s|
    ensures forall j :: i <= j < r ==> s[j] < key
    ensures r < |s| ==> s[r] >= key
    decreases |s| - i
  {
    if i == |s| then |s|
    else if s[i] >= key then i
    else LowerFrom(s, key, i + 1)
  }

  /** The scan of linear_upper_bound from position i on: the first index
      at or after i whose element is > key, or |s| if there is none. */
  function UpperFrom(s: seq<Int32>, key: Int32, i: nat): (r: nat)
    requires i <= |s|
    ensures i <= r <= |s|
    ensures forall j :: i <= j < r ==> s[j] <= key
    ensures r < |s| ==> s[r] > key
    decreases |s| - i
  {
    if i == |s| then |s|
    else if s[i] > key then i
    else UpperFrom(s, key, i + 1)
  }

  /** linear_lower_bound(a, n, key) with s == a[0..n): the first position
      whose element is >= key. */
  function LinearLowerBound(s: seq<Int32>, key: Int32): (r: nat)
    ensures r <= |s|
    ensures forall j :: 0 <= j < r ==> s[j] < key
    ensures r < |s| ==> s[r] >= key
  {
    LowerFrom(s, key, 0)
  }

  /** linear_upper_bound(a, n, key) with s == a[0..n): the first position
      whose element is > key. */
  function LinearUpperBound(s: seq<Int32>, key: Int32): (r: nat)
    ensures r <= |s|
    ensures forall j :: 0 <= j < r ==> s[j] <= key
    ensures r < |s| ==> s[r] > key
  {
    UpperFrom(s, key, 0)
  }

  /** On a non-descending sequence the two local boundary conditions
      (the element at i is >= key, the one before it is < key) pin the
      index down to the oracle's answer. */
  lemma LowerBoundaryIsOracle(s: seq<Int32>, key: Int32, i: nat)
    requires NonDescending(s) && i <= |s|
    requires i < |s| ==> s[i] >= key
    requires i > 0 ==> s[i - 1] < key
    ensures i == LinearLowerBound(s, key)
  {
  }

  /** The same for the upper bound: element at i > key, the one before <= key. */
  lemma UpperBoundaryIsOracle(s: seq<Int32>, key: Int32, i: nat)
    requires NonDescending(s) && i <= |s|
    requires i < |s| ==> s[i] > key
    requires i > 0 ==> s[i - 1] <= key
    ensures i == LinearUpperBound(s, key)
  {
  }

  /** On a non-descending sequence every element before the lower bound is
      < key and every element from it on is >= key. */
  lemma LowerBoundPartitions(s: seq<Int32>, key: Int32)
    requires NonDescending(s)
    ensures forall j :: 0 <= j < |s| ==> (j < LinearLowerBound(s, key) <==> s[j] < key)
  {
  }

  /** On a non-descending sequence every element before the upper bound is
      <= key and every element from it on is > key. */
  lemma UpperBoundPartitions(s: seq<Int32>, key: Int32)
    requires NonDescending(s)
    ensures forall j :: 0 <= j < |s| ==> (j < LinearUpperBound(s, key) <==> s[j] <= key)
  {
  }

  /** On sorted input the lower bound never exceeds the upper bound, and the
      half-open range between them is exactly the run of elements equal to key. */
  lemma EqualRange(s: seq<Int32>, key: Int32)
    requires NonDescending(s)
    ensures LinearLowerBound(s, key) <= LinearUpperBound(s, key)
    ensures forall j :: 0 <= j < |s| ==>
      (LinearLowerBound(s, key) <= j < LinearUpperBound(s, key) <==> s[j] == key)
  {
  }

  /** On sorted input key occurs exactly when the element at the lower bound
      is key; otherwise the lower bound is an insertion point whose element,
      if any, is > key. */
  lemma MembershipAtLowerBound(s: seq<Int32>, key: Int32)
    requires NonDescending(s)
    ensures key in s <==> (LinearLowerBound(s, key) < |s| && s[LinearLowerBound(s, key)] == key)
  {
  }

  /** The fixed vectors of the conformance tests, on the oracles: an empty
      array, a single element, all-equal elements and the extreme values. */
  lemma FixedVectors()
    ensures LinearLowerBound([], 5) == 0 && LinearUpperBound([], 5) == 0
    ensures LinearLowerBound([10], 5) == 0 && LinearUpperBound([10], 5) == 0
    ensures LinearLowerBound([10], 10) == 0 && LinearUpperBound([10], 10) == 1
    ensures LinearLowerBound([10], 15) == 1 && LinearUpperBound([10], 15) == 1
    ensures LinearLowerBound([5, 5, 5, 5], 5) == 0 && LinearUpperBound([5, 5, 5, 5], 5) == 4
    ensures LinearLowerBound([Int32Min, 0, Int32Max], Int32Min) == 0
    ensures LinearUpperBound([Int32Min, 0, Int32Max], Int32Min) == 1
    ensures LinearLowerBound([Int32Min, 0, Int32Max], Int32Max) == 2
    ensures LinearUpperBound([Int32Min, 0, Int32Max], Int32Max) == 3
  {
    var extremes: seq<Int32> := [Int32Min, 0, Int32Max];
    assert UpperFrom(extremes, Int32Min, 1) == 1;
    assert LowerFrom(extremes, Int32Max, 1) == 2;
  }
}
