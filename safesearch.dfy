/** The three bounds-search entry points of safesearch.c.

    The C functions take a pointer `a` that may be null and a length `n`;
    here `a` is an `array?<Int32>` (null stands for the null pointer) and
    the caller's obligation that a non-null `a` holds at least `n` elements
    is the one precondition. The functions only read the array, so the
    methods have no `modifies` clause. */
module SafeSearch {
  import opened SafeSearchTypes
  import opened LinearOracle

  /** lower_bound_i32: the first position i in [0, n] with a[i] >= key.
      A null array with n > 0 is reported as {ErrNullPtr, 0}; every other
      call succeeds with status OkNotFound, whatever the contents. The two
      boundary conditions hold for any input; on non-descending input the
      index is the linear oracle's. */
  method LowerBound(a: array?<Int32>, n: nat, key: Int32) returns (res: SearchResult)
    requires a != null ==> n <= a.Length
    ensures a == null && n > 0 ==> res == SearchResult(ErrNullPtr, 0)
    ensures !(a == null && n > 0) ==> res.status == OkNotFound
    ensures res.index <= n
    ensures a != null && res.index < n ==> a[res.index] >= key
    ensures a != null && res.index > 0 ==> a[res.index - 1] < key
    ensures a != null && NonDescending(a[..n]) ==> res.index == LinearLowerBound(a[..n], key)
  {
    res := SearchResult(OkNotFound, 0);
    var first: nat := 0;
    var len: nat := n;

    if a == null && n > 0 {
      res := res.(status := ErrNullPtr);
      return;
    }

    while len > 0
      invariant a == null ==> n == 0
      invariant first + len <= n
      invariant first > 0 ==> a[first - 1] < key
      invariant first + len < n ==> a[first + len] >= key
      decreases len
    {
      var half := len / 2;
      var mid := first + half;
      assert mid < n;
      if a[mid] < key {
        first := mid + 1;
        len := len - half - 1;
      } else {
        len := half;
      }
    }

    res := res.(index := first);
    if a != null && NonDescending(a[..n]) {
      LowerBoundaryIsOracle(a[..n], key, first);
    }
  }

  /** upper_bound_i32: the first position i in [0, n] with a[i] > key.
      Same error handling and status as LowerBound; the loop advances past
      elements equal to key as well. */
  method UpperBound(a: array?<Int32>, n: nat, key: Int32) returns (res: SearchResult)
    requires a != null ==> n <= a.Length
    ensures a == null && n > 0 ==> res == SearchResult(ErrNullPtr, 0)
    ensures !(a == null && n > 0) ==> res.status == OkNotFound
    ensures res.index <= n
    ensures a != null && res.index < n ==> a[res.index] > key
    ensures a != null && res.index > 0 ==> a[res.index - 1] <= key
    ensures a != null && NonDescending(a[..n]) ==> res.index == LinearUpperBound(a[..n], key)
  {
    res := SearchResult(OkNotFound, 0);
    var first: nat := 0;
    var len: nat := n;

    if a == null && n > 0 {
      res := res.(status := ErrNullPtr);
      return;
    }

    while len > 0
      invariant a == null ==> n == 0
      invariant first + len <= n
      invariant first > 0 ==> a[first - 1] <= key
      invariant first + len < n ==> a[first + len] > key
      decreases len
    {
      var half := len / 2;
      var mid := first + half;
      assert mid < n;
      if a[mid] <= key {
        first := mid + 1;
        len := len - half - 1;
      } else {
        len := half;
      }
    }

    res := res.(index := first);
    if a != null && NonDescending(a[..n]) {
      UpperBoundaryIsOracle(a[..n], key, first);
    }
  }

  /** binary_search_i32: the lower bound, reclassified. An error from the
      lower bound is returned unchanged; otherwise the status is OkFound
      exactly when the element at the lower-bound index is key, and the
      index stays the lower-bound index either way. On non-descending input
      OkFound means key occurs in a[0..n) and the index is its leftmost
      occurrence; OkNotFound means key does not occur and the index is the
      insertion point. */
  method BinarySearch(a: array?<Int32>, n: nat, key: Int32) returns (res: SearchResult)
    requires a != null ==> n <= a.Length
    ensures a == null && n > 0 ==> res == SearchResult(ErrNullPtr, 0)
    ensures !(a == null && n > 0) ==> res.status == OkFound || res.status == OkNotFound
    ensures res.index <= n
    ensures res.status == OkFound <==> a != null && res.index < n && a[res.index] == key
    ensures a != null && res.index < n && res.status == OkNotFound ==> a[res.index] > key
    ensures a != null && res.index > 0 ==> a[res.index - 1] < key
    ensures a != null && NonDescending(a[..n]) ==>
      res.index == LinearLowerBound(a[..n], key) && (res.status == OkFound <==> key in a[..n])
    ensures a != null && NonDescending(a[..n]) && res.status == OkFound ==>
      forall j :: 0 <= j < res.index ==> a[j] != key
  {
    var lb := LowerBound(a, n, key);
    var isMatch := false;

    if lb.status != OkNotFound && lb.status != OkFound {
      return lb;
    }

    if lb.index < n && a != null {
      if a[lb.index] == key {
        isMatch := true;
      }
    }

    if isMatch {
      lb := lb.(status := OkFound);
    } else {
      lb := lb.(status := OkNotFound);
    }
    res := lb;

    if a != null && NonDescending(a[..n]) {
      MembershipAtLowerBound(a[..n], key);
    }
  }

  /** The three searches on one input, as the fuzz target calls them. The
      reserved ErrBadLen comes back from none of them; ErrNullPtr comes back
      exactly for a null array with n > 0, and then from all three. On
      non-descending input the three agree: the binary search reports the
      lower-bound index, the lower bound does not exceed the upper bound, and
      the elements between them are exactly those equal to key. */
  method ThreeSearches(a: array?<Int32>, n: nat, key: Int32)
    returns (lb: SearchResult, ub: SearchResult, bs: SearchResult)
    requires a != null ==> n <= a.Length
    ensures lb.status != ErrBadLen && ub.status != ErrBadLen && bs.status != ErrBadLen
    ensures IsError(lb.status) <==> a == null && n > 0
    ensures IsError(ub.status) <==> a == null && n > 0
    ensures IsError(bs.status) <==> a == null && n > 0
    ensures IsError(bs.status) ==> bs == lb
    ensures a != null && NonDescending(a[..n]) ==>
      bs.index == lb.index && lb.index <= ub.index &&
      forall j :: 0 <= j < n ==> (lb.index <= j < ub.index <==> a[j] == key)
  {
    lb := LowerBound(a, n, key);
    ub := UpperBound(a, n, key);
    bs := BinarySearch(a, n, key);
    if a != null && NonDescending(a[..n]) {
      EqualRange(a[..n], key);
    }
  }
}
