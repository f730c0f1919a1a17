/** The fixed vectors of the conformance tests in safesearch.c, stated as
    the full results (status and index) that the three searches return on
    them. Each method builds the test's array and returns the results in
    the order the tests make the calls. */
module ConformanceVectors {
  import opened SafeSearchTypes
  import opened LinearOracle
  import opened SafeSearch

  /** An empty array with key 5: all three searches give {OkNotFound, 0}. */
  method EmptyArray() returns (lb: SearchResult, ub: SearchResult, bs: SearchResult)
    ensures lb == SearchResult(OkNotFound, 0)
    ensures ub == SearchResult(OkNotFound, 0)
    ensures bs == SearchResult(OkNotFound, 0)
  {
    var empty := new Int32[1];
    empty[0] := 0;
    lb := LowerBound(empty, 0, 5);
    ub := UpperBound(empty, 0, 5);
    bs := BinarySearch(empty, 0, 5);
  }

  /** The single element [10] with keys 5, 10 and 15. */
  method SingleElement() returns (results: seq<SearchResult>)
    ensures results == [
      SearchResult(OkNotFound, 0), SearchResult(OkNotFound, 0),  // key 5: LB, UB
      SearchResult(OkNotFound, 0), SearchResult(OkNotFound, 1),  // key 10: LB, UB
      SearchResult(OkFound, 0),                                  // key 10: BS
      SearchResult(OkNotFound, 1), SearchResult(OkNotFound, 1),  // key 15: LB, UB
      SearchResult(OkNotFound, 1)]                               // key 15: BS
  {
    var arr := new Int32[1];
    arr[0] := 10;
    assert arr[..1] == [10];
    FixedVectors();
    var lb5 := LowerBound(arr, 1, 5);
    var ub5 := UpperBound(arr, 1, 5);
    var lb10 := LowerBound(arr, 1, 10);
    var ub10 := UpperBound(arr, 1, 10);
    var bs10 := BinarySearch(arr, 1, 10);
    var lb15 := LowerBound(arr, 1, 15);
    var ub15 := UpperBound(arr, 1, 15);
    var bs15 := BinarySearch(arr, 1, 15);
    results := [lb5, ub5, lb10, ub10, bs10, lb15, ub15, bs15];
  }

  /** All elements equal: [5, 5, 5, 5] with key 5. */
  method AllEqual() returns (lb: SearchResult, ub: SearchResult, bs: SearchResult)
    ensures lb == SearchResult(OkNotFound, 0)
    ensures ub == SearchResult(OkNotFound, 4)
    ensures bs == SearchResult(OkFound, 0)
  {
    var arr := new Int32[4];
    arr[0], arr[1], arr[2], arr[3] := 5, 5, 5, 5;
    assert arr[..4] == [5, 5, 5, 5];
    FixedVectors();
    lb := LowerBound(arr, 4, 5);
    ub := UpperBound(arr, 4, 5);
    bs := BinarySearch(arr, 4, 5);
  }

  /** The extreme values [INT32_MIN, 0, INT32_MAX] with keys INT32_MIN and
      INT32_MAX. */
  method ExtremeValues() returns (results: seq<SearchResult>)
    ensures results == [
      SearchResult(OkNotFound, 0), SearchResult(OkNotFound, 1),  // INT32_MIN: LB, UB
      SearchResult(OkNotFound, 2), SearchResult(OkNotFound, 3)]  // INT32_MAX: LB, UB
  {
    var arr := new Int32[3];
    arr[0], arr[1], arr[2] := Int32Min, 0, Int32Max;
    assert arr[..3] == [Int32Min, 0, Int32Max];
    FixedVectors();
    var lbMin := LowerBound(arr, 3, Int32Min);
    var ubMin := UpperBound(arr, 3, Int32Min);
    var lbMax := LowerBound(arr, 3, Int32Max);
    var ubMax := UpperBound(arr, 3, Int32Max);
    results := [lbMin, ubMin, lbMax, ubMax];
  }

  /** A null array: with n = 10 the lower bound reports {ErrNullPtr, 0};
      with n = 0 it succeeds with {OkNotFound, 0}. */
  method NullArray() returns (withLength: SearchResult, withoutLength: SearchResult)
    ensures withLength == SearchResult(ErrNullPtr, 0)
    ensures withoutLength == SearchResult(OkNotFound, 0)
  {
    withLength := LowerBound(null, 10, 5);
    withoutLength := LowerBound(null, 0, 5);
  }
}
