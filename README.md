# Bounds search over sorted 32-bit integers

A Dafny model of the safety-critical bounds-search library in
`safesearch.c` / `safesearch.h`: `lower_bound_i32`, `upper_bound_i32` and
`binary_search_i32` over an array of `int32_t` with an explicit length, each
returning a `search_result_t {status, index}`.

- `safesearch_types.dfy` (module `SafeSearchTypes`, from `safesearch.h`): the
  closed `status_t` enumeration as the datatype `Status` with its integer
  codes, `search_result_t` as `SearchResult` (the `size_t` index is a `nat`),
  and `Int32`, the signed 32-bit range.
- `conformance_vectors.dfy` (module `ConformanceVectors`): the fixed test
  vectors of `safesearch.c` as methods that build each array and return the
  full results of the searches.
- `linear_oracle.dfy` (module `LinearOracle`): the linear-scan oracles of the
  conformance tests as specification functions, non-descending order, and
  lemmas about what the oracles mean on sorted input (partition, equal range,
  membership).
- `safesearch.dfy` (module `SafeSearch`): the three entry points as methods.
  The pointer argument is an `array?<Int32>`, where `null` is the null
  pointer. The only precondition is the C caller's obligation that a
  non-null array holds at least `n` elements. Each search is the same
  `while (len > 0)` stride-halving loop over `first` and `len`. Its
  invariants are:
  - `first + len <= n`, so `mid = first + len/2 < n` and no index leaves `[0, n]`;
  - the element before `first` fails the predicate;
  - the element at `first + len` satisfies it;
  - `len` decreases.

  These invariants give the boundary postconditions on any input. On
  non-descending input they also pin the index to the oracle's answer.

## Model

| member | source | states |
|---|---|---|
| SafeSearchTypes.Code | safesearch.h:21-27 | each status has its C code 0..3; OK_FOUND is 0 and ERR_BAD_LEN is 3 |
| SafeSearchTypes.FromCode | safesearch.h:21-27 | exactly the codes 0..3 name a status, and decoding then re-encoding gives the code back (the enumeration is closed) |
| SafeSearchTypes.CodeRoundTrip | safesearch.h:21-27 | every status is recovered from its code, and distinct statuses have distinct codes |
| LinearOracle.LowerFrom | safesearch.c:212-216 | the scan from i returns the first index at or after i whose element is >= key, or n, and every element it passes is < key |
| LinearOracle.UpperFrom | safesearch.c:223-227 | the scan from i returns the first index at or after i whose element is > key, or n, and every element it passes is <= key |
| LinearOracle.LinearLowerBound | safesearch.c:208-217 | linear_lower_bound returns an index in [0, n]: every element before it is < key, and the element at it, if any, is >= key |
| LinearOracle.LinearUpperBound | safesearch.c:219-228 | linear_upper_bound returns an index in [0, n]: every element before it is <= key, and the element at it, if any, is > key |
| LinearOracle.LowerBoundaryIsOracle | safesearch.c:400-415 | on sorted input, any index whose element is >= key and whose predecessor is < key equals linear_lower_bound |
| LinearOracle.UpperBoundaryIsOracle | safesearch.c:401-424 | on sorted input, any index whose element is > key and whose predecessor is <= key equals linear_upper_bound |
| LinearOracle.LowerBoundPartitions | safesearch.c:208-217 | on sorted input an element is < key exactly when it lies before the lower bound |
| LinearOracle.UpperBoundPartitions | safesearch.c:219-228 | on sorted input an element is <= key exactly when it lies before the upper bound |
| LinearOracle.EqualRange | safesearch.c:208-228 | on sorted input lower bound <= upper bound, and [lower, upper) holds exactly the elements equal to key |
| LinearOracle.MembershipAtLowerBound | safesearch.c:427 | on sorted input key occurs in a[0..n) exactly when the element at the lower bound is key |
| LinearOracle.FixedVectors | safesearch.c:257-339 | on the oracles, the fixed vectors give the tested lower- and upper-bound indices: empty gives 0/0; [10] with keys 5, 10, 15 gives 0/0, 0/1, 1/1; [5,5,5,5] with key 5 gives 0/4; [INT32_MIN,0,INT32_MAX] gives 0/1 for INT32_MIN and 2/3 for INT32_MAX |
| ConformanceVectors.EmptyArray | safesearch.c:257-273 | on an empty array with key 5, lower bound, upper bound and binary search each return {OK_NOT_FOUND, 0} |
| ConformanceVectors.SingleElement | safesearch.c:275-306 | on [10] the full results are: key 5 gives LB and UB {OK_NOT_FOUND, 0}; key 10 gives LB {OK_NOT_FOUND, 0}, UB {OK_NOT_FOUND, 1} and BS {OK_FOUND, 0}; key 15 gives LB, UB and BS {OK_NOT_FOUND, 1} |
| ConformanceVectors.AllEqual | safesearch.c:308-321 | on [5,5,5,5] with key 5, LB is {OK_NOT_FOUND, 0}, UB is {OK_NOT_FOUND, 4} and BS is {OK_FOUND, 0} (the leftmost occurrence) |
| ConformanceVectors.ExtremeValues | safesearch.c:323-339 | on [INT32_MIN, 0, INT32_MAX], key INT32_MIN gives LB {OK_NOT_FOUND, 0} and UB {OK_NOT_FOUND, 1}; key INT32_MAX gives LB {OK_NOT_FOUND, 2} and UB {OK_NOT_FOUND, 3} |
| ConformanceVectors.NullArray | safesearch.c:341-351 | lower bound on a null array gives {ERR_NULL_PTR, 0} with n = 10 and {OK_NOT_FOUND, 0} with n = 0 |
| SafeSearch.LowerBound | safesearch.c:32-72 | a null array with n > 0 gives {ERR_NULL_PTR, 0}; otherwise the status is OK_NOT_FOUND with an index in [0, n]. The element at the index is >= key and the one before it is < key, on any input. On sorted input the index equals linear_lower_bound |
| SafeSearch.UpperBound | safesearch.c:80-120 | a null array with n > 0 gives {ERR_NULL_PTR, 0}; otherwise the status is OK_NOT_FOUND with an index in [0, n]. The element at the index is > key and the one before it is <= key, on any input. On sorted input the index equals linear_upper_bound |
| SafeSearch.BinarySearch | safesearch.c:128-164 | the lower bound's error comes back unchanged; otherwise OK_FOUND holds exactly when the element at the index is key. A not-found index is an insertion point (predecessor < key, element > key). On sorted input the index equals linear_lower_bound, OK_FOUND holds exactly when key occurs, and a found index is the leftmost occurrence |
| SafeSearch.ThreeSearches | fuzz_safesearch.c:49-87 | no search returns ERR_BAD_LEN; each reports an error exactly for a null array with n > 0, and binary search then returns the lower bound's result. On sorted input binary search's index is the lower bound, LB <= UB, and [LB, UB) holds exactly the elements equal to key |

## Left out

- The test harness (`safesearch.c` from line 167 on) is left out: the PRNG and its 64-bit LCG arithmetic, `qsort`, the `check` counters, `printf`/`exit`, `malloc`/`free` and `main`. Only the two linear oracles are kept, as specification functions. The fixed vectors are stated on them in `FixedVectors`, and as full search results in module `ConformanceVectors`.
- The fuzz adapter (`fuzz_safesearch.c`) is left out: its byte decoding with `memcpy`, its 1024-element buffer and its `qsort`. Its assertions become the contracts of the three methods and of `ThreeSearches`.
- Pointers are modelled only as null or not null. The requirement that a non-null `a` holds `n` readable elements becomes `n <= a.Length`.
- `size_t` wrap-around is not modelled: `n` and the index are `nat`. The loop invariants show that every intermediate value (`first`, `first + half`, `mid + 1`) stays within `[0, n]`, so no unsigned overflow can occur.
- The oracles are written as recursive functions, not as `for` loops. They only serve as specifications and never run.
- On unsorted input, the model proves only range, safety, termination and the two local boundary conditions. The source promises nothing more there.
- Idempotence (a repeated call gives the same result) is not stated as a lemma; it follows from the contracts only where they fix the result. The methods have no `modifies` clause, so they write nothing. On a null array and on non-descending input, their postconditions determine both status and index, so repeated calls agree. On unsorted non-null input, the postconditions leave the index open within the boundary conditions. There, idempotence rests on the method bodies being deterministic and is not stated.
