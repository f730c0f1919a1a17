/** Result and status types of the bounds-search library (safesearch.h).
    The status is a closed enumeration with fixed integer codes; every
    search returns a status together with an unsigned index. */
module SafeSearchTypes {

  /** A signed 32-bit integer, the element and key type of every search. */
  const Int32Min: int := -0x8000_0000
  const Int32Max: int := 0x7FFF_FFFF
  type Int32 = x: int | Int32Min <= x <= Int32Max

  datatype Option<+T> = None | Some(value: T)

  /** The four statuses. ErrBadLen is reserved: no operation produces it. */
  datatype Status =
    | OkFound     // key found at index
    | OkNotFound  // key not found; index is the insertion point
    | ErrNullPtr  // the array pointer was null while n > 0
    | ErrBadLen   // invalid length (reserved)

  /** The integer code each status has in the C enumeration. */
  function Code(s: Status): (c: nat)
    ensures c <= 3
    ensures s == OkFound <==> c == 0
    ensures s == OkNotFound <==> c == 1
    ensures s == ErrNullPtr <==> c == 2
    ensures s == ErrBadLen <==> c == 3
  {
    match s
    case OkFound => 0
    case OkNotFound => 1
    case ErrNullPtr => 2
    case ErrBadLen => 3
  }

  /** Reads a status back from its integer code; only 0..3 name a status. */
  function FromCode(c: int): (r: Option<Status>)
    ensures r.Some? <==> 0 <= c <= 3
    ensures r.Some? ==> Code(r.value) == c
  {
    if c == 0 then Some(OkFound)
    else if c == 1 then Some(OkNotFound)
    else if c == 2 then Some(ErrNullPtr)
    else if c == 3 then Some(ErrBadLen)
    else None
  }

  /** The enumeration is closed: the codes are distinct and every status
      is recovered from its code. */
  lemma CodeRoundTrip(s: Status, t: Status)
    ensures FromCode(Code(s)) == Some(s)
    ensures Code(s) == Code(t) ==> s == t
  {
  }

  /** The two statuses that signal an error rather than a search outcome. */
  predicate IsError(s: Status) {
    s == ErrNullPtr || s == ErrBadLen
  }

  /** The value every search returns. The index models an unsigned size_t,
      so it is never negative; it is a found position or an insertion point,
      and it is 0 whenever the status is an error. */
  datatype SearchResult = SearchResult(status: Status, index: nat)
}
