/** Small result types shared by the modules of this project. */
module Basics {

  /** A value that may be missing: Go's nil pointer or "not found". */
  datatype Option<T> = None | Some(value: T)

  /** A value or an error message: Go's `(value, error)` pair. */
  datatype Result<T> = Success(value: T) | Failure(error: string)

  /** True when no element of `s` occurs twice. */
  predicate NoDup<T(==)>(s: seq<T>)
  {
    forall i, j :: 0 <= i < j < |s| ==> s[i] != s[j]
  }

  function Last<T>(s: seq<T>): T
    requires s != []
  {
    s[|s| - 1]
  }

  /** Extending a sequence by `x` and then by `y` extends it by `x + y`. */
  lemma ExtendedTwice<T>(start: seq<T>, before: seq<T>, after: seq<T>, x: seq<T>, y: seq<T>)
    requires before == start + x && after == before + y
    ensures after == start + (x + y)
  {
    assert start + x + y == start + (x + y);
  }
}
