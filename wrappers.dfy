/** Option and Result, the stand-ins for C# null and for thrown exceptions. */
module Wrappers {

  datatype Option<+T> = None | Some(value: T)

  /** An operation that either returns a value or fails with the exception the source throws. */
  datatype Result<+T, +E> = Success(value: T) | Failure(error: E)

  /** True when no element occurs twice. */
  predicate Distinct<T(==)>(s: seq<T>) {
    forall i, j :: 0 <= i < j < |s| ==> s[i] != s[j]
  }

  /** Appending an element keeps a sequence duplicate-free exactly when the element is new. */
  lemma DistinctSnoc<T>(s: seq<T>, x: T)
    ensures Distinct(s + [x]) <==> Distinct(s) && x !in s
  {
    if Distinct(s + [x]) {
      assert forall i :: 0 <= i < |s| ==> (s + [x])[i] == s[i];
      assert (s + [x])[|s|] == x;
    }
  }
}
