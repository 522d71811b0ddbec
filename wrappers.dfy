/** Option and Result, used for nullable pointers and for calls that can fail,
    and the distinctness of a sequence's elements. */
module Wrappers {

  /** A value that may be absent (a null pointer, a missing map entry). */
  datatype Option<+T> = None | Some(value: T)

  /** The outcome of an operation that either succeeds or fails with a message
      (an ORT_ENFORCE or a thrown status in the system). */
  datatype Result<+T> = Ok(value: T) | Err(message: string)

  /** The elements of `s` are pairwise distinct. */
  predicate NoDup<T(==)>(s: seq<T>) {
    forall i, j :: 0 <= i < j < |s| ==> s[i] != s[j]
  }
}
