/** Option and Outcome, the failure-compatible shapes the model returns where the
    source returns a nil-able value or an error, and lists without duplicates. */
module Wrappers {

  datatype Option<+T> = None | Some(value: T)

  /** A Go `error` result: Pass is nil. */
  datatype Outcome<+E> = Pass | Fail(error: E)

  ghost predicate NoDuplicates<T>(s: seq<T>) {
    forall i, j :: 0 <= i < j < |s| ==> s[i] != s[j]
  }
}
