/** Optional values, results with an explicit error, and a sequence fact shared by the agents. */
module Wrappers {

  datatype Option<+T> = None | Some(value: T)

  datatype Result<+T, +E> = Ok(value: T) | Err(error: E)

  /** Every element of a sequence without its last element is an element of the sequence. */
  lemma InitMembers<T>(s: seq<T>)
    requires s != []
    ensures forall x :: x in s[..|s| - 1] ==> x in s
  {
  }
}
