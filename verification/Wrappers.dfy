/** The optional value, the value-or-error result and fresh identifiers, used across the project. */
module Wrappers {

  datatype Option<+T> = None | Some(value: T)

  datatype Result<+T, +E> = Ok(value: T) | Err(error: E)

  /** A number above every identifier in use. */
  lemma {:induction false} Above(ids: set<nat>) returns (v: nat)
    ensures forall x <- ids :: x < v
    decreases |ids|
  {
    if ids == {} {
      v := 0;
    } else {
      var x :| x in ids;
      var u := Above(ids - {x});
      v := if u <= x then x + 1 else u;
      forall y | y in ids
        ensures y < v
      {
        assert y == x || y in ids - {x};
      }
    }
  }
}
