/** What several modules need. */
module Wrappers {
  datatype Option<+T> = None | Some(value: T)

  /** Any element: where an iteration over a hash container stands. */
  method Pick<T>(elements: set<T>) returns (x: T)
    requires elements != {}
    ensures x in elements
  {
    x :| x in elements;
  }

  /** The same for proofs. */
  lemma Any<T>(elements: set<T>) returns (x: T)
    requires elements != {}
    ensures x in elements
  {
    x :| x in elements;
  }

  function One(b: bool): nat {
    if b then 1 else 0
  }
}
