/** Optional values, as a nullable column or a Python `None` is, and a few helpers. */
module Wrappers {
  datatype Option<+T> = None | Some(value: T)

  function Min(x: int, y: int): int {
    if x < y then x else y
  }

  function Max(x: int, y: int): int {
    if x < y then y else x
  }

  lemma SubsetSize<T>(x: set<T>, y: set<T>)
    requires x <= y
    ensures |x| <= |y|
  {
    if x != {} {
      var e :| e in x;
      SubsetSize(x - {e}, y - {e});
    }
  }

  // A service may refuse a request for reasons of its own, unless it is known to be calm.
  method Refuses(calm: bool) returns (refused: bool)
    ensures calm ==> !refused
  {
    refused := *;
    if calm {
      refused := false;
    }
  }
}
