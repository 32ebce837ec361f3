/** The option type, the sequence ends and the fresh identifiers used throughout. */
module Wrappers {
  datatype Option<+T> = None | Some(value: T)

  function Last<T>(xs: seq<T>): T
    requires xs != []
  {
    xs[|xs| - 1]
  }

  function Init<T>(xs: seq<T>): seq<T>
    requires xs != []
  {
    xs[..|xs| - 1]
  }

  predicate NoDuplicates<T(==)>(xs: seq<T>) {
    forall i, j :: 0 <= i < j < |xs| ==> xs[i] != xs[j]
  }

  /** An identifier larger than all of these. */
  lemma {:induction false} FreshId(ids: set<nat>) returns (id: nat)
    ensures id !in ids && forall x <- ids :: x < id
  {
    id := 0;
    if ids != {} {
      var x :| x in ids;
      var above := FreshId(ids - {x});
      id := if above > x then above else x + 1;
      assert forall y <- ids :: y == x || y in ids - {x};
    }
  }
}
