/** Shared vocabulary: optional values, opaque identifiers and the order in which
    table rows are visited. */
module Common {

  datatype Option<+T> = None | Some(value: T)

  /** An identifier is a token that the program only compares. */
  type Id = nat

  /** A recorded instant. */
  type Stamp = nat

  /** The row visited first by `ORDER BY id`. */
  function LeastId(ids: set<Id>): (id: Id)
    requires ids != {}
    ensures id in ids
    ensures forall k :: k in ids ==> id <= k
  {
    LeastIdExists(ids);
    var id :| id in ids && forall k :: k in ids ==> id <= k;
    id
  }

  lemma {:induction false} LeastIdExists(ids: set<Id>)
    requires ids != {}
    ensures exists id :: id in ids && forall k :: k in ids ==> id <= k
  {
    var least := Least(ids);
    assert least in ids && forall k :: k in ids ==> least <= k;
  }

  lemma {:induction false} Least(ids: set<Id>) returns (least: Id)
    requires ids != {}
    ensures least in ids && forall k :: k in ids ==> least <= k
    decreases ids
  {
    var x :| x in ids;
    var smaller := set k | k in ids && k < x;
    assert forall k :: k in ids ==> k in smaller || x <= k;
    least := x;
    if smaller != {} {
      assert x !in smaller;
      least := Least(smaller);
    }
  }
}
