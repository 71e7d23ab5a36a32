/** Identities that the database assigns to new rows. */
module Store {

  /** A primary key. The tables generate uuid keys on insert; the model only
      needs that a key not yet in use can always be found. */
  type Id = nat

  /** A key larger than every key in `used`. */
  ghost function UpperBound(used: set<Id>): (bound: Id)
    ensures forall id :: id in used ==> id < bound
    decreases used
  {
    if used == {} then 0
    else
      var x :| x in used;
      var rest := UpperBound(used - {x});
      assert forall id :: id in used ==> id == x || id in used - {x};
      if x < rest then rest else x + 1
  }

  /** Whatever keys are taken, an unused one exists, so an insert never
      runs out of keys. */
  lemma UnusedIdExists<V>(rows: map<Id, V>)
    ensures exists id: Id :: id !in rows
  {
    var bound := UpperBound(rows.Keys);
    assert bound !in rows;
  }
}
