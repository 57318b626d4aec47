/**
 The Room database as one immutable value: a table per entity, each a map
 from primary key to row. DAO queries are functions over a `Store`, DAO
 writes return the new `Store`.
 */
module Database {
  import opened Entities

  datatype Store = Store(
    users: map<Id, User>,
    cars: map<Id, Car>,
    carImages: map<Id, CarImage>,
    reservations: map<Id, Reservation>,
    ratings: map<Id, Rating>)

  const EmptyStore: Store := Store(map[], map[], map[], map[], map[])

  /**
   SQLite's message when an insert names a parent row that does not exist.
   Room turns on foreign-key enforcement for a schema that declares foreign
   keys, so such an insert throws with this message.
   */
  const ForeignKeyFailedMessage := "FOREIGN KEY constraint failed"

  /** No element occurs twice in the list. */
  predicate NoDuplicates<T(==)>(xs: seq<T>)
  {
    forall i, j :: 0 <= i < j < |xs| ==> xs[i] != xs[j]
  }

  /**
   The list a query delivers for a result set: every row exactly once, in
   an order the database chooses (no query here has an ORDER BY).
   */
  method ListOf<T(==)>(rows: set<T>) returns (xs: seq<T>)
    ensures forall x :: x in xs <==> x in rows
    ensures NoDuplicates(xs)
  {
    xs := [];
    var rest := rows;
    while rest != {}
      invariant forall x :: x in xs <==> x in rows && x !in rest
      invariant rest <= rows
      invariant NoDuplicates(xs)
      decreases rest
    {
      var x :| x in rest;
      xs := xs + [x];
      rest := rest - {x};
    }
  }
}
