/**
 The `ratings` table: insert with REPLACE, the per-car and per-reservation
 queries, and the `AVG`/`COUNT` aggregates over a car's ratings.
 */
module RatingDao {
  import opened Entities
  import opened Database
  import opened Sums

  /** `@Insert(onConflict = REPLACE)`, keyed on `ratingId`: nothing here looks at `reservationId`. */
  function InsertRating(s: Store, r: Rating): (s': Store)
    ensures r.ratingId in s'.ratings && s'.ratings[r.ratingId] == r
    ensures s'.ratings.Keys == s.ratings.Keys + {r.ratingId}
    ensures forall k :: k in s.ratings && k != r.ratingId ==> s'.ratings[k] == s.ratings[k]
    ensures s'.(ratings := s.ratings) == s
  {
    s.(ratings := s.ratings[r.ratingId := r])
  }

  function RatingsByCarId(s: Store, carId: Id): (rs: set<Rating>)
    ensures forall r :: r in rs <==> r in s.ratings.Values && r.carId == carId
  {
    set r | r in s.ratings.Values && r.carId == carId
  }

  /** The rows `WHERE carId = :carId` selects, by key: the rows `AVG` and `COUNT(*)` run over. */
  function RatingIdsForCar(ratings: map<Id, Rating>, carId: Id): (ks: set<Id>)
    ensures ks <= ratings.Keys
  {
    set k | k in ratings && ratings[k].carId == carId
  }

  /** The rows whose car is one of `carIds`. */
  function RatingIdsForCars(ratings: map<Id, Rating>, carIds: set<Id>): (ks: set<Id>)
    ensures ks <= ratings.Keys
  {
    set k | k in ratings && ratings[k].carId in carIds
  }

  /** Taking one car out of a set of cars splits its ratings off from the others'. */
  lemma RatingIdsForCarsSplit(ratings: map<Id, Rating>, carIds: set<Id>, carId: Id)
    requires carId in carIds
    ensures RatingIdsForCars(ratings, carIds) == RatingIdsForCars(ratings, carIds - {carId}) + RatingIdsForCar(ratings, carId)
    ensures RatingIdsForCars(ratings, carIds - {carId}) !! RatingIdsForCar(ratings, carId)
  {
  }

  lemma RatingIdsListRatingsByCar(s: Store, carId: Id)
    ensures (set k | k in RatingIdsForCar(s.ratings, carId) :: s.ratings[k]) == RatingsByCarId(s, carId)
  {
    var a := set k | k in RatingIdsForCar(s.ratings, carId) :: s.ratings[k];
    forall r | r in RatingsByCarId(s, carId) ensures r in a {
      var k :| k in s.ratings && s.ratings[k] == r;
      assert k in RatingIdsForCar(s.ratings, carId);
    }
  }

  /** `SELECT COUNT(*) FROM ratings WHERE carId = :carId`. */
  function RatingCountForCar(s: Store, carId: Id): (n: nat)
    ensures n == |RatingIdsForCar(s.ratings, carId)|
  {
    |set k | k in s.ratings && s.ratings[k].carId == carId|
  }

  function Score(r: Rating): real
  {
    r.score
  }

  /** The sum of the scores of the car's ratings. */
  ghost function ScoreTotal(ratings: map<Id, Rating>, carId: Id): real
  {
    SumBy(ratings, RatingIdsForCar(ratings, carId), Score)
  }

  /**
   `SELECT AVG(score) FROM ratings WHERE carId = :carId`. SQL gives NULL for
   a car with no ratings; this model answers 0.
   */
  method AverageRatingForCar(s: Store, carId: Id) returns (avg: real)
    ensures RatingCountForCar(s, carId) > 0 ==> avg * RatingCountForCar(s, carId) as real == ScoreTotal(s.ratings, carId)
    ensures RatingCountForCar(s, carId) == 0 ==> avg == 0.0
  {
    var total := 0.0;
    var count := 0;
    var rest := RatingIdsForCar(s.ratings, carId);
    ghost var done: set<Id> := {};
    while rest != {}
      invariant rest <= RatingIdsForCar(s.ratings, carId)
      invariant done == RatingIdsForCar(s.ratings, carId) - rest
      invariant total == SumBy(s.ratings, done, Score)
      invariant count == |done|
      decreases rest
    {
      var k :| k in rest;
      SumByAdd(s.ratings, done, k, Score);
      total := total + s.ratings[k].score;
      count := count + 1;
      done := done + {k};
      rest := rest - {k};
    }
    assert done == RatingIdsForCar(s.ratings, carId);
    avg := if count > 0 then total / count as real else 0.0;
  }

  predicate IsRatingOf(ratings: map<Id, Rating>, k: Id, reservationId: Id)
  {
    k in ratings && ratings[k].reservationId == reservationId
  }

  predicate HasRatingFor(ratings: map<Id, Rating>, reservationId: Id)
  {
    exists k | k in ratings :: IsRatingOf(ratings, k, reservationId)
  }

  /** `SELECT * FROM ratings WHERE reservationId = :reservationId`, read as a single nullable row. */
  method GetRatingByReservationId(s: Store, reservationId: Id) returns (r: Option<Rating>)
    ensures r.None? <==> !HasRatingFor(s.ratings, reservationId)
    ensures r.Some? ==> r.value in s.ratings.Values && r.value.reservationId == reservationId
  {
    if HasRatingFor(s.ratings, reservationId) {
      var k :| k in s.ratings && IsRatingOf(s.ratings, k, reservationId);
      r := Some(s.ratings[k]);
    } else {
      r := None;
    }
  }

  /** Rule of the rating flow: a reservation authorises at most one rating. */
  ghost predicate AtMostOneRatingPerReservation(ratings: map<Id, Rating>)
  {
    forall k1, k2, reservationId :: IsRatingOf(ratings, k1, reservationId) && IsRatingOf(ratings, k2, reservationId) ==> k1 == k2
  }

  /** Inserting a rating for a reservation that has none keeps the rule. */
  lemma InsertFirstRatingKeepsRule(s: Store, r: Rating)
    requires AtMostOneRatingPerReservation(s.ratings)
    requires !HasRatingFor(s.ratings, r.reservationId)
    ensures AtMostOneRatingPerReservation(InsertRating(s, r).ratings)
  {
    var t := InsertRating(s, r).ratings;
    forall k1, k2, reservationId | IsRatingOf(t, k1, reservationId) && IsRatingOf(t, k2, reservationId)
      ensures k1 == k2
    {
      if k1 != r.ratingId && k2 != r.ratingId {
        assert IsRatingOf(s.ratings, k1, reservationId) && IsRatingOf(s.ratings, k2, reservationId);
      }
    }
  }

  /** The table itself does not enforce the rule: a second rating for a reservation is stored beside the first. */
  lemma InsertRatingAllowsSecondRating()
    ensures var first := Rating("r1", "u", "c", "res", 4.0, None, 0);
            var s := InsertRating(InsertRating(EmptyStore, first), first.(ratingId := "r2"));
            !AtMostOneRatingPerReservation(s.ratings)
  {
    var first := Rating("r1", "u", "c", "res", 4.0, None, 0);
    var s := InsertRating(InsertRating(EmptyStore, first), first.(ratingId := "r2"));
    assert IsRatingOf(s.ratings, "r1", "res") && IsRatingOf(s.ratings, "r2", "res");
  }
}
