/**
 The rating aggregator: a rating is accepted once per completed reservation,
 by its renter; the car's average and count are then recomputed from the
 ratings table, and the owner's from the aggregates of all the owner's cars.
 */
module RatingRepository {
  import opened Entities
  import opened Database
  import opened Sums
  import opened RatingDao
  import ReservationDao
  import CarDao
  import UserDao

  /**
   The car's `rating`/`ratingCount` are the AVG and COUNT of the ratings that
   name it, and an unrated car has rating 0.
   */
  ghost predicate CarAggregateConsistent(cars: map<Id, Car>, ratings: map<Id, Rating>, carId: Id)
    requires carId in cars
  {
    var car := cars[carId];
    && car.ratingCount == |RatingIdsForCar(ratings, carId)|
    && (car.ratingCount > 0 ==> car.rating * car.ratingCount as real == ScoreTotal(ratings, carId))
    && (car.ratingCount == 0 ==> car.rating == 0.0)
  }

  ghost predicate AllCarAggregatesConsistent(cars: map<Id, Car>, ratings: map<Id, Rating>)
  {
    forall carId :: carId in cars ==> CarAggregateConsistent(cars, ratings, carId)
  }

  /** The two rows differ at most in `rating` and `ratingCount`. */
  predicate OnlyCarRatingChanged(before: Car, after: Car)
  {
    after == before.(rating := after.rating, ratingCount := after.ratingCount)
  }

  /** The two rows differ at most in `rating` and `ratingCount`. */
  predicate OnlyUserRatingChanged(before: User, after: User)
  {
    after == before.(rating := after.rating, ratingCount := after.ratingCount)
  }

  /** The private `updateCarRating(carId)`: AVG and COUNT of the car's ratings written to the car. */
  method UpdateCarRating(s: Store, carId: Id) returns (s': Store)
    ensures s'.users == s.users && s'.ratings == s.ratings
    ensures s'.reservations == s.reservations && s'.carImages == s.carImages
    ensures s'.cars.Keys == s.cars.Keys
    ensures forall k :: k in s.cars && k != carId ==> s'.cars[k] == s.cars[k]
    ensures carId in s.cars ==> CarAggregateConsistent(s'.cars, s'.ratings, carId)
    ensures carId in s.cars ==> OnlyCarRatingChanged(s.cars[carId], s'.cars[carId])
  {
    var avg := AverageRatingForCar(s, carId);
    var count := RatingCountForCar(s, carId);
    s' := CarDao.UpdateCarRating(s, carId, avg, count);
    assert s'.(cars := s.cars) == s;
  }

  /** A car's contribution to its owner's total score: `rating * ratingCount`, for rated cars only. */
  function WeightedScore(car: Car): real
  {
    if car.ratingCount > 0 then car.rating * car.ratingCount as real else 0.0
  }

  /** A car's contribution to its owner's rating count, for rated cars only. */
  function RatedCount(car: Car): real
  {
    if car.ratingCount > 0 then car.ratingCount as real else 0.0
  }

  ghost function OwnerScoreTotal(cars: map<Id, Car>, ownerId: Id): real
  {
    SumBy(cars, CarDao.OwnerCarIds(cars, ownerId), WeightedScore)
  }

  ghost function OwnerCountTotal(cars: map<Id, Car>, ownerId: Id): real
  {
    SumBy(cars, CarDao.OwnerCarIds(cars, ownerId), RatedCount)
  }

  /** The owner's row holds the weighted mean over the owner's rated cars, or (0, 0) when none is rated. */
  ghost predicate OwnerAggregateUpToDate(users: map<Id, User>, cars: map<Id, Car>, ownerId: Id)
  {
    ownerId in users ==>
      var u := users[ownerId];
      && u.ratingCount as real == OwnerCountTotal(cars, ownerId)
      && (u.ratingCount > 0 ==> u.rating * u.ratingCount as real == OwnerScoreTotal(cars, ownerId))
      && (u.ratingCount == 0 ==> u.rating == 0.0)
  }

  /**
   The private `updateOwnerRating(ownerId)`: one pass over the owner's cars,
   summing `rating * ratingCount` and `ratingCount` of the rated ones, then
   the mean (or 0 when the count is 0) written to the owner's row.
   */
  method UpdateOwnerRating(s: Store, ownerId: Id) returns (s': Store)
    ensures s'.cars == s.cars && s'.ratings == s.ratings
    ensures s'.reservations == s.reservations && s'.carImages == s.carImages
    ensures s'.users.Keys == s.users.Keys
    ensures forall k :: k in s.users && k != ownerId ==> s'.users[k] == s.users[k]
    ensures ownerId in s.users ==> OnlyUserRatingChanged(s.users[ownerId], s'.users[ownerId])
    ensures OwnerAggregateUpToDate(s'.users, s'.cars, ownerId)
  {
    var totalScore := 0.0;
    var totalCount := 0;
    var rest := CarDao.OwnerCarIds(s.cars, ownerId);
    ghost var done: set<Id> := {};
    while rest != {}
      invariant rest <= CarDao.OwnerCarIds(s.cars, ownerId)
      invariant done == CarDao.OwnerCarIds(s.cars, ownerId) - rest
      invariant totalScore == SumBy(s.cars, done, WeightedScore)
      invariant totalCount as real == SumBy(s.cars, done, RatedCount)
      invariant totalCount >= 0
      decreases rest
    {
      var k :| k in rest;
      var car := s.cars[k];
      SumByAdd(s.cars, done, k, WeightedScore);
      SumByAdd(s.cars, done, k, RatedCount);
      if car.ratingCount > 0 {
        totalScore := totalScore + car.rating * car.ratingCount as real;
        totalCount := totalCount + car.ratingCount;
      }
      done := done + {k};
      rest := rest - {k};
    }
    assert done == CarDao.OwnerCarIds(s.cars, ownerId);
    assert totalScore == OwnerScoreTotal(s.cars, ownerId);
    assert totalCount as real == OwnerCountTotal(s.cars, ownerId);
    var mean := 0.0;
    if totalCount > 0 {
      mean := totalScore / totalCount as real;
      assert mean * totalCount as real == totalScore;
    } else {
      totalCount := 0;
    }
    s' := UserDao.UpdateUserRating(s, ownerId, mean, totalCount);
    assert s'.(users := s.users) == s;
  }

  /** A car with an exact aggregate contributes exactly its ratings' score total and count. */
  lemma CarContribution(cars: map<Id, Car>, ratings: map<Id, Rating>, carId: Id)
    requires carId in cars
    requires CarAggregateConsistent(cars, ratings, carId)
    ensures WeightedScore(cars[carId]) == ScoreTotal(ratings, carId)
    ensures RatedCount(cars[carId]) == |RatingIdsForCar(ratings, carId)| as real
  {
    if cars[carId].ratingCount == 0 {
      assert RatingIdsForCar(ratings, carId) == {};
    }
  }

  /**
   When every car's aggregate is exact, summing `rating * ratingCount` and
   `ratingCount` over a set of cars gives back the total score and the
   number of all ratings on those cars.
   */
  lemma {:induction false} CarTotalsAreRatingTotals(cars: map<Id, Car>, ratings: map<Id, Rating>, carIds: set<Id>)
    requires carIds <= cars.Keys
    requires forall k :: k in carIds ==> CarAggregateConsistent(cars, ratings, k)
    ensures SumBy(cars, carIds, WeightedScore) == SumBy(ratings, RatingIdsForCars(ratings, carIds), Score)
    ensures SumBy(cars, carIds, RatedCount) == |RatingIdsForCars(ratings, carIds)| as real
    decreases carIds
  {
    if carIds == {} {
      assert RatingIdsForCars(ratings, carIds) == {};
    } else {
      var c :| c in carIds;
      var rest := carIds - {c};
      CarTotalsAreRatingTotals(cars, ratings, rest);
      SumByRemove(cars, carIds, c, WeightedScore);
      SumByRemove(cars, carIds, c, RatedCount);
      CarContribution(cars, ratings, c);
      RatingIdsForCarsSplit(ratings, carIds, c);
      var a := RatingIdsForCars(ratings, rest);
      var b := RatingIdsForCar(ratings, c);
      SumByUnion(ratings, a, b, Score);
      assert |a + b| == |a| + |b| by {
        assert a * b == {};
      }
    }
  }

  /**
   The owner's row counts every rating given to any of the owner's cars, and
   its rating times that count is their total score: it is their mean.
   */
  ghost predicate OwnerIsMeanOfScores(users: map<Id, User>, cars: map<Id, Car>, ratings: map<Id, Rating>, ownerId: Id)
    requires ownerId in users
  {
    var ownerRatings := RatingIdsForCars(ratings, CarDao.OwnerCarIds(cars, ownerId));
    && users[ownerId].ratingCount == |ownerRatings|
    && users[ownerId].rating * |ownerRatings| as real == SumBy(ratings, ownerRatings, Score)
  }

  /**
   The owner aggregate is the mean of every score given to any of the
   owner's cars, provided the car aggregates are exact.
   */
  lemma OwnerAggregateIsMeanOfScores(users: map<Id, User>, cars: map<Id, Car>, ratings: map<Id, Rating>, ownerId: Id)
    requires forall k :: k in CarDao.OwnerCarIds(cars, ownerId) ==> CarAggregateConsistent(cars, ratings, k)
    requires OwnerAggregateUpToDate(users, cars, ownerId)
    requires ownerId in users
    ensures OwnerIsMeanOfScores(users, cars, ratings, ownerId)
  {
    CarTotalsAreRatingTotals(cars, ratings, CarDao.OwnerCarIds(cars, ownerId));
    OwnerMeanFromCarTotals(users, cars, ratings, ownerId);
  }

  /** The owner step of the proof, once the owner's car totals are known to be rating totals. */
  lemma OwnerMeanFromCarTotals(users: map<Id, User>, cars: map<Id, Car>, ratings: map<Id, Rating>, ownerId: Id)
    requires OwnerAggregateUpToDate(users, cars, ownerId)
    requires ownerId in users
    requires var carIds := CarDao.OwnerCarIds(cars, ownerId);
             && SumBy(cars, carIds, WeightedScore) == SumBy(ratings, RatingIdsForCars(ratings, carIds), Score)
             && SumBy(cars, carIds, RatedCount) == |RatingIdsForCars(ratings, carIds)| as real
    ensures OwnerIsMeanOfScores(users, cars, ratings, ownerId)
  {
    var ownerRatings := RatingIdsForCars(ratings, CarDao.OwnerCarIds(cars, ownerId));
    var u := users[ownerId];
    if |ownerRatings| == 0 {
      assert ownerRatings == {};
    }
    MeanFromTotals(u.rating, u.ratingCount, |ownerRatings|, OwnerScoreTotal(cars, ownerId),
                   SumBy(ratings, ownerRatings, Score));
  }

  /** A stored (mean, count) pair that matches the totals is the mean of `n` values summing to `sum`. */
  lemma MeanFromTotals(rating: real, count: int, n: nat, total: real, sum: real)
    requires count as real == n as real
    requires count > 0 ==> rating * count as real == total
    requires count == 0 ==> rating == 0.0
    requires total == sum || n == 0
    requires n == 0 ==> sum == 0.0
    ensures count == n && rating * n as real == sum
  {
  }

  /** The reservation exists, is COMPLETED, belongs to `userId`, and has no rating yet. */
  predicate CanRate(s: Store, userId: Id, reservationId: Id)
  {
    && reservationId in s.reservations
    && s.reservations[reservationId].status == Completed
    && s.reservations[reservationId].renterId == userId
    && !HasRatingFor(s.ratings, reservationId)
  }

  /** Inserting a rating for another car keeps an exact car aggregate exact. */
  lemma OtherCarStaysConsistent(cars: map<Id, Car>, ratings: map<Id, Rating>, r: Rating, carId: Id)
    requires r.ratingId !in ratings
    requires carId in cars && r.carId != carId
    requires CarAggregateConsistent(cars, ratings, carId)
    ensures CarAggregateConsistent(cars, ratings[r.ratingId := r], carId)
  {
    var ratings' := ratings[r.ratingId := r];
    assert RatingIdsForCar(ratings', carId) == RatingIdsForCar(ratings, carId);
    SumByFrame(ratings, ratings', RatingIdsForCar(ratings, carId), Score);
  }

  /**
   Recomputing the rated car after inserting a fresh rating keeps every car
   aggregate exact: the other cars' ratings did not change.
   */
  lemma RecomputeKeepsAllConsistent(cars: map<Id, Car>, ratings: map<Id, Rating>, cars': map<Id, Car>, r: Rating)
    requires r.ratingId !in ratings
    requires AllCarAggregatesConsistent(cars, ratings)
    requires cars'.Keys == cars.Keys
    requires forall k :: k in cars && k != r.carId ==> cars'[k] == cars[k]
    requires r.carId in cars ==> CarAggregateConsistent(cars', ratings[r.ratingId := r], r.carId)
    ensures AllCarAggregatesConsistent(cars', ratings[r.ratingId := r])
  {
    forall c | c in cars' ensures CarAggregateConsistent(cars', ratings[r.ratingId := r], c) {
      if c != r.carId {
        OtherCarStaysConsistent(cars, ratings, r, c);
      }
    }
  }

  /**
   `addRating`: refused (null, nothing written) unless the reservation is
   COMPLETED, the caller is its renter and it has no rating yet; otherwise
   the rating is stored with the caller's car, score and comment, and the
   car and owner aggregates are recomputed. `newId` and `today` stand for the
   generated UUID and `LocalDate.now()`; `ownerUpdateFails` for a store error
   during the owner recompute, which is swallowed.
   */
  method AddRating(s: Store, userId: Id, carId: Id, reservationId: Id, score: real, comment: Option<string>,
                   newId: Id, today: Day, ownerUpdateFails: bool)
    returns (r: Option<Rating>, s': Store)
    ensures r.None? <==> !CanRate(s, userId, reservationId)
    ensures r.None? ==> s' == s
    ensures r.Some? ==> r.value == Rating(newId, userId, carId, reservationId, score, comment, today)
    ensures r.Some? ==> s'.ratings == s.ratings[newId := r.value]
    ensures s'.reservations == s.reservations && s'.carImages == s.carImages
    ensures s'.cars.Keys == s.cars.Keys && s'.users.Keys == s.users.Keys
    ensures forall k :: k in s.cars && k != carId ==> s'.cars[k] == s.cars[k]
    ensures carId in s.cars ==> OnlyCarRatingChanged(s.cars[carId], s'.cars[carId])
    ensures carId in s.cars && s.cars[carId].ownerId in s.users ==>
      OnlyUserRatingChanged(s.users[s.cars[carId].ownerId], s'.users[s.cars[carId].ownerId])
    ensures r.Some? && carId in s.cars ==>
      CarAggregateConsistent(s'.cars, s'.ratings, carId) && s'.cars[carId].ratingCount >= 1
    ensures AtMostOneRatingPerReservation(s.ratings) ==> AtMostOneRatingPerReservation(s'.ratings)
    ensures newId !in s.ratings && AllCarAggregatesConsistent(s.cars, s.ratings) ==>
      AllCarAggregatesConsistent(s'.cars, s'.ratings)
    ensures ownerUpdateFails || carId !in s.cars ==> s'.users == s.users
    ensures r.Some? && !ownerUpdateFails && carId in s.cars ==>
      && OwnerAggregateUpToDate(s'.users, s'.cars, s.cars[carId].ownerId)
      && forall k :: k in s.users && k != s.cars[carId].ownerId ==> s'.users[k] == s.users[k]
  {
    var reservation := ReservationDao.GetReservationById(s, reservationId);
    if reservation.None? || reservation.value.status != Completed {
      return None, s;
    }
    if reservation.value.renterId != userId {
      return None, s;
    }
    var existing := GetRatingByReservationId(s, reservationId);
    if existing.Some? {
      return None, s;
    }
    var rating := Rating(newId, userId, carId, reservationId, score, comment, today);
    s' := StoreRating(s, rating, ownerUpdateFails);
    r := Some(rating);
    if AtMostOneRatingPerReservation(s.ratings) {
      InsertFirstRatingKeepsRule(s, rating);
    }
  }

  /**
   The writes of an accepted `addRating`: insert the rating, recompute its
   car's aggregate, then, unless that fails, the car owner's aggregate.
   */
  method StoreRating(s: Store, rating: Rating, ownerUpdateFails: bool) returns (s': Store)
    ensures s'.ratings == s.ratings[rating.ratingId := rating]
    ensures s'.reservations == s.reservations && s'.carImages == s.carImages
    ensures s'.cars.Keys == s.cars.Keys && s'.users.Keys == s.users.Keys
    ensures forall k :: k in s.cars && k != rating.carId ==> s'.cars[k] == s.cars[k]
    ensures rating.carId in s.cars ==> OnlyCarRatingChanged(s.cars[rating.carId], s'.cars[rating.carId])
    ensures rating.carId in s.cars && s.cars[rating.carId].ownerId in s.users ==>
      OnlyUserRatingChanged(s.users[s.cars[rating.carId].ownerId], s'.users[s.cars[rating.carId].ownerId])
    ensures rating.carId in s.cars ==>
      CarAggregateConsistent(s'.cars, s'.ratings, rating.carId) && s'.cars[rating.carId].ratingCount >= 1
    ensures rating.ratingId !in s.ratings && AllCarAggregatesConsistent(s.cars, s.ratings) ==>
      AllCarAggregatesConsistent(s'.cars, s'.ratings)
    ensures ownerUpdateFails || rating.carId !in s.cars ==> s'.users == s.users
    ensures !ownerUpdateFails && rating.carId in s.cars ==>
      && OwnerAggregateUpToDate(s'.users, s'.cars, s.cars[rating.carId].ownerId)
      && forall k :: k in s.users && k != s.cars[rating.carId].ownerId ==> s'.users[k] == s.users[k]
  {
    var carId := rating.carId;
    var s1 := InsertRating(s, rating);
    assert rating.ratingId in RatingIdsForCar(s1.ratings, carId);
    var s2 := UpdateCarRating(s1, carId);
    assert s1.cars == s.cars && s1.users == s.users;
    s' := s2;
    var car := CarDao.GetCarById(s2, carId);
    if car.Some? && !ownerUpdateFails {
      assert OnlyCarRatingChanged(s.cars[carId], s2.cars[carId]);
      assert car.value.ownerId == s.cars[carId].ownerId;
      s' := UpdateOwnerRating(s2, car.value.ownerId);
    }
    if rating.ratingId !in s.ratings && AllCarAggregatesConsistent(s.cars, s.ratings) {
      RecomputeKeepsAllConsistent(s.cars, s.ratings, s2.cars, rating);
    }
  }

  /**
   After an accepted rating, when every car aggregate was exact and the
   owner's row exists, the owner's rating is the mean of every score on any
   of the owner's cars and the owner's count is the number of those scores.
   */
  method AddRatingOwnerIsMeanOfScores(s: Store, userId: Id, carId: Id, reservationId: Id, score: real,
                                      comment: Option<string>, newId: Id, today: Day)
    returns (r: Option<Rating>, s': Store)
    requires newId !in s.ratings && AllCarAggregatesConsistent(s.cars, s.ratings)
    ensures s'.users.Keys == s.users.Keys
    ensures r.Some? && carId in s.cars && s.cars[carId].ownerId in s.users ==>
      OwnerIsMeanOfScores(s'.users, s'.cars, s'.ratings, s.cars[carId].ownerId)
  {
    r, s' := AddRating(s, userId, carId, reservationId, score, comment, newId, today, false);
    if r.Some? && carId in s.cars && s.cars[carId].ownerId in s.users {
      var ownerId := s.cars[carId].ownerId;
      assert OwnerAggregateUpToDate(s'.users, s'.cars, ownerId);
      assert AllCarAggregatesConsistent(s'.cars, s'.ratings);
      OwnerAggregateIsMeanOfScores(s'.users, s'.cars, s'.ratings, ownerId);
    }
  }

  /** Two car tables with the same keys whose rows agree on owner, rating and rating count. */
  ghost predicate SameRatingFields(cars: map<Id, Car>, cars': map<Id, Car>)
  {
    && cars'.Keys == cars.Keys
    && forall k :: k in cars ==>
         && cars'[k].ownerId == cars[k].ownerId
         && cars'[k].rating == cars[k].rating
         && cars'[k].ratingCount == cars[k].ratingCount
  }

  /**
   Editing the descriptive fields of cars (brand, price, image, …) keeps every
   car aggregate exact and every owner aggregate up to date: both depend only
   on owners, ratings and rating counts.
   */
  lemma AggregatesSurviveCarEdits(users: map<Id, User>, cars: map<Id, Car>, cars': map<Id, Car>,
                                  ratings: map<Id, Rating>, ownerId: Id)
    requires SameRatingFields(cars, cars')
    ensures AllCarAggregatesConsistent(cars, ratings) ==> AllCarAggregatesConsistent(cars', ratings)
    ensures OwnerAggregateUpToDate(users, cars, ownerId) ==> OwnerAggregateUpToDate(users, cars', ownerId)
  {
    var keys := CarDao.OwnerCarIds(cars, ownerId);
    assert CarDao.OwnerCarIds(cars', ownerId) == keys;
    SumByFrame(cars, cars', keys, WeightedScore);
    SumByFrame(cars, cars', keys, RatedCount);
  }
}
