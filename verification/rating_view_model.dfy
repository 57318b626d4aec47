/**
 The rating screen logic: the score range check in front of `addRating`,
 the mapping of its outcome to a submission state, and the "already rated"
 probe.
 */
module RatingViewModel {
  import opened Entities
  import opened Database
  import opened Text
  import opened RatingDao
  import opened RatingRepository

  datatype RatingsState = Loading | Empty | Success(ratings: seq<Rating>) | Error(message: string)

  datatype SubmitRatingState = Idle | Loading | AlreadyRated | Success(rating: Rating) | Error(message: string)

  const ScoreOutOfRangeMessage := "Rating must be between 1 and 5"
  const NotRateableMessage := "You can only rate after a completed reservation"
  const SubmitFailedMessage := "Failed to submit rating"

  predicate ScoreInRange(score: real)
  {
    1.0 <= score <= 5.0
  }

  /** Every stored rating has a score between 1 and 5. */
  ghost predicate ScoresInRange(ratings: map<Id, Rating>)
  {
    forall k :: k in ratings ==> ScoreInRange(ratings[k].score)
  }

  /** `loadCarRatings`: Empty when the car has no rating, otherwise the list of exactly its ratings. */
  method LoadCarRatings(s: Store, carId: Id) returns (state: RatingsState)
    ensures state.Empty? <==> forall k :: k in s.ratings ==> s.ratings[k].carId != carId
    ensures !state.Error? && !state.Loading?
    ensures state.Success? ==> forall r :: r in state.ratings <==> r in s.ratings.Values && r.carId == carId
    ensures state.Success? ==> NoDuplicates(state.ratings)
  {
    var ratings := ListOf(RatingsByCarId(s, carId));
    if ratings == [] {
      forall k | k in s.ratings ensures s.ratings[k].carId != carId {
        assert s.ratings[k] in s.ratings.Values;
      }
      state := RatingsState.Empty;
    } else {
      assert ratings[0] in RatingsByCarId(s, carId);
      state := RatingsState.Success(ratings);
    }
  }

  /**
   `submitRating`: a score outside 1..5 is refused before the store is
   consulted; otherwise `addRating` runs and its result becomes the state.
   `thrown` stands for an exception raised by the store before anything is
   written, carrying its message (`None` for a message-less exception).
   */
  method SubmitRating(s: Store, userId: Id, carId: Id, reservationId: Id, score: real, comment: Option<string>,
                      newId: Id, today: Day, ownerUpdateFails: bool, thrown: Option<Option<string>>)
    returns (state: SubmitRatingState, s': Store)
    ensures !ScoreInRange(score) ==> state == SubmitRatingState.Error(ScoreOutOfRangeMessage) && s' == s
    ensures ScoreInRange(score) && thrown.Some? ==>
      state == SubmitRatingState.Error(MessageOr(thrown.value, SubmitFailedMessage)) && s' == s
    ensures state.Success? <==> ScoreInRange(score) && thrown.None? && CanRate(s, userId, reservationId)
    ensures ScoreInRange(score) && thrown.None? && !CanRate(s, userId, reservationId) ==>
      state == SubmitRatingState.Error(NotRateableMessage) && s' == s
    ensures state.Success? ==>
      && state.rating == Rating(newId, userId, carId, reservationId, score, comment, today)
      && s'.ratings == s.ratings[newId := state.rating]
    ensures state.Error? || state.Success?
    ensures ScoresInRange(s.ratings) ==> ScoresInRange(s'.ratings)
    ensures AtMostOneRatingPerReservation(s.ratings) ==> AtMostOneRatingPerReservation(s'.ratings)
  {
    if !ScoreInRange(score) {
      return SubmitRatingState.Error(ScoreOutOfRangeMessage), s;
    }
    if thrown.Some? {
      return SubmitRatingState.Error(MessageOr(thrown.value, SubmitFailedMessage)), s;
    }
    var rating;
    rating, s' := AddRating(s, userId, carId, reservationId, score, comment, newId, today, ownerUpdateFails);
    if rating.Some? {
      state := SubmitRatingState.Success(rating.value);
    } else {
      state := SubmitRatingState.Error(NotRateableMessage);
    }
  }

  /** `checkIfUserCanRate`: AlreadyRated when the reservation has a rating, otherwise the state is kept. */
  method CheckIfUserCanRate(s: Store, state: SubmitRatingState, reservationId: Id) returns (state': SubmitRatingState)
    ensures HasRatingFor(s.ratings, reservationId) ==> state' == AlreadyRated
    ensures !HasRatingFor(s.ratings, reservationId) ==> state' == state
  {
    var existing := GetRatingByReservationId(s, reservationId);
    state' := if existing.Some? then AlreadyRated else state;
  }

  /** `resetSubmitRatingState`. */
  function ResetSubmitRatingState(state: SubmitRatingState): (r: SubmitRatingState)
    ensures r.Idle?
  {
    Idle
  }

  /**
   A renter who rated a reservation successfully sees it reported as
   already rated, and a second submission for it is refused without any write.
   */
  method SecondSubmissionRefused(s: Store, userId: Id, carId: Id, reservationId: Id, score: real,
                                 comment: Option<string>, newId: Id, newId2: Id, today: Day)
    returns (first: SubmitRatingState, probe: SubmitRatingState, second: SubmitRatingState, s1: Store, s2: Store)
    ensures first.Success? ==> probe == AlreadyRated
    ensures first.Success? ==> second == SubmitRatingState.Error(NotRateableMessage) && s2 == s1
  {
    first, s1 := SubmitRating(s, userId, carId, reservationId, score, comment, newId, today, false, None);
    probe := CheckIfUserCanRate(s1, first, reservationId);
    second, s2 := SubmitRating(s1, userId, carId, reservationId, score, comment, newId2, today, false, None);
    if first.Success? {
      assert IsRatingOf(s1.ratings, newId, reservationId);
    }
  }
}
