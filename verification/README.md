# Car rental core, modelled in Dafny

This project models the core of an Android car-rental app written in Kotlin. In the app, owners list cars, renters book them for date ranges, owners approve or reject the bookings, renters pay and later rate the car, and ratings roll up into a per-car and a per-owner average.

The model covers:

- **The database layer.** The `ReservationDao`, `CarDao`, `RatingDao` and `UserDao` queries. The Room/SQLite database is one immutable `Store`, a record of five tables, each a `map` from primary key to row.
  - An `@Insert(onConflict = REPLACE)` is a map update. SQLite replaces an existing key by deleting the old row first, which cascades to its children; the model does not, since every caller inserts under a fresh UUID (see "Left out").
  - An `@Update` or `UPDATE … WHERE key = …` leaves the table alone when the key is absent.
  - A query without `LIMIT` returns the `set` of matching rows.
  - A `LIMIT 1` or single-row query is a method that picks any matching row.
- **The reservation lifecycle** (`ReservationRepository`, `ReservationViewModel`):
  - the four-way `BETWEEN` conflict test, and how it relates to interval overlap;
  - pricing as `pricePerDay × (days + 1)`;
  - the status machine PENDING → APPROVED/REJECTED, PENDING/APPROVED → CANCELLED, and APPROVED ∧ paid → COMPLETED;
  - the caller checks done by the view model (owner of the car, renter of the booking).
- **The rating aggregator** (`RatingRepository`, `RatingViewModel`):
  - the eligibility checks, which are: a completed reservation, held by the rater, not yet rated;
  - the recomputation of a car's `rating`/`ratingCount` as the SQL `AVG`/`COUNT` over its ratings;
  - the owner's weighted mean over their cars.
- **The car catalogue** (`CarRepository`, `CarViewModel`):
  - the filter dispatch over city / maximum price / model term;
  - car creation with its primary image;
  - the primary-image upsert;
  - the owner-only car edit and the car delete.
- **Accounts** (`UserRepository`, `AuthViewModel`, `ProfileViewModel`):
  - registration and login validation, with their exact error messages;
  - profile load and edit.

Some inputs are not computed by the model. They are parameters, and the contracts quantify over every value:

- UUIDs (`newId`);
- today's date (`today`; dates are day numbers);
- the result of saving an image to internal storage;
- the row id Room returns from `insertCar`;
- whether an exception is thrown.

A view model's `StateFlow` is modelled as the state value the call leaves behind.

Modules: `Entities`, `Text`, `Sums`, `Database`, `ReservationDao`, `ReservationRepository`, `ReservationViewModel`, `CarDao`, `CarRepository`, `CarViewModel`, `RatingDao`, `RatingRepository`, `RatingViewModel`, `UserDao`, `UserRepository`, `AuthViewModel`, `ProfileViewModel`. There is one file per module.

All source paths below are under `app/src/main/java/com/example/myapplication/`, written out in full in the table.

## Model

| member | source | states |
|---|---|---|
| Entities.AllStatusesInOrder | app/src/main/java/com/example/myapplication/data/model/Reservation.kt:38-44 | The five statuses are listed in declaration order: `ReservationStatus.values()` visits PENDING, APPROVED, REJECTED, CANCELLED, COMPLETED, and each status sits at its ordinal. |
| Text.ContainsIgnoresCase | app/src/main/java/com/example/myapplication/data/database/CarDao.kt:31-32 | `LIKE '%term%'` ignores case: a string matches a term exactly when its lower-cased form does. |
| Text.EmptyTermMatchesEverything | app/src/main/java/com/example/myapplication/data/database/CarDao.kt:34-35 | `LIKE '%' \|\| '' \|\| '%'` matches every value, so an empty city or model term filters nothing out. |
| Text.MessageOr | app/src/main/java/com/example/myapplication/ui/auth/AuthViewModel.kt:40-41 | `e.message ?: default`: the exception's message when it has one, otherwise the fixed default text. |
| ReservationDao.InsertReservation | app/src/main/java/com/example/myapplication/data/database/ReservationDao.kt:11-12 | Insert-or-replace: afterwards the row is stored under its id, the key set grows by exactly that id, every other row and every other table is unchanged, so replacing an existing id does not cascade to its ratings. |
| ReservationDao.GetReservationById | app/src/main/java/com/example/myapplication/data/database/ReservationDao.kt:20-21 | Returns a row iff the id is a key, and then exactly that row. |
| ReservationDao.ConflictingReservations | app/src/main/java/com/example/myapplication/data/database/ReservationDao.kt:29-39 | The result is exactly the reservations of the given car, in any status, for which one of the four inclusive `BETWEEN` conditions holds. |
| ReservationDao.OverlapImpliesConflict | app/src/main/java/com/example/myapplication/data/database/ReservationDao.kt:33-36 | Whenever two date ranges share a day, the four-way `BETWEEN` test reports a conflict. This holds even for ranges with start after end. |
| ReservationDao.ConflictIffOverlap | app/src/main/java/com/example/myapplication/data/database/ReservationDao.kt:33-36 | For well-formed ranges (start ≤ end) the `BETWEEN` test holds exactly when the closed intervals overlap. |
| ReservationDao.SharedBoundaryDayConflicts | app/src/main/java/com/example/myapplication/data/database/ReservationDao.kt:33-36 | A request starting on an existing booking's last day conflicts with it, because bounds are inclusive. |
| ReservationDao.EveryOverlappingReservationConflicts | app/src/main/java/com/example/myapplication/data/database/ReservationDao.kt:29-39 | Every stored reservation whose range overlaps the request is returned by the conflict query for its car. |
| ReservationDao.UpdateReservationStatus | app/src/main/java/com/example/myapplication/data/database/ReservationDao.kt:41-42 | Only the status of the addressed row changes; an absent id changes nothing; keys and other rows and tables are unchanged. |
| ReservationDao.MarkReservationAsPaid | app/src/main/java/com/example/myapplication/data/database/ReservationDao.kt:44-45 | Only `isPaid` of the addressed row becomes true; no status guard; keys, other rows and tables unchanged. |
| ReservationDao.MarkAsPaidIdempotent | app/src/main/java/com/example/myapplication/data/database/ReservationDao.kt:44-45 | Marking a reservation paid twice is the same as marking it once. |
| ReservationDao.OwnerReservationsByStatus | app/src/main/java/com/example/myapplication/data/database/ReservationDao.kt:47-52 | Exactly the reservations on a car whose row has the given owner and that have the given status. |
| ReservationDao.OwnerReservationsByStatusPartition | app/src/main/java/com/example/myapplication/data/database/ReservationDao.kt:47-52 | A reservation is among an owner's reservations exactly when it is in the per-status query for its own status, so the five queries together cover all of them. |
| ReservationRepository.CreateReservation | app/src/main/java/com/example/myapplication/data/repository/ReservationRepository.kt:47-77 | Returns null (store untouched) iff the conflict query is non-empty. Otherwise, when the car or the renter does not exist, the insert fails the `reservations` foreign keys and throws, with the store untouched. Otherwise a PENDING, unpaid reservation with the given car, renter and dates, priced at `pricePerDay × (days between + 1)`, inserted into the store. |
| ReservationRepository.RentalPricing | app/src/main/java/com/example/myapplication/data/repository/ReservationRepository.kt:60-62 | A same-day booking costs exactly one day's price; a booking from day d to d+2 at 50.0 a day costs 150.0 (both ends counted). |
| ReservationRepository.CreateReservationAddsOneRow | app/src/main/java/com/example/myapplication/data/repository/ReservationRepository.kt:64-76 | A successful creation with a fresh id adds exactly one row to the reservations table. |
| ReservationRepository.CreatePreservesNoDoubleBooking | app/src/main/java/com/example/myapplication/data/repository/ReservationRepository.kt:54-58 | If no two stored bookings of a car share a day, the same holds after `createReservation`, for any dates. |
| ReservationRepository.ProcessReservationResponse | app/src/main/java/com/example/myapplication/data/repository/ReservationRepository.kt:82-96 | Succeeds iff the reservation exists and is PENDING; then its status becomes APPROVED or REJECTED according to the flag; otherwise the store is untouched. |
| ReservationRepository.CancelReservation | app/src/main/java/com/example/myapplication/data/repository/ReservationRepository.kt:102-113 | Succeeds iff the reservation exists and is PENDING or APPROVED; then it becomes CANCELLED; otherwise nothing changes. |
| ReservationRepository.CompleteReservation | app/src/main/java/com/example/myapplication/data/repository/ReservationRepository.kt:118-128 | Succeeds iff the reservation exists, is APPROVED and is paid; then it becomes COMPLETED; otherwise nothing changes. |
| ReservationRepository.TransitionsFollowStateMachine | app/src/main/java/com/example/myapplication/data/repository/ReservationRepository.kt:82-128 | Every repository operation either leaves a reservation's status as it was or moves it along an edge of the status machine (PENDING→APPROVED/REJECTED/CANCELLED, APPROVED→CANCELLED/COMPLETED). |
| ReservationRepository.TerminalStatusesAreFinal | app/src/main/java/com/example/myapplication/data/repository/ReservationRepository.kt:88-91 | Once REJECTED, CANCELLED or COMPLETED, respond, cancel and complete all return false and change nothing. |
| ReservationRepository.MarkAsPaidInAnyStatus | app/src/main/java/com/example/myapplication/data/database/ReservationDao.kt:44-45 | Paying sets `isPaid` whatever the status is, even a rejected or cancelled booking, and leaves the status alone. |
| ReservationRepository.StatusUpdatesPreserveNoDoubleBooking | app/src/main/java/com/example/myapplication/data/repository/ReservationRepository.kt:94 | Status and payment updates never create a double booking. |
| ReservationRepository.HappyPath | app/src/main/java/com/example/myapplication/data/repository/ReservationRepository.kt:47-128 | With free dates, an existing car and an existing renter, create → approve → pay → complete all succeed and end in a COMPLETED, paid reservation. |
| ReservationRepository.CompleteNeedsApprovalAndPayment | app/src/main/java/com/example/myapplication/data/repository/ReservationRepository.kt:121-124 | A fresh reservation cannot be completed before approval, nor when paid but not approved, nor when approved but unpaid. |
| ReservationViewModel.CreateReservation | app/src/main/java/com/example/myapplication/ui/reservation/ReservationViewModel.kt:128-174 | The checks run in order, each with its exact message: end before start, then start in the past, then conflicting dates ("These dates are already booked…"), then a missing car ("Car not found"), then an unknown renter, whose failed foreign-key insert is reported with the database's message. Every error leaves the store untouched. Success holds iff today ≤ start ≤ end, the car and the renter exist and the dates are free; the reservation is then priced from the car's stored `pricePerDay`. The "Dates may be unavailable" branch is never reached. |
| ReservationViewModel.SameDayBookingAccepted | app/src/main/java/com/example/myapplication/ui/reservation/ReservationViewModel.kt:134-142 | A one-day booking starting today passes both date checks and succeeds when the car and the renter exist and the car is free. |
| ReservationViewModel.CreatePreservesNoDoubleBooking | app/src/main/java/com/example/myapplication/ui/reservation/ReservationViewModel.kt:147-163 | The view-model flow never introduces a double booking. |
| ReservationViewModel.Respond | app/src/main/java/com/example/myapplication/ui/reservation/ReservationViewModel.kt:176-216 | Nothing changes unless the reservation exists and the caller owns its car; then the repository response is applied. |
| ReservationViewModel.ApproveReservation | app/src/main/java/com/example/myapplication/ui/reservation/ReservationViewModel.kt:176-195 | A change happens only for the car's owner on a PENDING reservation, and is exactly the status update to APPROVED; in that situation the reservation does become APPROVED. |
| ReservationViewModel.RejectReservation | app/src/main/java/com/example/myapplication/ui/reservation/ReservationViewModel.kt:197-216 | As approve, with REJECTED. |
| ReservationViewModel.CancelReservation | app/src/main/java/com/example/myapplication/ui/reservation/ReservationViewModel.kt:218-234 | A change happens only for the renter on a PENDING or APPROVED reservation, and is exactly the update to CANCELLED; in that situation it happens. |
| ReservationViewModel.PayForReservation | app/src/main/java/com/example/myapplication/ui/reservation/ReservationViewModel.kt:236-250 | The renter's request marks the reservation paid; anyone else's request, or an unknown id, changes nothing. |
| ReservationViewModel.PaymentIgnoresStatus | app/src/main/java/com/example/myapplication/ui/reservation/ReservationViewModel.kt:240-242 | For the renter, payment sets `isPaid` on a reservation in any status and changes nothing else in that row. |
| ReservationViewModel.LoadAllOwnerReservations | app/src/main/java/com/example/myapplication/ui/reservation/ReservationViewModel.kt:68-97 | Empty iff every per-status query is empty; otherwise Success listing each of the owner's reservations exactly once, grouped in status declaration order. |
| CarDao.GetCarById | app/src/main/java/com/example/myapplication/data/database/CarDao.kt:19-20 | A row iff the id is a key, and then exactly that row. |
| CarDao.InsertCar | app/src/main/java/com/example/myapplication/data/database/CarDao.kt:10-11 | Insert-or-replace; key set grows by exactly the car id; other rows and tables unchanged, so replacing an existing id does not cascade to its images, reservations or ratings. |
| CarDao.UpdateCar | app/src/main/java/com/example/myapplication/data/database/CarDao.kt:13-14 | Replaces the row with the same id if present, otherwise no-op; keys, other rows and tables unchanged. |
| CarDao.DeleteCar | app/src/main/java/com/example/myapplication/data/database/CarDao.kt:16-17 | Removes exactly the car's key; remaining rows unchanged. |
| CarDao.AvailableCars | app/src/main/java/com/example/myapplication/data/database/CarDao.kt:25-26 | Exactly the stored cars with `isAvailable`. |
| CarDao.CarsByOwner | app/src/main/java/com/example/myapplication/data/database/CarDao.kt:28-29 | Exactly the stored cars of the owner. |
| CarDao.OwnerCarIdsListCarsByOwner | app/src/main/java/com/example/myapplication/data/database/CarDao.kt:28-29 | The keys the aggregator sums over are exactly the rows `getCarsByOwner` returns. |
| CarDao.SearchCarsByModel | app/src/main/java/com/example/myapplication/data/database/CarDao.kt:31-32 | Exactly the cars whose brand or model contains the term, ignoring case. |
| CarDao.SearchCarsByCity | app/src/main/java/com/example/myapplication/data/database/CarDao.kt:34-35 | Exactly the cars whose location contains the city term, ignoring case. |
| CarDao.SearchCarsByMaxPrice | app/src/main/java/com/example/myapplication/data/database/CarDao.kt:37-38 | Exactly the cars priced at most the bound. |
| CarDao.SearchCarsByCityAndPrice | app/src/main/java/com/example/myapplication/data/database/CarDao.kt:40-41 | Exactly the cars whose location contains the city term, ignoring case, and whose price is at most the bound. |
| CarDao.CityAndPriceIsIntersection | app/src/main/java/com/example/myapplication/data/database/CarDao.kt:34-41 | The combined query returns the intersection of the city query and the price query. |
| CarDao.MaxPriceBoundInclusive | app/src/main/java/com/example/myapplication/data/database/CarDao.kt:37-38 | A car priced exactly at the bound is included. |
| CarDao.UpdateCarRating | app/src/main/java/com/example/myapplication/data/database/CarDao.kt:43-44 | Only `rating` and `ratingCount` of the addressed car change; absent id is a no-op. |
| CarDao.InsertCarImage | app/src/main/java/com/example/myapplication/data/database/CarDao.kt:47-48 | Insert-or-replace of an image row; other images and tables unchanged. |
| CarDao.UpdateCarImage | app/src/main/java/com/example/myapplication/data/database/CarDao.kt:62-63 | Replaces the image row with the same id if present; otherwise no-op. |
| CarDao.GetCarPrimaryImage | app/src/main/java/com/example/myapplication/data/database/CarDao.kt:56-57 | Null iff the car has no primary image; otherwise one of its primary image rows. |
| CarRepository.CreateCar | app/src/main/java/com/example/myapplication/data/repository/CarRepository.kt:130-190 | An owner that is not a user fails the `cars` foreign key: "Failed to create car: " with SQLite's foreign-key message, and no write. A non-positive insert result gives "Failed to create car: Failed to insert car into database" and no write. Otherwise the new car holds the given fields; it is available, rated 0.0 with count 0, and its `imageUri` is the saved path, or null when the path is empty. A primary image row for it is added iff a path was saved. No other table changes. |
| CarRepository.CreateCarKeepsOnePrimaryImage | app/src/main/java/com/example/myapplication/data/repository/CarRepository.kt:169-183 | Creating a car keeps "at most one primary image per car", and the new car has a primary image iff it was created with a saved image. |
| CarRepository.UpdateCarImage | app/src/main/java/com/example/myapplication/data/repository/CarRepository.kt:92-125 | If the car has a primary image, exactly that row changes, and only in its url; every other image row is kept. If it has none and the car exists, exactly one new primary row is inserted; if it has none and the car does not exist, the insert fails the `car_images` foreign key and nothing is written. Afterwards a primary image with the saved path exists. The car's `imageUri` becomes the saved path. Keying and "at most one primary image per car" are preserved. Users, reservations and ratings are untouched. |
| CarRepository.PrimaryRewriteKeepsRule | app/src/main/java/com/example/myapplication/data/repository/CarRepository.kt:100-103 | Rewriting the url of an existing primary image keeps at most one primary image per car. |
| CarViewModel.FilteredCarsAreMatches | app/src/main/java/com/example/myapplication/ui/car/CarViewModel.kt:143-183 | The `when` dispatch is equivalent to a per-criterion filter: city, price, and a model-only term checked against brand or model; with city and price both set, the term is checked against the model alone; no filter lists every car. |
| CarViewModel.ThreeFiltersIgnoreBrand | app/src/main/java/com/example/myapplication/ui/car/CarViewModel.kt:144-146 | With all three criteria set, a car matching the term only on its brand is dropped, though the model-only filter keeps it. |
| CarViewModel.ModelIgnoredWithOneOfCityAndPrice | app/src/main/java/com/example/myapplication/ui/car/CarViewModel.kt:159-172 | When exactly one of city and price is set, the model term has no effect on the result. |
| CarViewModel.FiltersIgnoreAvailability | app/src/main/java/com/example/myapplication/ui/car/CarViewModel.kt:143-181 | Any non-empty filter can return an unavailable car, while the unfiltered list (available cars) never does. |
| CarViewModel.ApplyFilters | app/src/main/java/com/example/myapplication/ui/car/CarViewModel.kt:139-188 | Empty iff no stored car matches the filter; otherwise Success listing each matching car exactly once. |
| CarViewModel.UpdateCar | app/src/main/java/com/example/myapplication/ui/car/CarViewModel.kt:249-292 | Success iff the car exists and belongs to the caller, otherwise "You can only update your own cars" and no write. On success the descriptive fields are replaced; id, owner, availability and rating are kept. With no new image the stored car is the shown car. With a new image the shown car has a null `imageUri`, while the stored car carries the new path. The car's primary image is then rewritten in place or inserted, exactly as in `updateCarImage`, and one primary image per car is preserved. Users, reservations and ratings are untouched; owner, rating and rating count of every car are kept. |
| CarViewModel.UpdateCarKeepsInvariants | app/src/main/java/com/example/myapplication/ui/car/CarViewModel.kt:263-284 | A car edit keeps one primary image per car, keeps every car's aggregate consistent with its ratings, and keeps every owner's aggregate up to date. |
| CarViewModel.DeleteCar | app/src/main/java/com/example/myapplication/ui/car/CarViewModel.kt:294-309 | An unknown id changes nothing; otherwise exactly that car row is removed, whoever asks. The remaining cars' aggregates stay consistent. |
| CarViewModel.DeletingRatedCarLeavesOwnerStale | app/src/main/java/com/example/myapplication/ui/car/CarViewModel.kt:294-309 | Deleting a car does not recompute its owner's rating: in a store whose aggregates are all exact, deleting an owner's only rated car leaves the owner row counting one rating while no rated car is left. |
| RatingDao.InsertRating | app/src/main/java/com/example/myapplication/data/database/RatingDao.kt:9-10 | Insert-or-replace of a rating row; other rows and tables unchanged. |
| RatingDao.RatingsByCarId | app/src/main/java/com/example/myapplication/data/database/RatingDao.kt:21-22 | Exactly the ratings of the car. |
| RatingDao.RatingIdsListRatingsByCar | app/src/main/java/com/example/myapplication/data/database/RatingDao.kt:21-22 | The keys summed by `AVG`/`COUNT` are exactly the rows `getRatingsByCarId` returns. |
| RatingDao.RatingIdsForCarsSplit | app/src/main/java/com/example/myapplication/data/repository/RatingRepository.kt:106-111 | The ratings of a set of cars split, disjointly, into one car's ratings and the rest's. This is what lets the owner loop add up one car at a time. |
| RatingDao.RatingCountForCar | app/src/main/java/com/example/myapplication/data/database/RatingDao.kt:33-34 | `COUNT(*)` is the number of rating rows of the car. |
| RatingDao.AverageRatingForCar | app/src/main/java/com/example/myapplication/data/database/RatingDao.kt:30-31 | With at least one rating, average × count equals the sum of the car's scores; with none, 0.0. |
| RatingDao.GetRatingByReservationId | app/src/main/java/com/example/myapplication/data/database/RatingDao.kt:27-28 | Null iff no rating refers to the reservation; otherwise a stored rating for it. |
| RatingDao.InsertFirstRatingKeepsRule | app/src/main/java/com/example/myapplication/data/repository/RatingRepository.kt:58-74 | Inserting a rating for a not-yet-rated reservation keeps "at most one rating per reservation". |
| RatingDao.InsertRatingAllowsSecondRating | app/src/main/java/com/example/myapplication/data/database/RatingDao.kt:9-10 | The DAO alone does not enforce the rule: two inserts for one reservation break it (the guard lives in the repository). |
| RatingRepository.UpdateCarRating | app/src/main/java/com/example/myapplication/data/repository/RatingRepository.kt:89-93 | Only the car's `rating`/`ratingCount` change, and afterwards they agree with the stored ratings (count = number of ratings, rating × count = score sum, 0.0 when unrated). |
| RatingRepository.UpdateOwnerRating | app/src/main/java/com/example/myapplication/data/repository/RatingRepository.kt:98-125 | Only the owner's `rating`/`ratingCount` change. Afterwards `ratingCount` is the sum of their cars' `ratingCount`, and `rating × ratingCount` is the sum of `rating × ratingCount` over those cars; both are 0 when unrated. |
| RatingRepository.CarContribution | app/src/main/java/com/example/myapplication/data/repository/RatingRepository.kt:106-110 | For a car whose aggregate is consistent, its weighted score `rating × ratingCount` is its score sum and its count is its number of ratings. |
| RatingRepository.CarTotalsAreRatingTotals | app/src/main/java/com/example/myapplication/data/repository/RatingRepository.kt:104-111 | Over consistent cars, the totals of weighted scores and counts are the score sum and number of ratings of those cars. |
| RatingRepository.OwnerAggregateIsMeanOfScores | app/src/main/java/com/example/myapplication/data/repository/RatingRepository.kt:98-125 | If the owner's cars are consistent and the owner row is up to date, the owner's rating is the plain mean of every score given to any of their cars, and the count is the number of those ratings. |
| RatingRepository.OwnerMeanFromCarTotals | app/src/main/java/com/example/myapplication/data/repository/RatingRepository.kt:113-119 | The owner row's two numbers, combined with the car totals, give the mean of the owner's scores. |
| RatingRepository.MeanFromTotals | app/src/main/java/com/example/myapplication/data/repository/RatingRepository.kt:114-118 | `totalScore / totalCount`, or 0 for no ratings, times the count recovers the score sum. |
| RatingRepository.OtherCarStaysConsistent | app/src/main/java/com/example/myapplication/data/repository/RatingRepository.kt:74-77 | A new rating for one car leaves every other car's aggregate correct without recomputation. |
| RatingRepository.RecomputeKeepsAllConsistent | app/src/main/java/com/example/myapplication/data/repository/RatingRepository.kt:74-77 | Inserting a rating and recomputing only its car keeps every car's aggregate correct. |
| RatingRepository.AggregatesSurviveCarEdits | app/src/main/java/com/example/myapplication/data/repository/RatingRepository.kt:89-118 | Car and owner aggregates depend only on the cars' owners, ratings and rating counts, so edits to any other car field keep them exact. |
| RatingRepository.AddRating | app/src/main/java/com/example/myapplication/data/repository/RatingRepository.kt:40-84 | Null, with no write, iff the reservation is missing, is not COMPLETED, is not the rater's, or is already rated. Otherwise: the rating with the given fields is inserted; the car's aggregate is recomputed and consistent with count ≥ 1; only `rating`/`ratingCount` of the rated car and of its owner change, and no other car row; at most one rating per reservation is preserved; all cars stay consistent. The owner's aggregate is brought up to date unless the recomputation throws, in which case users are untouched. |
| RatingRepository.AddRatingOwnerIsMeanOfScores | app/src/main/java/com/example/myapplication/data/repository/RatingRepository.kt:74-81 | After a successful rating with consistent cars, the car owner's rating is the mean of all scores on their cars. |
| RatingViewModel.LoadCarRatings | app/src/main/java/com/example/myapplication/ui/rating/RatingViewModel.kt:21-36 | Empty iff the car has no ratings; otherwise Success listing each of its ratings exactly once. |
| RatingViewModel.SubmitRating | app/src/main/java/com/example/myapplication/ui/rating/RatingViewModel.kt:38-73 | A score outside [1, 5] gives "Rating must be between 1 and 5". A thrown exception gives its message or "Failed to submit rating". A null repository answer gives "You can only rate after a completed reservation". Success holds iff the score is in range, nothing is thrown and the user may rate. Every error leaves the store untouched. Scores in range and at most one rating per reservation are preserved. |
| RatingViewModel.CheckIfUserCanRate | app/src/main/java/com/example/myapplication/ui/rating/RatingViewModel.kt:75-87 | AlreadyRated iff the reservation already has a rating; otherwise the state is left as it was. |
| RatingViewModel.ResetSubmitRatingState | app/src/main/java/com/example/myapplication/ui/rating/RatingViewModel.kt:89-91 | The submit state returns to Idle from any state. |
| RatingViewModel.SecondSubmissionRefused | app/src/main/java/com/example/myapplication/ui/rating/RatingViewModel.kt:38-87 | After a successful rating, the check reports AlreadyRated and a second submission for the same reservation is refused without a write. |
| UserDao.GetUserById | app/src/main/java/com/example/myapplication/data/database/UserDao.kt:24-25 | A row iff the id is a key, and then exactly that row. |
| UserDao.GetUserByEmail | app/src/main/java/com/example/myapplication/data/database/UserDao.kt:27-28 | Null iff no user has the email; otherwise one of the users with it. |
| UserDao.InsertUser | app/src/main/java/com/example/myapplication/data/database/UserDao.kt:15-16 | Insert-or-replace; other rows and tables unchanged, so replacing an existing id does not cascade to the user's cars, reservations or ratings. |
| UserDao.UpdateUser | app/src/main/java/com/example/myapplication/data/database/UserDao.kt:18-19 | Replaces the row with the same id if present, otherwise no-op. |
| UserDao.UpdateUserRating | app/src/main/java/com/example/myapplication/data/database/UserDao.kt:36-37 | Only `rating`/`ratingCount` of the addressed user change; absent id is a no-op. |
| UserDao.UsersByType | app/src/main/java/com/example/myapplication/data/database/UserDao.kt:30-31 | Exactly the users of the given type. |
| UserDao.InsertUserAllowsDuplicateEmail | app/src/main/java/com/example/myapplication/data/database/UserDao.kt:15-16 | The table has no unique constraint on email: inserting a second user with a taken email breaks uniqueness. |
| UserDao.InsertNewEmailKeepsUnique | app/src/main/java/com/example/myapplication/data/database/UserDao.kt:15-16 | Inserting a user whose email is not yet registered keeps emails unique. |
| UserRepository.CreateUser | app/src/main/java/com/example/myapplication/data/repository/UserRepository.kt:28-47 | The new user has the given id and fields, no profile image, rating 0.0 and count 0, and is stored; no other table changes. |
| UserRepository.CreateUserAllowsDuplicateEmail | app/src/main/java/com/example/myapplication/data/repository/UserRepository.kt:28-47 | `createUser` itself does not check the email; uniqueness depends on the caller. |
| UserRepository.AuthenticateUser | app/src/main/java/com/example/myapplication/data/repository/UserRepository.kt:49-52 | Null for an unregistered email. A returned user has that email and that password. With unique emails, a user is returned iff one with that email and password exists. |
| UserRepository.CreateThenAuthenticate | app/src/main/java/com/example/myapplication/data/repository/UserRepository.kt:28-52 | A user created with a fresh email can log in with the same credentials and gets back exactly the created user. |
| AuthViewModel.Login | app/src/main/java/com/example/myapplication/ui/auth/AuthViewModel.kt:24-44 | A blank email or password gives "Email and password cannot be empty". A thrown exception gives its message or "Authentication failed". Wrong credentials give "Invalid email or password". Success sets the current user to a stored user with exactly those credentials. With unique emails, success holds iff the fields are filled, nothing is thrown and the credentials match. Registration state is untouched. |
| AuthViewModel.Register | app/src/main/java/com/example/myapplication/ui/auth/AuthViewModel.kt:46-91 | The checks run in order, each with no write on failure: "All fields are required", "Passwords do not match", a thrown exception, "Email already registered". Success holds iff all fields are filled, the passwords agree, nothing is thrown and the email is new. The user is then created and becomes the current user. Unique emails are preserved. |
| AuthViewModel.Logout | app/src/main/java/com/example/myapplication/ui/auth/AuthViewModel.kt:93-105 | Both form states return to Idle and there is no current user. |
| AuthViewModel.RegisterThenLogin | app/src/main/java/com/example/myapplication/ui/auth/AuthViewModel.kt:24-91 | After a successful registration, logging in with the same email and password succeeds with the registered user. |
| ProfileViewModel.LoadUserProfile | app/src/main/java/com/example/myapplication/ui/profile/ProfileViewModel.kt:33-47 | Success with the stored row iff the user exists, otherwise "User not found". |
| ProfileViewModel.UpdateUserProfile | app/src/main/java/com/example/myapplication/ui/profile/ProfileViewModel.kt:49-88 | Any blank field gives "All fields are required". A failed image save is an error with no write. Otherwise the three fields are replaced, and the image becomes the saved one or stays as it was; id, email, password, type and rating are kept. The edited user is written back and shown as the profile. Nothing else changes. |
| ProfileViewModel.EditThenLoadShowsEdit | app/src/main/java/com/example/myapplication/ui/profile/ProfileViewModel.kt:33-88 | Editing a loaded profile and reloading it returns the edited user. |

## Left out

- Floating point: prices, scores and averages are exact reals, so `Float` rounding in `AVG` and in the owner's `totalScore / totalCount` is not modelled. The contracts state the exact-arithmetic relations, such as average × count = sum.
- Kotlin `Int`/`Long` overflow (day counts, rating counts) is not modelled; integers are unbounded.
- `RatingViewModel.SubmitRating`: a NaN score would pass the `score < 1 \|\| score > 5` check, and the model cannot represent it.
- `LIKE` wildcards inside a search term (`%`, `_`) are matched literally. Case folding covers ASCII letters only, as SQLite's `LIKE` does by default. `isBlank` follows Kotlin's `Char.isWhitespace`, including U+001C..U+001F and the Unicode space separators.
- CarViewModel.FilteredCarsAreMatches: the three-filter branch (CarViewModel.kt:146) uses Kotlin's `contains(…, ignoreCase = true)`, which folds case across all of Unicode. The model folds ASCII letters only there too, so a non-ASCII model name that differs only in case is not matched by the model.
- `CarRepository.CreateCar`, `ReservationViewModel.CreateReservation`: the foreign-key error text is modelled as SQLite's bare "FOREIGN KEY constraint failed"; the Android driver appends an error code to it.
- ReservationDao.InsertReservation, CarDao.InsertCar, UserDao.InsertUser: SQLite carries out `REPLACE` over a key already stored by deleting the old row and then inserting. With foreign keys on, that delete cascades: a replaced reservation loses its ratings (Rating.kt:23-28); a replaced car loses its images, reservations and ratings (Car.kt:37-41, Reservation.kt:17-21, Rating.kt:17-22); a replaced user loses their cars, reservations and ratings, and the cars' children with them (Car.kt:10-14, Reservation.kt:11-15, Rating.kt:11-16). The model replaces the row alone and leaves the other tables as they were. Every caller inserts under a fresh `UUID.randomUUID()` (ReservationRepository.kt:65, CarRepository.kt:141, UserRepository.kt:37), so the replacing case does not arise in the app. The same holds for `ReservationRepository.CreateReservation`, `CarRepository.CreateCar` and `UserRepository.CreateUser`, whose `newId` stands for that UUID.
- `CarDao.InsertCar`, `CarDao.InsertCarImage`, `ReservationDao.InsertReservation`, `RatingDao.InsertRating`: these model the write alone. The foreign-key checks are modelled in the operations that call them (`CreateCar`, `UpdateCarImage`, `CreateReservation`), except in `AddRating`, below.
- RatingRepository.AddRating: inserting a rating whose car or user is unknown fails the foreign keys of `ratings` (Rating.kt:8-30). The model inserts the row.
- `CarViewModel.DeleteCar`, `CarDao.DeleteCar`: the database's foreign-key `ON DELETE CASCADE` (car images, reservations and ratings of a deleted car) is not modelled. The other tables are left as they were.
- Flows and coroutines: every `Flow` query is one snapshot, and each view-model call runs to completion on that snapshot. There is no concurrency, so the check-then-insert windows in `createReservation` and `addRating` are not modelled.
- `RatingRepository.UpdateOwnerRating`: modelled as one pass over the owner's cars. In the source, `collect` on the live `getCarsByOwner` flow never completes, and totals would keep growing across re-emissions.
- RatingRepository.AddRating: because that `collect` never completes (RatingRepository.kt:104-105), the source's `addRating` never returns once the rated car exists (RatingRepository.kt:80-83). The model returns the rating, which is the documented intent (RatingRepository.kt:38) read as one pass. The writes up to the first emission are the ones the model makes.
- RatingViewModel.SubmitRating: for the same reason, when the rated car exists the source's state stays Loading; it never reaches Success, and the ratings list is not reloaded (RatingViewModel.kt:62-65). The model's Success is the one-pass reading.
- `RatingRepository.AddRating`: an exception from the owner recomputation is modelled as `ownerUpdateFails` (no user written). Other exceptions are not modelled.
- `RatingViewModel.SubmitRating`, `AuthViewModel.Login`, `AuthViewModel.Register`: a thrown exception is a parameter and is assumed to happen before any write. An exception after a partial write is not modelled.
- `CarRepository.UpdateCarImage`: its `catch` clause only logs; the model writes nothing when the insert would fail. The image is saved by a call the model does not see, and the saved path is a parameter.
- `CarRepository.UpdateCarImage`, `CarViewModel.UpdateCar`, `CarViewModel.DeleteCar`: these state the car row's effect only under `CarsKeyed`, meaning every car is stored under its own id. Images likewise require `ImagesKeyed`. Room guarantees both through the primary key.
- Saving images to internal storage, URIs and file I/O: the saved path, or the failure to save one, is a parameter.
- `User.profileImageUri` in `ProfileViewModel` versus the entity's `profileImageUrl` field: modelled as one optional field.
- Reservation `createdAt` and rating `date` default to "now": both are a `today` parameter.
- Not modelled: screen code (Compose UI), navigation, dependency wiring, and the view-model factories.
- Not modelled because they are plain reads with no logic: `loadRenterReservations`, `loadOwnerPendingReservations`, `loadOwnerReservationsByStatus`, `getReservationsForCar`, `loadAllCars`, `loadUserCars`, `loadCarDetail`, and the single-field filter setters.
- `addCar`/`updateCar(car)` in the view model are thin wrappers over the repository calls above and are not modelled separately.
- `clearCurrentUser` has an empty body and is not modelled.
- `LoadCarRatings`, `LoadAllOwnerReservations`, `ApplyFilters`, `LoadUserProfile`: the `catch` branches that set an Error state are not modelled. The model's queries cannot throw, so the Error state never arises. For `loadAllOwnerReservations`, the per-status `catch` that skips a failed status is likewise not modelled.
