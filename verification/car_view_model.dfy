/**
 The catalogue screen logic: which query a combination of filters runs,
 the ownership check in front of a car update, and car deletion.
 */
module CarViewModel {
  import opened Entities
  import opened Database
  import opened Text
  import opened CarDao
  import CarRepository
  import RatingDao
  import RatingRepository
  import Sums

  datatype CarsFilter = CarsFilter(city: Option<string>, maxPrice: Option<real>, model: Option<string>)

  datatype CarsState = Loading | Empty | Success(cars: seq<Car>) | Error(message: string)

  datatype CarCreationState = Idle | Loading | Success(car: Car) | Error(message: string)

  const NotYourCarMessage := "You can only update your own cars"

  /**
   The rows `applyFilters` lists for a filter: the first matching case of
   city-price-and-model, city-and-price, city, price, model, or no filter.
   */
  function FilteredCars(s: Store, f: CarsFilter): (cs: set<Car>)
    ensures cs <= s.cars.Values
  {
    if f.city.Some? && f.maxPrice.Some? && f.model.Some? then
      set c | c in SearchCarsByCityAndPrice(s, f.city.value, f.maxPrice.value) && ContainsIgnoreCase(c.model, f.model.value)
    else if f.city.Some? && f.maxPrice.Some? then SearchCarsByCityAndPrice(s, f.city.value, f.maxPrice.value)
    else if f.city.Some? then SearchCarsByCity(s, f.city.value)
    else if f.maxPrice.Some? then SearchCarsByMaxPrice(s, f.maxPrice.value)
    else if f.model.Some? then SearchCarsByModel(s, f.model.value)
    else AvailableCars(s)
  }

  /**
   The model term is honoured only when city and price are both set (and
   then on the model alone) or both unset (and then on brand or model).
   */
  predicate ModelTermApplies(f: CarsFilter)
  {
    f.model.Some? && (f.city.Some? <==> f.maxPrice.Some?)
  }

  /** Per-criterion reading of a filter: each set criterion that applies must hold of the car. */
  predicate MatchesFilter(c: Car, f: CarsFilter)
  {
    && (f.city.Some? ==> ContainsIgnoreCase(c.location, f.city.value))
    && (f.maxPrice.Some? ==> c.pricePerDay <= f.maxPrice.value)
    && (ModelTermApplies(f) && f.city.Some? ==> ContainsIgnoreCase(c.model, f.model.value))
    && (ModelTermApplies(f) && f.city.None? ==>
          ContainsIgnoreCase(c.brand, f.model.value) || ContainsIgnoreCase(c.model, f.model.value))
    && (f == CarsFilter(None, None, None) ==> c.isAvailable)
  }

  /** The case dispatch lists exactly the stored cars that match the filter criterion by criterion. */
  lemma FilteredCarsAreMatches(s: Store, f: CarsFilter, c: Car)
    ensures c in FilteredCars(s, f) <==> c in s.cars.Values && MatchesFilter(c, f)
  {
  }

  /** With city and price both set, a car whose brand matches but whose model does not is left out. */
  lemma ThreeFiltersIgnoreBrand(s: Store, city: string, maxPrice: real, term: string, c: Car)
    requires c in s.cars.Values
    requires ContainsIgnoreCase(c.location, city) && c.pricePerDay <= maxPrice
    requires ContainsIgnoreCase(c.brand, term) && !ContainsIgnoreCase(c.model, term)
    ensures c !in FilteredCars(s, CarsFilter(Some(city), Some(maxPrice), Some(term)))
    ensures c in FilteredCars(s, CarsFilter(None, None, Some(term)))
  {
  }

  /** When exactly one of city and price is set, the model term changes nothing. */
  lemma ModelIgnoredWithOneOfCityAndPrice(s: Store, f: CarsFilter, model: Option<string>)
    requires f.city.Some? != f.maxPrice.Some?
    ensures FilteredCars(s, f.(model := model)) == FilteredCars(s, f)
  {
  }

  /** Only the unfiltered listing restricts to available cars: a matching unavailable car is listed. */
  lemma FiltersIgnoreAvailability(s: Store, f: CarsFilter, c: Car)
    requires f != CarsFilter(None, None, None)
    requires c in s.cars.Values && MatchesFilter(c, f) && !c.isAvailable
    ensures c in FilteredCars(s, f)
    ensures c !in FilteredCars(s, CarsFilter(None, None, None))
  {
  }

  /** `applyFilters`: Empty when no car is selected, otherwise the list of exactly the selected cars. */
  method ApplyFilters(s: Store, f: CarsFilter) returns (state: CarsState)
    ensures state.Empty? <==> forall k :: k in s.cars ==> !MatchesFilter(s.cars[k], f)
    ensures state.Empty? || state.Success?
    ensures state.Success? ==> forall c :: c in state.cars <==> c in s.cars.Values && MatchesFilter(c, f)
    ensures state.Success? ==> NoDuplicates(state.cars)
  {
    var cars := ListOf(FilteredCars(s, f));
    forall c ensures c in FilteredCars(s, f) <==> c in s.cars.Values && MatchesFilter(c, f) {
      FilteredCarsAreMatches(s, f, c);
    }
    if cars == [] {
      forall k | k in s.cars ensures !MatchesFilter(s.cars[k], f) {
        assert s.cars[k] in s.cars.Values;
      }
      state := CarsState.Empty;
    } else {
      assert cars[0] in FilteredCars(s, f);
      state := CarsState.Success(cars);
    }
  }

  /**
   `updateCar(carId, ownerId, …)`: refused unless the car exists and
   belongs to `ownerId`; otherwise the descriptive fields are replaced and
   the rest kept, the image reference is cleared when a new image was
   picked (`newImagePath` is its saved path) and then set again by the
   primary-image upsert.
   */
  method UpdateCar(s: Store, carId: Id, ownerId: Id, brand: string, model: string, year: int,
                   description: string, pricePerDay: real, location: string,
                   newImagePath: Option<string>, newImageId: Id)
    returns (state: CarCreationState, s': Store)
    ensures state.Success? <==> carId in s.cars && s.cars[carId].ownerId == ownerId
    ensures !state.Success? ==> state == CarCreationState.Error(NotYourCarMessage) && s' == s
    ensures state.Success? ==>
      var before := s.cars[carId];
      && state.car.carId == before.carId && state.car.ownerId == ownerId
      && state.car.isAvailable == before.isAvailable
      && state.car.rating == before.rating && state.car.ratingCount == before.ratingCount
      && state.car.brand == brand && state.car.model == model && state.car.year == year
      && state.car.description == description && state.car.pricePerDay == pricePerDay
      && state.car.location == location
      && (newImagePath.None? ==> state.car.imageUri == before.imageUri)
      && (newImagePath.Some? ==> state.car.imageUri.None?)
    ensures state.Success? && CarsKeyed(s.cars) ==>
      && (newImagePath.None? ==> s'.cars == s.cars[carId := state.car])
      && (newImagePath.Some? ==> s'.cars == s.cars[carId := state.car.(imageUri := newImagePath)])
    ensures s'.users == s.users && s'.reservations == s.reservations && s'.ratings == s.ratings
    ensures newImagePath.None? ==> s'.carImages == s.carImages
    ensures state.Success? && newImagePath.Some? && !HasPrimaryImage(s.carImages, carId) ==>
      s'.carImages == s.carImages[newImageId := CarImage(newImageId, carId, newImagePath.value, true)]
    ensures state.Success? && newImagePath.Some? && ImagesKeyed(s.carImages) && HasPrimaryImage(s.carImages, carId) ==>
      exists k :: IsPrimaryImageOf(s.carImages, k, carId)
                  && s'.carImages == s.carImages[k := s.carImages[k].(imageUrl := newImagePath.value)]
    ensures state.Success? && newImagePath.Some? && ImagesKeyed(s.carImages) ==>
      exists k :: IsPrimaryImageOf(s'.carImages, k, carId) && s'.carImages[k].imageUrl == newImagePath.value
    ensures ImagesKeyed(s.carImages) ==> ImagesKeyed(s'.carImages)
    ensures ImagesKeyed(s.carImages) && AtMostOnePrimaryImage(s.carImages) ==> AtMostOnePrimaryImage(s'.carImages)
    ensures CarsKeyed(s.cars) ==> CarsKeyed(s'.cars)
    ensures CarsKeyed(s.cars) ==> RatingRepository.SameRatingFields(s.cars, s'.cars)
  {
    var existing := GetCarById(s, carId);
    if existing.None? || existing.value.ownerId != ownerId {
      return CarCreationState.Error(NotYourCarMessage), s;
    }
    var car := existing.value;
    var updated := car.(brand := brand, model := model, year := year, description := description,
                        pricePerDay := pricePerDay, location := location,
                        imageUri := if newImagePath.None? then car.imageUri else None);
    s' := StoreCarEdit(s, carId, updated, newImagePath, newImageId);
    state := CarCreationState.Success(updated);
  }

  /**
   The writes of an accepted `updateCar`: the edited row, then, when a new
   image was picked, the primary-image upsert for its saved path.
   */
  method StoreCarEdit(s: Store, carId: Id, updated: Car, newImagePath: Option<string>, newImageId: Id) returns (s': Store)
    requires carId in s.cars && (CarsKeyed(s.cars) ==> updated.carId == carId)
    ensures s'.users == s.users && s'.reservations == s.reservations && s'.ratings == s.ratings
    ensures CarsKeyed(s.cars) && newImagePath.None? ==> s'.cars == s.cars[carId := updated]
    ensures CarsKeyed(s.cars) && newImagePath.Some? ==>
      s'.cars == s.cars[carId := updated.(imageUri := newImagePath)]
    ensures newImagePath.None? ==> s'.carImages == s.carImages
    ensures newImagePath.Some? && !HasPrimaryImage(s.carImages, carId) ==>
      s'.carImages == s.carImages[newImageId := CarImage(newImageId, carId, newImagePath.value, true)]
    ensures newImagePath.Some? && ImagesKeyed(s.carImages) && HasPrimaryImage(s.carImages, carId) ==>
      exists k :: IsPrimaryImageOf(s.carImages, k, carId)
                  && s'.carImages == s.carImages[k := s.carImages[k].(imageUrl := newImagePath.value)]
    ensures newImagePath.Some? && ImagesKeyed(s.carImages) ==>
      exists k :: IsPrimaryImageOf(s'.carImages, k, carId) && s'.carImages[k].imageUrl == newImagePath.value
    ensures ImagesKeyed(s.carImages) ==> ImagesKeyed(s'.carImages)
    ensures ImagesKeyed(s.carImages) && AtMostOnePrimaryImage(s.carImages) ==> AtMostOnePrimaryImage(s'.carImages)
  {
    var s1 := CarDao.UpdateCar(s, updated);
    assert s1.carImages == s.carImages && s1.cars.Keys == s.cars.Keys;
    s' := s1;
    if newImagePath.Some? {
      s' := CarRepository.UpdateCarImage(s1, carId, newImagePath.value, newImageId);
    }
  }

  /**
   A car edit keeps the store's invariants: one primary image per car, every
   car aggregate exact, and every owner aggregate up to date, because an
   edit touches neither owners, ratings nor rating counts.
   */
  method UpdateCarKeepsInvariants(s: Store, carId: Id, ownerId: Id, brand: string, model: string, year: int,
                                  description: string, pricePerDay: real, location: string,
                                  newImagePath: Option<string>, newImageId: Id)
    returns (state: CarCreationState, s': Store)
    requires CarsKeyed(s.cars) && ImagesKeyed(s.carImages)
    ensures CarsKeyed(s'.cars) && ImagesKeyed(s'.carImages)
    ensures AtMostOnePrimaryImage(s.carImages) ==> AtMostOnePrimaryImage(s'.carImages)
    ensures RatingRepository.AllCarAggregatesConsistent(s.cars, s.ratings) ==>
      RatingRepository.AllCarAggregatesConsistent(s'.cars, s'.ratings)
    ensures forall o :: RatingRepository.OwnerAggregateUpToDate(s.users, s.cars, o) ==>
      RatingRepository.OwnerAggregateUpToDate(s'.users, s'.cars, o)
  {
    state, s' := UpdateCar(s, carId, ownerId, brand, model, year, description, pricePerDay, location,
                           newImagePath, newImageId);
    forall o ensures RatingRepository.OwnerAggregateUpToDate(s.users, s.cars, o) ==>
      RatingRepository.OwnerAggregateUpToDate(s'.users, s'.cars, o)
    {
      RatingRepository.AggregatesSurviveCarEdits(s.users, s.cars, s'.cars, s.ratings, o);
    }
    RatingRepository.AggregatesSurviveCarEdits(s.users, s.cars, s'.cars, s.ratings, ownerId);
  }

  /** `deleteCar`: removes the car if it exists, whoever asks; there is no caller to check. */
  function DeleteCar(s: Store, carId: Id): (s': Store)
    ensures carId !in s.cars ==> s' == s
    ensures CarsKeyed(s.cars) ==> s'.cars == s.cars - {carId}
    ensures s'.users == s.users && s'.carImages == s.carImages
    ensures s'.reservations == s.reservations && s'.ratings == s.ratings
    ensures RatingRepository.AllCarAggregatesConsistent(s.cars, s.ratings) ==>
      RatingRepository.AllCarAggregatesConsistent(s'.cars, s'.ratings)
  {
    match GetCarById(s, carId)
    case Some(car) => CarDao.DeleteCar(s, car)
    case None => s
  }

  /**
   `deleteCar` does not recompute the owner's aggregate: an owner whose only
   rated car is deleted keeps a rating count of 1 with no rated car left,
   although every aggregate was exact before the delete.
   */
  lemma DeletingRatedCarLeavesOwnerStale()
    ensures var owner := User("o", "o@mail", "pw", "O", "1", "addr", Owner, None, 4.0, 1);
            var car := Car("c", "o", "B", "M", 2020, "", 10.0, "city", true, 4.0, 1, None);
            var rating := Rating("r", "u", "c", "res", 4.0, None, 0);
            var s := Store(map["o" := owner], map["c" := car], map[], map[], map["r" := rating]);
            && RatingRepository.AllCarAggregatesConsistent(s.cars, s.ratings)
            && RatingRepository.OwnerAggregateUpToDate(s.users, s.cars, "o")
            && !RatingRepository.OwnerAggregateUpToDate(DeleteCar(s, "c").users, DeleteCar(s, "c").cars, "o")
  {
    var car := Car("c", "o", "B", "M", 2020, "", 10.0, "city", true, 4.0, 1, None);
    var cars := map["c" := car];
    var ratings := map["r" := Rating("r", "u", "c", "res", 4.0, None, 0)];
    assert RatingDao.RatingIdsForCar(ratings, "c") == {"r"};
    Sums.SumByAdd(ratings, {}, "r", RatingDao.Score);
    assert {} + {"r"} == {"r"};
    assert RatingRepository.CarAggregateConsistent(cars, ratings, "c");
    assert OwnerCarIds(cars, "o") == {"c"};
    Sums.SumByAdd(cars, {}, "c", RatingRepository.WeightedScore);
    Sums.SumByAdd(cars, {}, "c", RatingRepository.RatedCount);
    assert {} + {"c"} == {"c"};
    assert OwnerCarIds(cars - {"c"}, "o") == {};
  }
}
