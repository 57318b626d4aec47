/**
 The `cars` and `car_images` tables: keyed lookups and writes, the catalogue
 searches, the rating update and the primary-image lookup.
 */
module CarDao {
  import opened Entities
  import opened Database
  import opened Text

  function GetCarById(s: Store, carId: Id): (c: Option<Car>)
    ensures c.Some? <==> carId in s.cars
    ensures c.Some? ==> c.value == s.cars[carId]
  {
    if carId in s.cars then Some(s.cars[carId]) else None
  }

  /** `@Insert(onConflict = REPLACE)`. */
  function InsertCar(s: Store, car: Car): (s': Store)
    ensures car.carId in s'.cars && s'.cars[car.carId] == car
    ensures s'.cars.Keys == s.cars.Keys + {car.carId}
    ensures forall k :: k in s.cars && k != car.carId ==> s'.cars[k] == s.cars[k]
    ensures s'.(cars := s.cars) == s
  {
    s.(cars := s.cars[car.carId := car])
  }

  /** `@Update`: rewrites the row with the car's key, if there is one. */
  function UpdateCar(s: Store, car: Car): (s': Store)
    ensures s'.cars.Keys == s.cars.Keys
    ensures car.carId in s.cars ==> s'.cars[car.carId] == car
    ensures forall k :: k in s.cars && k != car.carId ==> s'.cars[k] == s.cars[k]
    ensures s'.(cars := s.cars) == s
  {
    if car.carId in s.cars then s.(cars := s.cars[car.carId := car]) else s
  }

  /** `@Delete`: removes the row with the car's key; the cascade to other tables is not modelled. */
  function DeleteCar(s: Store, car: Car): (s': Store)
    ensures s'.cars.Keys == s.cars.Keys - {car.carId}
    ensures forall k :: k in s'.cars ==> s'.cars[k] == s.cars[k]
    ensures s'.(cars := s.cars) == s
  {
    s.(cars := s.cars - {car.carId})
  }

  function AvailableCars(s: Store): (cs: set<Car>)
    ensures forall c :: c in cs <==> c in s.cars.Values && c.isAvailable
  {
    set c | c in s.cars.Values && c.isAvailable
  }

  function CarsByOwner(s: Store, ownerId: Id): (cs: set<Car>)
    ensures forall c :: c in cs <==> c in s.cars.Values && c.ownerId == ownerId
  {
    set c | c in s.cars.Values && c.ownerId == ownerId
  }

  /** The keys of the owner's cars: the rows `getCarsByOwner` lists. */
  function OwnerCarIds(cars: map<Id, Car>, ownerId: Id): (ks: set<Id>)
    ensures ks <= cars.Keys
  {
    set k | k in cars && cars[k].ownerId == ownerId
  }

  lemma OwnerCarIdsListCarsByOwner(s: Store, ownerId: Id)
    ensures (set k | k in OwnerCarIds(s.cars, ownerId) :: s.cars[k]) == CarsByOwner(s, ownerId)
  {
    var a := set k | k in OwnerCarIds(s.cars, ownerId) :: s.cars[k];
    forall c | c in CarsByOwner(s, ownerId) ensures c in a {
      var k :| k in s.cars && s.cars[k] == c;
      assert k in OwnerCarIds(s.cars, ownerId);
    }
  }

  /** `brand LIKE '%term%' OR model LIKE '%term%'`. */
  function SearchCarsByModel(s: Store, term: string): (cs: set<Car>)
    ensures forall c :: c in cs <==>
      c in s.cars.Values && (ContainsIgnoreCase(c.brand, term) || ContainsIgnoreCase(c.model, term))
  {
    set c | c in s.cars.Values && (ContainsIgnoreCase(c.brand, term) || ContainsIgnoreCase(c.model, term))
  }

  /** `location LIKE '%city%'`. */
  function SearchCarsByCity(s: Store, city: string): (cs: set<Car>)
    ensures forall c :: c in cs <==> c in s.cars.Values && ContainsIgnoreCase(c.location, city)
  {
    set c | c in s.cars.Values && ContainsIgnoreCase(c.location, city)
  }

  /** `pricePerDay <= maxPrice`: the bound itself is allowed. */
  function SearchCarsByMaxPrice(s: Store, maxPrice: real): (cs: set<Car>)
    ensures forall c :: c in cs <==> c in s.cars.Values && c.pricePerDay <= maxPrice
  {
    set c | c in s.cars.Values && c.pricePerDay <= maxPrice
  }

  function SearchCarsByCityAndPrice(s: Store, city: string, maxPrice: real): (cs: set<Car>)
    ensures forall c :: c in cs <==> c in s.cars.Values && ContainsIgnoreCase(c.location, city) && c.pricePerDay <= maxPrice
  {
    set c | c in s.cars.Values && ContainsIgnoreCase(c.location, city) && c.pricePerDay <= maxPrice
  }

  /** The combined query selects exactly the cars both single-criterion queries select. */
  lemma CityAndPriceIsIntersection(s: Store, city: string, maxPrice: real)
    ensures SearchCarsByCityAndPrice(s, city, maxPrice) == SearchCarsByCity(s, city) * SearchCarsByMaxPrice(s, maxPrice)
  {
  }

  /** A car priced exactly at the bound is found by the price search. */
  lemma MaxPriceBoundInclusive(s: Store, k: Id)
    requires k in s.cars
    ensures s.cars[k] in SearchCarsByMaxPrice(s, s.cars[k].pricePerDay)
  {
  }

  /** `UPDATE cars SET rating = :rating, ratingCount = :ratingCount WHERE carId = :carId`. */
  function UpdateCarRating(s: Store, carId: Id, rating: real, ratingCount: int): (s': Store)
    ensures s'.cars.Keys == s.cars.Keys
    ensures carId in s.cars ==> s'.cars[carId] == s.cars[carId].(rating := rating, ratingCount := ratingCount)
    ensures forall k :: k in s.cars && k != carId ==> s'.cars[k] == s.cars[k]
    ensures s'.(cars := s.cars) == s
  {
    if carId in s.cars then
      s.(cars := s.cars[carId := s.cars[carId].(rating := rating, ratingCount := ratingCount)])
    else s
  }

  /** `@Insert(onConflict = REPLACE)` on `car_images`. */
  function InsertCarImage(s: Store, image: CarImage): (s': Store)
    ensures image.imageId in s'.carImages && s'.carImages[image.imageId] == image
    ensures s'.carImages.Keys == s.carImages.Keys + {image.imageId}
    ensures forall k :: k in s.carImages && k != image.imageId ==> s'.carImages[k] == s.carImages[k]
    ensures s'.(carImages := s.carImages) == s
  {
    s.(carImages := s.carImages[image.imageId := image])
  }

  /** `@Update` on `car_images`. */
  function UpdateCarImage(s: Store, image: CarImage): (s': Store)
    ensures s'.carImages.Keys == s.carImages.Keys
    ensures image.imageId in s.carImages ==> s'.carImages[image.imageId] == image
    ensures forall k :: k in s.carImages && k != image.imageId ==> s'.carImages[k] == s.carImages[k]
    ensures s'.(carImages := s.carImages) == s
  {
    if image.imageId in s.carImages then s.(carImages := s.carImages[image.imageId := image]) else s
  }

  /** The image stored under `k` is a primary image of `carId`. */
  predicate IsPrimaryImageOf(images: map<Id, CarImage>, k: Id, carId: Id)
  {
    k in images && images[k].carId == carId && images[k].isPrimary
  }

  predicate HasPrimaryImage(images: map<Id, CarImage>, carId: Id)
  {
    exists k | k in images :: IsPrimaryImageOf(images, k, carId)
  }

  /** `SELECT … WHERE carId = :carId AND isPrimary = 1 LIMIT 1`: some primary image of the car, if any. */
  method GetCarPrimaryImage(s: Store, carId: Id) returns (image: Option<CarImage>)
    ensures image.None? <==> !HasPrimaryImage(s.carImages, carId)
    ensures image.Some? ==> exists k :: IsPrimaryImageOf(s.carImages, k, carId) && s.carImages[k] == image.value
  {
    if HasPrimaryImage(s.carImages, carId) {
      var k :| k in s.carImages && IsPrimaryImageOf(s.carImages, k, carId);
      image := Some(s.carImages[k]);
    } else {
      image := None;
    }
  }

  /** Soft invariant of the image table: a car has at most one primary image. */
  ghost predicate AtMostOnePrimaryImage(images: map<Id, CarImage>)
  {
    forall k1, k2, carId :: IsPrimaryImageOf(images, k1, carId) && IsPrimaryImageOf(images, k2, carId) ==> k1 == k2
  }

  /** Each car row is stored under its own `carId`, as a primary key is. */
  ghost predicate CarsKeyed(cars: map<Id, Car>)
  {
    forall k :: k in cars ==> cars[k].carId == k
  }

  /** Each image row is stored under its own `imageId`, as a primary key is. */
  ghost predicate ImagesKeyed(images: map<Id, CarImage>)
  {
    forall k :: k in images ==> images[k].imageId == k
  }
}
