/**
 Car creation and the primary-image upsert. Saving a picked image to the
 device is outside the model: its outcome arrives as the saved path, which
 is "" when no image was picked or the save failed.
 */
module CarRepository {
  import opened Entities
  import opened Database
  import opened CarDao

  const CreateFailedPrefix := "Failed to create car: "
  const InsertFailedMessage := CreateFailedPrefix + "Failed to insert car into database"

  /**
   `createCar`: the new car (available, unrated, `imageUri` the saved path
   unless that is empty), inserted under `newCarId`, and a primary image row
   for it under `newImageId` when there is a saved path. `insertResult` is
   the row id the insert reports; a result of 0 or less is an error and the
   store is left as it was. The database checks the `cars` foreign key, so
   an owner that is not a user makes the insert throw, which is also an
   error with the store left as it was.
   */
  function CreateCar(s: Store, ownerId: Id, brand: string, model: string, year: int, description: string,
                     pricePerDay: real, location: string, savedImagePath: string,
                     newCarId: Id, newImageId: Id, insertResult: int): (r: (Result<Car>, Store))
    ensures ownerId !in s.users ==> r == (Err(CreateFailedPrefix + ForeignKeyFailedMessage), s)
    ensures ownerId in s.users && insertResult <= 0 ==> r == (Err(InsertFailedMessage), s)
    ensures r.0.Ok? <==> ownerId in s.users && insertResult > 0
    ensures r.0.Ok? ==>
      var car := r.0.value;
      && car.carId == newCarId && car.ownerId == ownerId && car.brand == brand && car.model == model
      && car.year == year && car.description == description && car.pricePerDay == pricePerDay
      && car.location == location
      && car.isAvailable && car.rating == 0.0 && car.ratingCount == 0
      && (car.imageUri.None? <==> savedImagePath == "")
      && (car.imageUri.Some? ==> car.imageUri.value == savedImagePath)
      && r.1.cars == s.cars[newCarId := car]
    ensures r.0.Ok? && savedImagePath == "" ==> r.1.carImages == s.carImages
    ensures r.0.Ok? && savedImagePath != "" ==>
      r.1.carImages == s.carImages[newImageId := CarImage(newImageId, newCarId, savedImagePath, true)]
    ensures r.1.users == s.users && r.1.reservations == s.reservations && r.1.ratings == s.ratings
  {
    var car := Car(newCarId, ownerId, brand, model, year, description, pricePerDay, location,
                   true, 0.0, 0, if savedImagePath != "" then Some(savedImagePath) else None);
    if ownerId !in s.users then (Err(CreateFailedPrefix + ForeignKeyFailedMessage), s)
    else if insertResult <= 0 then (Err(InsertFailedMessage), s)
    else
      var s1 := InsertCar(s, car);
      if savedImagePath != "" then
        (Ok(car), InsertCarImage(s1, CarImage(newImageId, newCarId, savedImagePath, true)))
      else (Ok(car), s1)
  }

  /**
   Creating a car whose id has no primary image yet keeps at most one
   primary image per car, and leaves the new car with a primary image
   exactly when the car was created with a saved image.
   */
  lemma CreateCarKeepsOnePrimaryImage(s: Store, ownerId: Id, brand: string, model: string, year: int,
                                      description: string, pricePerDay: real, location: string,
                                      savedImagePath: string, newCarId: Id, newImageId: Id, insertResult: int)
    requires AtMostOnePrimaryImage(s.carImages)
    requires !HasPrimaryImage(s.carImages, newCarId)
    requires insertResult > 0
    ensures var s' := CreateCar(s, ownerId, brand, model, year, description, pricePerDay, location,
                                savedImagePath, newCarId, newImageId, insertResult).1;
            && AtMostOnePrimaryImage(s'.carImages)
            && (HasPrimaryImage(s'.carImages, newCarId) <==> savedImagePath != "" && ownerId in s.users)
  {
    var s' := CreateCar(s, ownerId, brand, model, year, description, pricePerDay, location,
                        savedImagePath, newCarId, newImageId, insertResult).1;
    if savedImagePath != "" && ownerId in s.users {
      forall k1, k2, carId | IsPrimaryImageOf(s'.carImages, k1, carId) && IsPrimaryImageOf(s'.carImages, k2, carId)
        ensures k1 == k2
      {
        if k1 != newImageId && k2 != newImageId {
          assert IsPrimaryImageOf(s.carImages, k1, carId) && IsPrimaryImageOf(s.carImages, k2, carId);
        }
      }
      assert IsPrimaryImageOf(s'.carImages, newImageId, newCarId);
    }
  }

  /**
   `updateCarImage`: the car's primary image now points at the saved path,
   by rewriting the existing primary row or, when there is none, inserting
   one under `newImageId`; then the car's own `imageUri` is set to the path
   when the car exists. Inserting an image for a car that does not exist
   fails the `car_images` foreign key; the exception is swallowed and nothing
   is written. Nothing is reported back.
   */
  method UpdateCarImage(s: Store, carId: Id, savedPath: string, newImageId: Id) returns (s': Store)
    ensures s'.users == s.users && s'.reservations == s.reservations && s'.ratings == s.ratings
    ensures s'.cars.Keys == s.cars.Keys
    ensures CarsKeyed(s.cars) && carId in s.cars ==> s'.cars[carId] == s.cars[carId].(imageUri := Some(savedPath))
    ensures CarsKeyed(s.cars) ==> forall k :: k in s.cars && k != carId ==> s'.cars[k] == s.cars[k]
    ensures !HasPrimaryImage(s.carImages, carId) && carId !in s.cars ==> s' == s
    ensures !HasPrimaryImage(s.carImages, carId) && carId in s.cars ==>
      s'.carImages == s.carImages[newImageId := CarImage(newImageId, carId, savedPath, true)]
    ensures HasPrimaryImage(s.carImages, carId) ==> s'.carImages.Keys == s.carImages.Keys
    ensures ImagesKeyed(s.carImages) && HasPrimaryImage(s.carImages, carId) ==>
      exists k :: IsPrimaryImageOf(s.carImages, k, carId)
                  && s'.carImages == s.carImages[k := s.carImages[k].(imageUrl := savedPath)]
    ensures ImagesKeyed(s.carImages) && (carId in s.cars || HasPrimaryImage(s.carImages, carId)) ==>
      exists k :: IsPrimaryImageOf(s'.carImages, k, carId) && s'.carImages[k].imageUrl == savedPath
    ensures ImagesKeyed(s.carImages) ==> ImagesKeyed(s'.carImages)
    ensures ImagesKeyed(s.carImages) && AtMostOnePrimaryImage(s.carImages) ==> AtMostOnePrimaryImage(s'.carImages)
  {
    var existing := GetCarPrimaryImage(s, carId);
    var s1;
    match existing {
      case Some(image) =>
        s1 := CarDao.UpdateCarImage(s, image.(imageUrl := savedPath));
        if ImagesKeyed(s.carImages) {
          var k :| IsPrimaryImageOf(s.carImages, k, carId) && s.carImages[k] == image;
          assert IsPrimaryImageOf(s1.carImages, k, carId);
          assert s1.carImages == s.carImages[k := s.carImages[k].(imageUrl := savedPath)];
          PrimaryRewriteKeepsRule(s.carImages, s1.carImages, k);
        }
      case None =>
        if carId !in s.cars {
          return s;
        }
        var image := CarImage(newImageId, carId, savedPath, true);
        s1 := InsertCarImage(s, image);
        assert IsPrimaryImageOf(s1.carImages, newImageId, carId);
        if AtMostOnePrimaryImage(s.carImages) {
          forall k1, k2, c | IsPrimaryImageOf(s1.carImages, k1, c) && IsPrimaryImageOf(s1.carImages, k2, c)
            ensures k1 == k2
          {
            if k1 != newImageId && k2 != newImageId {
              assert IsPrimaryImageOf(s.carImages, k1, c) && IsPrimaryImageOf(s.carImages, k2, c);
            }
          }
        }
    }
    var car := GetCarById(s1, carId);
    s' := if car.Some? then UpdateCar(s1, car.value.(imageUri := Some(savedPath))) else s1;
  }

  /**
   Rewriting the row of a car's primary image in place, keeping it the same
   car's primary, keeps the rule of one primary image per car.
   */
  lemma PrimaryRewriteKeepsRule(images: map<Id, CarImage>, images': map<Id, CarImage>, k: Id)
    requires k in images && images'.Keys == images.Keys
    requires forall j :: j in images && j != k ==> images'[j] == images[j]
    requires images[k].isPrimary && images'[k].isPrimary && images'[k].carId == images[k].carId
    ensures AtMostOnePrimaryImage(images) ==> AtMostOnePrimaryImage(images')
  {
    if AtMostOnePrimaryImage(images) {
      forall k1, k2, c | IsPrimaryImageOf(images', k1, c) && IsPrimaryImageOf(images', k2, c)
        ensures k1 == k2
      {
        assert IsPrimaryImageOf(images, k1, c) && IsPrimaryImageOf(images, k2, c);
      }
    }
  }
}
