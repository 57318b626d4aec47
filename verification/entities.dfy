/**
 The rows of the car-rental database: users, cars, car images, reservations
 and ratings. Identifiers are the UUID strings the application generates,
 dates are day numbers, and the Kotlin `Double`/`Float` prices and scores are
 exact reals.
 */
module Entities {

  /** A primary or foreign key: a UUID string. */
  type Id = string

  /** A calendar date (`LocalDate`) as a day number. */
  type Day = int

  /** A nullable value. */
  datatype Option<+T> = None | Some(value: T)

  /** The outcome of an operation that may raise an exception with a message. */
  datatype Result<+T> = Ok(value: T) | Err(message: string)

  datatype ReservationStatus = Pending | Approved | Rejected | Cancelled | Completed

  /** Position of a status in the enum declaration, which is the order `values()` lists them in. */
  function Ordinal(status: ReservationStatus): nat
  {
    match status
    case Pending => 0
    case Approved => 1
    case Rejected => 2
    case Cancelled => 3
    case Completed => 4
  }

  /** Every status, in declaration order. */
  const AllStatuses: seq<ReservationStatus> := [Pending, Approved, Rejected, Cancelled, Completed]

  lemma AllStatusesInOrder()
    ensures |AllStatuses| == 5
    ensures forall i :: 0 <= i < |AllStatuses| ==> Ordinal(AllStatuses[i]) == i
    ensures forall st :: AllStatuses[Ordinal(st)] == st
  {
  }

  datatype Reservation = Reservation(
    reservationId: Id,
    carId: Id,
    renterId: Id,
    startDate: Day,
    endDate: Day,
    totalPrice: real,
    status: ReservationStatus,
    isPaid: bool,
    createdAt: Day)

  datatype Car = Car(
    carId: Id,
    ownerId: Id,
    brand: string,
    model: string,
    year: int,
    description: string,
    pricePerDay: real,
    location: string,
    isAvailable: bool,
    rating: real,
    ratingCount: int,
    imageUri: Option<string>)

  datatype CarImage = CarImage(imageId: Id, carId: Id, imageUrl: string, isPrimary: bool)

  datatype Rating = Rating(
    ratingId: Id,
    userId: Id,
    carId: Id,
    reservationId: Id,
    score: real,
    comment: Option<string>,
    date: Day)

  datatype UserType = Owner | Renter

  datatype User = User(
    userId: Id,
    email: string,
    password: string,
    fullName: string,
    phoneNumber: string,
    address: string,
    userType: UserType,
    profileImageUrl: Option<string>,
    rating: real,
    ratingCount: int)
}
