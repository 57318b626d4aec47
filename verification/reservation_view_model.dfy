/**
 The reservation screen logic: input validation before a booking, the
 actor checks in front of each transition, and the owner's combined list.
 */
module ReservationViewModel {
  import opened Entities
  import opened Database
  import opened ReservationDao
  import opened ReservationRepository
  import CarDao

  datatype CreateReservationState = Idle | Loading | Success(reservation: Reservation) | Error(message: string)

  datatype ReservationsState = Loading | Empty | Success(reservations: seq<Reservation>) | Error(message: string)

  const EndBeforeStartMessage := "End date cannot be before start date"
  const StartInPastMessage := "Start date cannot be in the past"
  const AlreadyBookedMessage := "These dates are already booked. Please select different dates."
  const CarNotFoundMessage := "Car not found"
  const DatesUnavailableMessage := "Failed to create reservation. Dates may be unavailable."

  /**
   `createReservation`: the state the booking ends in, and the store after it.
   `today` stands for `LocalDate.now()`, `newId` for the generated UUID. The
   car is looked up before the insert, so only an unknown renter reaches the
   insert's foreign-key failure, which the `catch` reports with its message.
   */
  function CreateReservation(s: Store, carId: Id, renterId: Id, startDate: Day, endDate: Day,
                             today: Day, newId: Id): (r: (CreateReservationState, Store))
    ensures startDate > endDate ==> r == (CreateReservationState.Error(EndBeforeStartMessage), s)
    ensures startDate <= endDate && startDate < today ==> r == (CreateReservationState.Error(StartInPastMessage), s)
    ensures today <= startDate <= endDate && ConflictingReservations(s, carId, startDate, endDate) != {} ==>
      r == (CreateReservationState.Error(AlreadyBookedMessage), s)
    ensures today <= startDate <= endDate && ConflictingReservations(s, carId, startDate, endDate) == {}
            && carId !in s.cars ==>
      r == (CreateReservationState.Error(CarNotFoundMessage), s)
    ensures today <= startDate <= endDate && ConflictingReservations(s, carId, startDate, endDate) == {}
            && carId in s.cars && renterId !in s.users ==>
      r == (CreateReservationState.Error(ForeignKeyFailedMessage), s)
    ensures r.0.Error? ==> r.1 == s
    ensures r.0.Success? <==>
      && today <= startDate <= endDate && carId in s.cars && renterId in s.users
      && ConflictingReservations(s, carId, startDate, endDate) == {}
    ensures r.0.Success? ==>
      && r.0.reservation.carId == carId && r.0.reservation.renterId == renterId
      && r.0.reservation.startDate == startDate && r.0.reservation.endDate == endDate
      && r.0.reservation.status == Pending && !r.0.reservation.isPaid
      && r.0.reservation.totalPrice == s.cars[carId].pricePerDay * RentalDays(startDate, endDate) as real
      && r.1 == InsertReservation(s, r.0.reservation)
    ensures r.0 != CreateReservationState.Error(DatesUnavailableMessage)
  {
    if startDate > endDate then (CreateReservationState.Error(EndBeforeStartMessage), s)
    else if startDate < today then (CreateReservationState.Error(StartInPastMessage), s)
    else if ConflictingReservations(s, carId, startDate, endDate) != {} then
      (CreateReservationState.Error(AlreadyBookedMessage), s)
    else
      match CarDao.GetCarById(s, carId)
      case None => (CreateReservationState.Error(CarNotFoundMessage), s)
      case Some(car) =>
        var created := ReservationRepository.CreateReservation(
          s, carId, renterId, startDate, endDate, car.pricePerDay, newId, today);
        match created.0
        case Created(reservation) => (CreateReservationState.Success(reservation), created.1)
        case Conflict => (CreateReservationState.Error(DatesUnavailableMessage), created.1)
        case Failed(message) => (CreateReservationState.Error(message), created.1)
  }

  /** A one-day booking (start equal to end) starting today is not refused by the date checks. */
  lemma SameDayBookingAccepted(s: Store, carId: Id, renterId: Id, today: Day, newId: Id)
    requires carId in s.cars && renterId in s.users && ConflictingReservations(s, carId, today, today) == {}
    ensures CreateReservation(s, carId, renterId, today, today, today, newId).0.Success?
  {
  }

  /** Bookings through the screen keep the no-double-booking rule. */
  lemma CreatePreservesNoDoubleBooking(s: Store, carId: Id, renterId: Id, startDate: Day, endDate: Day,
                                       today: Day, newId: Id)
    requires NoDoubleBooking(s.reservations)
    ensures NoDoubleBooking(CreateReservation(s, carId, renterId, startDate, endDate, today, newId).1.reservations)
  {
    if today <= startDate <= endDate && carId in s.cars {
      ReservationRepository.CreatePreservesNoDoubleBooking(
        s, carId, renterId, startDate, endDate, s.cars[carId].pricePerDay, newId, today);
    }
  }

  /** The caller owns the car of the stored reservation. */
  predicate CallerOwnsReservation(s: Store, reservationId: Id, ownerId: Id)
  {
    reservationId in s.reservations && OnCarOf(s, s.reservations[reservationId], ownerId)
  }

  /** Shared body of `approveReservation` and `rejectReservation`. */
  function Respond(s: Store, reservationId: Id, ownerId: Id, approved: bool): (s': Store)
    ensures !CallerOwnsReservation(s, reservationId, ownerId) ==> s' == s
    ensures CallerOwnsReservation(s, reservationId, ownerId) ==>
      s' == ProcessReservationResponse(s, reservationId, approved).1
  {
    match GetReservationById(s, reservationId)
    case None => s
    case Some(reservation) =>
      match CarDao.GetCarById(s, reservation.carId)
      case Some(car) =>
        if car.ownerId == ownerId then ProcessReservationResponse(s, reservationId, approved).1 else s
      case None => s
  }

  /** `approveReservation`: only the car's owner can approve, and only a PENDING request. */
  function ApproveReservation(s: Store, reservationId: Id, ownerId: Id): (s': Store)
    ensures s' != s ==> CallerOwnsReservation(s, reservationId, ownerId)
                        && s.reservations[reservationId].status == Pending
    ensures s' != s ==> s' == UpdateReservationStatus(s, reservationId, Approved)
    ensures CallerOwnsReservation(s, reservationId, ownerId) && s.reservations[reservationId].status == Pending
            ==> s'.reservations[reservationId].status == Approved
  {
    Respond(s, reservationId, ownerId, true)
  }

  /** `rejectReservation`: only the car's owner can reject, and only a PENDING request. */
  function RejectReservation(s: Store, reservationId: Id, ownerId: Id): (s': Store)
    ensures s' != s ==> CallerOwnsReservation(s, reservationId, ownerId)
                        && s.reservations[reservationId].status == Pending
    ensures s' != s ==> s' == UpdateReservationStatus(s, reservationId, Rejected)
    ensures CallerOwnsReservation(s, reservationId, ownerId) && s.reservations[reservationId].status == Pending
            ==> s'.reservations[reservationId].status == Rejected
  {
    Respond(s, reservationId, ownerId, false)
  }

  /** `cancelReservation`: the renter alone reaches the repository, which then checks the status. */
  function CancelReservation(s: Store, reservationId: Id, renterId: Id): (s': Store)
    ensures s' != s ==> reservationId in s.reservations && s.reservations[reservationId].renterId == renterId
                        && s.reservations[reservationId].status in {Pending, Approved}
    ensures s' != s ==> s' == UpdateReservationStatus(s, reservationId, Cancelled)
    ensures reservationId in s.reservations && s.reservations[reservationId].renterId == renterId
            && s.reservations[reservationId].status in {Pending, Approved}
            ==> s'.reservations[reservationId].status == Cancelled
  {
    match GetReservationById(s, reservationId)
    case Some(reservation) =>
      if reservation.renterId == renterId then ReservationRepository.CancelReservation(s, reservationId).1 else s
    case None => s
  }

  /** `payForReservation`: the renter's check is the only one; the flag is set in any status. */
  function PayForReservation(s: Store, reservationId: Id, renterId: Id): (s': Store)
    ensures reservationId in s.reservations && s.reservations[reservationId].renterId == renterId ==>
      s' == MarkReservationAsPaid(s, reservationId)
    ensures !(reservationId in s.reservations && s.reservations[reservationId].renterId == renterId) ==> s' == s
  {
    match GetReservationById(s, reservationId)
    case Some(reservation) =>
      if reservation.renterId == renterId then MarkReservationAsPaid(s, reservationId) else s
    case None => s
  }

  /** A renter can pay for a reservation the owner rejected, or one already cancelled. */
  lemma PaymentIgnoresStatus(s: Store, reservationId: Id)
    requires reservationId in s.reservations
    ensures var r := s.reservations[reservationId];
            var s' := PayForReservation(s, reservationId, r.renterId);
            s'.reservations[reservationId] == r.(isPaid := true)
  {
  }

  /** Reservations listed in enum order of their status. */
  predicate OrderedByStatus(rs: seq<Reservation>)
  {
    forall i, j :: 0 <= i < j < |rs| ==> Ordinal(rs[i].status) <= Ordinal(rs[j].status)
  }

  /**
   `loadAllOwnerReservations`: the per-status lists, queried in enum order and
   concatenated. Empty exactly when the owner's cars have no reservation.
   */
  method LoadAllOwnerReservations(s: Store, ownerId: Id) returns (state: ReservationsState)
    ensures state.Empty? || state.Success?
    ensures state.Empty? <==> forall status :: OwnerReservationsByStatus(s, ownerId, status) == {}
    ensures state.Success? ==> forall r :: r in state.reservations <==> r in OwnerReservations(s, ownerId)
    ensures state.Success? ==> OrderedByStatus(state.reservations)
    ensures state.Success? ==> NoDuplicates(state.reservations)
  {
    var all: seq<Reservation> := [];
    var i := 0;
    while i < |AllStatuses|
      invariant 0 <= i <= |AllStatuses|
      invariant forall r :: r in all <==> r in OwnerReservations(s, ownerId) && Ordinal(r.status) < i
      invariant forall r :: r in all ==> Ordinal(r.status) < i
      invariant OrderedByStatus(all)
      invariant NoDuplicates(all)
    {
      AllStatusesInOrder();
      var status := AllStatuses[i];
      var batch := ListOf(OwnerReservationsByStatus(s, ownerId, status));
      assert forall r :: r in batch ==> Ordinal(r.status) == i;
      forall r | r in OwnerReservations(s, ownerId) && Ordinal(r.status) == i
        ensures r in batch
      {
        OwnerReservationsByStatusPartition(s, ownerId, r);
        assert AllStatuses[Ordinal(r.status)] == r.status;
      }
      assert forall a, b :: 0 <= a < |all| && 0 <= b < |batch| ==> all[a] != batch[b] by {
        forall a, b | 0 <= a < |all| && 0 <= b < |batch| ensures all[a] != batch[b] {
          assert all[a] in all && batch[b] in batch;
        }
      }
      all := all + batch;
      i := i + 1;
    }
    AllStatusesInOrder();
    forall status, r | r in OwnerReservationsByStatus(s, ownerId, status)
      ensures r in all
    {
      OwnerReservationsByStatusPartition(s, ownerId, r);
    }
    if all == [] {
      state := ReservationsState.Empty;
    } else {
      var r := all[0];
      OwnerReservationsByStatusPartition(s, ownerId, r);
      state := ReservationsState.Success(all);
    }
  }
}
