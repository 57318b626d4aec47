/**
 The reservation lifecycle: creation guarded by the conflict query, and the
 owner response, cancellation and completion transitions.
 */
module ReservationRepository {
  import opened Entities
  import opened Database
  import opened ReservationDao

  /** Number of days in the inclusive range: `ChronoUnit.DAYS.between(start, end) + 1`. */
  function RentalDays(startDate: Day, endDate: Day): int
  {
    endDate - startDate + 1
  }

  /**
   How `createReservation` ends: `null` because of a conflict, the stored
   reservation, or the exception the insert throws.
   */
  datatype CreateOutcome = Conflict | Created(reservation: Reservation) | Failed(message: string)

  /**
   `createReservation`: no row and no write when the conflict query returns
   anything; otherwise a PENDING, unpaid reservation priced for every day of
   the range, stored under the fresh id. The insert fails the `reservations`
   foreign keys, and throws, when the car or the renter does not exist.
   */
  function CreateReservation(s: Store, carId: Id, renterId: Id, startDate: Day, endDate: Day,
                             pricePerDay: real, newId: Id, today: Day): (r: (CreateOutcome, Store))
    ensures r.0.Conflict? <==> ConflictingReservations(s, carId, startDate, endDate) != {}
    ensures r.0.Failed? <==>
      ConflictingReservations(s, carId, startDate, endDate) == {} && (carId !in s.cars || renterId !in s.users)
    ensures r.0.Failed? ==> r.0.message == ForeignKeyFailedMessage
    ensures !r.0.Created? ==> r.1 == s
    ensures r.0.Created? ==>
      && r.0.reservation.reservationId == newId
      && r.0.reservation.carId == carId
      && r.0.reservation.renterId == renterId
      && r.0.reservation.startDate == startDate
      && r.0.reservation.endDate == endDate
      && r.0.reservation.status == Pending
      && !r.0.reservation.isPaid
      && r.0.reservation.totalPrice == pricePerDay * RentalDays(startDate, endDate) as real
      && r.1 == InsertReservation(s, r.0.reservation)
  {
    var conflicts := ConflictingReservations(s, carId, startDate, endDate);
    if conflicts != {} then (Conflict, s)
    else if carId !in s.cars || renterId !in s.users then (Failed(ForeignKeyFailedMessage), s)
    else
      var days := RentalDays(startDate, endDate);
      var reservation := Reservation(newId, carId, renterId, startDate, endDate,
                                     pricePerDay * days as real, Pending, false, today);
      (Created(reservation), InsertReservation(s, reservation))
  }

  /** A one-day rental costs the daily price; a rental ending on day d+2 costs three days. */
  lemma RentalPricing(s: Store, carId: Id, renterId: Id, day: Day, pricePerDay: real, newId: Id, today: Day)
    ensures var r := CreateReservation(s, carId, renterId, day, day, pricePerDay, newId, today);
            r.0.Created? ==> r.0.reservation.totalPrice == pricePerDay
    ensures var r := CreateReservation(s, carId, renterId, day, day + 2, 50.0, newId, today);
            r.0.Created? ==> r.0.reservation.totalPrice == 150.0
  {
  }

  /** The new reservation is stored under a fresh key: nothing existing is replaced. */
  lemma CreateReservationAddsOneRow(s: Store, carId: Id, renterId: Id, startDate: Day, endDate: Day,
                                    pricePerDay: real, newId: Id, today: Day)
    requires newId !in s.reservations
    ensures var r := CreateReservation(s, carId, renterId, startDate, endDate, pricePerDay, newId, today);
            r.0.Created? ==> |r.1.reservations| == |s.reservations| + 1
  {
  }

  /**
   No double booking survives creation. Only the conflict query guards the
   insert, and it needs no well-formed range: an overlap always meets one of
   the four BETWEEN conditions.
   */
  lemma CreatePreservesNoDoubleBooking(s: Store, carId: Id, renterId: Id, startDate: Day, endDate: Day,
                                       pricePerDay: real, newId: Id, today: Day)
    requires NoDoubleBooking(s.reservations)
    ensures NoDoubleBooking(CreateReservation(s, carId, renterId, startDate, endDate, pricePerDay, newId, today).1.reservations)
  {
    var r := CreateReservation(s, carId, renterId, startDate, endDate, pricePerDay, newId, today);
    if r.0.Created? {
      var s' := r.1;
      var n := r.0.reservation;
      forall k1, k2 | k1 in s'.reservations && k2 in s'.reservations && k1 != k2
        && s'.reservations[k1].carId == s'.reservations[k2].carId
        ensures !RangesOverlap(s'.reservations[k1].startDate, s'.reservations[k1].endDate,
                               s'.reservations[k2].startDate, s'.reservations[k2].endDate)
      {
        if k1 == newId || k2 == newId {
          var other := if k1 == newId then k2 else k1;
          var o := s.reservations[other];
          assert o in s.reservations.Values;
          assert o !in ConflictingReservations(s, carId, startDate, endDate);
          if RangesOverlap(o.startDate, o.endDate, startDate, endDate) {
            OverlapImpliesConflict(o, startDate, endDate);
            assert false;
          }
        }
      }
    }
  }

  /** Edges of the reservation state machine. */
  predicate AllowedTransition(from: ReservationStatus, to: ReservationStatus)
  {
    match from
    case Pending => to == Approved || to == Rejected || to == Cancelled
    case Approved => to == Cancelled || to == Completed
    case _ => false
  }

  predicate IsTerminal(status: ReservationStatus)
  {
    status == Rejected || status == Cancelled || status == Completed
  }

  /** `processReservationResponse`: only a PENDING reservation is answered, to APPROVED or REJECTED. */
  function ProcessReservationResponse(s: Store, reservationId: Id, approved: bool): (r: (bool, Store))
    ensures r.0 <==> reservationId in s.reservations && s.reservations[reservationId].status == Pending
    ensures !r.0 ==> r.1 == s
    ensures r.0 ==> r.1 == UpdateReservationStatus(s, reservationId, if approved then Approved else Rejected)
  {
    match GetReservationById(s, reservationId)
    case None => (false, s)
    case Some(reservation) =>
      if reservation.status != Pending then (false, s)
      else
        var newStatus := if approved then Approved else Rejected;
        (true, UpdateReservationStatus(s, reservationId, newStatus))
  }

  /** `cancelReservation`: from PENDING or APPROVED only. */
  function CancelReservation(s: Store, reservationId: Id): (r: (bool, Store))
    ensures r.0 <==> reservationId in s.reservations
                     && s.reservations[reservationId].status in {Pending, Approved}
    ensures !r.0 ==> r.1 == s
    ensures r.0 ==> r.1 == UpdateReservationStatus(s, reservationId, Cancelled)
  {
    match GetReservationById(s, reservationId)
    case None => (false, s)
    case Some(reservation) =>
      if reservation.status != Pending && reservation.status != Approved then (false, s)
      else (true, UpdateReservationStatus(s, reservationId, Cancelled))
  }

  /** `completeReservation`: only an APPROVED reservation that is also paid. */
  function CompleteReservation(s: Store, reservationId: Id): (r: (bool, Store))
    ensures r.0 <==> reservationId in s.reservations
                     && s.reservations[reservationId].status == Approved
                     && s.reservations[reservationId].isPaid
    ensures !r.0 ==> r.1 == s
    ensures r.0 ==> r.1 == UpdateReservationStatus(s, reservationId, Completed)
  {
    match GetReservationById(s, reservationId)
    case None => (false, s)
    case Some(reservation) =>
      if reservation.status != Approved || !reservation.isPaid then (false, s)
      else (true, UpdateReservationStatus(s, reservationId, Completed))
  }

  /** The status of `reservationId` after a step is the old one or a state-machine successor of it. */
  predicate StepFollowsStateMachine(s: Store, s': Store, reservationId: Id)
    requires reservationId in s.reservations && reservationId in s'.reservations
  {
    var before := s.reservations[reservationId].status;
    var after := s'.reservations[reservationId].status;
    after == before || AllowedTransition(before, after)
  }

  /** Every transition operation moves a reservation only along an edge of the state machine. */
  lemma TransitionsFollowStateMachine(s: Store, reservationId: Id, approved: bool)
    requires reservationId in s.reservations
    ensures StepFollowsStateMachine(s, ProcessReservationResponse(s, reservationId, approved).1, reservationId)
    ensures StepFollowsStateMachine(s, CancelReservation(s, reservationId).1, reservationId)
    ensures StepFollowsStateMachine(s, CompleteReservation(s, reservationId).1, reservationId)
    ensures StepFollowsStateMachine(s, MarkReservationAsPaid(s, reservationId), reservationId)
  {
  }

  /** REJECTED, CANCELLED and COMPLETED are final: every transition operation refuses and writes nothing. */
  lemma TerminalStatusesAreFinal(s: Store, reservationId: Id, approved: bool)
    requires reservationId in s.reservations && IsTerminal(s.reservations[reservationId].status)
    ensures ProcessReservationResponse(s, reservationId, approved) == (false, s)
    ensures CancelReservation(s, reservationId) == (false, s)
    ensures CompleteReservation(s, reservationId) == (false, s)
  {
  }

  /** Paying never moves the status, in whatever status the reservation is. */
  lemma MarkAsPaidInAnyStatus(s: Store, reservationId: Id)
    requires reservationId in s.reservations
    ensures var s' := MarkReservationAsPaid(s, reservationId);
            s'.reservations[reservationId].isPaid
            && s'.reservations[reservationId].status == s.reservations[reservationId].status
  {
  }

  /** A status or paid-flag update keeps every car and date of every row, so it keeps the no-double-booking rule. */
  lemma StatusUpdatesPreserveNoDoubleBooking(s: Store, reservationId: Id, status: ReservationStatus)
    requires NoDoubleBooking(s.reservations)
    ensures NoDoubleBooking(UpdateReservationStatus(s, reservationId, status).reservations)
    ensures NoDoubleBooking(MarkReservationAsPaid(s, reservationId).reservations)
  {
    var s1 := UpdateReservationStatus(s, reservationId, status);
    var s2 := MarkReservationAsPaid(s, reservationId);
    assert forall k :: k in s.reservations ==>
      s1.reservations[k].carId == s.reservations[k].carId
      && s1.reservations[k].startDate == s.reservations[k].startDate
      && s1.reservations[k].endDate == s.reservations[k].endDate;
    assert forall k :: k in s.reservations ==>
      s2.reservations[k].carId == s.reservations[k].carId
      && s2.reservations[k].startDate == s.reservations[k].startDate
      && s2.reservations[k].endDate == s.reservations[k].endDate;
  }

  /** The end-to-end path create, approve, pay, complete ends COMPLETED and paid. */
  lemma HappyPath(s: Store, carId: Id, renterId: Id, startDate: Day, endDate: Day,
                  pricePerDay: real, newId: Id, today: Day)
    requires ConflictingReservations(s, carId, startDate, endDate) == {}
    requires carId in s.cars && renterId in s.users
    ensures var c := CreateReservation(s, carId, renterId, startDate, endDate, pricePerDay, newId, today);
            var a := ProcessReservationResponse(c.1, newId, true);
            var p := MarkReservationAsPaid(a.1, newId);
            var d := CompleteReservation(p, newId);
            c.0.Created? && a.0 && d.0
            && d.1.reservations[newId].status == Completed && d.1.reservations[newId].isPaid
  {
  }

  /** Completing before paying is refused, as is completing before approval. */
  lemma CompleteNeedsApprovalAndPayment(s: Store, carId: Id, renterId: Id, startDate: Day, endDate: Day,
                                        pricePerDay: real, newId: Id, today: Day)
    requires ConflictingReservations(s, carId, startDate, endDate) == {}
    requires carId in s.cars && renterId in s.users
    ensures var c := CreateReservation(s, carId, renterId, startDate, endDate, pricePerDay, newId, today);
            var a := ProcessReservationResponse(c.1, newId, true);
            !CompleteReservation(c.1, newId).0
            && !CompleteReservation(MarkReservationAsPaid(c.1, newId), newId).0
            && !CompleteReservation(a.1, newId).0
  {
  }
}
