/**
 The `reservations` table: insert with REPLACE, lookup by id, the
 date-conflict query, the two single-column updates and the owner query.
 */
module ReservationDao {
  import opened Entities
  import opened Database

  /** `@Insert(onConflict = REPLACE)`: the row is stored under its id, replacing any row with that id. */
  function InsertReservation(s: Store, r: Reservation): (s': Store)
    ensures r.reservationId in s'.reservations && s'.reservations[r.reservationId] == r
    ensures s'.reservations.Keys == s.reservations.Keys + {r.reservationId}
    ensures forall k :: k in s.reservations && k != r.reservationId ==> s'.reservations[k] == s.reservations[k]
    ensures s'.(reservations := s.reservations) == s
  {
    s.(reservations := s.reservations[r.reservationId := r])
  }

  function GetReservationById(s: Store, reservationId: Id): (r: Option<Reservation>)
    ensures r.Some? <==> reservationId in s.reservations
    ensures r.Some? ==> r.value == s.reservations[reservationId]
  {
    if reservationId in s.reservations then Some(s.reservations[reservationId]) else None
  }

  /** SQL `x BETWEEN lo AND hi`: inclusive at both ends, false whenever `lo > hi`. */
  predicate Between(x: Day, lo: Day, hi: Day)
  {
    lo <= x <= hi
  }

  /** The four-way WHERE clause of `getConflictingReservations` for a stored row `r`. */
  predicate ConflictsWith(r: Reservation, startDate: Day, endDate: Day)
  {
    || Between(r.startDate, startDate, endDate)
    || Between(r.endDate, startDate, endDate)
    || Between(startDate, r.startDate, r.endDate)
    || Between(endDate, r.startDate, r.endDate)
  }

  /** Reference definition: two inclusive day ranges share a day unless one ends before the other starts. */
  predicate RangesOverlap(aStart: Day, aEnd: Day, bStart: Day, bEnd: Day)
  {
    !(aEnd < bStart || aStart > bEnd)
  }

  /** Every reservation of the car matching the four-way condition, whatever its status. */
  function ConflictingReservations(s: Store, carId: Id, startDate: Day, endDate: Day): (rs: set<Reservation>)
    ensures forall r :: r in rs <==> r in s.reservations.Values && r.carId == carId && ConflictsWith(r, startDate, endDate)
  {
    set r | r in s.reservations.Values && r.carId == carId && ConflictsWith(r, startDate, endDate)
  }

  /** An overlapping range always satisfies the four-way condition, well formed or not. */
  lemma OverlapImpliesConflict(r: Reservation, startDate: Day, endDate: Day)
    requires RangesOverlap(r.startDate, r.endDate, startDate, endDate)
    ensures ConflictsWith(r, startDate, endDate)
  {
  }

  /** For well-formed ranges the four-way condition is exactly overlap. */
  lemma ConflictIffOverlap(r: Reservation, startDate: Day, endDate: Day)
    requires r.startDate <= r.endDate && startDate <= endDate
    ensures ConflictsWith(r, startDate, endDate) <==> RangesOverlap(r.startDate, r.endDate, startDate, endDate)
  {
  }

  /** A request starting on the day a booking ends conflicts with it. */
  lemma SharedBoundaryDayConflicts(r: Reservation, endDate: Day)
    requires r.endDate <= endDate
    ensures ConflictsWith(r, r.endDate, endDate)
  {
  }

  /**
   The query has no status filter: a stored reservation of the car that
   overlaps the range is returned even when it is REJECTED or CANCELLED.
   */
  lemma EveryOverlappingReservationConflicts(s: Store, k: Id, startDate: Day, endDate: Day)
    requires k in s.reservations
    requires RangesOverlap(s.reservations[k].startDate, s.reservations[k].endDate, startDate, endDate)
    ensures s.reservations[k] in ConflictingReservations(s, s.reservations[k].carId, startDate, endDate)
  {
    OverlapImpliesConflict(s.reservations[k], startDate, endDate);
  }

  /** `UPDATE reservations SET status = :status WHERE reservationId = :reservationId`. */
  function UpdateReservationStatus(s: Store, reservationId: Id, status: ReservationStatus): (s': Store)
    ensures s'.reservations.Keys == s.reservations.Keys
    ensures reservationId in s.reservations ==>
      s'.reservations[reservationId] == s.reservations[reservationId].(status := status)
    ensures forall k :: k in s.reservations && k != reservationId ==> s'.reservations[k] == s.reservations[k]
    ensures s'.(reservations := s.reservations) == s
  {
    if reservationId in s.reservations then
      s.(reservations := s.reservations[reservationId := s.reservations[reservationId].(status := status)])
    else s
  }

  /** `UPDATE reservations SET isPaid = 1 WHERE reservationId = :reservationId`, with no status condition. */
  function MarkReservationAsPaid(s: Store, reservationId: Id): (s': Store)
    ensures s'.reservations.Keys == s.reservations.Keys
    ensures reservationId in s.reservations ==>
      s'.reservations[reservationId] == s.reservations[reservationId].(isPaid := true)
    ensures forall k :: k in s.reservations && k != reservationId ==> s'.reservations[k] == s.reservations[k]
    ensures s'.(reservations := s.reservations) == s
  {
    if reservationId in s.reservations then
      s.(reservations := s.reservations[reservationId := s.reservations[reservationId].(isPaid := true)])
    else s
  }

  lemma MarkAsPaidIdempotent(s: Store, reservationId: Id)
    ensures MarkReservationAsPaid(MarkReservationAsPaid(s, reservationId), reservationId)
         == MarkReservationAsPaid(s, reservationId)
  {
  }

  /** The reservation's car is a car of `ownerId` (the `carId IN (SELECT carId FROM cars WHERE ownerId = …)` test). */
  predicate OnCarOf(s: Store, r: Reservation, ownerId: Id)
  {
    r.carId in s.cars && s.cars[r.carId].ownerId == ownerId
  }

  function OwnerReservationsByStatus(s: Store, ownerId: Id, status: ReservationStatus): (rs: set<Reservation>)
    ensures forall r :: r in rs <==> r in s.reservations.Values && OnCarOf(s, r, ownerId) && r.status == status
  {
    set r | r in s.reservations.Values && OnCarOf(s, r, ownerId) && r.status == status
  }

  /** Every reservation on a car of the owner, in any status. */
  function OwnerReservations(s: Store, ownerId: Id): set<Reservation>
  {
    set r | r in s.reservations.Values && OnCarOf(s, r, ownerId)
  }

  /** The per-status queries partition the owner's reservations. */
  lemma OwnerReservationsByStatusPartition(s: Store, ownerId: Id, r: Reservation)
    ensures r in OwnerReservations(s, ownerId) <==> r in OwnerReservationsByStatus(s, ownerId, r.status)
  {
  }

  /** No two stored reservations of the same car share a day, whatever their status. */
  ghost predicate NoDoubleBooking(reservations: map<Id, Reservation>)
  {
    forall k1, k2 :: k1 in reservations && k2 in reservations && k1 != k2
      && reservations[k1].carId == reservations[k2].carId
      ==> !RangesOverlap(reservations[k1].startDate, reservations[k1].endDate,
                         reservations[k2].startDate, reservations[k2].endDate)
  }
}
