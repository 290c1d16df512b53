/**
 * Booking and cancelling over two abstract stores keyed by id: the
 * reservation store (what is saved and updated) and the room store (what
 * is looked up). The database key the store generates on insert is a
 * parameter.
 */
module Service {
  import opened Common
  import opened Rooms
  import opened Reservations
  import opened Pricing

  /** The store after cancelling reservation `reservationId`, which it holds: only that entry's status changes. */
  function CancelInStore(store: map<int, ReservationRecord>, reservationId: int): (after: map<int, ReservationRecord>)
    requires reservationId in store
    ensures after.Keys == store.Keys
    ensures after[reservationId] == Cancelled(store[reservationId])
    ensures forall id :: id in store && id != reservationId ==> after[id] == store[id]
  {
    store[reservationId := Cancelled(store[reservationId])]
  }

  /** Cancelling the same reservation twice leaves the store as cancelling it once. */
  lemma CancelInStoreIdempotent(store: map<int, ReservationRecord>, reservationId: int)
    requires reservationId in store
    ensures CancelInStore(CancelInStore(store, reservationId), reservationId) == CancelInStore(store, reservationId)
  {
    CancelledIdempotent(store[reservationId]);
    var once := CancelInStore(store, reservationId);
    var twice := CancelInStore(once, reservationId);
    assert forall id :: id in twice <==> id in once;
    assert forall id :: id in twice ==> twice[id] == once[id];
  }

  class ReservationService {
    var reservationRepository: map<int, ReservationRecord>
    var roomRepository: map<int, RoomRecord>
    const pricingStrategy: DynamicPricing

    constructor (reservationRepository: map<int, ReservationRecord>, pricingStrategy: DynamicPricing,
                 roomRepository: map<int, RoomRecord>)
      ensures this.reservationRepository == reservationRepository
      ensures this.pricingStrategy == pricingStrategy
      ensures this.roomRepository == roomRepository
    {
      this.reservationRepository := reservationRepository;
      this.pricingStrategy := pricingStrategy;
      this.roomRepository := roomRepository;
    }

    /**
     * Prices the stay from the room's type and saves the reservation under the
     * key the store generates. An unknown room is an error and saves nothing.
     */
    method CreateReservation(reservation: Reservation, occupancyRate: real, generatedId: int)
      returns (result: Result<ReservationRecord>)
      modifies this, reservation
      ensures roomRepository == old(roomRepository)
      ensures old(reservation.roomId) !in roomRepository ==>
                && result.Err? && result.error == RoomNotFound(old(reservation.roomId))
                && reservationRepository == old(reservationRepository)
                && reservation.Snapshot() == old(reservation.Snapshot())
      ensures old(reservation.roomId) in roomRepository ==>
                && reservation.Snapshot()
                   == old(reservation.Snapshot()).(
                        totalPrice := pricingStrategy.StayPrice(
                          old(reservation.startDate), old(reservation.endDate) - old(reservation.startDate),
                          roomRepository[old(reservation.roomId)].roomType, occupancyRate),
                        reservationId := generatedId)
                && reservationRepository == old(reservationRepository)[generatedId := reservation.Snapshot()]
                && result.Ok? && result.value == reservation.Snapshot()
    {
      if reservation.roomId in roomRepository {
        var room := roomRepository[reservation.roomId];
        var price := pricingStrategy.CalculatePrice(reservation.startDate, reservation.endDate,
                                                    room.roomType, occupancyRate);
        reservation.SetTotalPrice(price);
        reservation.SetReservationId(generatedId);
        reservationRepository := reservationRepository[generatedId := reservation.Snapshot()];
        result := Ok(reservation.Snapshot());
      } else {
        result := Err(RoomNotFound(reservation.roomId));
      }
    }

    /** Marks a stored reservation CANCELLED and stores it back; an unknown id is an error and changes nothing. */
    method CancelReservation(reservationId: int) returns (result: Result<()>)
      modifies this
      ensures roomRepository == old(roomRepository)
      ensures reservationId !in old(reservationRepository) ==>
                && result.Err? && result.error == ReservationNotFound(reservationId)
                && reservationRepository == old(reservationRepository)
      ensures reservationId in old(reservationRepository) ==>
                result.Ok? && reservationRepository == CancelInStore(old(reservationRepository), reservationId)
    {
      if reservationId in reservationRepository {
        var reservation := reservationRepository[reservationId];
        reservation := Cancelled(reservation);
        reservationRepository := reservationRepository[reservationId := reservation];
        result := Ok(());
      } else {
        result := Err(ReservationNotFound(reservationId));
      }
    }
  }
}
