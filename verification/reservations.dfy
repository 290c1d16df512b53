/**
 * A booking of one room by one customer for a closed range of epoch days.
 * The customer is represented by its id, the only part of it the core reads.
 */
module Reservations {
  import opened Common

  /** The value of a reservation at one moment, as the store and the statistics see it. */
  datatype ReservationRecord = ReservationRecord(
    reservationId: int,
    customerId: int,
    roomId: int,
    startDate: int,
    endDate: int,
    status: ReservationStatus,
    totalPrice: real)

  /** The same reservation with status CANCELLED: no other field differs. */
  function Cancelled(r: ReservationRecord): (c: ReservationRecord)
    ensures c.status == CANCELLED
    ensures c.(status := r.status) == r
  {
    r.(status := CANCELLED)
  }

  /** Cancelling a reservation that is already cancelled changes nothing. */
  lemma CancelledIdempotent(r: ReservationRecord)
    ensures Cancelled(Cancelled(r)) == Cancelled(r)
  {
  }

  /** The same reservation moved to other days or another room: id, customer, status and price are kept. */
  function Modified(r: ReservationRecord, newStartDate: int, newEndDate: int, newRoomId: int): (m: ReservationRecord)
    ensures m.startDate == newStartDate && m.endDate == newEndDate && m.roomId == newRoomId
    ensures m.reservationId == r.reservationId && m.customerId == r.customerId
    ensures m.status == r.status && m.totalPrice == r.totalPrice
  {
    r.(startDate := newStartDate, endDate := newEndDate, roomId := newRoomId)
  }

  class Reservation {
    var reservationId: int
    var customerId: int
    var roomId: int
    var startDate: int
    var endDate: int
    var status: ReservationStatus
    var totalPrice: real

    /** The current field values. */
    function Snapshot(): ReservationRecord
      reads this
    {
      ReservationRecord(reservationId, customerId, roomId, startDate, endDate, status, totalPrice)
    }

    /** The constructor never assigns the price, which keeps the default 0. */
    constructor (reservationId: int, startDate: int, endDate: int, status: ReservationStatus,
                 roomId: int, customerId: int)
      ensures Snapshot() == ReservationRecord(reservationId, customerId, roomId, startDate, endDate, status, 0.0)
    {
      this.reservationId := reservationId;
      this.startDate := startDate;
      this.endDate := endDate;
      this.status := status;
      this.roomId := roomId;
      this.customerId := customerId;
      totalPrice := 0.0;
    }

    method SetReservationId(reservationId: int)
      modifies this
      ensures Snapshot() == old(Snapshot()).(reservationId := reservationId)
    {
      this.reservationId := reservationId;
    }

    method SetCustomer(customerId: int)
      modifies this
      ensures Snapshot() == old(Snapshot()).(customerId := customerId)
    {
      this.customerId := customerId;
    }

    method SetRoomId(roomId: int)
      modifies this
      ensures Snapshot() == old(Snapshot()).(roomId := roomId)
    {
      this.roomId := roomId;
    }

    method SetStartDate(startDate: int)
      modifies this
      ensures Snapshot() == old(Snapshot()).(startDate := startDate)
    {
      this.startDate := startDate;
    }

    method SetEndDate(endDate: int)
      modifies this
      ensures Snapshot() == old(Snapshot()).(endDate := endDate)
    {
      this.endDate := endDate;
    }

    method SetStatus(status: ReservationStatus)
      modifies this
      ensures Snapshot() == old(Snapshot()).(status := status)
    {
      this.status := status;
    }

    method SetTotalPrice(totalPrice: real)
      modifies this
      ensures Snapshot() == old(Snapshot()).(totalPrice := totalPrice)
      ensures this.totalPrice == totalPrice
    {
      this.totalPrice := totalPrice;
    }

    method ModifyReservation(newStartDate: int, newEndDate: int, newRoomId: int)
      modifies this
      ensures Snapshot() == Modified(old(Snapshot()), newStartDate, newEndDate, newRoomId)
    {
      startDate := newStartDate;
      endDate := newEndDate;
      roomId := newRoomId;
    }

    method CancelReservation()
      modifies this
      ensures Snapshot() == Cancelled(old(Snapshot()))
    {
      status := CANCELLED;
    }
  }
}
