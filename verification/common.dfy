/** Enumerations and the error-carrying result type shared by the hotel model. */
module Common {

  /** Room category: the pricing and reporting key. */
  datatype RoomType = SINGLE | DOUBLE | SUITE

  /** Life-cycle state of a reservation. */
  datatype ReservationStatus = CONFIRMED | CANCELLED

  /** The exceptions the core throws, one constructor per message. */
  datatype Failure =
    | RoomNotFoundForReservation              // "Room not found for reservation"
    | RoomNotFound(roomId: int)               // "Room not found with ID: <id>"
    | ReservationNotFound(reservationId: int) // "Reservation not found with ID: <id>"

  /** A value, or the failure that was thrown instead of returning it. */
  datatype Result<T> = Ok(value: T) | Err(error: Failure)
}
