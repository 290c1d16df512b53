/** A hotel room: its number, its category and whether it can be booked. */
module Rooms {
  import opened Common

  /** The value of a room at one moment, as the room repository and the statistics see it. */
  datatype RoomRecord = RoomRecord(roomId: int, roomType: RoomType, isAvailable: bool)

  class Room {
    var roomId: int
    var roomType: RoomType
    var isAvailable: bool

    /** The current field values. */
    function Snapshot(): RoomRecord
      reads this
    {
      RoomRecord(roomId, roomType, isAvailable)
    }

    constructor (roomId: int, roomType: RoomType, isAvailable: bool)
      ensures Snapshot() == RoomRecord(roomId, roomType, isAvailable)
    {
      this.roomId := roomId;
      this.roomType := roomType;
      this.isAvailable := isAvailable;
    }

    method SetRoomId(roomId: int)
      modifies this
      ensures Snapshot() == old(Snapshot()).(roomId := roomId)
    {
      this.roomId := roomId;
    }

    method SetRoomType(roomType: RoomType)
      modifies this
      ensures Snapshot() == old(Snapshot()).(roomType := roomType)
    {
      this.roomType := roomType;
    }

    method SetAvailable(available: bool)
      modifies this
      ensures Snapshot() == old(Snapshot()).(isAvailable := available)
    {
      isAvailable := available;
    }
  }
}
