/** A hotel: its identity and the list of its rooms, which grows by appending. */
module Hotels {
  import opened Rooms

  /** The rooms of `rooms` that are currently available, in their order. */
  function AvailableAmong(rooms: seq<Room>): (available: seq<Room>)
    reads rooms
    ensures |available| <= |rooms|
    ensures forall i :: 0 <= i < |available| ==> available[i] in rooms && available[i].isAvailable
    ensures forall i :: 0 <= i < |rooms| && rooms[i].isAvailable ==> rooms[i] in available
  {
    if rooms == [] then []
    else (if rooms[0].isAvailable then [rooms[0]] else []) + AvailableAmong(rooms[1..])
  }

  /** Filtering a concatenation filters each part: the kept rooms stay in their original order. */
  lemma {:induction false} AvailableAmongAppend(front: seq<Room>, back: seq<Room>)
    ensures AvailableAmong(front + back) == AvailableAmong(front) + AvailableAmong(back)
    decreases |front|
  {
    if front == [] {
      assert front + back == back;
    } else {
      assert (front + back)[1..] == front[1..] + back;
      AvailableAmongAppend(front[1..], back);
    }
  }

  class Hotel {
    var hotelId: int
    var name: string
    var address: string
    var rooms: seq<Room>

    constructor (hotelId: int, name: string, address: string)
      ensures this.hotelId == hotelId && this.name == name && this.address == address
      ensures rooms == []
    {
      this.hotelId := hotelId;
      this.name := name;
      this.address := address;
      rooms := [];
    }

    method SetHotelId(hotelId: int)
      modifies this
      ensures this.hotelId == hotelId
      ensures name == old(name) && address == old(address) && rooms == old(rooms)
    {
      this.hotelId := hotelId;
    }

    method SetName(name: string)
      modifies this
      ensures this.name == name
      ensures hotelId == old(hotelId) && address == old(address) && rooms == old(rooms)
    {
      this.name := name;
    }

    method SetAddress(address: string)
      modifies this
      ensures this.address == address
      ensures hotelId == old(hotelId) && name == old(name) && rooms == old(rooms)
    {
      this.address := address;
    }

    method SetRooms(rooms: seq<Room>)
      modifies this
      ensures this.rooms == rooms
      ensures hotelId == old(hotelId) && name == old(name) && address == old(address)
    {
      this.rooms := rooms;
    }

    /** Appends one room; the earlier rooms keep their places. */
    method AddRoom(room: Room)
      modifies this
      ensures rooms == old(rooms) + [room]
      ensures GetAvailableRooms() == old(GetAvailableRooms()) + (if room.isAvailable then [room] else [])
      ensures hotelId == old(hotelId) && name == old(name) && address == old(address)
    {
      AvailableAmongAppend(rooms, [room]);
      rooms := rooms + [room];
    }

    /** The rooms whose isAvailable flag is set, in list order; the room list itself is left as it is. */
    function GetAvailableRooms(): (available: seq<Room>)
      reads this, rooms
      ensures |available| <= |rooms|
      ensures forall i :: 0 <= i < |available| ==> available[i] in rooms && available[i].isAvailable
      ensures forall i :: 0 <= i < |rooms| && rooms[i].isAvailable ==> rooms[i] in available
    {
      AvailableAmong(rooms)
    }
  }
}
