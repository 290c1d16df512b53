/**
 * Occupancy, revenue and cancellation figures computed from a snapshot of
 * the reservations and rooms. Nothing here changes state: every figure is a
 * filter followed by a count or a sum, as in the streams it models. The
 * clock is not read: the current day is passed in.
 */
module HotelStatistics {
  import opened Common
  import opened Rooms
  import opened Reservations
  import Pricing

  // ---------------------------------------------------------------------
  // Filtering and counting
  // ---------------------------------------------------------------------

  /** The elements of `xs` that satisfy `keep`, in their original order. */
  function Filter<T>(xs: seq<T>, keep: T -> bool): (kept: seq<T>)
    ensures |kept| <= |xs|
    ensures forall i :: 0 <= i < |kept| ==> kept[i] in xs && keep(kept[i])
    ensures forall i :: 0 <= i < |xs| && keep(xs[i]) ==> xs[i] in kept
  {
    if xs == [] then []
    else (if keep(xs[0]) then [xs[0]] else []) + Filter(xs[1..], keep)
  }

  /** Filtering a concatenation filters each part and keeps them in order. */
  lemma {:induction false} FilterAppend<T>(front: seq<T>, back: seq<T>, keep: T -> bool)
    ensures Filter(front + back, keep) == Filter(front, keep) + Filter(back, keep)
    decreases |front|
  {
    if front == [] {
      assert front + back == back;
    } else {
      assert (front + back)[1..] == front[1..] + back;
      FilterAppend(front[1..], back, keep);
    }
  }

  /** Adding one element adds one to the count exactly when it is kept. */
  lemma FilterCountStep<T>(xs: seq<T>, x: T, keep: T -> bool)
    ensures |Filter(xs + [x], keep)| == |Filter(xs, keep)| + (if keep(x) then 1 else 0)
  {
    FilterAppend(xs, [x], keep);
    assert Filter([x], keep) == (if keep(x) then [x] else []) + Filter([], keep);
  }

  // ---------------------------------------------------------------------
  // Per-reservation tests
  // ---------------------------------------------------------------------

  predicate InRange(day: int, startDate: int, endDate: int)
  {
    startDate <= day <= endDate
  }

  /** The stay [r.startDate, r.endDate] and the window [startDate, endDate] meet (both closed). */
  function IsWithinDateRange(r: ReservationRecord, startDate: int, endDate: int): (within: bool)
    ensures r.startDate <= r.endDate && startDate <= endDate ==>
              (within <==> (if r.startDate < startDate then startDate else r.startDate)
                           <= (if r.endDate < endDate then r.endDate else endDate))
  {
    !(r.endDate < startDate) && !(r.startDate > endDate)
  }

  /** Two nonempty closed ranges meet exactly when some day lies in both. */
  lemma WithinDateRangeIffCommonDay(r: ReservationRecord, startDate: int, endDate: int)
    requires r.startDate <= r.endDate && startDate <= endDate
    ensures IsWithinDateRange(r, startDate, endDate)
            <==> exists day :: InRange(day, r.startDate, r.endDate) && InRange(day, startDate, endDate)
  {
    if IsWithinDateRange(r, startDate, endDate) {
      var day := if r.startDate <= startDate then startDate else r.startDate;
      assert InRange(day, r.startDate, r.endDate) && InRange(day, startDate, endDate);
    }
  }

  /** `today` lies in the stay, both ends included: the one-day window of today meets the stay. */
  function IsCurrentlyOccupied(r: ReservationRecord, today: int): (occupied: bool)
    ensures occupied == IsWithinDateRange(r, today, today)
    ensures occupied <==> InRange(today, r.startDate, r.endDate)
  {
    !(today < r.startDate) && !(today > r.endDate)
  }

  /** The filters of the three figures. */
  function ConfirmedWithin(startDate: int, endDate: int): ReservationRecord -> bool
  {
    (r: ReservationRecord) => r.status == CONFIRMED && IsWithinDateRange(r, startDate, endDate)
  }

  function CancelledWithin(startDate: int, endDate: int): ReservationRecord -> bool
  {
    (r: ReservationRecord) => r.status == CANCELLED && IsWithinDateRange(r, startDate, endDate)
  }

  function ConfirmedOccupied(today: int): ReservationRecord -> bool
  {
    (r: ReservationRecord) => r.status == CONFIRMED && IsCurrentlyOccupied(r, today)
  }

  // ---------------------------------------------------------------------
  // Room type and revenue of one reservation
  // ---------------------------------------------------------------------

  /** Index i holds the first room of `rooms` numbered roomId. */
  predicate FirstRoomWithId(rooms: seq<RoomRecord>, roomId: int, i: int)
  {
    0 <= i < |rooms| && rooms[i].roomId == roomId && forall j :: 0 <= j < i ==> rooms[j].roomId != roomId
  }

  /** The type of the first room whose id is the reservation's room id; an error when none has it. */
  function GetRoomType(rooms: seq<RoomRecord>, r: ReservationRecord): (roomType: Result<RoomType>)
    ensures roomType.Err? ==> roomType.error == RoomNotFoundForReservation
  {
    if rooms == [] then Err(RoomNotFoundForReservation)
    else if rooms[0].roomId == r.roomId then Ok(rooms[0].roomType)
    else GetRoomType(rooms[1..], r)
  }

  /** The type found is that of the first room with the reservation's room id, and one is found exactly when such a room exists. */
  lemma {:induction false} GetRoomTypeFirstMatch(rooms: seq<RoomRecord>, r: ReservationRecord)
    ensures GetRoomType(rooms, r).Ok? <==> exists i :: 0 <= i < |rooms| && rooms[i].roomId == r.roomId
    ensures GetRoomType(rooms, r).Ok? ==>
              exists i :: FirstRoomWithId(rooms, r.roomId, i) && rooms[i].roomType == GetRoomType(rooms, r).value
  {
    if rooms == [] {
    } else if rooms[0].roomId == r.roomId {
      assert FirstRoomWithId(rooms, r.roomId, 0);
    } else {
      GetRoomTypeFirstMatch(rooms[1..], r);
      if GetRoomType(rooms, r).Ok? {
        var i :| FirstRoomWithId(rooms[1..], r.roomId, i) && rooms[1..][i].roomType == GetRoomType(rooms, r).value;
        assert FirstRoomWithId(rooms, r.roomId, i + 1);
      }
      if exists i :: 0 <= i < |rooms| && rooms[i].roomId == r.roomId {
        var i :| 0 <= i < |rooms| && rooms[i].roomId == r.roomId;
        assert rooms[1..][i - 1].roomId == r.roomId;
      }
    }
  }

  /** The fixed price list of the statistics: the same prices the pricing engine installs by default. */
  function GetBasePrice(roomType: RoomType): (price: real)
    ensures roomType in Pricing.DefaultBasePrices() && price == Pricing.DefaultBasePrices()[roomType]
    ensures price > 0.0
  {
    match roomType
    case SINGLE => 100.0
    case DOUBLE => 150.0
    case SUITE => 250.0
  }

  /** Revenue of one reservation: every night of the whole stay at the fixed price of its room type. */
  function CalculateReservationRevenue(rooms: seq<RoomRecord>, r: ReservationRecord): (revenue: Result<real>)
    ensures revenue.Ok? <==> GetRoomType(rooms, r).Ok?
    ensures revenue.Err? ==> revenue.error == RoomNotFoundForReservation
    ensures revenue.Ok? ==>
              revenue.value == (r.endDate - r.startDate) as real * GetBasePrice(GetRoomType(rooms, r).value)
    ensures revenue.Ok? && r.startDate <= r.endDate ==> revenue.value >= 0.0
  {
    match GetRoomType(rooms, r)
    case Err(e) => Err(e)
    case Ok(roomType) =>
      var nights := (r.endDate - r.startDate) as real;
      if nights >= 0.0 then Pricing.NonNegativeProduct(nights, GetBasePrice(roomType)); Ok(nights * GetBasePrice(roomType))
      else Ok(nights * GetBasePrice(roomType))
  }

  // ---------------------------------------------------------------------
  // Sums and per-type figures over a list of reservations
  // ---------------------------------------------------------------------

  /** Every reservation of the list has a room. */
  predicate AllResolve(rooms: seq<RoomRecord>, reservations: seq<ReservationRecord>)
  {
    reservations == [] || (GetRoomType(rooms, reservations[0]).Ok? && AllResolve(rooms, reservations[1..]))
  }

  lemma {:induction false} AllResolveIff(rooms: seq<RoomRecord>, reservations: seq<ReservationRecord>)
    ensures AllResolve(rooms, reservations)
            <==> forall i :: 0 <= i < |reservations| ==> GetRoomType(rooms, reservations[i]).Ok?
  {
    if reservations != [] {
      AllResolveIff(rooms, reservations[1..]);
      forall i | 1 <= i < |reservations|
        ensures reservations[i] == reservations[1..][i - 1]
      {
      }
    }
  }

  /** Sum of the revenues of `reservations`; the first one whose room is missing makes it fail. */
  function SumRevenue(rooms: seq<RoomRecord>, reservations: seq<ReservationRecord>): (total: Result<real>)
    ensures total.Ok? == AllResolve(rooms, reservations)
    ensures total.Err? ==> total.error == RoomNotFoundForReservation
  {
    if reservations == [] then Ok(0.0)
    else
      var rest := SumRevenue(rooms, reservations[1..]);
      match CalculateReservationRevenue(rooms, reservations[0])
      case Err(e) => Err(e)
      case Ok(revenue) => if rest.Ok? then Ok(revenue + rest.value) else rest
  }

  /** Appending sums adds the totals; either part failing makes the whole fail. */
  lemma {:induction false} SumRevenueAppend(rooms: seq<RoomRecord>, front: seq<ReservationRecord>,
                                            back: seq<ReservationRecord>)
    ensures SumRevenue(rooms, front + back).Ok? == (SumRevenue(rooms, front).Ok? && SumRevenue(rooms, back).Ok?)
    ensures SumRevenue(rooms, front + back).Ok? ==>
              SumRevenue(rooms, front + back).value == SumRevenue(rooms, front).value + SumRevenue(rooms, back).value
    decreases |front|
  {
    if front == [] {
      assert front + back == back;
    } else {
      assert (front + back)[1..] == front[1..] + back;
      assert (front + back)[0] == front[0];
      SumRevenueAppend(rooms, front[1..], back);
    }
  }

  lemma SumRevenueSingle(rooms: seq<RoomRecord>, r: ReservationRecord)
    requires GetRoomType(rooms, r).Ok?
    ensures SumRevenue(rooms, [r]).Ok? && SumRevenue(rooms, [r]).value == CalculateReservationRevenue(rooms, r).value
  {
    assert [r][1..] == [];
  }

  lemma SumRevenueStep(rooms: seq<RoomRecord>, reservations: seq<ReservationRecord>, r: ReservationRecord)
    requires SumRevenue(rooms, reservations).Ok? && GetRoomType(rooms, r).Ok?
    ensures SumRevenue(rooms, reservations + [r]).Ok?
    ensures SumRevenue(rooms, reservations + [r]).value
            == SumRevenue(rooms, reservations).value + CalculateReservationRevenue(rooms, r).value
  {
    SumRevenueSingle(rooms, r);
    SumRevenueAppend(rooms, reservations, [r]);
  }

  /** Number of reservations in `reservations` whose room is of type t; fails when a room is missing. */
  function CountOfType(rooms: seq<RoomRecord>, reservations: seq<ReservationRecord>, t: RoomType): (count: Result<nat>)
    ensures count.Ok? == AllResolve(rooms, reservations)
    ensures count.Ok? ==> count.value <= |reservations|
    ensures count.Err? ==> count.error == RoomNotFoundForReservation
  {
    if reservations == [] then Ok(0)
    else
      var rest := CountOfType(rooms, reservations[1..], t);
      match GetRoomType(rooms, reservations[0])
      case Err(e) => Err(e)
      case Ok(roomType) => if rest.Ok? then Ok(rest.value + if roomType == t then 1 else 0) else rest
  }

  /** Sum of the revenues of the reservations whose room is of type t; fails when a room is missing. */
  function RevenueOfType(rooms: seq<RoomRecord>, reservations: seq<ReservationRecord>, t: RoomType): (total: Result<real>)
    ensures total.Ok? == AllResolve(rooms, reservations)
    ensures total.Err? ==> total.error == RoomNotFoundForReservation
  {
    if reservations == [] then Ok(0.0)
    else
      var rest := RevenueOfType(rooms, reservations[1..], t);
      match GetRoomType(rooms, reservations[0])
      case Err(e) => Err(e)
      case Ok(roomType) =>
        if !rest.Ok? then rest
        else if roomType == t then Ok(CalculateReservationRevenue(rooms, reservations[0]).value + rest.value)
        else rest
  }

  /** Number of rooms of type t. */
  function RoomsOfType(rooms: seq<RoomRecord>, t: RoomType): (count: nat)
    ensures count <= |rooms|
  {
    if rooms == [] then 0 else (if rooms[0].roomType == t then 1 else 0) + RoomsOfType(rooms[1..], t)
  }

  /** Every room has exactly one type: the per-type room counts add up to the number of rooms. */
  lemma {:induction false} RoomsOfTypeAddUp(rooms: seq<RoomRecord>)
    ensures RoomsOfType(rooms, SINGLE) + RoomsOfType(rooms, DOUBLE) + RoomsOfType(rooms, SUITE) == |rooms|
  {
    if rooms != [] {
      RoomsOfTypeAddUp(rooms[1..]);
    }
  }

  /** When every room resolves, the per-type reservation counts add up to the number of reservations. */
  lemma {:induction false} CountsOfTypeAddUp(rooms: seq<RoomRecord>, reservations: seq<ReservationRecord>)
    requires AllResolve(rooms, reservations)
    ensures CountOfType(rooms, reservations, SINGLE).value + CountOfType(rooms, reservations, DOUBLE).value
            + CountOfType(rooms, reservations, SUITE).value == |reservations|
  {
    if reservations != [] {
      CountsOfTypeAddUp(rooms, reservations[1..]);
    }
  }

  /** When every room resolves, the per-type revenues add up to the total revenue. */
  lemma {:induction false} RevenuesOfTypeAddUp(rooms: seq<RoomRecord>, reservations: seq<ReservationRecord>)
    requires AllResolve(rooms, reservations)
    ensures RevenueOfType(rooms, reservations, SINGLE).value + RevenueOfType(rooms, reservations, DOUBLE).value
            + RevenueOfType(rooms, reservations, SUITE).value == SumRevenue(rooms, reservations).value
  {
    if reservations != [] {
      RevenuesOfTypeAddUp(rooms, reservations[1..]);
    }
  }

  /** The test of a room being of type t. */
  function OfType(t: RoomType): RoomRecord -> bool
  {
    (room: RoomRecord) => room.roomType == t
  }

  /** The test of a reservation whose room is found and is of type t. */
  function BookedAs(rooms: seq<RoomRecord>, t: RoomType): ReservationRecord -> bool
  {
    (r: ReservationRecord) => GetRoomType(rooms, r).Ok? && GetRoomType(rooms, r).value == t
  }

  /** The per-type room count counts exactly the rooms of that type. */
  lemma {:induction false} RoomsOfTypeIsFilter(rooms: seq<RoomRecord>, t: RoomType)
    ensures RoomsOfType(rooms, t) == |Filter(rooms, OfType(t))|
  {
    if rooms != [] {
      RoomsOfTypeIsFilter(rooms[1..], t);
    }
  }

  /** When every room resolves, the per-type count counts exactly the reservations whose room is of that type. */
  lemma {:induction false} CountOfTypeIsFilter(rooms: seq<RoomRecord>, reservations: seq<ReservationRecord>, t: RoomType)
    requires AllResolve(rooms, reservations)
    ensures CountOfType(rooms, reservations, t).value == |Filter(reservations, BookedAs(rooms, t))|
  {
    if reservations != [] {
      CountOfTypeIsFilter(rooms, reservations[1..], t);
    }
  }

  /** When every room resolves, the per-type revenue is the revenue of exactly the reservations whose room is of that type. */
  lemma {:induction false} RevenueOfTypeIsFilter(rooms: seq<RoomRecord>, reservations: seq<ReservationRecord>, t: RoomType)
    requires AllResolve(rooms, reservations)
    ensures SumRevenue(rooms, Filter(reservations, BookedAs(rooms, t))).Ok?
    ensures RevenueOfType(rooms, reservations, t).value
            == SumRevenue(rooms, Filter(reservations, BookedAs(rooms, t))).value
  {
    if reservations != [] {
      var r := reservations[0];
      var rest := Filter(reservations[1..], BookedAs(rooms, t));
      RevenueOfTypeIsFilter(rooms, reservations[1..], t);
      if BookedAs(rooms, t)(r) {
        assert Filter(reservations, BookedAs(rooms, t)) == [r] + rest;
        assert ([r] + rest)[0] == r && ([r] + rest)[1..] == rest;
      } else {
        assert Filter(reservations, BookedAs(rooms, t)) == rest;
      }
    }
  }

  // ---------------------------------------------------------------------
  // Quotients as a double division computes them
  // ---------------------------------------------------------------------

  /** The value of a division of two nonnegative counts in double arithmetic. */
  datatype Quotient = Finite(value: real) | NaN | Infinity

  /** 0/0 is not a number, a positive count over 0 is infinite, anything else is the exact quotient. */
  function Divide(numerator: nat, denominator: nat): (q: Quotient)
    ensures denominator > 0 <==> q.Finite?
    ensures q.Finite? ==> q.value * denominator as real == numerator as real
    ensures q.NaN? <==> numerator == 0 && denominator == 0
  {
    if denominator > 0 then Finite(numerator as real / denominator as real)
    else if numerator == 0 then NaN
    else Infinity
  }

  /** A count ratio guarded against an empty denominator: 0 then, the double quotient otherwise. */
  function Ratio(numerator: nat, denominator: nat): (ratio: real)
    ensures denominator == 0 ==> ratio == 0.0
    ensures denominator > 0 ==> Divide(numerator, denominator) == Finite(ratio)
    ensures ratio >= 0.0
  {
    if denominator > 0 then numerator as real / denominator as real else 0.0
  }

  // ---------------------------------------------------------------------
  // The aggregator
  // ---------------------------------------------------------------------

  /** A snapshot of the reservations and rooms, fixed when the aggregator is built. */
  datatype Statistics = Statistics(reservations: seq<ReservationRecord>, rooms: seq<RoomRecord>)
  {
    /** Confirmed reservations whose stay includes today. */
    function OccupiedReservations(today: int): seq<ReservationRecord>
    {
      Filter(reservations, ConfirmedOccupied(today))
    }

    /** Occupied reservations over rooms, with no guard for an empty room list. */
    function CalculateOccupancy(today: int): (occupancy: Quotient)
      ensures occupancy.Finite? <==> rooms != []
      ensures occupancy.Finite? ==> occupancy.value == |OccupiedReservations(today)| as real / |rooms| as real
      ensures rooms == [] ==> (occupancy.NaN? <==> OccupiedReservations(today) == [])
    {
      Divide(|OccupiedReservations(today)|, |rooms|)
    }

    /** Occupancy with the empty hotel guarded, as the per-type figure is: 0 when there are no rooms. */
    function GuardedOccupancy(today: int): (occupancy: real)
      ensures rooms == [] ==> occupancy == 0.0
      ensures rooms != [] ==> CalculateOccupancy(today) == Finite(occupancy)
    {
      Ratio(|OccupiedReservations(today)|, |rooms|)
    }

    /** Total revenue of the confirmed reservations meeting [startDate, endDate], whole stays counted. */
    function CalculateRevenue(startDate: int, endDate: int): (revenue: Result<real>)
      ensures revenue.Err? ==> revenue.error == RoomNotFoundForReservation
    {
      SumRevenue(rooms, Filter(reservations, ConfirmedWithin(startDate, endDate)))
    }

    /** Number of cancelled reservations meeting [startDate, endDate]. */
    function CalculateCancellations(startDate: int, endDate: int): (count: nat)
      ensures count <= |reservations|
    {
      |Filter(reservations, CancelledWithin(startDate, endDate))|
    }

    /** The per-type figures of the occupancy report: rooms of type t, occupied ones, and their ratio (0 without rooms). */
    function TypeOccupancy(t: RoomType, today: int): (line: Result<(nat, nat, real)>)
      ensures line.Ok? <==> CountOfType(rooms, OccupiedReservations(today), t).Ok?
      ensures line.Ok? ==> line.value.0 == RoomsOfType(rooms, t)
                           && line.value.1 == CountOfType(rooms, OccupiedReservations(today), t).value
                           && line.value.2 == Ratio(line.value.1, line.value.0)
    {
      var totalRooms := RoomsOfType(rooms, t);
      match CountOfType(rooms, OccupiedReservations(today), t)
      case Err(e) => Err(e)
      case Ok(occupiedRooms) => Ok((totalRooms, occupiedRooms, Ratio(occupiedRooms, totalRooms)))
    }

    /** The per-type figure of the revenue report. */
    function TypeRevenue(t: RoomType, startDate: int, endDate: int): (revenue: Result<real>)
      ensures revenue.Ok? == CalculateRevenue(startDate, endDate).Ok?
      ensures revenue.Err? ==> revenue.error == RoomNotFoundForReservation
    {
      RevenueOfType(rooms, Filter(reservations, ConfirmedWithin(startDate, endDate)), t)
    }

    /** The per-type figure of the cancellation report over [startDate, endDate]. */
    function TypeCancellations(t: RoomType, startDate: int, endDate: int): (count: Result<nat>)
      ensures count.Ok? ==> count.value <= CalculateCancellations(startDate, endDate)
      ensures count.Err? ==> count.error == RoomNotFoundForReservation
    {
      CountOfType(rooms, Filter(reservations, CancelledWithin(startDate, endDate)), t)
    }
  }

  // ---------------------------------------------------------------------
  // Properties of the figures
  // ---------------------------------------------------------------------

  /** The revenue is defined exactly when every confirmed reservation meeting the window has a room. */
  lemma RevenueDefinedIff(stats: Statistics, startDate: int, endDate: int)
    ensures stats.CalculateRevenue(startDate, endDate).Ok?
            <==> forall i :: 0 <= i < |stats.reservations| && ConfirmedWithin(startDate, endDate)(stats.reservations[i])
                             ==> GetRoomType(stats.rooms, stats.reservations[i]).Ok?
  {
    var counted := Filter(stats.reservations, ConfirmedWithin(startDate, endDate));
    AllResolveIff(stats.rooms, counted);
    if !AllResolve(stats.rooms, counted) {
      var k :| 0 <= k < |counted| && !GetRoomType(stats.rooms, counted[k]).Ok?;
      var i :| 0 <= i < |stats.reservations| && stats.reservations[i] == counted[k];
    } else {
      forall i | 0 <= i < |stats.reservations| && ConfirmedWithin(startDate, endDate)(stats.reservations[i])
        ensures GetRoomType(stats.rooms, stats.reservations[i]).Ok?
      {
        var k :| 0 <= k < |counted| && counted[k] == stats.reservations[i];
      }
    }
  }

  /** A reservation that is not confirmed or does not meet the window leaves the revenue unchanged. */
  lemma RevenueIgnoresUncounted(stats: Statistics, r: ReservationRecord, startDate: int, endDate: int)
    requires !ConfirmedWithin(startDate, endDate)(r)
    ensures Statistics(stats.reservations + [r], stats.rooms).CalculateRevenue(startDate, endDate)
            == stats.CalculateRevenue(startDate, endDate)
  {
    FilterAppend(stats.reservations, [r], ConfirmedWithin(startDate, endDate));
    assert Filter([r], ConfirmedWithin(startDate, endDate)) == [];
    assert Filter(stats.reservations, ConfirmedWithin(startDate, endDate)) + []
        == Filter(stats.reservations, ConfirmedWithin(startDate, endDate));
  }

  /** A counted reservation adds its own revenue to the total. */
  lemma RevenueAddsCounted(stats: Statistics, r: ReservationRecord, startDate: int, endDate: int)
    requires ConfirmedWithin(startDate, endDate)(r)
    requires stats.CalculateRevenue(startDate, endDate).Ok? && GetRoomType(stats.rooms, r).Ok?
    ensures Statistics(stats.reservations + [r], stats.rooms).CalculateRevenue(startDate, endDate).Ok?
    ensures Statistics(stats.reservations + [r], stats.rooms).CalculateRevenue(startDate, endDate).value
            == stats.CalculateRevenue(startDate, endDate).value + CalculateReservationRevenue(stats.rooms, r).value
  {
    var keep := ConfirmedWithin(startDate, endDate);
    var counted := Filter(stats.reservations, keep);
    FilterAppend(stats.reservations, [r], keep);
    assert Filter([r], keep) == [r] + Filter([], keep);
    assert Filter(stats.reservations + [r], keep) == counted + [r];
    SumRevenueStep(stats.rooms, counted, r);
  }

  /** Each cancelled reservation meeting the window adds exactly one to the count, any other adds nothing. */
  lemma CancellationsStep(stats: Statistics, r: ReservationRecord, startDate: int, endDate: int)
    ensures Statistics(stats.reservations + [r], stats.rooms).CalculateCancellations(startDate, endDate)
            == stats.CalculateCancellations(startDate, endDate)
               + if r.status == CANCELLED && IsWithinDateRange(r, startDate, endDate) then 1 else 0
  {
    FilterCountStep(stats.reservations, r, CancelledWithin(startDate, endDate));
  }

  /** The per-type revenues of the report add up to the total revenue whenever the total is defined. */
  lemma TypeRevenuesAddUp(stats: Statistics, startDate: int, endDate: int)
    requires stats.CalculateRevenue(startDate, endDate).Ok?
    ensures stats.TypeRevenue(SINGLE, startDate, endDate).Ok?
    ensures stats.TypeRevenue(SINGLE, startDate, endDate).value + stats.TypeRevenue(DOUBLE, startDate, endDate).value
            + stats.TypeRevenue(SUITE, startDate, endDate).value
            == stats.CalculateRevenue(startDate, endDate).value
  {
    RevenuesOfTypeAddUp(stats.rooms, Filter(stats.reservations, ConfirmedWithin(startDate, endDate)));
  }

  /** The per-type cancellation counts add up to the total whenever every cancelled room resolves. */
  lemma TypeCancellationsAddUp(stats: Statistics, startDate: int, endDate: int)
    requires stats.TypeCancellations(SINGLE, startDate, endDate).Ok?
    ensures stats.TypeCancellations(DOUBLE, startDate, endDate).Ok? && stats.TypeCancellations(SUITE, startDate, endDate).Ok?
    ensures stats.TypeCancellations(SINGLE, startDate, endDate).value + stats.TypeCancellations(DOUBLE, startDate, endDate).value
            + stats.TypeCancellations(SUITE, startDate, endDate).value
            == stats.CalculateCancellations(startDate, endDate)
  {
    CountsOfTypeAddUp(stats.rooms, Filter(stats.reservations, CancelledWithin(startDate, endDate)));
  }

  /** The per-type occupied counts add up to the overall occupied count whenever every room resolves. */
  lemma TypeOccupiedAddUp(stats: Statistics, today: int)
    requires stats.TypeOccupancy(SINGLE, today).Ok?
    ensures stats.TypeOccupancy(DOUBLE, today).Ok? && stats.TypeOccupancy(SUITE, today).Ok?
    ensures stats.TypeOccupancy(SINGLE, today).value.1 + stats.TypeOccupancy(DOUBLE, today).value.1
            + stats.TypeOccupancy(SUITE, today).value.1 == |stats.OccupiedReservations(today)|
    ensures stats.TypeOccupancy(SINGLE, today).value.0 + stats.TypeOccupancy(DOUBLE, today).value.0
            + stats.TypeOccupancy(SUITE, today).value.0 == |stats.rooms|
  {
    CountsOfTypeAddUp(stats.rooms, stats.OccupiedReservations(today));
    RoomsOfTypeAddUp(stats.rooms);
  }

  /** A line of the occupancy report counts the rooms of its type and the occupied reservations booked in that type. */
  lemma TypeOccupancyCountsType(stats: Statistics, t: RoomType, today: int)
    requires stats.TypeOccupancy(t, today).Ok?
    ensures stats.TypeOccupancy(t, today).value.0 == |Filter(stats.rooms, OfType(t))|
    ensures stats.TypeOccupancy(t, today).value.1
            == |Filter(stats.OccupiedReservations(today), BookedAs(stats.rooms, t))|
  {
    RoomsOfTypeIsFilter(stats.rooms, t);
    CountOfTypeIsFilter(stats.rooms, stats.OccupiedReservations(today), t);
  }

  /** A type's revenue figure is the revenue of the counted reservations booked in that type, and of no others. */
  lemma TypeRevenueSumsType(stats: Statistics, t: RoomType, startDate: int, endDate: int)
    requires stats.TypeRevenue(t, startDate, endDate).Ok?
    ensures SumRevenue(stats.rooms, Filter(Filter(stats.reservations, ConfirmedWithin(startDate, endDate)),
                                           BookedAs(stats.rooms, t))).Ok?
    ensures stats.TypeRevenue(t, startDate, endDate).value
            == SumRevenue(stats.rooms, Filter(Filter(stats.reservations, ConfirmedWithin(startDate, endDate)),
                                              BookedAs(stats.rooms, t))).value
  {
    RevenueOfTypeIsFilter(stats.rooms, Filter(stats.reservations, ConfirmedWithin(startDate, endDate)), t);
  }

  /** A type's cancellation count counts the cancelled reservations meeting the window booked in that type. */
  lemma TypeCancellationsCountsType(stats: Statistics, t: RoomType, startDate: int, endDate: int)
    requires stats.TypeCancellations(t, startDate, endDate).Ok?
    ensures stats.TypeCancellations(t, startDate, endDate).value
            == |Filter(Filter(stats.reservations, CancelledWithin(startDate, endDate)), BookedAs(stats.rooms, t))|
  {
    CountOfTypeIsFilter(stats.rooms, Filter(stats.reservations, CancelledWithin(startDate, endDate)), t);
  }

  /** With no rooms and no occupied reservation, the unguarded occupancy is not a number. */
  lemma OccupancyOfEmptyHotelIsNaN(today: int)
    ensures Statistics([], []).CalculateOccupancy(today) == NaN
  {
  }

  /**
   * No clipping: a confirmed single-room stay of 15 nights, 2024-01-01..2024-01-16
   * (days 19723..19738), counts in full (1500) in a one-day window on 2024-01-16.
   */
  lemma WholeStayCountsInWindow()
    ensures Statistics([ReservationRecord(1, 7, 101, 19723, 19738, CONFIRMED, 0.0)], [RoomRecord(101, SINGLE, true)])
              .CalculateRevenue(19738, 19738).Ok?
    ensures Statistics([ReservationRecord(1, 7, 101, 19723, 19738, CONFIRMED, 0.0)], [RoomRecord(101, SINGLE, true)])
              .CalculateRevenue(19738, 19738).value == 1500.0
  {
    var r := ReservationRecord(1, 7, 101, 19723, 19738, CONFIRMED, 0.0);
    var rooms := [RoomRecord(101, SINGLE, true)];
    assert Filter([r], ConfirmedWithin(19738, 19738)) == [r] + Filter([], ConfirmedWithin(19738, 19738));
    assert GetRoomType(rooms, r) == Ok(SINGLE);
    SumRevenueSingle(rooms, r);
  }
}
