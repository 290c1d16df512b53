# Hotel reservation core: pricing, statistics, entities and booking service

This project models the core of HotelJDBC, a hotel reservation system written in Java, in Dafny. It covers four parts:

- **Pricing engine** (`pricing.dfy`, module `Pricing`, class `DynamicPricing`). The engine holds three tables:
  - a base price per room type;
  - a seasonal multiplier per day;
  - a set of named event multipliers per day.

  From these it composes the price of a night: base price, times 1.5 on a Saturday or Sunday, times the seasonal factor, times the largest event factor, times one minus the occupancy discount. The price of a stay is the sum of its nights. The engine also turns the seasonal table into a chronological list of maximal runs of consecutive days that share one multiplier.
- **Statistics aggregator** (`statistics.dfy`, module `HotelStatistics`). It computes the following from a fixed snapshot of reservations and rooms:
  - occupancy, revenue and cancellation figures;
  - the per-room-type figures of the three reports.
- **Entities** (`rooms.dfy`, `reservations.dfy`, `hotel.dfy`). `Room`, `Reservation` and `Hotel` are classes whose setters overwrite fields. `Room` and `Reservation` are each paired with a value record (`RoomRecord`, `ReservationRecord`) that is its snapshot. `Hotel` has no record: it holds its `Room` objects in a sequence.
- **Booking service** (`reservation_service.dfy`, module `Service`). It provides `CreateReservation` and `CancelReservation` over two abstract stores, `map<int, ReservationRecord>` and `map<int, RoomRecord>`.

Modelling conventions:

- Dates are epoch days. Day 0 is 1970-01-01, a Thursday, and the ISO weekday of day `d` is `(d + 3) % 7 + 1`.
- Prices and multipliers are exact `real`s.
- The exceptions the code throws become the `Err` case of `Common.Result`. There is one `Failure` constructor per message.
- The current day and the report windows are parameters.

Some behaviour of the code is worth stating plainly, because a reader might expect otherwise:

- **Revenue is not clipped to the window.** Revenue counts the whole stay of every confirmed reservation that meets the window, at a fixed price per room type (`Statistics.java:115-120`). Nights outside the window count too, and no night is re-priced by the pricing engine.
- **Seasonal and event factors multiply.** For a night with seasonal factor 2.0 and event factor 3.0, the price is 100 × 2.0 × 3.0 = 600 (`DynamicPricing.java:139-140`), not the larger of the two factors.
- **Occupancy is a count ratio for today.** It is the number of confirmed reservations whose stay includes today, divided by the number of rooms, with no guard against zero rooms (`Statistics.java:23-30`). It is not a ratio of occupied room-days over a window.
- **No input validation.** The setters of the pricing tables accept any value, including zero and negative factors.

## Model

| member | source | states |
|---|---|---|
| Pricing.DynamicPricing.constructor | src/main/java/com/hotelreservation/pricing/DynamicPricing.java:20-31 | an empty loaded base-price table is replaced by SINGLE=100, DOUBLE=150, SUITE=250; the other tables are kept as loaded |
| Pricing.DynamicPricing.GetOccupancyBasedDiscount | src/main/java/com/hotelreservation/pricing/DynamicPricing.java:197-205 | the discount lies in [0, 0.2]; it is 0.2 below occupancy 0.3, 0.1 from 0.3 up to but not including 0.5, and 0 from 0.5 on |
| Pricing.DiscountNonIncreasing | src/main/java/com/hotelreservation/pricing/DynamicPricing.java:197-205 | a higher occupancy never gets a larger discount |
| Pricing.DayOfWeekCalendar | src/main/java/com/hotelreservation/pricing/DynamicPricing.java:207-210 | day 0 is a Thursday; every weekday is in 1..7; the next day has the next weekday, wrapping Sunday to Monday; the weekday repeats every 7 days |
| Pricing.DynamicPricing.IsWeekend | src/main/java/com/hotelreservation/pricing/DynamicPricing.java:207-210 | a day is a weekend day exactly when its epoch number is 2 or 3 modulo 7, i.e. a Saturday or Sunday by DayOfWeekCalendar |
| Pricing.DynamicPricing.GetBasePrice | src/main/java/com/hotelreservation/pricing/DynamicPricing.java:224-226 | the stored price of a type, or 0.0 for a type without an entry |
| Pricing.DynamicPricing.GetSeasonalMultiplier | src/main/java/com/hotelreservation/pricing/DynamicPricing.java:212-214 | the stored factor of a day, or 1.0 for an unset day |
| Pricing.Greatest | src/main/java/com/hotelreservation/pricing/DynamicPricing.java:219 | the maximum of a nonempty set of factors belongs to the set and bounds it |
| Pricing.GreatestEntry | src/main/java/com/hotelreservation/pricing/DynamicPricing.java:219 | the maximum of a nonempty event table is one entry's factor and no entry's factor exceeds it |
| Pricing.DynamicPricing.GetEventMultiplier | src/main/java/com/hotelreservation/pricing/DynamicPricing.java:216-222 | a day without events has event factor 1.0; a day with events has the factor of one of its events, and none is larger |
| Pricing.DynamicPricing.DailyPrice | src/main/java/com/hotelreservation/pricing/DynamicPricing.java:132-143 | the step-by-step daily computation equals the nightly price base × weekend × seasonal × event × (1 − discount) |
| Pricing.DynamicPricing.CalculatePrice | src/main/java/com/hotelreservation/pricing/DynamicPricing.java:126-149 | the total is the sum of the nightly prices of days start, start+1, …, end−1, and 0 when end ≤ start |
| Pricing.StayPriceSplit | src/main/java/com/hotelreservation/pricing/DynamicPricing.java:131-146 | a stay of a+b nights costs its first a nights plus the b nights that follow |
| Pricing.StayPriceFirstNight | src/main/java/com/hotelreservation/pricing/DynamicPricing.java:131-146 | a stay costs its first night plus the stay from the next day |
| Pricing.DynamicPricing.NightlyPrice | src/main/java/com/hotelreservation/pricing/DynamicPricing.java:133-143 | at occupancy ≥ 0.5 no discount applies and a night costs base × (1.5 on weekends, else 1) × seasonal × event; DailyPrice shows the loop body computes it and NightlyPriceNonDecreasing bounds it |
| Pricing.DynamicPricing.StayPrice | src/main/java/com/hotelreservation/pricing/DynamicPricing.java:131-146 | no nights cost 0 and one night costs that night's price; StayPriceSplit and StayPriceFirstNight show it is the sum of the nights in order, and CalculatePrice that the loop computes it |
| Pricing.NightlyPriceNonDecreasing | src/main/java/com/hotelreservation/pricing/DynamicPricing.java:133-145 | with nonnegative base and factors a night costs at least 0, and no less at a higher occupancy |
| Pricing.StayPriceNonDecreasing | src/main/java/com/hotelreservation/pricing/DynamicPricing.java:127-149 | with nonnegative factors on every night a stay costs at least 0, and no less at a higher occupancy |
| Pricing.WeekdayStayExample | src/main/java/com/hotelreservation/pricing/DynamicPricing.java:127-149 | two weekday nights of a single room with default prices and no multipliers at occupancy 0.6 cost 200 |
| Pricing.SaturdayNightExample | src/main/java/com/hotelreservation/pricing/DynamicPricing.java:135-137 | one Saturday night of a single room at occupancy 0.6 costs 150 |
| Pricing.SeasonalAndEventMultiplyExample | src/main/java/com/hotelreservation/pricing/DynamicPricing.java:139-140 | seasonal 2.0 and event 3.0 on 2024-12-31 multiply: a single-room night costs 600 |
| Pricing.DynamicPricing.UpdateBasePrice | src/main/java/com/hotelreservation/pricing/DynamicPricing.java:152-163 | only the entry of the given type changes, to the new price; the other tables are untouched |
| Pricing.RangeTable | src/main/java/com/hotelreservation/pricing/DynamicPricing.java:174-176 | expanding [start, end] gives exactly the days of the range, each with the multiplier |
| Pricing.DynamicPricing.SetSeasonalMultiplier | src/main/java/com/hotelreservation/pricing/DynamicPricing.java:166-180 | every day in [start, end] reads the new multiplier, every other day keeps its old reading (last write wins), other tables untouched |
| Pricing.DynamicPricing.SetEventPricing | src/main/java/com/hotelreservation/pricing/DynamicPricing.java:183-195 | only event `name` of that day is set, the day's other events and all other days are kept; the day's event factor is at least the new factor |
| Pricing.DynamicPricing.ClearSeasonalPricing | src/main/java/com/hotelreservation/pricing/DynamicPricing.java:228-237 | the seasonal table is empty and every day reads 1.0 |
| Pricing.DynamicPricing.ClearEventPricing | src/main/java/com/hotelreservation/pricing/DynamicPricing.java:239-248 | the event table is empty and every day has event factor 1.0 |
| Pricing.SortedEntries | src/main/java/com/hotelreservation/pricing/DynamicPricing.java:255-256 | the table's entries, each once, with strictly increasing days |
| Pricing.DynamicPricing.GroupConsecutiveDates | src/main/java/com/hotelreservation/pricing/DynamicPricing.java:51-69 | empty input gives no group; otherwise the groups are nonempty ranges that expand back to the input in order, and each neighbour pair differs by a gap or a value |
| Pricing.GroupingStarts | src/main/java/com/hotelreservation/pricing/DynamicPricing.java:55-56 | the first entry opens a one-day run |
| Pricing.GroupingCloses | src/main/java/com/hotelreservation/pricing/DynamicPricing.java:60-64 | an entry that is not the next day or has another value closes the open run and opens a new one |
| Pricing.GroupingContinues | src/main/java/com/hotelreservation/pricing/DynamicPricing.java:58-65 | the next day at the same value lengthens the open run |
| Pricing.GroupingEnds | src/main/java/com/hotelreservation/pricing/DynamicPricing.java:67 | closing the last run completes a grouping of the whole input |
| Pricing.CloseGroup | src/main/java/com/hotelreservation/pricing/DynamicPricing.java:61 | appending a nonempty group separated from the last one keeps the runs maximal and extends the expansion by that run |
| Pricing.GroupingUnique | src/main/java/com/hotelreservation/pricing/DynamicPricing.java:51-69 | two groupings into maximal runs of the same entries are equal, so the result is determined by its input |
| Pricing.SortedRangeTable | src/main/java/com/hotelreservation/pricing/DynamicPricing.java:174-176 | the sorted entries of one expanded range are its consecutive days at its multiplier |
| Pricing.SingleRangeIsOneGroup | src/main/java/com/hotelreservation/pricing/DynamicPricing.java:254-258 | a seasonal table holding one range [s, e] reports exactly one group, [s, e] at its multiplier |
| Pricing.DynamicPricing.GetSeasonalPricingInfo | src/main/java/com/hotelreservation/pricing/DynamicPricing.java:254-258 | the result is the grouping into maximal runs of the sorted seasonal table |
| HotelStatistics.Filter | src/main/java/com/hotelreservation/statistics/Statistics.java:41-44 | the kept elements are elements of the list that pass the test, every passing element is kept, and the result is no longer than the list |
| HotelStatistics.FilterAppend | src/main/java/com/hotelreservation/statistics/Statistics.java:33-35 | filtering a concatenation is the concatenation of the filtered parts (order is kept) |
| HotelStatistics.IsWithinDateRange | src/main/java/com/hotelreservation/statistics/Statistics.java:111-113 | for a nonempty stay and window, the test holds exactly when the later start is no later than the earlier end, i.e. the intersection of the two ranges is nonempty |
| HotelStatistics.WithinDateRangeIffCommonDay | src/main/java/com/hotelreservation/statistics/Statistics.java:111-113 | for nonempty ranges, the overlap test holds exactly when some day lies in both the stay and the window |
| HotelStatistics.IsCurrentlyOccupied | src/main/java/com/hotelreservation/statistics/Statistics.java:106-109 | occupied exactly when start ≤ today ≤ end, i.e. the stay meets the one-day window of today |
| HotelStatistics.GetRoomType | src/main/java/com/hotelreservation/statistics/Statistics.java:122-130 | a failure is always "Room not found for reservation" |
| HotelStatistics.GetRoomTypeFirstMatch | src/main/java/com/hotelreservation/statistics/Statistics.java:122-130 | a type is found exactly when some room has the reservation's room id, and it is the type of the first such room |
| HotelStatistics.GetBasePrice | src/main/java/com/hotelreservation/statistics/Statistics.java:132-140 | the fixed price of each type is positive and equals the pricing engine's default for it (100/150/250) |
| HotelStatistics.CalculateReservationRevenue | src/main/java/com/hotelreservation/statistics/Statistics.java:115-120 | defined exactly when the room resolves; the value is the number of nights (end − start) times the fixed price of the first matching room's type; nonnegative for a stay that does not end before it starts |
| HotelStatistics.AllResolveIff | src/main/java/com/hotelreservation/statistics/Statistics.java:125-129 | the recursive "every room resolves" test holds exactly when every reservation's room is found |
| HotelStatistics.SumRevenue | src/main/java/com/hotelreservation/statistics/Statistics.java:36-37 | the sum is defined exactly when every reservation's room resolves |
| HotelStatistics.SumRevenueAppend | src/main/java/com/hotelreservation/statistics/Statistics.java:36-37 | the sum over a concatenation is defined when both parts are, and is the sum of the two sums |
| HotelStatistics.SumRevenueStep | src/main/java/com/hotelreservation/statistics/Statistics.java:36-37 | appending a reservation with a room adds its revenue to the sum |
| HotelStatistics.Statistics.CalculateRevenue | src/main/java/com/hotelreservation/statistics/Statistics.java:32-38 | a failure is always "Room not found for reservation" |
| HotelStatistics.RevenueDefinedIff | src/main/java/com/hotelreservation/statistics/Statistics.java:32-38 | revenue is defined exactly when every confirmed reservation meeting the window has a room |
| HotelStatistics.RevenueIgnoresUncounted | src/main/java/com/hotelreservation/statistics/Statistics.java:32-38 | adding a reservation that is cancelled or misses the window leaves the revenue unchanged |
| HotelStatistics.RevenueAddsCounted | src/main/java/com/hotelreservation/statistics/Statistics.java:32-38 | adding a confirmed reservation meeting the window adds exactly its whole-stay revenue |
| HotelStatistics.WholeStayCountsInWindow | src/main/java/com/hotelreservation/statistics/Statistics.java:115-120 | a 15-night single-room stay counts 1500 in full in a one-day window (no clipping) |
| HotelStatistics.Statistics.CalculateCancellations | src/main/java/com/hotelreservation/statistics/Statistics.java:40-45 | the count lies between 0 and the number of reservations |
| HotelStatistics.CancellationsStep | src/main/java/com/hotelreservation/statistics/Statistics.java:40-45 | adding a reservation adds 1 to the count exactly when it is cancelled and meets the window |
| HotelStatistics.Divide | src/main/java/com/hotelreservation/statistics/Statistics.java:29 | a double division of counts: finite with quotient × denominator = numerator when the denominator is positive, NaN for 0/0, infinite otherwise |
| HotelStatistics.Statistics.CalculateOccupancy | src/main/java/com/hotelreservation/statistics/Statistics.java:23-30 | the ratio is finite exactly when there are rooms, and then it is occupied reservations / rooms (Divide gives ratio × rooms = occupied); with no rooms it is NaN when nothing is occupied and Infinity otherwise |
| HotelStatistics.OccupancyOfEmptyHotelIsNaN | src/main/java/com/hotelreservation/statistics/Statistics.java:23-30 | the occupancy of a hotel with no rooms and no reservations is NaN |
| HotelStatistics.Ratio | src/main/java/com/hotelreservation/statistics/Statistics.java:61 | a guarded ratio: 0 when the denominator is 0, otherwise the finite double quotient; never negative |
| HotelStatistics.Statistics.GuardedOccupancy | src/main/java/com/hotelreservation/statistics/Statistics.java:23-30 | 0 for a hotel without rooms, otherwise the same value as the unguarded occupancy |
| HotelStatistics.RoomsOfType | src/main/java/com/hotelreservation/statistics/Statistics.java:51-55 | a type's room count never exceeds the number of rooms |
| HotelStatistics.RoomsOfTypeAddUp | src/main/java/com/hotelreservation/statistics/Statistics.java:51-55 | the per-type room counts add up to the number of rooms |
| HotelStatistics.CountOfType | src/main/java/com/hotelreservation/statistics/Statistics.java:56-60 | the per-type count is defined exactly when every room resolves, and never exceeds the list length |
| HotelStatistics.CountsOfTypeAddUp | src/main/java/com/hotelreservation/statistics/Statistics.java:93-96 | when every room resolves, the per-type counts add up to the list length |
| HotelStatistics.RevenueOfType | src/main/java/com/hotelreservation/statistics/Statistics.java:74-78 | the per-type revenue is defined exactly when every room resolves |
| HotelStatistics.RevenuesOfTypeAddUp | src/main/java/com/hotelreservation/statistics/Statistics.java:74-78 | when every room resolves, the per-type revenues add up to the summed revenue |
| HotelStatistics.RoomsOfTypeIsFilter | src/main/java/com/hotelreservation/statistics/Statistics.java:51-55 | a type's room count is the number of rooms of exactly that type |
| HotelStatistics.CountOfTypeIsFilter | src/main/java/com/hotelreservation/statistics/Statistics.java:56-60 | when every room resolves, a type's count is the number of reservations whose room is of exactly that type |
| HotelStatistics.RevenueOfTypeIsFilter | src/main/java/com/hotelreservation/statistics/Statistics.java:74-78 | when every room resolves, a type's revenue is the summed revenue of exactly the reservations whose room is of that type |
| HotelStatistics.TypeOccupancyCountsType | src/main/java/com/hotelreservation/statistics/Statistics.java:51-62 | a report line counts the rooms of its type and the occupied confirmed reservations whose room is of that type |
| HotelStatistics.TypeRevenueSumsType | src/main/java/com/hotelreservation/statistics/Statistics.java:71-78 | a type's revenue figure sums the confirmed reservations meeting the window whose room is of that type, and no others |
| HotelStatistics.TypeCancellationsCountsType | src/main/java/com/hotelreservation/statistics/Statistics.java:90-96 | a type's cancellation figure counts the cancelled reservations meeting the window whose room is of that type |
| HotelStatistics.Statistics.TypeOccupancy | src/main/java/com/hotelreservation/statistics/Statistics.java:54-62 | a report line holds the type's room count, its occupied count and their guarded ratio (0 without rooms), and fails exactly when an occupied reservation's room is missing |
| HotelStatistics.TypeOccupiedAddUp | src/main/java/com/hotelreservation/statistics/Statistics.java:51-63 | the per-type occupied counts add up to the overall occupied count, and the per-type room counts to the number of rooms |
| HotelStatistics.TypeRevenuesAddUp | src/main/java/com/hotelreservation/statistics/Statistics.java:71-81 | when the total revenue is defined, the per-type revenues of the report add up to it |
| HotelStatistics.Statistics.TypeRevenue | src/main/java/com/hotelreservation/statistics/Statistics.java:71-78 | a type's revenue figure is defined exactly when the total revenue is, and fails only with "Room not found for reservation"; TypeRevenuesAddUp adds them up |
| HotelStatistics.Statistics.TypeCancellations | src/main/java/com/hotelreservation/statistics/Statistics.java:93-96 | a type's cancellation count never exceeds the total cancellation count, and fails only with "Room not found for reservation" |
| HotelStatistics.TypeCancellationsAddUp | src/main/java/com/hotelreservation/statistics/Statistics.java:90-100 | when the per-type cancellation counts are defined, they add up to the cancellation count |
| Rooms.Room.constructor | src/main/java/com/hotelreservation/model/Room.java:11-15 | the room holds exactly the given id, type and availability |
| Rooms.Room.SetRoomId | src/main/java/com/hotelreservation/model/Room.java:22-24 | only the id changes, to the new value |
| Rooms.Room.SetRoomType | src/main/java/com/hotelreservation/model/Room.java:30-32 | only the type changes, to the new value |
| Rooms.Room.SetAvailable | src/main/java/com/hotelreservation/model/Room.java:38-40 | only the availability changes, to the new value |
| Reservations.Cancelled | src/main/java/com/hotelreservation/model/Reservation.java:98-100 | the status is CANCELLED and no other field differs |
| Reservations.CancelledIdempotent | src/main/java/com/hotelreservation/model/Reservation.java:98-100 | cancelling twice is the same as cancelling once |
| Reservations.Modified | src/main/java/com/hotelreservation/model/Reservation.java:92-96 | the new dates and room are set; id, customer, status and price are kept |
| Reservations.Reservation.constructor | src/main/java/com/hotelreservation/model/Reservation.java:19-26 | the given id, dates, status, room and customer are stored and the price is 0 |
| Reservations.Reservation.SetReservationId | src/main/java/com/hotelreservation/model/Reservation.java:32-34 | only the id changes |
| Reservations.Reservation.SetCustomer | src/main/java/com/hotelreservation/model/Reservation.java:44-46 | only the customer changes |
| Reservations.Reservation.SetRoomId | src/main/java/com/hotelreservation/model/Reservation.java:52-54 | only the room id changes |
| Reservations.Reservation.SetStartDate | src/main/java/com/hotelreservation/model/Reservation.java:60-62 | only the start date changes |
| Reservations.Reservation.SetEndDate | src/main/java/com/hotelreservation/model/Reservation.java:68-70 | only the end date changes |
| Reservations.Reservation.SetStatus | src/main/java/com/hotelreservation/model/Reservation.java:76-78 | only the status changes |
| Reservations.Reservation.SetTotalPrice | src/main/java/com/hotelreservation/model/Reservation.java:84-86 | only the price changes, and reading it back gives the value set |
| Reservations.Reservation.ModifyReservation | src/main/java/com/hotelreservation/model/Reservation.java:92-96 | the reservation becomes its modified version: new dates and room, everything else kept |
| Reservations.Reservation.CancelReservation | src/main/java/com/hotelreservation/model/Reservation.java:98-100 | the reservation becomes its cancelled version: status CANCELLED, everything else kept |
| Hotels.AvailableAmong | src/main/java/com/hotelreservation/model/Hotel.java:63-65 | exactly the available rooms of the list are kept, and the result is no longer than the list |
| Hotels.AvailableAmongAppend | src/main/java/com/hotelreservation/model/Hotel.java:63-65 | filtering a concatenation filters each part, so the kept rooms stay in list order |
| Hotels.Hotel.constructor | src/main/java/com/hotelreservation/model/Hotel.java:15-20 | the hotel has the given id, name and address and no rooms |
| Hotels.Hotel.SetHotelId | src/main/java/com/hotelreservation/model/Hotel.java:27-29 | only the id changes |
| Hotels.Hotel.SetName | src/main/java/com/hotelreservation/model/Hotel.java:35-37 | only the name changes |
| Hotels.Hotel.SetAddress | src/main/java/com/hotelreservation/model/Hotel.java:43-45 | only the address changes |
| Hotels.Hotel.SetRooms | src/main/java/com/hotelreservation/model/Hotel.java:51-53 | only the room list changes |
| Hotels.Hotel.AddRoom | src/main/java/com/hotelreservation/model/Hotel.java:55-57 | the room is appended after the earlier rooms, and the available rooms grow by it exactly when it is available |
| Hotels.Hotel.GetAvailableRooms | src/main/java/com/hotelreservation/model/Hotel.java:63-65 | exactly the available rooms of the hotel, never more than its rooms; a function, so the hotel is unchanged |
| Service.CancelInStore | src/main/java/com/hotelreservation/service/ReservationService.java:76-78 | the store keeps its keys and every other entry; the cancelled entry is its cancelled version |
| Service.CancelInStoreIdempotent | src/main/java/com/hotelreservation/service/ReservationService.java:73-82 | cancelling the same reservation twice leaves the store as cancelling it once |
| Service.ReservationService.constructor | src/main/java/com/hotelreservation/service/ReservationService.java:20-24 | the service holds the given stores and pricing engine |
| Service.ReservationService.CreateReservation | src/main/java/com/hotelreservation/service/ReservationService.java:26-39 | an unknown room fails with "Room not found with ID" and changes nothing; otherwise the price is the engine's stay price for the room's type, the reservation gets the generated id and is stored under it, and the stored record is returned |
| Service.ReservationService.CancelReservation | src/main/java/com/hotelreservation/service/ReservationService.java:73-82 | an unknown id fails with "Reservation not found with ID" and changes nothing; otherwise the stored reservation is replaced by its cancelled version |

## Left out

- Reading and writing the database: `loadPricingData` and the three loaders (`DynamicPricing.java:71-124`), the SQL statements inside the pricing setters and `clear*`, and the repositories. Each setter is modelled as the table update that follows a successful statement. SQL failures are not modelled.
- The stores are abstract maps. The repository's own SQL stores no `total_price` column. `CreateReservation` keeps the whole record, including the price.
- `CreateReservation` takes an explicit occupancy rate. The code calls a three-argument `calculatePrice` (`ReservationService.java:29-33`), but only the four-argument one (`DynamicPricing.java:127`) is defined.
- `CreateReservation` returns the stored record. The code returns the result of `save`, which is `void` (`ReservationService.java:35`).
- `CreateReservation` takes the database-generated key as a parameter.
- The clock: `LocalDate.now()` becomes a `today` parameter. The month-long cancellation window (`Statistics.java:90-95`) is passed in as a start and end day, because calendar-month arithmetic is not modelled.
- Report text. `StringBuilder` and `String.format` output is not modelled, only the figures the reports compute.
- `generateRoomTypePerformanceReport` (`Statistics.java:142-152`). It calls two methods that are not defined anywhere (`Statistics.java:145-146`).
- `HotelManagementSystem.java:42` builds `Statistics` with three arguments, while the only constructor takes two. The console menu in that file is not part of this model.
- IEEE-754 doubles. Prices and factors are exact reals, so rounding and `DoubleStream.sum` compensation are not modelled. Non-finite values and signed zero are not modelled either, apart from division by zero in `Quotient`. The unmodelled effects include the following:
  - a NaN factor or a product overflowing to Infinity;
  - `Double.equals` at `DynamicPricing.java:60`, which splits a run at 0.0 against -0.0 and keeps NaN factors together;
  - `max(Double::compare)` at `DynamicPricing.java:219`, which lets a NaN event factor win;
  - a NaN occupancy rate, which fails both tests at `DynamicPricing.java:199-203` and gets discount 0.
- Integer widths. The `long` night count with the `int` loop counter, and the `(int)` cast of the cancellation count, are unbounded integers here.
- `getCurrentBasePrices` and `getEventPricingInfo` (`DynamicPricing.java:250-264`). They copy a table or list it sorted, and the core computes nothing with them.
- `DEFAULT_OCCUPANCY_DISCOUNT` (`DynamicPricing.java:18`) is never used.
- Object identity and aliasing. Statistics and the stores work on value records. `Hotel.getRooms` handing out its live list is not modelled.
- Getters, `toString` and `getReservationDetails` are not modelled. Each getter reads a field the setters' contracts already describe.
- The repository pass-throughs of the service (`ReservationService.java:41-71`) are not modelled.
- The `Customer` object is represented by its id.
- The room-type and status enumeration files are not part of this model. The types are `SINGLE | DOUBLE | SUITE` (the cases of `Statistics.java:134-137`) and `CONFIRMED | CANCELLED`. With three types, the `default` branch of `Statistics.java:138` cannot be reached.
- HotelStatistics.WithinDateRangeIffCommonDay: assumes a nonempty stay and a nonempty window. With an inverted window, the code's test can hold although no day lies in both ranges.
- HotelStatistics.Statistics.CalculateRevenue, HotelStatistics.SumRevenue and HotelStatistics.GetRoomType: their own contracts state only the error. "Defined exactly when every room resolves" and "first match" are separate lemmas (RevenueDefinedIff, AllResolveIff, GetRoomTypeFirstMatch).

## Findings

| source | as written | input that shows it | evidently intended | confidence | as-written member | corrected member |
|---|---|---|---|---|---|---|
| src/main/java/com/hotelreservation/statistics/Statistics.java:23-30 | the occupied count is divided by the room count with no guard | no rooms and no reservations: 0/0 is NaN, and the report prints "NaN%"; with an occupied reservation and no rooms it is Infinity | 0 for a hotel without rooms, as the per-type figure guards at line 61 | not executed | HotelStatistics.OccupancyOfEmptyHotelIsNaN | HotelStatistics.Statistics.GuardedOccupancy |
