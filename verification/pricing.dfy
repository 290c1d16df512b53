/**
 * The in-memory pricing engine: a base price per room type, a per-day
 * seasonal multiplier table, a per-day table of named event multipliers,
 * and the nightly and stay prices composed from them.
 *
 * Days are epoch days (day 0 is 1970-01-01, a Thursday). Prices and
 * multipliers are exact reals rather than IEEE doubles.
 */
module Pricing {
  import opened Common

  /** Factor applied to a Saturday or Sunday night. */
  const WEEKEND_MULTIPLIER: real := 1.5

  /** ISO day of the week (1 = Monday, ..., 7 = Sunday) of an epoch day. */
  function DayOfWeek(day: int): int
  {
    (day + 3) % 7 + 1
  }

  /**
   * Day 0 is a Thursday, every day has a weekday from 1 to 7, each day moves
   * the weekday on by one (Sunday wraps to Monday) and a week later it is the same.
   */
  lemma DayOfWeekCalendar(day: int)
    ensures DayOfWeek(0) == 4
    ensures 1 <= DayOfWeek(day) <= 7
    ensures DayOfWeek(day + 1) == DayOfWeek(day) % 7 + 1
    ensures DayOfWeek(day + 7) == DayOfWeek(day)
  {
  }

  /** The prices the constructor installs when no base price was loaded. */
  function DefaultBasePrices(): map<RoomType, real>
  {
    map[SINGLE := 100.0, DOUBLE := 150.0, SUITE := 250.0]
  }

  /** The day-by-day table that expanding [startDate, endDate] at one factor produces. */
  function RangeTable(startDate: int, endDate: int, multiplier: real): (table: map<int, real>)
    ensures forall d :: d in table <==> startDate <= d <= endDate
    ensures forall d :: d in table ==> table[d] == multiplier
    decreases endDate - startDate
  {
    if endDate < startDate then map[]
    else RangeTable(startDate, endDate - 1, multiplier)[endDate := multiplier]
  }

  // ---------------------------------------------------------------------
  // Extremes of finite sets, used by the event maximum and by sorting
  // ---------------------------------------------------------------------

  lemma {:induction false} GreatestExists(values: set<real>)
    requires values != {}
    ensures exists m :: m in values && forall v :: v in values ==> v <= m
    decreases values
  {
    if forall v :: v !in values {
      assert false;
    }
    var x :| x in values;
    if values != {x} {
      var rest := values - {x};
      GreatestExists(rest);
      var m :| m in rest && forall v :: v in rest ==> v <= m;
      var top := if x <= m then m else x;
      forall v | v in values
        ensures v <= top
      {
        if v != x {
          assert v in rest;
        }
      }
    }
  }

  /** The largest of a nonempty set of factors. */
  function Greatest(values: set<real>): (m: real)
    requires values != {}
    ensures m in values && forall v :: v in values ==> v <= m
  {
    GreatestExists(values);
    var m :| m in values && forall v :: v in values ==> v <= m;
    m
  }

  lemma {:induction false} LeastExists(days: set<int>)
    requires days != {}
    ensures exists m :: m in days && forall d :: d in days ==> m <= d
    decreases days
  {
    if forall d :: d !in days {
      assert false;
    }
    var x :| x in days;
    if days != {x} {
      var rest := days - {x};
      LeastExists(rest);
      var m :| m in rest && forall d :: d in rest ==> m <= d;
      var bottom := if m <= x then m else x;
      forall d | d in days
        ensures bottom <= d
      {
        if d != x {
          assert d in rest;
        }
      }
    }
  }

  /** The earliest of a nonempty set of days. */
  function Least(days: set<int>): (m: int)
    requires days != {}
    ensures m in days && forall d :: d in days ==> m <= d
  {
    LeastExists(days);
    var m :| m in days && forall d :: d in days ==> m <= d;
    m
  }

  lemma EventValuesNonEmpty(events: map<string, real>)
    requires events != map[]
    ensures events.Values != {}
  {
    if forall name :: name !in events {
      assert false;
    }
    var some :| some in events;
    assert events[some] in events.Values;
  }

  /** The largest factor of a nonempty table of named factors bounds every entry and belongs to one of them. */
  lemma GreatestEntry(events: map<string, real>)
    requires events != map[]
    ensures events.Values != {}
    ensures forall name :: name in events ==> events[name] <= Greatest(events.Values)
    ensures exists name :: name in events && events[name] == Greatest(events.Values)
  {
    if forall name :: name !in events {
      assert false;
    }
    var some :| some in events;
    assert events[some] in events.Values;
    var top := Greatest(events.Values);
    forall name | name in events
      ensures events[name] <= top
    {
      assert events[name] in events.Values;
    }
  }

  // ---------------------------------------------------------------------
  // Sorting the seasonal table and grouping consecutive days
  // ---------------------------------------------------------------------

  /** A closed range of days, [startDate, endDate]. */
  datatype DateRange = DateRange(startDate: int, endDate: int)

  /** One reported seasonal group: a range of days sharing one multiplier. */
  datatype SeasonalGroup = SeasonalGroup(range: DateRange, multiplier: real)

  /** The entries of a table in chronological order. */
  function SortedEntries(table: map<int, real>): (entries: seq<(int, real)>)
    ensures |entries| == |table|
    ensures forall i :: 0 <= i < |entries| ==> entries[i].0 in table && table[entries[i].0] == entries[i].1
    ensures forall i, j :: 0 <= i < j < |entries| ==> entries[i].0 < entries[j].0
    decreases |table|
  {
    if table == map[] then []
    else
      assert table.Keys != {} by {
        if forall d :: d !in table {
          assert false;
        }
        var d :| d in table;
        assert d in table.Keys;
      }
      var first := Least(table.Keys);
      assert |table - {first}| == |table| - 1 by {
        assert (table - {first}).Keys == table.Keys - {first};
      }
      [(first, table[first])] + SortedEntries(table - {first})
  }

  /** The entries (day, value) for `days` consecutive days from startDate, all with one value. */
  function Run(startDate: int, days: nat, multiplier: real): (entries: seq<(int, real)>)
    ensures |entries| == days
    decreases days
  {
    if days == 0 then [] else [(startDate, multiplier)] + Run(startDate + 1, days - 1, multiplier)
  }

  /** Entry k of a run is day startDate + k at the run's value. */
  lemma {:induction false} RunEntries(startDate: int, days: nat, multiplier: real)
    ensures forall k :: 0 <= k < days ==> Run(startDate, days, multiplier)[k] == (startDate + k, multiplier)
    decreases days
  {
    if days > 0 {
      RunEntries(startDate + 1, days - 1, multiplier);
      forall k | 1 <= k < days
        ensures Run(startDate, days, multiplier)[k] == Run(startDate + 1, days - 1, multiplier)[k - 1]
      {
      }
    }
  }

  /** Number of days in a closed range (0 if it is inverted). */
  function Days(range: DateRange): nat
  {
    if range.startDate <= range.endDate then range.endDate - range.startDate + 1 else 0
  }

  /** The entries one group stands for. */
  function GroupEntries(group: SeasonalGroup): seq<(int, real)>
  {
    Run(group.range.startDate, Days(group.range), group.multiplier)
  }

  /** The entries a list of groups stands for, group after group. */
  function Expand(groups: seq<SeasonalGroup>): seq<(int, real)>
  {
    if groups == [] then [] else GroupEntries(groups[0]) + Expand(groups[1..])
  }

  /** Two adjacent groups are kept apart by a gap in the days or by a change of value. */
  predicate Separated(earlier: SeasonalGroup, later: SeasonalGroup)
  {
    later.range.startDate != earlier.range.endDate + 1 || later.multiplier != earlier.multiplier
  }

  /** Every group is a nonempty range and no two neighbours could have been merged. */
  ghost predicate MaximalRuns(groups: seq<SeasonalGroup>)
  {
    && (forall i :: 0 <= i < |groups| ==> groups[i].range.startDate <= groups[i].range.endDate)
    && (forall i :: 1 <= i < |groups| ==> Separated(groups[i - 1], groups[i]))
  }

  /** `groups` is the grouping of `entries` into maximal runs of consecutive days with one value. */
  ghost predicate IsGrouping(entries: seq<(int, real)>, groups: seq<SeasonalGroup>)
  {
    MaximalRuns(groups) && Expand(groups) == entries
  }

  /** Length of the longest prefix of `entries` that continues the run (start, m), (start + 1, m), ... */
  function RunLength(entries: seq<(int, real)>, start: int, m: real): (n: nat)
    ensures n <= |entries|
  {
    if entries != [] && entries[0] == (start, m) then 1 + RunLength(entries[1..], start + 1, m) else 0
  }

  lemma {:induction false} ExpandAppend(groups: seq<SeasonalGroup>, group: SeasonalGroup)
    ensures Expand(groups + [group]) == Expand(groups) + GroupEntries(group)
  {
    if groups == [] {
      assert groups + [group] == [group];
    } else {
      assert (groups + [group])[1..] == groups[1..] + [group];
      ExpandAppend(groups[1..], group);
    }
  }

  /** Closing a nonempty group that is separated from the last one keeps the runs maximal. */
  lemma CloseGroup(groups: seq<SeasonalGroup>, closed: SeasonalGroup, days: nat)
    requires MaximalRuns(groups)
    requires days >= 1 && closed.range.endDate == closed.range.startDate + days - 1
    requires groups != [] ==> Separated(groups[|groups| - 1], closed)
    ensures MaximalRuns(groups + [closed])
    ensures Expand(groups + [closed]) == Expand(groups) + Run(closed.range.startDate, days, closed.multiplier)
  {
    ExpandAppend(groups, closed);
    var extended := groups + [closed];
    forall i | 1 <= i < |extended|
      ensures Separated(extended[i - 1], extended[i])
    {
      if i < |groups| {
        assert extended[i - 1] == groups[i - 1] && extended[i] == groups[i];
      }
    }
  }

  /**
   * The state of the grouping after the first i entries: the closed groups are
   * maximal runs, the open run [startDate, startDate + days - 1] at `multiplier`
   * ends with entry i - 1 and cannot be merged into the last closed group, and
   * together they spell out the first i entries.
   */
  ghost predicate GroupingSoFar(entries: seq<(int, real)>, i: int, groups: seq<SeasonalGroup>,
                                startDate: int, multiplier: real, days: nat)
  {
    && 1 <= i <= |entries|
    && days >= 1 && entries[i - 1].0 == startDate + days - 1
    && MaximalRuns(groups)
    && (groups != [] ==>
          Separated(groups[|groups| - 1], SeasonalGroup(DateRange(startDate, startDate + days - 1), multiplier)))
    && Expand(groups) + Run(startDate, days, multiplier) == entries[..i]
  }

  lemma GroupingStarts(entries: seq<(int, real)>)
    requires entries != []
    ensures GroupingSoFar(entries, 1, [], entries[0].0, entries[0].1, 1)
  {
    StartRun([], [], entries[0]);
    assert entries[..1] == [] + [entries[0]];
  }

  lemma GroupingCloses(entries: seq<(int, real)>, i: int, groups: seq<SeasonalGroup>,
                       startDate: int, multiplier: real, days: nat)
    requires GroupingSoFar(entries, i, groups, startDate, multiplier, days) && i < |entries|
    requires entries[i].0 - 1 != entries[i - 1].0 || entries[i].1 != multiplier
    ensures GroupingSoFar(entries, i + 1, groups + [SeasonalGroup(DateRange(startDate, entries[i - 1].0), multiplier)],
                          entries[i].0, entries[i].1, 1)
  {
    var closed := SeasonalGroup(DateRange(startDate, entries[i - 1].0), multiplier);
    CloseGroup(groups, closed, days);
    StartRun(Expand(groups + [closed]), entries[..i], entries[i]);
    assert entries[..i + 1] == entries[..i] + [entries[i]];
    var extended := groups + [closed];
    assert extended[|extended| - 1] == closed;
  }

  lemma GroupingContinues(entries: seq<(int, real)>, i: int, groups: seq<SeasonalGroup>,
                          startDate: int, multiplier: real, days: nat)
    requires GroupingSoFar(entries, i, groups, startDate, multiplier, days) && i < |entries|
    requires !(entries[i].0 - 1 != entries[i - 1].0 || entries[i].1 != multiplier)
    ensures GroupingSoFar(entries, i + 1, groups, startDate, multiplier, days + 1)
  {
    ContinueRun(Expand(groups), startDate, days, multiplier, entries[..i], entries[i]);
    assert entries[..i + 1] == entries[..i] + [entries[i]];
  }

  lemma GroupingEnds(entries: seq<(int, real)>, groups: seq<SeasonalGroup>,
                     startDate: int, multiplier: real, days: nat)
    requires GroupingSoFar(entries, |entries|, groups, startDate, multiplier, days)
    ensures IsGrouping(entries, groups + [SeasonalGroup(DateRange(startDate, entries[|entries| - 1].0), multiplier)])
  {
    CloseGroup(groups, SeasonalGroup(DateRange(startDate, entries[|entries| - 1].0), multiplier), days);
    assert entries[..|entries|] == entries;
  }

  /** A new one-day run after the closed groups. */
  lemma StartRun(closed: seq<(int, real)>, prefix: seq<(int, real)>, entry: (int, real))
    requires closed == prefix
    ensures closed + Run(entry.0, 1, entry.1) == prefix + [entry]
  {
    assert Run(entry.0, 1, entry.1) == [(entry.0, entry.1)];
  }

  /** The next day at the same value lengthens the open run by one. */
  lemma ContinueRun(closed: seq<(int, real)>, startDate: int, days: nat, multiplier: real,
                    prefix: seq<(int, real)>, entry: (int, real))
    requires closed + Run(startDate, days, multiplier) == prefix
    requires entry == (startDate + days, multiplier)
    ensures closed + Run(startDate, days + 1, multiplier) == prefix + [entry]
  {
    RunExtend(startDate, days, multiplier);
  }

  /** A run grows at its end: one more day is the next day at the same value. */
  lemma {:induction false} RunExtend(startDate: int, days: nat, multiplier: real)
    ensures Run(startDate, days + 1, multiplier) == Run(startDate, days, multiplier) + [(startDate + days, multiplier)]
    decreases days
  {
    if days > 0 {
      RunExtend(startDate + 1, days - 1, multiplier);
    }
  }

  /** A run of n days followed by other entries continues for n days plus however long the rest continues it. */
  lemma {:induction false} RunLengthAppend(startDate: int, days: nat, multiplier: real, rest: seq<(int, real)>)
    ensures RunLength(Run(startDate, days, multiplier) + rest, startDate, multiplier)
            == days + RunLength(rest, startDate + days, multiplier)
    decreases days
  {
    var entries := Run(startDate, days, multiplier) + rest;
    if days == 0 {
      assert entries == rest;
    } else {
      assert entries[1..] == Run(startDate + 1, days - 1, multiplier) + rest;
      RunLengthAppend(startDate + 1, days - 1, multiplier, rest);
    }
  }

  /** The expansion of nonempty maximal runs starts with the first day of the first group. */
  lemma ExpandHead(groups: seq<SeasonalGroup>)
    requires MaximalRuns(groups) && groups != []
    ensures Expand(groups) != [] && Expand(groups)[0] == (groups[0].range.startDate, groups[0].multiplier)
  {
    assert Expand(groups) == GroupEntries(groups[0]) + Expand(groups[1..]);
  }

  /** The groups after the first do not continue its run. */
  lemma TailBreaksRun(groups: seq<SeasonalGroup>)
    requires MaximalRuns(groups) && groups != []
    ensures RunLength(Expand(groups[1..]), groups[0].range.endDate + 1, groups[0].multiplier) == 0
  {
    if |groups| > 1 {
      MaximalRunsTail(groups);
      ExpandHead(groups[1..]);
    } else {
      assert groups[1..] == [];
    }
  }

  /** The first group of a grouping into maximal runs is exactly the leading run of its entries. */
  lemma FirstGroupRunLength(groups: seq<SeasonalGroup>)
    requires MaximalRuns(groups) && groups != []
    ensures Days(groups[0].range) == RunLength(Expand(groups), groups[0].range.startDate, groups[0].multiplier)
  {
    var g := groups[0];
    assert Expand(groups) == GroupEntries(g) + Expand(groups[1..]);
    RunLengthAppend(g.range.startDate, Days(g.range), g.multiplier, Expand(groups[1..]));
    TailBreaksRun(groups);
  }

  lemma MaximalRunsTail(groups: seq<SeasonalGroup>)
    requires MaximalRuns(groups) && groups != []
    ensures MaximalRuns(groups[1..])
  {
    forall i | 1 <= i < |groups[1..]|
      ensures Separated(groups[1..][i - 1], groups[1..][i])
    {
      assert groups[1..][i - 1] == groups[i] && groups[1..][i] == groups[i + 1];
    }
  }

  lemma ExpandEmptyIff(groups: seq<SeasonalGroup>)
    requires MaximalRuns(groups)
    ensures Expand(groups) == [] <==> groups == []
  {
    if groups != [] {
      ExpandHead(groups);
    }
  }

  /** The grouping into maximal runs is unique: two groupings of the same entries are equal. */
  lemma {:induction false} GroupingUnique(groups: seq<SeasonalGroup>, others: seq<SeasonalGroup>)
    requires MaximalRuns(groups) && MaximalRuns(others)
    requires Expand(groups) == Expand(others)
    ensures groups == others
    decreases |groups|
  {
    ExpandEmptyIff(groups);
    ExpandEmptyIff(others);
    if groups != [] {
      var g, h := groups[0], others[0];
      ExpandHead(groups);
      ExpandHead(others);
      FirstGroupRunLength(groups);
      FirstGroupRunLength(others);
      assert g == h;
      assert Expand(groups[1..]) == Expand(others[1..]) by {
        assert Expand(groups) == GroupEntries(g) + Expand(groups[1..]);
        assert Expand(others) == GroupEntries(h) + Expand(others[1..]);
        assert Expand(groups[1..]) == Expand(groups)[|GroupEntries(g)|..];
        assert Expand(others[1..]) == Expand(others)[|GroupEntries(h)|..];
      }
      MaximalRunsTail(groups);
      MaximalRunsTail(others);
      GroupingUnique(groups[1..], others[1..]);
      assert groups == [g] + groups[1..];
      assert others == [h] + others[1..];
    }
  }

  lemma {:induction false} SortedRangeTable(startDate: int, endDate: int, multiplier: real)
    requires startDate <= endDate + 1
    ensures SortedEntries(RangeTable(startDate, endDate, multiplier)) == Run(startDate, endDate - startDate + 1, multiplier)
    decreases endDate - startDate
  {
    var table := RangeTable(startDate, endDate, multiplier);
    if startDate > endDate {
      assert table == map[];
    } else {
      assert startDate in table;
      var first := Least(table.Keys);
      assert first == startDate;
      assert table - {first} == RangeTable(startDate + 1, endDate, multiplier);
      SortedRangeTable(startDate + 1, endDate, multiplier);
      assert Run(startDate, endDate - startDate + 1, multiplier)
          == [(startDate, multiplier)] + Run(startDate + 1, endDate - startDate, multiplier);
    }
  }

  /** A table holding exactly one range reports as exactly one group. */
  lemma SingleRangeIsOneGroup(startDate: int, endDate: int, multiplier: real, groups: seq<SeasonalGroup>)
    requires startDate <= endDate
    requires IsGrouping(SortedEntries(RangeTable(startDate, endDate, multiplier)), groups)
    ensures groups == [SeasonalGroup(DateRange(startDate, endDate), multiplier)]
  {
    var single := [SeasonalGroup(DateRange(startDate, endDate), multiplier)];
    SortedRangeTable(startDate, endDate, multiplier);
    assert Expand(single) == GroupEntries(single[0]) + Expand([]);
    GroupingUnique(groups, single);
  }

  // ---------------------------------------------------------------------
  // The pricing engine
  // ---------------------------------------------------------------------

  class DynamicPricing {
    var basePrices: map<RoomType, real>
    var seasonalMultipliers: map<int, real>
    var eventPricing: map<int, map<string, real>>

    /**
     * The tables start as the database loaded them (reading the database is not
     * part of this model); an empty base-price table gets the default prices.
     */
    constructor (loadedBasePrices: map<RoomType, real>, loadedSeasonal: map<int, real>,
                 loadedEvents: map<int, map<string, real>>)
      ensures basePrices == if loadedBasePrices == map[] then DefaultBasePrices() else loadedBasePrices
      ensures seasonalMultipliers == loadedSeasonal && eventPricing == loadedEvents
    {
      var prices := loadedBasePrices;
      if prices == map[] {
        prices := prices[SINGLE := 100.0];
        prices := prices[DOUBLE := 150.0];
        prices := prices[SUITE := 250.0];
      }
      basePrices := prices;
      seasonalMultipliers := loadedSeasonal;
      eventPricing := loadedEvents;
    }

    static function GetOccupancyBasedDiscount(occupancyRate: real): (discount: real)
      ensures 0.0 <= discount <= 0.2
      ensures occupancyRate >= 0.5 ==> discount == 0.0
      ensures occupancyRate < 0.3 ==> discount == 0.2
      ensures 0.3 <= occupancyRate < 0.5 ==> discount == 0.1
    {
      if occupancyRate < 0.3 then 0.2
      else if occupancyRate < 0.5 then 0.1
      else 0.0
    }

    /** Saturday or Sunday: the epoch days with remainder 2 and 3 modulo 7. */
    static function IsWeekend(date: int): (weekend: bool)
      ensures weekend <==> date % 7 == 2 || date % 7 == 3
    {
      var dayOfWeek := DayOfWeek(date);
      dayOfWeek == 6 || dayOfWeek == 7
    }

    function GetBasePrice(roomType: RoomType): (price: real)
      reads this
      ensures roomType in basePrices ==> price == basePrices[roomType]
      ensures roomType !in basePrices ==> price == 0.0
    {
      if roomType in basePrices then basePrices[roomType] else 0.0
    }

    function GetSeasonalMultiplier(date: int): (multiplier: real)
      reads this
      ensures date in seasonalMultipliers ==> multiplier == seasonalMultipliers[date]
      ensures date !in seasonalMultipliers ==> multiplier == 1.0
    {
      if date in seasonalMultipliers then seasonalMultipliers[date] else 1.0
    }

    /** Whether any named event is priced on `date`. */
    predicate HasEvents(date: int)
      reads this
    {
      date in eventPricing && eventPricing[date] != map[]
    }

    /** The largest factor of the day's events: one of them and no smaller than any; 1 on a day without events. */
    function GetEventMultiplier(date: int): (multiplier: real)
      reads this
      ensures !HasEvents(date) ==> multiplier == 1.0
      ensures HasEvents(date) ==>
                && (exists name :: name in eventPricing[date] && eventPricing[date][name] == multiplier)
                && (forall name :: name in eventPricing[date] ==> eventPricing[date][name] <= multiplier)
    {
      if HasEvents(date) then
        GreatestEntry(eventPricing[date]);
        Greatest(eventPricing[date].Values)
      else 1.0
    }

    /** The price of the night of `date`: base, weekend, seasonal, event and occupancy factors applied in turn. */
    function NightlyPrice(date: int, roomType: RoomType, occupancyRate: real): (price: real)
      reads this
      ensures occupancyRate >= 0.5 ==>
                price == GetBasePrice(roomType) * (if IsWeekend(date) then 1.5 else 1.0)
                         * GetSeasonalMultiplier(date) * GetEventMultiplier(date)
    {
      UndiscountedPrice(date, roomType) * (1.0 - GetOccupancyBasedDiscount(occupancyRate))
    }

    /** The price of the night of `date` before the occupancy discount. */
    function UndiscountedPrice(date: int, roomType: RoomType): real
      reads this
    {
      var basePrice := GetBasePrice(roomType);
      var weekendPrice := if IsWeekend(date) then basePrice * WEEKEND_MULTIPLIER else basePrice;
      weekendPrice * GetSeasonalMultiplier(date) * GetEventMultiplier(date)
    }

    /** Sum of the nightly prices of the first `nights` nights from startDate (0 if nights <= 0). */
    function StayPrice(startDate: int, nights: int, roomType: RoomType, occupancyRate: real): (total: real)
      reads this
      ensures nights <= 0 ==> total == 0.0
      ensures nights == 1 ==> total == NightlyPrice(startDate, roomType, occupancyRate)
      decreases nights
    {
      if nights <= 0 then 0.0
      else StayPrice(startDate, nights - 1, roomType, occupancyRate)
           + NightlyPrice(startDate + nights - 1, roomType, occupancyRate)
    }

    /** The price of one night, computed factor by factor. */
    method DailyPrice(currentDate: int, roomType: RoomType, occupancyRate: real) returns (dailyPrice: real)
      ensures dailyPrice == NightlyPrice(currentDate, roomType, occupancyRate)
    {
      dailyPrice := GetBasePrice(roomType);
      if IsWeekend(currentDate) {
        dailyPrice := dailyPrice * WEEKEND_MULTIPLIER;
      }
      dailyPrice := dailyPrice * GetSeasonalMultiplier(currentDate);
      dailyPrice := dailyPrice * GetEventMultiplier(currentDate);
      var occupancyDiscount := GetOccupancyBasedDiscount(occupancyRate);
      dailyPrice := dailyPrice * (1.0 - occupancyDiscount);
    }

    method CalculatePrice(startDate: int, endDate: int, roomType: RoomType, occupancyRate: real)
      returns (totalPrice: real)
      ensures totalPrice == StayPrice(startDate, endDate - startDate, roomType, occupancyRate)
      ensures endDate <= startDate ==> totalPrice == 0.0
    {
      var nights := endDate - startDate;
      totalPrice := 0.0;
      var i := 0;
      while i < nights
        invariant i == 0 || 0 < i <= nights
        invariant totalPrice == StayPrice(startDate, i, roomType, occupancyRate)
      {
        var dailyPrice := DailyPrice(startDate + i, roomType, occupancyRate);
        totalPrice := totalPrice + dailyPrice;
        i := i + 1;
      }
    }

    method UpdateBasePrice(roomType: RoomType, newPrice: real)
      modifies this
      ensures basePrices == old(basePrices)[roomType := newPrice]
      ensures GetBasePrice(roomType) == newPrice
      ensures forall t :: t != roomType ==> GetBasePrice(t) == old(GetBasePrice(t))
      ensures seasonalMultipliers == old(seasonalMultipliers) && eventPricing == old(eventPricing)
    {
      basePrices := basePrices[roomType := newPrice];
    }

    method SetSeasonalMultiplier(startDate: int, endDate: int, multiplier: real)
      modifies this
      ensures seasonalMultipliers == old(seasonalMultipliers) + RangeTable(startDate, endDate, multiplier)
      ensures forall d :: GetSeasonalMultiplier(d)
                          == if startDate <= d <= endDate then multiplier else old(GetSeasonalMultiplier(d))
      ensures basePrices == old(basePrices) && eventPricing == old(eventPricing)
    {
      var date := startDate;
      while date <= endDate
        invariant date == startDate || startDate < date <= endDate + 1
        invariant seasonalMultipliers == old(seasonalMultipliers) + RangeTable(startDate, date - 1, multiplier)
        invariant basePrices == old(basePrices) && eventPricing == old(eventPricing)
        decreases endDate - date
      {
        seasonalMultipliers := seasonalMultipliers[date := multiplier];
        date := date + 1;
      }
      assert RangeTable(startDate, date - 1, multiplier) == RangeTable(startDate, endDate, multiplier);
    }

    method SetEventPricing(date: int, eventName: string, multiplier: real)
      modifies this
      ensures date in eventPricing && eventName in eventPricing[date]
      ensures eventPricing[date] == (if date in old(eventPricing) then old(eventPricing)[date] else map[])[eventName := multiplier]
      ensures forall d :: d != date ==> (d in eventPricing <==> d in old(eventPricing))
      ensures forall d :: d != date && d in eventPricing ==> eventPricing[d] == old(eventPricing)[d]
      ensures GetEventMultiplier(date) >= multiplier
      ensures forall d :: d != date ==> GetEventMultiplier(d) == old(GetEventMultiplier(d))
      ensures basePrices == old(basePrices) && seasonalMultipliers == old(seasonalMultipliers)
    {
      var events := if date in eventPricing then eventPricing[date] else map[];
      eventPricing := eventPricing[date := events[eventName := multiplier]];
      assert eventName in eventPricing[date];
      GreatestEntry(eventPricing[date]);
    }

    method ClearSeasonalPricing()
      modifies this
      ensures seasonalMultipliers == map[]
      ensures forall d :: GetSeasonalMultiplier(d) == 1.0
      ensures basePrices == old(basePrices) && eventPricing == old(eventPricing)
    {
      seasonalMultipliers := map[];
    }

    method ClearEventPricing()
      modifies this
      ensures eventPricing == map[]
      ensures forall d :: GetEventMultiplier(d) == 1.0
      ensures basePrices == old(basePrices) && seasonalMultipliers == old(seasonalMultipliers)
    {
      eventPricing := map[];
    }

    /** Groups chronologically sorted (day, multiplier) entries into maximal runs. */
    static method GroupConsecutiveDates(sortedEntries: seq<(int, real)>) returns (groupedEntries: seq<SeasonalGroup>)
      ensures sortedEntries == [] ==> groupedEntries == []
      ensures IsGrouping(sortedEntries, groupedEntries)
    {
      groupedEntries := [];
      if |sortedEntries| == 0 {
        return;
      }
      var startDate := sortedEntries[0].0;
      var currentMultiplier := sortedEntries[0].1;
      ghost var days: nat := 1;
      GroupingStarts(sortedEntries);
      for i := 1 to |sortedEntries|
        invariant GroupingSoFar(sortedEntries, i, groupedEntries, startDate, currentMultiplier, days)
      {
        var entry := sortedEntries[i];
        if entry.0 - 1 != sortedEntries[i - 1].0 || entry.1 != currentMultiplier {
          var closed := SeasonalGroup(DateRange(startDate, sortedEntries[i - 1].0), currentMultiplier);
          GroupingCloses(sortedEntries, i, groupedEntries, startDate, currentMultiplier, days);
          groupedEntries := groupedEntries + [closed];
          startDate := entry.0;
          currentMultiplier := entry.1;
          days := 1;
        } else {
          GroupingContinues(sortedEntries, i, groupedEntries, startDate, currentMultiplier, days);
          days := days + 1;
        }
      }
      GroupingEnds(sortedEntries, groupedEntries, startDate, currentMultiplier, days);
      groupedEntries := groupedEntries + [SeasonalGroup(DateRange(startDate, sortedEntries[|sortedEntries| - 1].0), currentMultiplier)];
    }

    /** The seasonal table, sorted by day and grouped into maximal runs. */
    method GetSeasonalPricingInfo() returns (info: seq<SeasonalGroup>)
      ensures IsGrouping(SortedEntries(seasonalMultipliers), info)
    {
      var sortedEntries := SortedEntries(seasonalMultipliers);
      info := GroupConsecutiveDates(sortedEntries);
    }
  }

  // ---------------------------------------------------------------------
  // Properties of the price composition
  // ---------------------------------------------------------------------

  /** The occupancy discount never grows as occupancy rises. */
  lemma DiscountNonIncreasing(lower: real, higher: real)
    requires lower <= higher
    ensures DynamicPricing.GetOccupancyBasedDiscount(higher) <= DynamicPricing.GetOccupancyBasedDiscount(lower)
  {
  }

  lemma NonNegativeProduct(x: real, y: real)
    requires 0.0 <= x && 0.0 <= y
    ensures 0.0 <= x * y
  {
  }

  /** Base price, seasonal and event factors of a night are all nonnegative. */
  ghost predicate NonNegativeFactors(pricing: DynamicPricing, date: int, roomType: RoomType)
    reads pricing
  {
    && pricing.GetBasePrice(roomType) >= 0.0
    && pricing.GetSeasonalMultiplier(date) >= 0.0
    && pricing.GetEventMultiplier(date) >= 0.0
  }

  lemma ScaleMonotone(x: real, a: real, b: real)
    requires 0.0 <= x && a <= b
    ensures x * a <= x * b
  {
    NonNegativeProduct(x, b - a);
    assert x * b - x * a == x * (b - a);
  }

  /** With nonnegative factors a night costs nothing less than zero, and no less at a higher occupancy. */
  lemma NightlyPriceNonDecreasing(pricing: DynamicPricing, date: int, roomType: RoomType, lower: real, higher: real)
    requires lower <= higher
    requires NonNegativeFactors(pricing, date, roomType)
    ensures 0.0 <= pricing.NightlyPrice(date, roomType, lower) <= pricing.NightlyPrice(date, roomType, higher)
  {
    UndiscountedNonNegative(pricing, date, roomType);
    DiscountedNonDecreasing(pricing.UndiscountedPrice(date, roomType), lower, higher);
  }

  /** With nonnegative base and factors, the price before the discount is nonnegative. */
  lemma UndiscountedNonNegative(pricing: DynamicPricing, date: int, roomType: RoomType)
    requires NonNegativeFactors(pricing, date, roomType)
    ensures 0.0 <= pricing.UndiscountedPrice(date, roomType)
  {
    var basePrice := pricing.GetBasePrice(roomType);
    var weekendPrice := if DynamicPricing.IsWeekend(date) then basePrice * WEEKEND_MULTIPLIER else basePrice;
    var seasonalPrice := weekendPrice * pricing.GetSeasonalMultiplier(date);
    NonNegativeProduct(basePrice, WEEKEND_MULTIPLIER);
    NonNegativeProduct(weekendPrice, pricing.GetSeasonalMultiplier(date));
    NonNegativeProduct(seasonalPrice, pricing.GetEventMultiplier(date));
  }

  /** A nonnegative price after the occupancy discount is nonnegative and no smaller at a higher occupancy. */
  lemma DiscountedNonDecreasing(undiscounted: real, lower: real, higher: real)
    requires 0.0 <= undiscounted && lower <= higher
    ensures 0.0 <= undiscounted * (1.0 - DynamicPricing.GetOccupancyBasedDiscount(lower))
                <= undiscounted * (1.0 - DynamicPricing.GetOccupancyBasedDiscount(higher))
  {
    DiscountNonIncreasing(lower, higher);
    var dl := DynamicPricing.GetOccupancyBasedDiscount(lower);
    var dh := DynamicPricing.GetOccupancyBasedDiscount(higher);
    NonNegativeProduct(undiscounted, 1.0 - dl);
    ScaleMonotone(undiscounted, 1.0 - dl, 1.0 - dh);
  }

  /** A stay of a + b nights is the first a nights plus the b nights that follow them. */
  lemma {:induction false} StayPriceSplit(pricing: DynamicPricing, startDate: int, a: nat, b: nat,
                                          roomType: RoomType, occupancyRate: real)
    ensures pricing.StayPrice(startDate, a + b, roomType, occupancyRate)
            == pricing.StayPrice(startDate, a, roomType, occupancyRate)
               + pricing.StayPrice(startDate + a, b, roomType, occupancyRate)
    decreases b
  {
    if b > 0 {
      StayPriceSplit(pricing, startDate, a, b - 1, roomType, occupancyRate);
    }
  }

  /** Read from the front, a stay is its first night followed by the stay from the next day. */
  lemma StayPriceFirstNight(pricing: DynamicPricing, startDate: int, nights: nat, roomType: RoomType,
                            occupancyRate: real)
    requires nights >= 1
    ensures pricing.StayPrice(startDate, nights, roomType, occupancyRate)
            == pricing.NightlyPrice(startDate, roomType, occupancyRate)
               + pricing.StayPrice(startDate + 1, nights - 1, roomType, occupancyRate)
  {
    StayPriceSplit(pricing, startDate, 1, nights - 1, roomType, occupancyRate);
  }

  /** With nonnegative factors on every night, a stay costs no less at a higher occupancy. */
  lemma {:induction false} StayPriceNonDecreasing(pricing: DynamicPricing, startDate: int, nights: int,
                                                  roomType: RoomType, lower: real, higher: real)
    requires lower <= higher
    requires forall d :: startDate <= d < startDate + nights ==> NonNegativeFactors(pricing, d, roomType)
    ensures 0.0 <= pricing.StayPrice(startDate, nights, roomType, lower)
                <= pricing.StayPrice(startDate, nights, roomType, higher)
    decreases nights
  {
    if nights > 0 {
      StayPriceNonDecreasing(pricing, startDate, nights - 1, roomType, lower, higher);
      NightlyPriceNonDecreasing(pricing, startDate + nights - 1, roomType, lower, higher);
    }
  }

  /** Two weekday nights (Monday 2024-01-01, day 19723) of a single room, no multipliers, occupancy 0.6: 200. */
  lemma WeekdayStayExample(pricing: DynamicPricing)
    requires pricing.basePrices == DefaultBasePrices()
    requires pricing.seasonalMultipliers == map[] && pricing.eventPricing == map[]
    ensures pricing.StayPrice(19723, 2, SINGLE, 0.6) == 200.0
  {
    assert !DynamicPricing.IsWeekend(19723) && !DynamicPricing.IsWeekend(19724);
    assert pricing.StayPrice(19723, 1, SINGLE, 0.6) == 100.0;
  }

  /** One Saturday night (2024-01-06, day 19728) of a single room at occupancy 0.6: 150. */
  lemma SaturdayNightExample(pricing: DynamicPricing)
    requires pricing.basePrices == DefaultBasePrices()
    requires pricing.seasonalMultipliers == map[] && pricing.eventPricing == map[]
    ensures pricing.StayPrice(19728, 1, SINGLE, 0.6) == 150.0
  {
    assert DynamicPricing.IsWeekend(19728);
  }

  /**
   * Seasonal factor 2.0 over 2024-12-20..2024-12-31 (days 20077..20088) and event
   * "NewYear" at 3.0 on 2024-12-31: the two factors multiply, so the single-room
   * night costs 600.
   */
  lemma SeasonalAndEventMultiplyExample(pricing: DynamicPricing)
    requires pricing.basePrices == DefaultBasePrices()
    requires pricing.seasonalMultipliers == RangeTable(20077, 20088, 2.0)
    requires pricing.eventPricing == map[20088 := map["NewYear" := 3.0]]
    ensures pricing.NightlyPrice(20088, SINGLE, 0.6) == 600.0
  {
    assert !DynamicPricing.IsWeekend(20088);
    assert "NewYear" in pricing.eventPricing[20088];
    assert pricing.HasEvents(20088);
    assert pricing.eventPricing[20088]["NewYear"] == 3.0;
    assert pricing.GetEventMultiplier(20088) == 3.0;
  }
}
