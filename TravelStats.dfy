/**
 * The statistics the travel-stats screen derives from the committed
 * bookings: money spent, days travelled, civilizations visited (in the order
 * first visited) and a per-civilization booking count.
 */
module TravelStats {
  import opened Common
  import opened Bookings
  import opened Destinations

  const MillisPerDay: nat := 1000 * 60 * 60 * 24

  datatype Stats = Stats(
    totalSpent: int,
    totalDays: int,
    visitedCivilizations: seq<string>,
    destinationCounts: map<string, int>)

  /** What the screen reports when there are no bookings at all. */
  const NoStats: Stats := Stats(0, 0, [], map[])

  /** The distance between the two dates in milliseconds, `Math.abs(end - start)`. */
  function Span(dates: TravelDates): nat
  {
    if dates.endDate >= dates.startDate then dates.endDate - dates.startDate
    else dates.startDate - dates.endDate
  }

  /** `Math.ceil(Math.abs(end - start) / day)`. */
  function DaysBetween(dates: TravelDates): nat
  {
    (Span(dates) + MillisPerDay - 1) / MillisPerDay
  }

  /** The day count is the span in whole days, rounded up. */
  lemma DaysBetweenRoundsUp(dates: TravelDates)
    ensures Span(dates) <= DaysBetween(dates) * MillisPerDay
    ensures DaysBetween(dates) == 0 || (DaysBetween(dates) - 1) * MillisPerDay < Span(dates)
    ensures DaysBetween(dates) == DaysBetween(TravelDates(dates.endDate, dates.startDate))
  {
  }

  /** The booked dates when there are any, otherwise the tour's duration. */
  function TripDays(b: Booking, tour: Tour): nat
  {
    match b.travelDates
    case Some(dates) => DaysBetween(dates)
    case None => tour.duration
  }

  /** Every civilization id mapped to zero. */
  function InitialCounts(civilizations: seq<Civilization>): (counts: map<string, int>)
    ensures forall id :: id in counts <==> exists c :: c in civilizations && c.id == id
    ensures forall id :: id in counts ==> counts[id] == 0
  {
    if |civilizations| == 0 then map[]
    else
      var last := civilizations[|civilizations| - 1];
      assert civilizations == civilizations[..|civilizations| - 1] + [last];
      InitialCounts(civilizations[..|civilizations| - 1])[last.id := 0]
  }

  /** One turn of the `forEach` over the bookings. */
  function AddBooking(s: Stats, b: Booking, tours: seq<Tour>): Stats
  {
    match FindTour(tours, b.tourId)
    case None => s
    case Some(tour) =>
      var civ := tour.civilizationId;
      Stats(
        s.totalSpent + b.totalPrice,
        s.totalDays + TripDays(b, tour),
        if civ in s.visitedCivilizations then s.visitedCivilizations else s.visitedCivilizations + [civ],
        s.destinationCounts[civ := (if civ in s.destinationCounts then s.destinationCounts[civ] else 0) + 1])
  }

  /** The accumulators after the bookings, starting from the initial counts. */
  function StatsOver(bookings: seq<Booking>, tours: seq<Tour>, civilizations: seq<Civilization>): (s: Stats)
    ensures s.totalDays >= 0
  {
    if |bookings| == 0 then Stats(0, 0, [], InitialCounts(civilizations))
    else AddBooking(StatsOver(bookings[..|bookings| - 1], tours, civilizations), bookings[|bookings| - 1], tours)
  }

  /** `calculateStats`: the empty list short-circuits before the counts are set up. */
  function StatsOf(bookings: seq<Booking>, tours: seq<Tour>, civilizations: seq<Civilization>): Stats
  {
    if |bookings| == 0 then NoStats else StatsOver(bookings, tours, civilizations)
  }

  /** The `forEach` callback: one booking folded into the accumulators. */
  method ProcessBooking(acc: Stats, booking: Booking, tours: seq<Tour>) returns (next: Stats)
    ensures next == AddBooking(acc, booking, tours)
  {
    var found := FindTour(tours, booking.tourId);
    if found.None? {
      return acc;
    }
    var tour := found.value;
    var visited := acc.visitedCivilizations;
    if tour.civilizationId !in visited {
      visited := visited + [tour.civilizationId];
    }
    var counts := acc.destinationCounts;
    var previous := if tour.civilizationId in counts then counts[tour.civilizationId] else 0;
    counts := counts[tour.civilizationId := previous + 1];
    var totalSpent := acc.totalSpent + booking.totalPrice;
    var totalDays := acc.totalDays;
    if booking.travelDates.Some? {
      totalDays := totalDays + DaysBetween(booking.travelDates.value);
    } else {
      totalDays := totalDays + tour.duration;
    }
    next := Stats(totalSpent, totalDays, visited, counts);
  }

  method CalculateStats(bookings: seq<Booking>, tours: seq<Tour>, civilizations: seq<Civilization>)
    returns (stats: Stats)
    ensures stats == StatsOf(bookings, tours, civilizations)
  {
    if |bookings| == 0 {
      return NoStats;
    }
    var counts: map<string, int> := map[];
    for i := 0 to |civilizations|
      invariant counts == InitialCounts(civilizations[..i])
    {
      assert civilizations[..i + 1][..i] == civilizations[..i];
      assert civilizations[..i + 1][i] == civilizations[i];
      counts := counts[civilizations[i].id := 0];
    }
    assert civilizations[..|civilizations|] == civilizations;
    stats := Stats(0, 0, [], counts);
    for i := 0 to |bookings|
      invariant stats == StatsOver(bookings[..i], tours, civilizations)
    {
      assert bookings[..i + 1] == bookings[..i] + [bookings[i]];
      StatsOverSnoc(bookings[..i], bookings[i], tours, civilizations);
      stats := ProcessBooking(stats, bookings[i], tours);
    }
    assert bookings[..|bookings|] == bookings;
  }

  // ---------------------------------------------------------------------
  // What the statistics mean
  // ---------------------------------------------------------------------

  function TourKnown(tours: seq<Tour>): Booking -> bool
  {
    (b: Booking) => FindTour(tours, b.tourId).Some?
  }

  /** The civilization of each booking whose tour is in the catalogue, in order. */
  function KnownCivilizations(bookings: seq<Booking>, tours: seq<Tour>): seq<string>
  {
    if |bookings| == 0 then []
    else
      var last := bookings[|bookings| - 1];
      KnownCivilizations(bookings[..|bookings| - 1], tours)
        + match FindTour(tours, last.tourId)
          case None => []
          case Some(tour) => [tour.civilizationId]
  }

  function SumOfPrices(bookings: seq<Booking>): int
  {
    if |bookings| == 0 then 0
    else SumOfPrices(bookings[..|bookings| - 1]) + bookings[|bookings| - 1].totalPrice
  }

  /** The days each known booking contributes, summed in booking order. */
  function KnownTripDays(bookings: seq<Booking>, tours: seq<Tour>): nat
  {
    if |bookings| == 0 then 0
    else
      var last := bookings[|bookings| - 1];
      KnownTripDays(bookings[..|bookings| - 1], tours)
        + match FindTour(tours, last.tourId)
          case None => 0
          case Some(tour) => TripDays(last, tour)
  }

  /**
   * Days travelled is the sum, over bookings whose tour is known, of the
   * booked span in whole days, or the tour's duration when there are no dates.
   */
  lemma {:induction false} TotalDaysIsKnownTripDays(bookings: seq<Booking>, tours: seq<Tour>, civilizations: seq<Civilization>)
    ensures StatsOver(bookings, tours, civilizations).totalDays == KnownTripDays(bookings, tours)
  {
    if |bookings| > 0 {
      TotalDaysIsKnownTripDays(bookings[..|bookings| - 1], tours, civilizations);
    }
  }

  /**
   * Each count is the number of known bookings in that civilization; the
   * keys are the catalogue's civilizations and any civilization booked.
   */
  lemma {:induction false} CountsCountBookings(bookings: seq<Booking>, tours: seq<Tour>, civilizations: seq<Civilization>)
    ensures var counts := StatsOver(bookings, tours, civilizations).destinationCounts;
      && (forall id :: id in counts <==> id in InitialCounts(civilizations) || id in KnownCivilizations(bookings, tours))
      && (forall id :: id in counts ==> counts[id] == multiset(KnownCivilizations(bookings, tours))[id])
  {
    if |bookings| > 0 {
      var prefix := bookings[..|bookings| - 1];
      CountsCountBookings(prefix, tours, civilizations);
      var last := bookings[|bookings| - 1];
      match FindTour(tours, last.tourId)
      case None =>
      case Some(tour) =>
        var known := KnownCivilizations(prefix, tours);
        assert KnownCivilizations(bookings, tours) == known + [tour.civilizationId];
        assert multiset(known + [tour.civilizationId]) == multiset(known) + multiset{tour.civilizationId};
    }
  }

  /** Visited civilizations are listed once each: exactly those of known bookings. */
  lemma {:induction false} VisitedAreKnownCivilizations(bookings: seq<Booking>, tours: seq<Tour>, civilizations: seq<Civilization>)
    ensures var visited := StatsOver(bookings, tours, civilizations).visitedCivilizations;
      && NoDuplicates(visited)
      && (forall id :: id in visited <==> id in KnownCivilizations(bookings, tours))
  {
    if |bookings| > 0 {
      var prefix, last := bookings[..|bookings| - 1], bookings[|bookings| - 1];
      VisitedAreKnownCivilizations(prefix, tours, civilizations);
      var visited := StatsOver(prefix, tours, civilizations).visitedCivilizations;
      match FindTour(tours, last.tourId)
      case None =>
      case Some(tour) =>
        if tour.civilizationId !in visited {
          AppendFreshKeepsNoDuplicates(visited, tour.civilizationId);
        }
    }
  }

  /** Every visited civilization has been counted at least once. */
  lemma VisitedHaveCounts(bookings: seq<Booking>, tours: seq<Tour>, civilizations: seq<Civilization>)
    ensures var s := StatsOver(bookings, tours, civilizations);
      forall id :: id in s.visitedCivilizations ==> id in s.destinationCounts && s.destinationCounts[id] >= 1
  {
    VisitedAreKnownCivilizations(bookings, tours, civilizations);
    CountsCountBookings(bookings, tours, civilizations);
  }

  lemma StatsOverSnoc(bookings: seq<Booking>, b: Booking, tours: seq<Tour>, civilizations: seq<Civilization>)
    ensures StatsOver(bookings + [b], tours, civilizations) == AddBooking(StatsOver(bookings, tours, civilizations), b, tours)
  {
    assert (bookings + [b])[..|bookings|] == bookings;
  }

  lemma SumOfPricesSnoc(bookings: seq<Booking>, b: Booking)
    ensures SumOfPrices(bookings + [b]) == SumOfPrices(bookings) + b.totalPrice
  {
    assert (bookings + [b])[..|bookings|] == bookings;
  }

  /** When every booking's tour is known, money spent is the sum of all prices. */
  lemma {:induction false} SpentWhenAllKnown(bookings: seq<Booking>, tours: seq<Tour>, civilizations: seq<Civilization>)
    requires forall j :: 0 <= j < |bookings| ==> FindTour(tours, bookings[j].tourId).Some?
    ensures StatsOver(bookings, tours, civilizations).totalSpent == SumOfPrices(bookings)
  {
    if |bookings| > 0 {
      SpentWhenAllKnown(bookings[..|bookings| - 1], tours, civilizations);
    }
  }

  /** Money spent is the sum of the prices of the bookings whose tour is known. */
  lemma SpentIsSumOfKnownPrices(bookings: seq<Booking>, tours: seq<Tour>, civilizations: seq<Civilization>)
    ensures StatsOver(bookings, tours, civilizations).totalSpent == SumOfPrices(Filter(bookings, TourKnown(tours)))
  {
    var known := Filter(bookings, TourKnown(tours));
    UnknownToursAreSkipped(bookings, tours, civilizations);
    assert forall j :: 0 <= j < |known| ==> TourKnown(tours)(known[j]) by {
      forall j | 0 <= j < |known| ensures TourKnown(tours)(known[j]) {
        assert known[j] in known;
      }
    }
    SpentWhenAllKnown(known, tours, civilizations);
  }

  /** Bookings of tours missing from the catalogue change nothing. */
  lemma {:induction false} UnknownToursAreSkipped(bookings: seq<Booking>, tours: seq<Tour>, civilizations: seq<Civilization>)
    ensures StatsOver(bookings, tours, civilizations) == StatsOver(Filter(bookings, TourKnown(tours)), tours, civilizations)
  {
    if |bookings| > 0 {
      var prefix, last := bookings[..|bookings| - 1], bookings[|bookings| - 1];
      UnknownToursAreSkipped(prefix, tours, civilizations);
      assert bookings == prefix + [last];
      FilterSnoc(prefix, last, TourKnown(tours));
      StatsOverSnoc(prefix, last, tours, civilizations);
      var kept := Filter(prefix, TourKnown(tours));
      var before := StatsOver(prefix, tours, civilizations);
      assert StatsOver(bookings, tours, civilizations) == AddBooking(before, last, tours);
      if TourKnown(tours)(last) {
        assert Filter(bookings, TourKnown(tours)) == kept + [last];
        StatsOverSnoc(kept, last, tours, civilizations);
      } else {
        assert Filter(bookings, TourKnown(tours)) == kept + [] == kept;
        assert AddBooking(before, last, tours) == before;
      }
    }
  }

  lemma InitialCountsNotEmpty(civilizations: seq<Civilization>)
    requires |civilizations| > 0
    ensures InitialCounts(civilizations) != map[]
  {
    assert civilizations[0].id in InitialCounts(civilizations);
  }

  /** A single booking is one fold step from the initial counts. */
  lemma StatsOfOne(b: Booking, tours: seq<Tour>, civilizations: seq<Civilization>)
    ensures StatsOf([b], tours, civilizations) == AddBooking(StatsOver([], tours, civilizations), b, tours)
  {
    StatsOverSnoc([], b, tours, civilizations);
    assert [] + [b] == [b];
  }

  /**
   * The empty list reports no counts at all, while a list of bookings none of
   * whose tours are known reports every civilization with a count of zero.
   */
  lemma EmptyAndUnknownDiffer(b: Booking, tours: seq<Tour>, civilizations: seq<Civilization>)
    requires |civilizations| > 0
    ensures StatsOf([], tours, civilizations).destinationCounts == map[]
    ensures FindTour(tours, b.tourId).None? ==>
      StatsOf([b], tours, civilizations).destinationCounts == InitialCounts(civilizations) != map[]
  {
    InitialCountsNotEmpty(civilizations);
    StatsOfOne(b, tours, civilizations);
  }
}
