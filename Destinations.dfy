/**
 * The destinations store: a fixed catalogue of civilizations and tours, plus
 * the selection and filter fields the explore screens set.
 */
module Destinations {
  import opened Common

  datatype Civilization = Civilization(id: string, name: string, description: string, accentColor: string)

  datatype Tour = Tour(id: string, civilizationId: string, name: string, description: string, duration: nat, price: int)

  /** The mock catalogue (display-only fields left out). */
  const Civilizations: seq<Civilization> := [
    Civilization("egypt", "Ancient Egypt", "The mysterious land of pyramids and pharaohs, where ancient wonders await.", "accentEgypt"),
    Civilization("greece", "Ancient Greece", "Birthplace of democracy, philosophy, and Olympic games.", "accentGreece"),
    Civilization("china", "Ancient China", "The mysterious Far East, land of silk and innovations.", "accentChina"),
    Civilization("persia", "Persia", "Luxurious palaces and exotic gardens in the land of the Parthians.", "accentPersia"),
    Civilization("carthage", "Carthage", "Once Rome's greatest enemy, now a thriving Roman province in North Africa.", "accentEgypt")
  ]

  const PyramidsExpedition: Tour := Tour("egypt-1", "egypt", "Pyramids & Sphinx Expedition", "Witness the architectural marvels of Ancient Egypt on this 10-day journey.", 10, 1200)
  const AlexandriaTour: Tour := Tour("egypt-2", "egypt", "Alexandria Literary Tour", "Explore the intellectual capital of the Mediterranean and its Great Library.", 7, 900)
  const DemocracyExperience: Tour := Tour("greece-1", "greece", "Athenian Democracy Experience", "Walk in the footsteps of the great philosophers and statesmen of Athens.", 8, 800)
  const SpartanTraining: Tour := Tour("greece-2", "greece", "Spartan Military Training", "Test your strength and endurance in the ultimate warrior society.", 5, 650)
  const SilkRoadExpedition: Tour := Tour("china-1", "china", "Silk Road Expedition", "Travel the legendary trade route to the edge of the known world.", 90, 8000)
  const TerracottaArmy: Tour := Tour("china-2", "china", "Terracotta Army & Imperial Wonders", "Witness the clay army of Emperor Qin and the splendors of the Han Dynasty.", 120, 12000)
  const RoyalPersia: Tour := Tour("persia-1", "persia", "Royal Persian Experience", "Live like Persian royalty amidst stunning palaces and legendary gardens.", 14, 3000)
  const CarthaginianLegacy: Tour := Tour("carthage-1", "carthage", "Carthaginian Legacy Tour", "Explore the reborn city that once rivaled Rome.", 7, 600)

  const Tours: seq<Tour> := [
    PyramidsExpedition,
    AlexandriaTour,
    DemocracyExperience,
    SpartanTraining,
    SilkRoadExpedition,
    TerracottaArmy,
    RoyalPersia,
    CarthaginianLegacy
  ]

  // ---------------------------------------------------------------------
  // Finders
  // ---------------------------------------------------------------------

  function CivilizationHasId(id: string): Civilization -> bool
  {
    (c: Civilization) => c.id == id
  }

  function TourHasId(id: string): Tour -> bool
  {
    (t: Tour) => t.id == id
  }

  /** `getCivilization`: the first civilization with that id, if any. */
  function FindCivilization(civilizations: seq<Civilization>, id: string): (r: Option<Civilization>)
    ensures r.None? <==> forall i :: 0 <= i < |civilizations| ==> civilizations[i].id != id
    ensures r.Some? ==> exists i :: (0 <= i < |civilizations| && civilizations[i] == r.value && r.value.id == id
      && forall j :: 0 <= j < i ==> civilizations[j].id != id)
  {
    var r := Find(civilizations, CivilizationHasId(id));
    assert r.Some? ==> var i := FindIndex(civilizations, CivilizationHasId(id)).value;
      forall j :: 0 <= j < i ==> !CivilizationHasId(id)(civilizations[j]);
    r
  }

  /** `getTour`: the first tour with that id, if any. */
  function FindTour(tours: seq<Tour>, id: string): (r: Option<Tour>)
    ensures r.None? <==> forall i :: 0 <= i < |tours| ==> tours[i].id != id
    ensures r.Some? ==> exists i :: (0 <= i < |tours| && tours[i] == r.value && r.value.id == id
      && forall j :: 0 <= j < i ==> tours[j].id != id)
  {
    var r := Find(tours, TourHasId(id));
    assert r.Some? ==> var i := FindIndex(tours, TourHasId(id)).value;
      forall j :: 0 <= j < i ==> !TourHasId(id)(tours[j]);
    r
  }

  function InCivilization(civilizationId: string): Tour -> bool
  {
    (t: Tour) => t.civilizationId == civilizationId
  }

  /** `getToursByCivilization`: the civilization's tours, in catalogue order. */
  function ToursOfCivilization(tours: seq<Tour>, civilizationId: string): (r: seq<Tour>)
    ensures forall t :: t in r <==> t in tours && t.civilizationId == civilizationId
    ensures IsSubsequence(r, tours)
    ensures forall t :: multiset(r)[t] == if t.civilizationId == civilizationId then multiset(tours)[t] else 0
  {
    FilterCounts(tours, InCivilization(civilizationId));
    Filter(tours, InCivilization(civilizationId))
  }

  const FeaturedIds: seq<string> := ["egypt-1", "greece-2", "china-1"]

  /** A single lookup's contribution to `filter(Boolean)`. */
  function Present(lookup: Option<Tour>): seq<Tour>
  {
    if lookup.Some? then [lookup.value] else []
  }

  /** `filter(Boolean)` over a list of lookups: the found tours, in order. */
  function Found(lookups: seq<Option<Tour>>): (r: seq<Tour>)
    ensures |r| <= |lookups|
    ensures forall t :: t in r <==> Some(t) in lookups
  {
    if |lookups| == 0 then []
    else
      assert lookups == [lookups[0]] + lookups[1..];
      Present(lookups[0]) + Found(lookups[1..])
  }

  /** Filtering a concatenation filters each part and keeps their order. */
  lemma {:induction false} FoundAppend(a: seq<Option<Tour>>, b: seq<Option<Tour>>)
    ensures Found(a + b) == Found(a) + Found(b)
  {
    if |a| > 0 {
      assert (a + b)[1..] == a[1..] + b;
      FoundAppend(a[1..], b);
    } else {
      assert a + b == b;
    }
  }

  /** A single lookup is kept exactly when it found a tour. */
  lemma FoundOne(lookup: Option<Tour>)
    ensures Found([lookup]) == Present(lookup)
  {
    assert [lookup][1..] == [];
  }

  /** Each id looked up in turn. */
  function Lookups(tours: seq<Tour>, ids: seq<string>): (r: seq<Option<Tour>>)
    ensures |r| == |ids|
    ensures forall k :: 0 <= k < |ids| ==> r[k] == FindTour(tours, ids[k])
  {
    seq(|ids|, k requires 0 <= k < |ids| => FindTour(tours, ids[k]))
  }

  /**
   * `getFeaturedTours`: egypt-1, greece-2, china-1 in that order, each only
   * when the catalogue has it.
   */
  function FeaturedTours(tours: seq<Tour>): (r: seq<Tour>)
    ensures r == Present(FindTour(tours, "egypt-1")) + Present(FindTour(tours, "greece-2"))
      + Present(FindTour(tours, "china-1"))
  {
    var lookups := Lookups(tours, FeaturedIds);
    assert FeaturedIds[0] == "egypt-1" && FeaturedIds[1] == "greece-2" && FeaturedIds[2] == "china-1";
    FeaturedInOrder(lookups, FindTour(tours, "egypt-1"), FindTour(tours, "greece-2"), FindTour(tours, "china-1"));
    Found(lookups)
  }

  /** At most three tours, each a catalogue tour carrying a featured id. */
  lemma FeaturedAreCatalogueTours(tours: seq<Tour>)
    ensures |FeaturedTours(tours)| <= |FeaturedIds|
    ensures forall t :: t in FeaturedTours(tours) ==> t in tours && t.id in FeaturedIds
  {
    var e, g, c := FindTour(tours, "egypt-1"), FindTour(tours, "greece-2"), FindTour(tours, "china-1");
    assert forall t :: t in FeaturedTours(tours) ==> t in Present(e) || t in Present(g) || t in Present(c);
  }

  /** Three lookups are filtered one by one, in order. */
  lemma FeaturedInOrder(lookups: seq<Option<Tour>>, a: Option<Tour>, b: Option<Tour>, c: Option<Tour>)
    requires |lookups| == 3 && lookups[0] == a && lookups[1] == b && lookups[2] == c
    ensures Found(lookups) == Present(a) + Present(b) + Present(c)
  {
    assert lookups == [a] + [b] + [c];
    FoundAppend([a] + [b], [c]);
    FoundAppend([a], [b]);
    FoundOne(a);
    FoundOne(b);
    FoundOne(c);
  }

  predicate TourIdsDistinct(tours: seq<Tour>)
  {
    forall i, j :: 0 <= i < j < |tours| ==> tours[i].id != tours[j].id
  }

  /** With distinct ids, looking up a tour's id finds that tour. */
  lemma FindTourOfDistinct(tours: seq<Tour>, k: nat)
    requires TourIdsDistinct(tours) && k < |tours|
    ensures FindTour(tours, tours[k].id) == Some(tours[k])
  {
  }

  lemma CatalogueTourIdsDistinct()
    ensures TourIdsDistinct(Tours)
  {
  }

  /** Over the catalogue, all three featured tours are present, in that order. */
  lemma FeaturedToursOfCatalogue()
    ensures FeaturedTours(Tours) == [PyramidsExpedition, SpartanTraining, SilkRoadExpedition]
  {
    CatalogueTourIdsDistinct();
    FindTourOfDistinct(Tours, 0);
    FindTourOfDistinct(Tours, 3);
    FindTourOfDistinct(Tours, 4);
    assert FindTour(Tours, "egypt-1") == Some(PyramidsExpedition);
    assert FindTour(Tours, "greece-2") == Some(SpartanTraining);
    assert FindTour(Tours, "china-1") == Some(SilkRoadExpedition);
    FeaturedWhenAllPresent(Tours, PyramidsExpedition, SpartanTraining, SilkRoadExpedition);
  }

  /** When all three ids are found, exactly those tours, in featured order. */
  lemma FeaturedWhenAllPresent(tours: seq<Tour>, a: Tour, b: Tour, c: Tour)
    requires FindTour(tours, "egypt-1") == Some(a)
    requires FindTour(tours, "greece-2") == Some(b)
    requires FindTour(tours, "china-1") == Some(c)
    ensures FeaturedTours(tours) == [a, b, c]
  {
    PresentAll(FindTour(tours, "egypt-1"), FindTour(tours, "greece-2"), FindTour(tours, "china-1"), a, b, c);
  }

  lemma PresentAll(x: Option<Tour>, y: Option<Tour>, z: Option<Tour>, a: Tour, b: Tour, c: Tour)
    requires x == Some(a) && y == Some(b) && z == Some(c)
    ensures Present(x) + Present(y) + Present(z) == [a, b, c]
  {
    assert Present(x) + Present(y) + Present(z) == [a] + [b] + [c];
  }

  /** A catalogue missing greece-2 features the other two, still in order. */
  lemma FeaturedSkipsMissing(tours: seq<Tour>, a: Tour, c: Tour)
    requires FindTour(tours, "egypt-1") == Some(a)
    requires FindTour(tours, "greece-2").None?
    requires FindTour(tours, "china-1") == Some(c)
    ensures FeaturedTours(tours) == [a, c]
  {
  }

  // ---------------------------------------------------------------------
  // Search and range filters
  // ---------------------------------------------------------------------

  /** The name or the description contains the query, ignoring ASCII case. */
  predicate MatchesQuery(t: Tour, query: string)
  {
    Includes(ToLower(t.name), ToLower(query)) || Includes(ToLower(t.description), ToLower(query))
  }

  function QueryPredicate(query: string): Tour -> bool
  {
    (t: Tour) => MatchesQuery(t, query)
  }

  /** `searchTours`' result. */
  function SearchResults(tours: seq<Tour>, query: string): (r: seq<Tour>)
    ensures forall t :: t in r <==> t in tours && MatchesQuery(t, query)
    ensures IsSubsequence(r, tours)
    ensures forall t :: multiset(r)[t] == if MatchesQuery(t, query) then multiset(tours)[t] else 0
  {
    FilterCounts(tours, QueryPredicate(query));
    Filter(tours, QueryPredicate(query))
  }

  /** The empty query matches every tour. */
  lemma EmptySearchMatchesAll(tours: seq<Tour>)
    ensures SearchResults(tours, "") == tours
  {
    forall j | 0 <= j < |tours| ensures QueryPredicate("")(tours[j]) {
      assert OccursAt(ToLower(tours[j].name), "", 0);
    }
    FilterKeepsAll(tours, QueryPredicate(""));
  }

  function PriceBetween(minPrice: int, maxPrice: int): Tour -> bool
  {
    (t: Tour) => minPrice <= t.price <= maxPrice
  }

  function DurationBetween(minDays: int, maxDays: int): Tour -> bool
  {
    (t: Tour) => minDays <= t.duration <= maxDays
  }

  /** `filterToursByPrice`' result: both bounds inclusive. */
  function ToursInPriceRange(tours: seq<Tour>, minPrice: int, maxPrice: int): (r: seq<Tour>)
    ensures forall t :: t in r <==> t in tours && minPrice <= t.price <= maxPrice
    ensures IsSubsequence(r, tours)
    ensures minPrice > maxPrice ==> r == []
    ensures forall t :: multiset(r)[t] == if minPrice <= t.price <= maxPrice then multiset(tours)[t] else 0
  {
    FilterCounts(tours, PriceBetween(minPrice, maxPrice));
    var r := Filter(tours, PriceBetween(minPrice, maxPrice));
    assert r != [] ==> r[0] in r;
    r
  }

  /** `filterToursByDuration`' result: both bounds inclusive. */
  function ToursInDurationRange(tours: seq<Tour>, minDays: int, maxDays: int): (r: seq<Tour>)
    ensures forall t :: t in r <==> t in tours && minDays <= t.duration <= maxDays
    ensures IsSubsequence(r, tours)
    ensures minDays > maxDays ==> r == []
    ensures forall t :: multiset(r)[t] == if minDays <= t.duration <= maxDays then multiset(tours)[t] else 0
  {
    FilterCounts(tours, DurationBetween(minDays, maxDays));
    var r := Filter(tours, DurationBetween(minDays, maxDays));
    assert r != [] ==> r[0] in r;
    r
  }

  // ---------------------------------------------------------------------
  // The store
  // ---------------------------------------------------------------------

  class DestinationsStore {
    /** The catalogue never changes after creation. */
    const civilizations: seq<Civilization>
    const tours: seq<Tour>
    var selectedCivilization: Option<Civilization>
    var selectedTour: Option<Tour>
    var filteredTours: seq<Tour>

    constructor ()
      ensures civilizations == Civilizations && tours == Tours
      ensures selectedCivilization == None && selectedTour == None && filteredTours == []
    {
      civilizations := Civilizations;
      tours := Tours;
      selectedCivilization := None;
      selectedTour := None;
      filteredTours := [];
    }

    /** Selects the civilization (None when unknown) and lists its tours. */
    method SetSelectedCivilization(id: string)
      modifies this`selectedCivilization, this`filteredTours
      ensures selectedCivilization == FindCivilization(civilizations, id)
      ensures filteredTours == ToursOfCivilization(tours, id)
      ensures (forall i :: 0 <= i < |tours| ==> tours[i].civilizationId != id) ==> filteredTours == []
    {
      selectedCivilization := FindCivilization(civilizations, id);
      filteredTours := ToursOfCivilization(tours, id);
      assert filteredTours != [] ==> filteredTours[0] in filteredTours;
    }

    method SetSelectedTour(id: string)
      modifies this`selectedTour
      ensures selectedTour == FindTour(tours, id)
    {
      selectedTour := FindTour(tours, id);
    }

    method ClearSelections()
      modifies this`selectedCivilization, this`selectedTour, this`filteredTours
      ensures selectedCivilization == None && selectedTour == None && filteredTours == []
    {
      selectedCivilization := None;
      selectedTour := None;
      filteredTours := [];
    }

    method SearchTours(query: string) returns (results: seq<Tour>)
      modifies this`filteredTours
      ensures results == SearchResults(tours, query) && filteredTours == results
    {
      results := SearchResults(tours, query);
      filteredTours := results;
    }

    method FilterToursByPrice(minPrice: int, maxPrice: int) returns (results: seq<Tour>)
      modifies this`filteredTours
      ensures results == ToursInPriceRange(tours, minPrice, maxPrice) && filteredTours == results
    {
      results := ToursInPriceRange(tours, minPrice, maxPrice);
      filteredTours := results;
    }

    method FilterToursByDuration(minDays: int, maxDays: int) returns (results: seq<Tour>)
      modifies this`filteredTours
      ensures results == ToursInDurationRange(tours, minDays, maxDays) && filteredTours == results
    {
      results := ToursInDurationRange(tours, minDays, maxDays);
      filteredTours := results;
    }

    /**
     * Back to the selected civilization's tours; with no selection (or one
     * whose id is the empty string, which JavaScript treats as false) the
     * list is emptied.
     */
    method ResetFilters()
      modifies this`filteredTours
      ensures selectedCivilization.Some? && selectedCivilization.value.id != "" ==>
        filteredTours == ToursOfCivilization(tours, selectedCivilization.value.id)
      ensures !(selectedCivilization.Some? && selectedCivilization.value.id != "") ==> filteredTours == []
    {
      if selectedCivilization.Some? && selectedCivilization.value.id != "" {
        filteredTours := ToursOfCivilization(tours, selectedCivilization.value.id);
      } else {
        filteredTours := [];
      }
    }
  }
}
