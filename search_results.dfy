/**
 * The search results page (src/pages/SearchResults.tsx): its filters are
 * read from the URL when the page opens and written back to the URL when
 * they change; it keeps a comparison list of at most three property ids and
 * the list of properties shown.
 */
module SearchResultsPage {
  import opened Common
  import opened UrlParams
  import opened SearchQuery
  import opened Filters
  import opened Listings

  const MaxCompared := 3

  /**
   * The initial filter state: `location` is the parameter or ''; a date is
   * set when its parameter is non-empty, through the date parser `fromIso`
   * (`new Date(s)`); `guests` is `parseInt` of the parameter or of '1';
   * every other filter starts at its default.
   */
  function InitialFilters(params: seq<Param>, fromIso: string -> int): (f: SearchFilters)
    ensures f.location == "" <==> GetParam(params, "location").None? || GetParam(params, "location") == Some("")
    ensures f.checkIn.Some? <==> GetParam(params, "checkIn").Some? && GetParam(params, "checkIn") != Some("")
    ensures f.checkOut.Some? <==> GetParam(params, "checkOut").Some? && GetParam(params, "checkOut") != Some("")
    ensures GetParam(params, "guests").None? ==> f.guests == Some(1)
    ensures f.priceRange == (PriceMin, PriceMax) && f.propertyTypes == [] && f.amenities == [] && !f.instantBook
  {
    var location := GetParam(params, "location");
    var checkIn := GetParam(params, "checkIn");
    var checkOut := GetParam(params, "checkOut");
    var guests := GetParam(params, "guests");
    ParseIntOfOne();
    SearchFilters(
      if location.Some? then location.value else "",
      if checkIn.Some? && checkIn.value != "" then Some(fromIso(checkIn.value)) else None,
      if checkOut.Some? && checkOut.value != "" then Some(fromIso(checkOut.value)) else None,
      ParseInt(if guests.Some? && guests.value != "" then guests.value else "1"),
      (PriceMin, PriceMax), [], [], false)
  }

  /** The parameters `handleFiltersChange` writes for a filter record. */
  function FilterParams(f: SearchFilters, toIso: int -> string): (r: seq<Param>)
    ensures GetParam(r, "location").Some? <==> f.location != ""
    ensures GetParam(r, "checkIn").Some? <==> f.checkIn.Some?
    ensures GetParam(r, "checkOut").Some? <==> f.checkOut.Some?
    ensures GetParam(r, "guests").Some? <==> f.guests.Some? && f.guests.value > 1
  {
    QueryForReads(f.location, f.checkIn, f.checkOut, f.guests, toIso);
    QueryFor(f.location, f.checkIn, f.checkOut, f.guests, toIso)
  }

  /**
   * Writing the filters to the URL and reading them back keeps the location,
   * the dates (when the date serialiser and parser invert each other and the
   * serialiser never yields '') and any guest count of at least 1; a count
   * below 1, or NaN, comes back as 1. The panel-only filters come back at
   * their defaults.
   */
  lemma FiltersRoundTrip(f: SearchFilters, toIso: int -> string, fromIso: string -> int)
    requires forall d :: fromIso(toIso(d)) == d
    requires forall d :: |toIso(d)| > 0
    ensures var r := InitialFilters(FilterParams(f, toIso), fromIso);
      && r.location == f.location
      && r.checkIn == f.checkIn
      && r.checkOut == f.checkOut
      && r.guests == (if f.guests.Some? && f.guests.value >= 1 then f.guests else Some(1))
      && r.priceRange == (0, 1000) && r.propertyTypes == [] && r.amenities == [] && !r.instantBook
  {
    RoundTripLocation(f, toIso, fromIso);
    RoundTripDates(f, toIso, fromIso);
    RoundTripGuests(f, toIso, fromIso);
  }

  lemma RoundTripLocation(f: SearchFilters, toIso: int -> string, fromIso: string -> int)
    ensures InitialFilters(FilterParams(f, toIso), fromIso).location == f.location
  {
    QueryForReads(f.location, f.checkIn, f.checkOut, f.guests, toIso);
  }

  lemma RoundTripDates(f: SearchFilters, toIso: int -> string, fromIso: string -> int)
    requires forall d :: fromIso(toIso(d)) == d
    requires forall d :: |toIso(d)| > 0
    ensures InitialFilters(FilterParams(f, toIso), fromIso).checkIn == f.checkIn
    ensures InitialFilters(FilterParams(f, toIso), fromIso).checkOut == f.checkOut
  {
    RoundTripCheckIn(f, toIso, fromIso);
    RoundTripCheckOut(f, toIso, fromIso);
  }

  lemma RoundTripCheckIn(f: SearchFilters, toIso: int -> string, fromIso: string -> int)
    requires forall d :: fromIso(toIso(d)) == d
    requires forall d :: |toIso(d)| > 0
    ensures InitialFilters(FilterParams(f, toIso), fromIso).checkIn == f.checkIn
  {
    if f.checkIn.Some? {
      var iso := toIso(f.checkIn.value);
      assert iso != "" && fromIso(iso) == f.checkIn.value;
      QueryForReads(f.location, f.checkIn, f.checkOut, f.guests, toIso);
      assert GetParam(FilterParams(f, toIso), "checkIn") == Some(iso);
    } else {
      QueryForReads(f.location, f.checkIn, f.checkOut, f.guests, toIso);
    }
  }

  lemma RoundTripCheckOut(f: SearchFilters, toIso: int -> string, fromIso: string -> int)
    requires forall d :: fromIso(toIso(d)) == d
    requires forall d :: |toIso(d)| > 0
    ensures InitialFilters(FilterParams(f, toIso), fromIso).checkOut == f.checkOut
  {
    if f.checkOut.Some? {
      var iso := toIso(f.checkOut.value);
      assert iso != "" && fromIso(iso) == f.checkOut.value;
      QueryForReads(f.location, f.checkIn, f.checkOut, f.guests, toIso);
      assert GetParam(FilterParams(f, toIso), "checkOut") == Some(iso);
    } else {
      QueryForReads(f.location, f.checkIn, f.checkOut, f.guests, toIso);
    }
  }

  lemma RoundTripGuests(f: SearchFilters, toIso: int -> string, fromIso: string -> int)
    ensures InitialFilters(FilterParams(f, toIso), fromIso).guests
         == (if f.guests.Some? && f.guests.value >= 1 then f.guests else Some(1))
  {
    QueryForReads(f.location, f.checkIn, f.checkOut, f.guests, toIso);
    GuestsReadBack(f.guests, GetParam(FilterParams(f, toIso), "guests"));
  }

  /** The guest count read back from what `handleFiltersChange` wrote for `guests`. */
  lemma GuestsReadBack(guests: Option<int>, written: Option<string>)
    requires written == (if guests.Some? && guests.value > 1 then Some(IntToString(guests.value)) else None)
    ensures ParseInt(if written.Some? && written.value != "" then written.value else "1")
         == (if guests.Some? && guests.value >= 1 then guests else Some(1))
  {
    var input := if written.Some? && written.value != "" then written.value else "1";
    if guests.Some? && guests.value > 1 {
      var s := IntToString(guests.value);
      assert input == s;
      ParseIntOfIntToString(guests.value);
    } else {
      assert input == "1";
      ParseIntOfOne();
    }
  }

  /** A filter record the panel itself can produce round-trips exactly, apart from the panel-only filters. */
  lemma PanelFiltersRoundTrip(f: SearchFilters, toIso: int -> string, fromIso: string -> int)
    requires forall d :: fromIso(toIso(d)) == d
    requires forall d :: |toIso(d)| > 0
    requires f.guests.Some? && f.guests.value in GuestChoices
    ensures InitialFilters(FilterParams(f, toIso), fromIso)
         == f.(priceRange := (0, 1000), propertyTypes := [], amenities := [], instantBook := false)
  {
    FiltersRoundTrip(f, toIso, fromIso);
  }

  /**
   * `activeFiltersCount`: one point each for a property type, an amenity,
   * instant booking, and a price range that excludes something of [0, 1000].
   */
  function ActiveFiltersCount(f: SearchFilters): (n: int)
    ensures 0 <= n <= 4
    ensures n == 0 <==> (f.propertyTypes == [] && f.amenities == [] && !f.instantBook
                         && f.priceRange.0 <= 0 && f.priceRange.1 >= 1000)
    ensures n == 4 <==> (f.propertyTypes != [] && f.amenities != [] && f.instantBook
                         && (f.priceRange.0 > 0 || f.priceRange.1 < 1000))
  {
    (if |f.propertyTypes| > 0 then 1 else 0)
    + (if |f.amenities| > 0 then 1 else 0)
    + (if f.instantBook then 1 else 0)
    + (if f.priceRange.0 > 0 || f.priceRange.1 < 1000 then 1 else 0)
  }

  /** Cleared filters and freshly read ones count nothing. */
  lemma NoActiveFiltersInitially(params: seq<Param>, fromIso: string -> int)
    ensures ActiveFiltersCount(ClearFilters()) == 0
    ensures ActiveFiltersCount(InitialFilters(params, fromIso)) == 0
  {
  }

  /** The invariant of the comparison list: at most three ids, none twice. */
  predicate ComparisonOk(list: seq<string>) {
    |list| <= MaxCompared && NoDuplicates(list)
  }

  /**
   * `handleAddToComparison(id)`: a full list (three or more) is left alone,
   * an id already present is not added again, any other id goes at the end.
   */
  function AddToComparison(list: seq<string>, id: string): (r: seq<string>)
    ensures r == list || (r == list + [id] && |list| < MaxCompared && id !in list)
    ensures |list| < MaxCompared ==> id in r
  {
    if |list| >= MaxCompared then list
    else if id in list then list
    else list + [id]
  }

  /** What `handleAddToComparison` does to the list, case by case. */
  lemma AddToComparisonCases(list: seq<string>, id: string)
    ensures |list| >= 3 ==> AddToComparison(list, id) == list
    ensures |list| < 3 && id in list ==> AddToComparison(list, id) == list
    ensures |list| < 3 && id !in list ==> AddToComparison(list, id) == list + [id]
    ensures |list| < 3 ==> id in AddToComparison(list, id)
  {
  }

  /** `removeFromComparison(id)`: every occurrence goes, the rest keeps its order. */
  function RemoveFromComparison(list: seq<string>, id: string): (r: seq<string>)
    ensures id !in r
    ensures forall other :: other != id ==> (other in r <==> other in list)
  {
    RemoveAll(list, id)
  }

  /** Adding keeps the invariant. */
  lemma AddKeepsComparisonOk(list: seq<string>, id: string)
    requires ComparisonOk(list)
    ensures ComparisonOk(AddToComparison(list, id))
  {
    if |list| < MaxCompared && id !in list {
      ToggleNoDuplicates(list, id);
    }
  }

  /** Removing keeps the invariant. */
  lemma RemoveKeepsComparisonOk(list: seq<string>, id: string)
    requires ComparisonOk(list)
    ensures ComparisonOk(RemoveFromComparison(list, id))
  {
    RemoveAllNoDuplicates(list, id);
  }

  /** Any sequence of adds and removes that starts from the empty list keeps the invariant. */
  datatype ComparisonAction = Add(id: string) | Remove(id: string)

  function ApplyComparison(list: seq<string>, actions: seq<ComparisonAction>): seq<string>
    decreases |actions|
  {
    if actions == [] then list
    else
      var next := match actions[0]
        case Add(id) => AddToComparison(list, id)
        case Remove(id) => RemoveFromComparison(list, id);
      ApplyComparison(next, actions[1..])
  }

  lemma {:induction false} ComparisonInvariant(list: seq<string>, actions: seq<ComparisonAction>)
    requires ComparisonOk(list)
    ensures ComparisonOk(ApplyComparison(list, actions))
    decreases |actions|
  {
    if actions != [] {
      match actions[0]
      case Add(id) =>
        AddKeepsComparisonOk(list, id);
        ComparisonInvariant(AddToComparison(list, id), actions[1..]);
      case Remove(id) =>
        RemoveKeepsComparisonOk(list, id);
        ComparisonInvariant(RemoveFromComparison(list, id), actions[1..]);
    }
  }

  lemma FromEmptyComparisonOk(actions: seq<ComparisonAction>)
    ensures |ApplyComparison([], actions)| <= 3
    ensures NoDuplicates(ApplyComparison([], actions))
  {
    ComparisonInvariant([], actions);
  }

  /** A demonstration property: one image, type, capacity, three room counts, amenities, instant booking, favorite flag. */
  function Demo(id: string, title: string, location: string, price: int, image: string, kind: string,
                guests: int, bedrooms: int, bathrooms: int, amenities: seq<string>,
                instant: bool, favorited: bool): Property
  {
    Property(id, title, location, price, Some([image]), Some(kind), Some(guests), Some(bedrooms),
             Some(bathrooms), Some(amenities), Some(instant), favorited)
  }

  /** The three demonstration properties every search shows (ratings and review counts are not carried). */
  function DemoResults(): (r: seq<Property>)
    ensures |r| == 3
    ensures r[0].id == "1" && r[1].id == "2" && r[2].id == "3"
    ensures r[0].pricePerNight == 450 && r[1].pricePerNight == 180 && r[2].pricePerNight == 120
    ensures !r[0].isFavorited && r[1].isFavorited && !r[2].isFavorited
  {
    [ Demo("1", "Luxury Beachfront Villa", "Goa, India", 450,
           "https://images.unsplash.com/photo-1721322800607-8c38375eef04?w=800&h=600&fit=crop",
           "villa", 8, 4, 3, ["WiFi", "Pool", "Beach Access", "Kitchen"], true, false),
      Demo("2", "Modern Downtown Apartment", "Mumbai, India", 180,
           "https://images.unsplash.com/photo-1487958449943-2429e8be8625?w=800&h=600&fit=crop",
           "apartment", 4, 2, 2, ["WiFi", "Kitchen", "Parking", "Air Conditioning"], false, true),
      Demo("3", "Cozy Mountain Cottage", "Manali, India", 120,
           "https://images.unsplash.com/photo-1472396961693-142e6e269027?w=800&h=600&fit=crop",
           "house", 6, 3, 2, ["WiFi", "Fireplace", "Kitchen", "Garden"], true, false) ]
  }

  /** Toggling the favorite of a shown property flips that one card and keeps the other two. */
  lemma ToggleDemoFavorite(id: string)
    requires id == "2"
    ensures var r := NegateFavorite(DemoResults(), id);
      |r| == 3 && !r[1].isFavorited && r[0] == DemoResults()[0] && r[2] == DemoResults()[2]
  {
  }

  /** The page's state. */
  class SearchResultsPage {
    var filters: SearchFilters
    var searchParams: seq<Param>
    var properties: seq<Property>
    var comparisonList: seq<string>
    var loading: bool
    var totalCount: int

    ghost predicate Valid()
      reads this
    {
      ComparisonOk(comparisonList)
    }

    /** Opening the page on the URL's parameters. */
    constructor (params: seq<Param>, fromIso: string -> int)
      ensures Valid()
      ensures filters == InitialFilters(params, fromIso)
      ensures searchParams == params && properties == [] && comparisonList == []
      ensures loading && totalCount == 0
    {
      loading := true;
      totalCount := 0;
      filters := InitialFilters(params, fromIso);
      searchParams := params;
      properties := [];
      comparisonList := [];
    }

    /**
     * `searchProperties()`: after the simulated delay the page shows the
     * three demonstration properties, whatever the filters, and clears its
     * loading flag. The delay is a timer and is not modelled.
     */
    method SearchProperties()
      requires Valid()
      modifies this`properties, this`totalCount, this`loading
      ensures Valid()
      ensures properties == DemoResults() && totalCount == 3 && !loading
    {
      loading := true;
      properties := DemoResults();
      totalCount := |properties|;
      loading := false;
    }

    /** `handleFiltersChange(newFilters)`: keep the filters and rewrite the URL's parameters. */
    method HandleFiltersChange(newFilters: SearchFilters, toIso: int -> string)
      requires Valid()
      modifies this`filters, this`searchParams
      ensures Valid()
      ensures filters == newFilters
      ensures searchParams == FilterParams(newFilters, toIso)
    {
      filters := newFilters;
      var f := newFilters;
      ghost var a := if f.location != "" then [Param("location", f.location)] else [];
      ghost var b := if f.checkIn.Some? then [Param("checkIn", toIso(f.checkIn.value))] else [];
      ghost var c := if f.checkOut.Some? then [Param("checkOut", toIso(f.checkOut.value))] else [];
      ghost var d := if f.guests.Some? && f.guests.value > 1 then [Param("guests", IntToString(f.guests.value))] else [];
      var params := new SearchParams();
      if f.location != "" {
        params.Set("location", f.location);
      }
      assert params.entries == a;
      if f.checkIn.Some? {
        assert GetParam(a, "checkIn").None?;
        SetAbsentAppends(a, "checkIn", toIso(f.checkIn.value));
        params.Set("checkIn", toIso(f.checkIn.value));
      }
      assert params.entries == a + b;
      if f.checkOut.Some? {
        GetParamAppend(a, b, "checkOut");
        SetAbsentAppends(a + b, "checkOut", toIso(f.checkOut.value));
        params.Set("checkOut", toIso(f.checkOut.value));
      }
      assert params.entries == a + b + c;
      if f.guests.Some? && f.guests.value > 1 {
        GetParam4(a, b, c, [], "guests");
        assert a + b + c + [] == a + b + c;
        SetAbsentAppends(a + b + c, "guests", IntToString(f.guests.value));
        params.Set("guests", IntToString(f.guests.value));
      }
      assert params.entries == a + b + c + d;
      searchParams := params.entries;
    }

    /** `handleAddToComparison(id)`. */
    method HandleAddToComparison(id: string)
      requires Valid()
      modifies this`comparisonList
      ensures Valid()
      ensures comparisonList == AddToComparison(old(comparisonList), id)
    {
      AddKeepsComparisonOk(comparisonList, id);
      if |comparisonList| >= MaxCompared {
        return;
      }
      if id !in comparisonList {
        comparisonList := comparisonList + [id];
      }
    }

    /** `removeFromComparison(id)`. */
    method RemoveFromComparisonList(id: string)
      requires Valid()
      modifies this`comparisonList
      ensures Valid()
      ensures comparisonList == RemoveFromComparison(old(comparisonList), id)
    {
      RemoveKeepsComparisonOk(comparisonList, id);
      comparisonList := RemoveFromComparison(comparisonList, id);
    }

    /** `handleToggleFavorite(id)`: negate the flag of the matching property only. */
    method HandleToggleFavorite(id: string)
      requires Valid()
      modifies this`properties
      ensures Valid()
      ensures properties == NegateFavorite(old(properties), id)
    {
      properties := NegateFavorite(properties, id);
    }

    function ActiveFilters(): (n: int)
      reads this
      ensures 0 <= n <= 4
    {
      ActiveFiltersCount(filters)
    }
  }
}
