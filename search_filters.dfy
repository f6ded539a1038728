/**
 * The filter panel of the search page (src/components/search/SearchFilters.tsx).
 * Every handler computes a new `SearchFilters` record from the current one
 * and hands it to the page; nothing is changed in place, so the handlers are
 * functions from the old record to the new one.
 */
module Filters {
  import opened Common

  /**
   * The filter record. Dates are day numbers (the Date objects of the
   * pickers); `guests` is None when it holds NaN, which only a hand-written
   * URL can put there.
   */
  datatype SearchFilters = SearchFilters(
    location: string,
    checkIn: Option<int>,
    checkOut: Option<int>,
    guests: Option<int>,
    priceRange: (int, int),
    propertyTypes: seq<string>,
    amenities: seq<string>,
    instantBook: bool)

  /**
   * A `Partial<SearchFilters>`: None leaves the field alone. For the dates,
   * `Some(None)` is an explicit `undefined`, which the object spread does copy.
   */
  datatype FilterUpdates = FilterUpdates(
    location: Option<string>,
    checkIn: Option<Option<int>>,
    checkOut: Option<Option<int>>,
    guests: Option<Option<int>>,
    priceRange: Option<(int, int)>,
    propertyTypes: Option<seq<string>>,
    amenities: Option<seq<string>>,
    instantBook: Option<bool>)

  const NoUpdates := FilterUpdates(None, None, None, None, None, None, None, None)

  const PriceMin := 0
  const PriceMax := 1000
  const PriceStep := 10

  /** The guest counts the select offers. */
  const GuestChoices: seq<int> := [1, 2, 3, 4, 5, 6, 7, 8, 9, 10]

  /** The values the price slider can take: multiples of the step between the bounds. */
  predicate OnPriceSlider(v: int) {
    PriceMin <= v <= PriceMax && (v - PriceMin) % PriceStep == 0
  }

  /** `updateFilters(updates)`: `{ ...filters, ...updates }`. */
  function UpdateFilters(f: SearchFilters, u: FilterUpdates): (r: SearchFilters)
    ensures r.location == (if u.location.Some? then u.location.value else f.location)
    ensures r.checkIn == (if u.checkIn.Some? then u.checkIn.value else f.checkIn)
    ensures r.checkOut == (if u.checkOut.Some? then u.checkOut.value else f.checkOut)
    ensures r.guests == (if u.guests.Some? then u.guests.value else f.guests)
    ensures r.priceRange == (if u.priceRange.Some? then u.priceRange.value else f.priceRange)
    ensures r.propertyTypes == (if u.propertyTypes.Some? then u.propertyTypes.value else f.propertyTypes)
    ensures r.amenities == (if u.amenities.Some? then u.amenities.value else f.amenities)
    ensures r.instantBook == (if u.instantBook.Some? then u.instantBook.value else f.instantBook)
  {
    SearchFilters(
      match u.location case Some(v) => v case None => f.location,
      match u.checkIn case Some(v) => v case None => f.checkIn,
      match u.checkOut case Some(v) => v case None => f.checkOut,
      match u.guests case Some(v) => v case None => f.guests,
      match u.priceRange case Some(v) => v case None => f.priceRange,
      match u.propertyTypes case Some(v) => v case None => f.propertyTypes,
      match u.amenities case Some(v) => v case None => f.amenities,
      match u.instantBook case Some(v) => v case None => f.instantBook)
  }

  /** An empty update keeps the record, and applying the same update twice is applying it once. */
  lemma UpdateFiltersLaws(f: SearchFilters, u: FilterUpdates)
    ensures UpdateFilters(f, NoUpdates) == f
    ensures UpdateFilters(UpdateFilters(f, u), u) == UpdateFilters(f, u)
  {
  }

  function OnlyPropertyTypes(types: seq<string>): FilterUpdates {
    NoUpdates.(propertyTypes := Some(types))
  }

  function OnlyAmenities(amenities: seq<string>): FilterUpdates {
    NoUpdates.(amenities := Some(amenities))
  }

  /** `togglePropertyType(type)`: drop every occurrence when present, append otherwise. */
  function TogglePropertyType(f: SearchFilters, t: string): (r: SearchFilters)
    ensures r == f.(propertyTypes := Toggle(f.propertyTypes, t))
    ensures t in r.propertyTypes <==> t !in f.propertyTypes
  {
    UpdateFilters(f, OnlyPropertyTypes(Toggle(f.propertyTypes, t)))
  }

  /** `toggleAmenity(amenity)`: the same on the amenity list. */
  function ToggleAmenity(f: SearchFilters, a: string): (r: SearchFilters)
    ensures r == f.(amenities := Toggle(f.amenities, a))
    ensures a in r.amenities <==> a !in f.amenities
  {
    UpdateFilters(f, OnlyAmenities(Toggle(f.amenities, a)))
  }

  /** `clearFilters()`: the record it sends, whatever the current filters are. */
  function ClearFilters(): (r: SearchFilters)
    ensures r.location == "" && r.checkIn.None? && r.checkOut.None? && r.guests == Some(1)
    ensures r.priceRange == (0, 1000) && r.propertyTypes == [] && r.amenities == [] && !r.instantBook
  {
    SearchFilters("", None, None, Some(1), (PriceMin, PriceMax), [], [], false)
  }

  /** Toggling a type the list does not hold twice gives back the same filters. */
  lemma TogglePropertyTypeTwice(f: SearchFilters, t: string)
    requires t !in f.propertyTypes
    ensures TogglePropertyType(TogglePropertyType(f, t), t) == f
  {
    ToggleTwiceAbsent(f.propertyTypes, t);
  }

  /** Toggling an amenity the list does not hold twice gives back the same filters. */
  lemma ToggleAmenityTwice(f: SearchFilters, a: string)
    requires a !in f.amenities
    ensures ToggleAmenity(ToggleAmenity(f, a), a) == f
  {
    ToggleTwiceAbsent(f.amenities, a);
  }

  /** The toggles never introduce a duplicate. */
  lemma TogglesKeepNoDuplicates(f: SearchFilters, t: string, a: string)
    requires NoDuplicates(f.propertyTypes) && NoDuplicates(f.amenities)
    ensures NoDuplicates(TogglePropertyType(f, t).propertyTypes)
    ensures NoDuplicates(ToggleAmenity(f, a).amenities)
  {
    ToggleNoDuplicates(f.propertyTypes, t);
    ToggleNoDuplicates(f.amenities, a);
  }

  /** Both ends of the cleared price range are slider positions, and so is every step in between. */
  lemma SliderBounds(k: int)
    requires 0 <= k <= 100
    ensures OnPriceSlider(PriceMin) && OnPriceSlider(PriceMax)
    ensures OnPriceSlider(k * PriceStep)
    ensures forall g :: g in GuestChoices <==> 1 <= g <= 10
  {
  }
}
