/**
 * The enhanced search bar (src/components/search/EnhancedSearchBar.tsx): a
 * record of location, dates and guest count, edited by setters, and a
 * "Search" handler that fills a URLSearchParams buffer through conditional
 * `set` calls and navigates to `/search?…`.
 */
module EnhancedSearch {
  import opened Common
  import opened UrlParams
  import opened SearchQuery
  import SearchResultsPage

  /** `SearchData`: dates are day numbers, None while unpicked. */
  datatype SearchData = SearchData(location: string, checkIn: Option<int>, checkOut: Option<int>, guests: int)

  const InitialSearch := SearchData("", None, None, 1)

  /** The guest counts the select offers. */
  predicate IsGuestChoice(n: int) {
    1 <= n <= 10
  }

  /** The target of a search with these data: always `/search`, with the query `QueryFor` describes. */
  function SearchTarget(data: SearchData, toIso: int -> string): (t: Target)
    ensures t.path == "/search"
    ensures t.query == [] <==> data.location == "" && data.checkIn.None? && data.checkOut.None? && data.guests <= 1
  {
    Target("/search", QueryFor(data.location, data.checkIn, data.checkOut, Some(data.guests), toIso))
  }

  /**
   * What the target carries: `location` iff it is non-empty, each date iff
   * it is picked, `guests` iff it is above 1, written in decimal; in that
   * order and nothing else.
   */
  lemma SearchTargetContents(data: SearchData, toIso: int -> string)
    ensures var t := SearchTarget(data, toIso);
      && t.path == "/search"
      && GetParam(t.query, "location") == (if data.location != "" then Some(data.location) else None)
      && GetParam(t.query, "checkIn") == (if data.checkIn.Some? then Some(toIso(data.checkIn.value)) else None)
      && GetParam(t.query, "checkOut") == (if data.checkOut.Some? then Some(toIso(data.checkOut.value)) else None)
      && GetParam(t.query, "guests") == (if data.guests > 1 then Some(IntToString(data.guests)) else None)
      && |t.query| <= 4
      && (forall i, j :: 0 <= i < j < |t.query| ==> KeyRank(t.query[i].key) < KeyRank(t.query[j].key))
  {
    QueryForReads(data.location, data.checkIn, data.checkOut, Some(data.guests), toIso);
    QueryForOrder(data.location, data.checkIn, data.checkOut, Some(data.guests), toIso);
  }

  /** Searching from the initial state navigates to `/search` with no parameters. */
  lemma InitialSearchIsBare(toIso: int -> string)
    ensures SearchTarget(InitialSearch, toIso) == Target("/search", [])
  {
    QueryForEmpty(toIso);
  }

  /**
   * The results page opened on this bar's target starts from the same
   * location, dates and guest count (given a date serialiser and parser
   * that invert each other), for every guest count the select offers.
   */
  lemma SearchReachesResults(data: SearchData, toIso: int -> string, fromIso: string -> int)
    requires forall d :: fromIso(toIso(d)) == d
    requires forall d :: |toIso(d)| > 0
    requires IsGuestChoice(data.guests)
    ensures var f := SearchResultsPage.InitialFilters(SearchTarget(data, toIso).query, fromIso);
      && f.location == data.location && f.checkIn == data.checkIn && f.checkOut == data.checkOut
      && f.guests == Some(data.guests)
  {
    var filters := SearchResultsPage.InitialFilters(SearchTarget(data, toIso).query, fromIso);
    SearchResultsPage.FiltersRoundTrip(
      filters.(location := data.location, checkIn := data.checkIn, checkOut := data.checkOut,
               guests := Some(data.guests)),
      toIso, fromIso);
  }

  class EnhancedSearchBar {
    var searchData: SearchData

    ghost predicate Valid()
      reads this
    {
      IsGuestChoice(searchData.guests)
    }

    constructor ()
      ensures Valid() && searchData == InitialSearch
    {
      searchData := InitialSearch;
    }

    method SetLocation(location: string)
      requires Valid()
      modifies this
      ensures Valid() && searchData == old(searchData).(location := location)
    {
      searchData := searchData.(location := location);
    }

    /** The check-in picker's `onSelect`; a cleared picker passes None. */
    method SelectCheckIn(date: Option<int>)
      requires Valid()
      modifies this
      ensures Valid() && searchData == old(searchData).(checkIn := date)
    {
      searchData := searchData.(checkIn := date);
    }

    method SelectCheckOut(date: Option<int>)
      requires Valid()
      modifies this
      ensures Valid() && searchData == old(searchData).(checkOut := date)
    {
      searchData := searchData.(checkOut := date);
    }

    /** The select hands back `n.toString()` and the handler parses it: the count arrives intact. */
    method SelectGuests(n: int)
      requires Valid() && IsGuestChoice(n)
      modifies this
      ensures Valid() && searchData == old(searchData).(guests := n)
    {
      var parsed := ParseInt(IntToString(n));
      ParseIntOfIntToString(n);
      searchData := searchData.(guests := parsed.value);
    }

    /** `handleSearch()`: the `set` calls, in order, on a fresh buffer; returns where it navigates. */
    method HandleSearch(toIso: int -> string) returns (target: Target)
      requires Valid()
      ensures target == SearchTarget(searchData, toIso)
    {
      var params := new SearchParams();
      if searchData.location != "" {
        params.Set("location", searchData.location);
      }
      if searchData.checkIn.Some? {
        SetAbsentAppends(params.entries, "checkIn", toIso(searchData.checkIn.value));
        params.Set("checkIn", toIso(searchData.checkIn.value));
      }
      if searchData.checkOut.Some? {
        assert GetParam(params.entries, "checkOut").None?;
        SetAbsentAppends(params.entries, "checkOut", toIso(searchData.checkOut.value));
        params.Set("checkOut", toIso(searchData.checkOut.value));
      }
      if searchData.guests > 1 {
        assert GetParam(params.entries, "guests").None?;
        SetAbsentAppends(params.entries, "guests", IntToString(searchData.guests));
        params.Set("guests", IntToString(searchData.guests));
      }
      target := Target("/search", params.entries);
    }
  }
}
