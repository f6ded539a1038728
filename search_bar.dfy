/**
 * The basic search bar (src/components/SearchBar.tsx): four text inputs
 * kept as raw strings, and a submit handler that writes each non-empty one
 * into a URLSearchParams buffer and navigates to `/search?…`. The dates go
 * under the lower-case keys `checkin` and `checkout`, and the guest count is
 * written as typed.
 */
module BasicSearch {
  import opened Common
  import opened UrlParams
  import SearchResultsPage
  import SearchQuery

  /** The pairs the submit handler writes: each non-empty input under its key, in order. */
  function BasicQuery(location: string, checkIn: string, checkOut: string, guests: string): (r: seq<Param>)
    ensures |r| <= 4
    ensures r == [] <==> location == "" && checkIn == "" && checkOut == "" && guests == ""
    ensures forall i :: 0 <= i < |r| ==> r[i].value != ""
  {
    (if location != "" then [Param("location", location)] else [])
    + (if checkIn != "" then [Param("checkin", checkIn)] else [])
    + (if checkOut != "" then [Param("checkout", checkOut)] else [])
    + (if guests != "" then [Param("guests", guests)] else [])
  }

  /** Each key is present iff its input is non-empty, with the raw input as value; at most four pairs, in input order. */
  lemma BasicQueryContents(location: string, checkIn: string, checkOut: string, guests: string)
    ensures var q := BasicQuery(location, checkIn, checkOut, guests);
      && GetParam(q, "location") == (if location != "" then Some(location) else None)
      && GetParam(q, "checkin") == (if checkIn != "" then Some(checkIn) else None)
      && GetParam(q, "checkout") == (if checkOut != "" then Some(checkOut) else None)
      && GetParam(q, "guests") == (if guests != "" then Some(guests) else None)
      && |q| <= 4
      && (forall i :: 0 <= i < |q| ==> q[i].key in {"location", "checkin", "checkout", "guests"})
  {
    var a := if location != "" then [Param("location", location)] else [];
    var b := if checkIn != "" then [Param("checkin", checkIn)] else [];
    var c := if checkOut != "" then [Param("checkout", checkOut)] else [];
    var d := if guests != "" then [Param("guests", guests)] else [];
    SearchQuery.GetParam4(a, b, c, d, "location");
    SearchQuery.GetParam4(a, b, c, d, "checkin");
    SearchQuery.GetParam4(a, b, c, d, "checkout");
    SearchQuery.GetParam4(a, b, c, d, "guests");
  }

  /** Unlike the enhanced bar, a guest count of "1" is written out. */
  lemma OneGuestIsWritten()
    ensures BasicQuery("", "", "", "1") == [Param("guests", "1")]
  {
  }

  /**
   * The results page opened on this bar's query reads back the location and
   * parses the guest string, but never sees the dates: it looks them up
   * under `checkIn`/`checkOut`, which this bar does not write.
   */
  lemma ResultsIgnoreBasicDates(location: string, checkIn: string, checkOut: string, guests: string,
                                fromIso: string -> int)
    ensures var f := SearchResultsPage.InitialFilters(BasicQuery(location, checkIn, checkOut, guests), fromIso);
      && f.location == location
      && f.checkIn.None? && f.checkOut.None?
      && f.guests == ParseInt(if guests != "" then guests else "1")
  {
    var q := BasicQuery(location, checkIn, checkOut, guests);
    BasicQueryContents(location, checkIn, checkOut, guests);
    assert GetParam(q, "checkIn").None?;
    assert GetParam(q, "checkOut").None?;
  }

  class SearchBar {
    var location: string
    var checkIn: string
    var checkOut: string
    var guests: string

    constructor ()
      ensures location == "" && checkIn == "" && checkOut == "" && guests == ""
    {
      location, checkIn, checkOut, guests := "", "", "", "";
    }

    method SetLocation(s: string)
      modifies this
      ensures location == s && checkIn == old(checkIn) && checkOut == old(checkOut) && guests == old(guests)
    {
      location := s;
    }

    method SetCheckIn(s: string)
      modifies this
      ensures checkIn == s && location == old(location) && checkOut == old(checkOut) && guests == old(guests)
    {
      checkIn := s;
    }

    method SetCheckOut(s: string)
      modifies this
      ensures checkOut == s && location == old(location) && checkIn == old(checkIn) && guests == old(guests)
    {
      checkOut := s;
    }

    method SetGuests(s: string)
      modifies this
      ensures guests == s && location == old(location) && checkIn == old(checkIn) && checkOut == old(checkOut)
    {
      guests := s;
    }

    /** `handleSearch(e)`: the `set` calls, in order, on a fresh buffer; returns where it navigates. */
    method HandleSearch() returns (target: Target)
      ensures target == Target("/search", BasicQuery(location, checkIn, checkOut, guests))
    {
      var params := new SearchParams();
      if location != "" {
        params.Set("location", location);
      }
      if checkIn != "" {
        SetAbsentAppends(params.entries, "checkin", checkIn);
        params.Set("checkin", checkIn);
      }
      if checkOut != "" {
        assert GetParam(params.entries, "checkout").None?;
        SetAbsentAppends(params.entries, "checkout", checkOut);
        params.Set("checkout", checkOut);
      }
      if guests != "" {
        assert GetParam(params.entries, "guests").None?;
        SetAbsentAppends(params.entries, "guests", guests);
        params.Set("guests", guests);
      }
      target := Target("/search", params.entries);
    }
  }
}
