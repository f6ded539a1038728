/**
 * The search query that the enhanced search bar writes on "Search"
 * (src/components/search/EnhancedSearchBar.tsx) and that the results page
 * writes when its filters change (src/pages/SearchResults.tsx): both make
 * successive conditional `set` calls, in the same order and with the same
 * tests, so one specification describes both.
 */
module SearchQuery {
  import opened Common
  import opened UrlParams

  /**
   * The pairs the conditional `set` calls produce: `location` when it is
   * non-empty, `checkIn`/`checkOut` when the date is set (written with the
   * date serialiser `toIso`, i.e. Date#toISOString), `guests` when it is a
   * number above 1, written in decimal. `guests` None stands for NaN.
   */
  function QueryFor(location: string, checkIn: Option<int>, checkOut: Option<int>,
                    guests: Option<int>, toIso: int -> string): (r: seq<Param>)
    ensures |r| <= 4
    ensures r == [] <==> location == "" && checkIn.None? && checkOut.None? && !(guests.Some? && guests.value > 1)
  {
    (if location != "" then [Param("location", location)] else [])
    + (if checkIn.Some? then [Param("checkIn", toIso(checkIn.value))] else [])
    + (if checkOut.Some? then [Param("checkOut", toIso(checkOut.value))] else [])
    + (if guests.Some? && guests.value > 1 then [Param("guests", IntToString(guests.value))] else [])
  }

  /** Position of each key in the order the `set` calls are made. */
  function KeyRank(k: string): nat {
    if k == "location" then 0
    else if k == "checkIn" then 1
    else if k == "checkOut" then 2
    else 3
  }

  /** Looking a key up in four consecutive parts. */
  lemma GetParam4(a: seq<Param>, b: seq<Param>, c: seq<Param>, d: seq<Param>, k: string)
    ensures GetParam(a + b + c + d, k) ==
      if GetParam(a, k).Some? then GetParam(a, k)
      else if GetParam(b, k).Some? then GetParam(b, k)
      else if GetParam(c, k).Some? then GetParam(c, k)
      else GetParam(d, k)
  {
    GetParamAppend(a + b + c, d, k);
    GetParamAppend(a + b, c, k);
    GetParamAppend(a, b, k);
  }

  /** Each parameter is present exactly when its field is set, with the field's value. */
  lemma QueryForReads(location: string, checkIn: Option<int>, checkOut: Option<int>,
                      guests: Option<int>, toIso: int -> string)
    ensures var q := QueryFor(location, checkIn, checkOut, guests, toIso);
      && GetParam(q, "location") == (if location != "" then Some(location) else None)
      && GetParam(q, "checkIn") == (if checkIn.Some? then Some(toIso(checkIn.value)) else None)
      && GetParam(q, "checkOut") == (if checkOut.Some? then Some(toIso(checkOut.value)) else None)
      && GetParam(q, "guests") ==
           (if guests.Some? && guests.value > 1 then Some(IntToString(guests.value)) else None)
  {
    var a := if location != "" then [Param("location", location)] else [];
    var b := if checkIn.Some? then [Param("checkIn", toIso(checkIn.value))] else [];
    var c := if checkOut.Some? then [Param("checkOut", toIso(checkOut.value))] else [];
    var d := if guests.Some? && guests.value > 1 then [Param("guests", IntToString(guests.value))] else [];
    GetParam4(a, b, c, d, "location");
    GetParam4(a, b, c, d, "checkIn");
    GetParam4(a, b, c, d, "checkOut");
    GetParam4(a, b, c, d, "guests");
  }

  /** Only the four known keys appear, each at most once, in the order location, checkIn, checkOut, guests. */
  lemma QueryForOrder(location: string, checkIn: Option<int>, checkOut: Option<int>,
                      guests: Option<int>, toIso: int -> string)
    ensures var q := QueryFor(location, checkIn, checkOut, guests, toIso);
      && |q| <= 4
      && (forall i :: 0 <= i < |q| ==> q[i].key in {"location", "checkIn", "checkOut", "guests"})
      && (forall i, j :: 0 <= i < j < |q| ==> KeyRank(q[i].key) < KeyRank(q[j].key))
  {
  }

  /** With nothing filled in there is nothing to write. */
  lemma QueryForEmpty(toIso: int -> string)
    ensures QueryFor("", None, None, Some(1), toIso) == []
  {
  }
}
