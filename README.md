# StayFinder: a verified model of the booking site's business logic

StayFinder is a React/TypeScript site for finding and booking stays. Most of
its code renders screens over a hosted database. This project models the
parts that compute something, as Dafny:

- the prices and totals of a stay, the guards that decide whether a booking
  is submitted, and the booking record that is inserted;
- the host dashboard statistics and its activity feed;
- the search state:
  - the filter record and its toggles;
  - the query parameters the two search bars and the results page write;
  - the results page's read-back of those parameters;
  - the comparison list;
  - the active-filter counter;
- the per-id favorite updates of the listing lists, and the amenity list of
  the "add listing" form;
- the ordered rule engine behind form validation;
- the property card's text truncation, amenity preview, icon lookup and
  compare button;
- the page title suffixing;
- the capped exponential retry delay of the query client.

Each source file is one module. Two exceptions:
- `Common` holds the JavaScript built-ins the code relies on (`trim`,
  `includes`, `toLowerCase`, `parseInt`, `Number#toString`, the
  filter/append toggle).
- `UrlParams` holds `URLSearchParams` as an ordered list of key/value pairs.

How the model is built:
- Component state that handlers update becomes a class whose methods say
  exactly how the fields change. Each method is tied to a specification
  function, and the properties are proved as lemmas about those functions.
- Dates are integer day numbers.
- How a browser turns a date into text and back is a parameter:
  - `dayOf` parses a raw date string;
  - `toIso` and `fromIso` stand for `Date#toISOString` and `new Date(…)`.
- Backend answers are parameters: the rows a query returns, whether a call
  failed, what an insert returned.
- JavaScript's NaN is `None`.

## Model

| member | source | states |
|---|---|---|
| PropertyBookingWidget.CalculateTotal | src/components/PropertyBooking.tsx:30-40 | A non-zero total needs both dates filled in and at least one night between them. |
| PropertyBookingWidget.CalculateTotalCases | src/components/PropertyBooking.tsx:30-40 | Either date empty gives 0. A range of no nights gives 0. Otherwise the total is price × nights + fee, with the fee defaulting to 0. |
| PropertyBookingWidget.PositiveTotalNeedsNights | src/components/PropertyBooking.tsx:31-37 | A positive total implies both dates are filled in and the range has at least one night. |
| PropertyBookingWidget.GuestInput | src/components/PropertyBooking.tsx:115 | The guest field becomes the parsed number, or 1 when the parse gives 0 or NaN; it is never 0. |
| PropertyBookingWidget.GuestInputOfTyped | src/components/PropertyBooking.tsx:115 | Typing a number n leaves n in the field, except that 0 becomes 1. |
| PropertyBookingWidget.BookingRequest | src/components/PropertyBooking.tsx:42-64 | A request is made iff the user is signed in, both dates are set, guests ≥ 1 and the total is positive; it then carries exactly the listing, the raw dates, the guests and the total. |
| PropertyBookingWidget.BookingRequestExactly | src/components/PropertyBooking.tsx:42-64 | A request is made iff the user is signed in, both dates are set, the range has a night, guests ≥ 1 and the total is positive. The request carries exactly the listing, the raw date strings, the guests and `calculateTotal()`. |
| PropertyBookingWidget.NoCapacityCheck | src/components/PropertyBooking.tsx:42-64 | For any widget whose dates are filled in and whose total is positive, a signed-in user gets a request even with more guests than `maxGuests`; the request carries exactly that guest count. |
| PropertyBookingWidget.BreakdownSumsToTotal | src/components/PropertyBooking.tsx:119-134 | When the breakdown is shown, the nightly line plus the fee line (shown only for a positive fee) equals the displayed total. The one exception is a negative fee: the total includes it but no line shows it. |
| PropertyBookingWidget.BookingWidget.constructor | src/components/PropertyBooking.tsx:18-28 | The fee prop defaults to 0; the dates start empty and the guests at 1. |
| PropertyBookingWidget.BookingWidget.SetCheckIn | src/components/PropertyBooking.tsx:88 | Replaces the check-in string only. |
| PropertyBookingWidget.BookingWidget.SetCheckOut | src/components/PropertyBooking.tsx:98 | Replaces the check-out string only. |
| PropertyBookingWidget.BookingWidget.ChangeGuests | src/components/PropertyBooking.tsx:115 | The guest count becomes `GuestInput` of the parse; the dates are untouched. |
| PropertyBookingWidget.BookingWidget.HandleBooking | src/components/PropertyBooking.tsx:42-65 | The request equals `BookingRequest` of the current state. Without a request the bookings hook is untouched; with one, the hook's loading flag has gone up and down again. |
| Bookings.PendingInsert | src/hooks/useBookings.ts:36-40 | Every inserted record has status 'pending' and carries the form's data and the user's id unchanged. |
| Bookings.FailureMessage | src/hooks/useBookings.ts:60-63 | The message is the profile-setup text iff the error message contains "foreign key"; otherwise it is the generic text. |
| Bookings.ForeignKeyErrorAsksForProfile | src/hooks/useBookings.ts:61-63 | Any error message containing "foreign key" selects the profile-setup text. |
| Bookings.NoMessageIsGeneric | src/hooks/useBookings.ts:60 | An error without a message gives the generic text. |
| Bookings.BookingsHook.constructor | src/hooks/useBookings.ts:16 | Not loading. |
| Bookings.BookingsHook.CreateBooking | src/hooks/useBookings.ts:20-75 | With no user: no insert, a null result, and loading untouched. Otherwise: the insert is the data plus the user's id and status 'pending'; the inserted row is returned on success and null on an error, with the error's message chosen by `FailureMessage`; loading is raised then lowered on both paths. |
| PropertyDetailsPage.WithDetailDefaults | src/pages/PropertyDetails.tsx:50-56 | A missing image list becomes the placeholder and missing amenities become WiFi, Kitchen, Parking. Every other column is kept. |
| PropertyDetailsPage.WithDetailDefaultsIdempotent | src/pages/PropertyDetails.tsx:50-56 | Applying the defaults twice is applying them once, and afterwards both lists are present. |
| PropertyDetailsPage.CalculateTotalPrice | src/pages/PropertyDetails.tsx:197-201 | 0 while a date or the listing is missing, and 0 for a same-day range. |
| PropertyDetailsPage.DisplayedTotal | src/pages/PropertyDetails.tsx:415-431 | Once both dates are picked (the only case in which the line is rendered), the "Total" shows `calculateTotalPrice()` plus the cleaning fee, or plus 0 when the listing has none. |
| PropertyDetailsPage.SubmittedTotal | src/pages/PropertyDetails.tsx:156 | For a non-negative price: 0 for a same-day range, at least one night's price for a forward range, 0 or less for a reversed one. |
| PropertyDetailsPage.SubmittedTotalOmitsFee | src/pages/PropertyDetails.tsx:156-166 | The submitted `total_price` equals `calculateTotalPrice()`. It is exactly the cleaning fee below the displayed total, so it is strictly below that total whenever the fee line is shown. |
| PropertyDetailsPage.PickedRangeHasNights | src/pages/PropertyDetails.tsx:370-390 | When the check-out is picked after the final check-in, on a day its calendar leaves enabled, the range has at least one night and the submitted price is at least one night's price. |
| PropertyDetailsPage.RepickedCheckInSubmitsNonPositive | src/pages/PropertyDetails.tsx:367-390 | A check-in re-picked on or after the kept check-out is still enabled, though the check-out calendar would now disable that check-out; the submitted total is then 0 or negative, and `HandleBooking` inserts it unguarded. |
| PropertyDetailsPage.GuestChoices | src/pages/PropertyDetails.tsx:405-409 | The choices are 1..max_guests in order. A null capacity gives the single choice 1. |
| PropertyDetailsPage.GuestChoicesExactly | src/pages/PropertyDetails.tsx:405-409 | A count is offered iff 1 ≤ count ≤ max_guests. |
| PropertyDetailsPage.DetailAmenityIcon | src/pages/PropertyDetails.tsx:188-195 | The wifi, car and coffee icons go exactly to "WiFi", "Parking" and "Kitchen"; the match is case-sensitive. |
| PropertyDetailsPage.DefaultAmenitiesHaveIcons | src/pages/PropertyDetails.tsx:188-195 | Each default amenity has its own icon. A lower-case "wifi" falls through to the house icon. |
| PropertyDetailsPage.DetailsPage.constructor | src/pages/PropertyDetails.tsx:24-30 | The page's initial state: no listing, loading, no dates, one guest, not favorited. |
| PropertyDetailsPage.DetailsPage.FetchProperty | src/pages/PropertyDetails.tsx:39-69 | A fetched row is stored with its defaults; an error keeps the listing. Loading ends on both paths. |
| PropertyDetailsPage.DetailsPage.CheckIfFavorited | src/pages/PropertyDetails.tsx:71-86 | With a user, the flag is whether the store holds the favorite; without one it is unchanged. |
| PropertyDetailsPage.DetailsPage.SelectDates | src/pages/PropertyDetails.tsx:369-390 | Sets the two dates. |
| PropertyDetailsPage.DetailsPage.SelectGuests | src/pages/PropertyDetails.tsx:405-409 | Sets the guest count. |
| PropertyDetailsPage.DetailsPage.HandleToggleFavorite | src/pages/PropertyDetails.tsx:88-133 | Without a user nothing changes. Otherwise the favorite is removed when flagged and added when not, and the flag is negated; only a thrown exception keeps it. A returned error is not inspected. |
| PropertyDetailsPage.DetailsPage.HandleBooking | src/pages/PropertyDetails.tsx:135-186 | No insert without a user or without both dates. Otherwise the insert is a 'pending' booking of the user, listing, formatted dates, guests and price × nights (no fee); `bookingLoading` ends false. |
| HostOverview.HostListings | src/components/host/HostOverview.tsx:40-43 | Exactly the listings of the host. |
| HostOverview.Ids | src/components/host/HostOverview.tsx:51 | The ids of the listings, position by position. |
| HostOverview.BookingsOf | src/components/host/HostOverview.tsx:48-51 | A booking is kept iff it is in the table and its listing id is one of the given ids; the result is never longer than the table. |
| HostOverview.BookingsOfExactly | src/components/host/HostOverview.tsx:48-51 | A booking is selected iff it is in the table and its listing id is one of the host's. |
| HostOverview.Confirmed | src/components/host/HostOverview.tsx:56-65 | Exactly the bookings whose status is 'confirmed'. |
| HostOverview.TotalEarnings | src/components/host/HostOverview.tsx:56-58 | With no confirmed booking, earnings are 0 whatever the other bookings cost. |
| HostOverview.TotalGuests | src/components/host/HostOverview.tsx:63-65 | With no confirmed booking, the guest total is 0 whatever the other bookings hold. |
| HostOverview.ComputeStats | src/components/host/HostOverview.tsx:37-73 | totalListings is the host's listing count; upcoming is at most the table size; growth is 12; with no confirmed booking on the host's listings, earnings and guests are 0. |
| HostOverview.UpcomingBookings | src/components/host/HostOverview.tsx:60-61 | The count of bookings with check-in strictly after today, whatever their status. It is at most the number of bookings. |
| HostOverview.StatsAppend | src/components/host/HostOverview.tsx:56-65 | Earnings, guests and upcoming count are additive over concatenated booking lists. |
| HostOverview.SumsAppend | src/components/host/HostOverview.tsx:56-65 | The price and guest sums are additive. |
| HostOverview.OneMoreBooking | src/components/host/HostOverview.tsx:56-65 | One more booking adds its price and guests only if it is confirmed, and counts as upcoming only if its check-in is after today. |
| HostOverview.NothingConfirmed | src/components/host/HostOverview.tsx:56-65 | With no confirmed booking, earnings and guests are 0. |
| HostOverview.TotalsNonNegative | src/components/host/HostOverview.tsx:56-65 | Non-negative prices and guests give non-negative totals. |
| HostOverview.OtherHostsBookingsIgnored | src/components/host/HostOverview.tsx:48-51 | A booking of a listing that is not the host's changes no statistic. |
| HostOverview.BookingsOfAppend | src/components/host/HostOverview.tsx:48-51 | Selecting bookings distributes over concatenation. |
| HostOverview.StatsListingCount | src/components/host/HostOverview.tsx:67-73 | totalListings is the host's listing count; monthlyGrowth is always 12; upcoming is at most the table size. |
| HostOverview.ActivityOf | src/components/host/HostOverview.tsx:100-105 | A 'booking' entry whose message is "New booking for " followed by the listing's title, keeping the booking's status and creation time. |
| HostOverview.RecentActivity | src/components/host/HostOverview.tsx:93-105 | At most 5 entries, none when the query gives nothing. Each entry reads "New booking for <title>" and keeps its booking's status. |
| HostOverview.MapActivity | src/components/host/HostOverview.tsx:100-105 | One entry per booking, in order. |
| HostOverview.StatusDot | src/components/host/HostOverview.tsx:200-202 | Green iff the status is 'confirmed', yellow iff it is 'pending', blue otherwise. |
| HostOverview.HostOverviewPanel.constructor | src/components/host/HostOverview.tsx:20-28 | Zero statistics, loading, no activity. |
| HostOverview.HostOverviewPanel.FetchHostStats | src/components/host/HostOverview.tsx:37-84 | On success the statistics are `ComputeStats` of the tables; a failed query keeps them. Loading ends on both paths. |
| HostOverview.HostOverviewPanel.FetchRecentActivity | src/components/host/HostOverview.tsx:86-111 | The feed is `RecentActivity` of the answer, at most 5 entries. |
| Filters.UpdateFilters | src/components/search/SearchFilters.tsx:51-53 | Each field given in the update is replaced; every other field is kept. |
| Filters.UpdateFiltersLaws | src/components/search/SearchFilters.tsx:51-53 | The empty update keeps the record, and the same update applied twice is applied once. |
| Filters.TogglePropertyType | src/components/search/SearchFilters.tsx:55-60 | Only the property types change. The type is in the new list iff it was not in the old one. |
| Filters.ToggleAmenity | src/components/search/SearchFilters.tsx:62-67 | Only the amenities change. The amenity is in the new list iff it was not in the old one. |
| Filters.ClearFilters | src/components/search/SearchFilters.tsx:69-80 | Empty location, no dates, one guest, price range [0, 1000], empty lists, no instant booking. |
| Filters.TogglePropertyTypeTwice | src/components/search/SearchFilters.tsx:55-60 | Toggling an absent type twice restores the filters. |
| Filters.ToggleAmenityTwice | src/components/search/SearchFilters.tsx:62-67 | Toggling an absent amenity twice restores the filters. |
| Filters.TogglesKeepNoDuplicates | src/components/search/SearchFilters.tsx:55-67 | The toggles keep duplicate-free lists duplicate-free. |
| Filters.SliderBounds | src/components/search/SearchFilters.tsx:155-179 | The slider runs from 0 to 1000 in steps of 10; the guest choices are exactly 1..10. |
| Common.RemoveAll | src/components/search/SearchFilters.tsx:57 | `filter(t => t !== x)` keeps exactly the elements other than x. |
| Common.RemoveAllAbsent | src/components/search/SearchFilters.tsx:57 | Filtering out an absent value returns the list unchanged. |
| Common.Toggle | src/components/search/SearchFilters.tsx:56-58 | The value ends up present iff it was absent; every other value keeps its membership. |
| Common.ToggleTwiceAbsent | src/components/search/SearchFilters.tsx:56-58 | Toggling an absent value twice gives back the list. |
| Common.ToggleTwiceMovesToEnd | src/components/search/SearchFilters.tsx:56-58 | For every list holding the value, toggling it twice gives the list without the value plus the value once at the end. So "twice restores" needs the value absent or present once and last. |
| Common.ToggleNoDuplicates | src/components/search/SearchFilters.tsx:56-58 | Toggling keeps a duplicate-free list duplicate-free. |
| UrlParams.GetParam | src/pages/SearchResults.tsx:18-21 | `get` answers a value iff some pair has the key. |
| UrlParams.GetParamAppend | src/pages/SearchResults.tsx:18-21 | `get` on two parts looks in the first part, then in the second. |
| UrlParams.SetThenGet | src/pages/SearchResults.tsx:114-117 | After `set(k, v)`, `get(k)` is v. |
| UrlParams.SetThenGetOther | src/pages/SearchResults.tsx:114-117 | `set(k, v)` leaves `get` of every other key unchanged. |
| UrlParams.SetLeavesOneKey | src/pages/SearchResults.tsx:114-117 | After `set(k, v)`, exactly one pair has key k. |
| UrlParams.SetAbsentAppends | src/pages/SearchResults.tsx:113-117 | Setting a new key appends the pair at the end. |
| UrlParams.WithoutKey | src/pages/SearchResults.tsx:114-117 | Dropping a key leaves no pair with that key and does not lengthen the list. |
| UrlParams.WithoutKeyCount | src/pages/SearchResults.tsx:114-117 | After dropping a key, its count is 0. |
| UrlParams.GetWithoutKey | src/pages/SearchResults.tsx:114-117 | Dropping one key leaves `get` of the others unchanged. |
| UrlParams.SearchParams.constructor | src/pages/SearchResults.tsx:113 | A new buffer is empty. |
| UrlParams.SearchParams.Set | src/pages/SearchResults.tsx:114-117 | The buffer becomes `SetParam` of the old buffer. |
| SearchQuery.QueryFor | src/pages/SearchResults.tsx:113-117 | At most four pairs, and none exactly when nothing is filled in and guests is at most 1 or NaN. |
| SearchQuery.GetParam4 | src/pages/SearchResults.tsx:113-117 | `get` on four consecutive parts answers from the first part that has the key. |
| SearchQuery.QueryForReads | src/components/search/EnhancedSearchBar.tsx:29-33 | location is present iff non-empty. Each date is present iff set, as its ISO text. guests is present iff > 1, in decimal. |
| SearchQuery.QueryForOrder | src/components/search/EnhancedSearchBar.tsx:29-33 | At most four pairs, only the four keys, in the order location, checkIn, checkOut, guests. |
| SearchQuery.QueryForEmpty | src/pages/SearchResults.tsx:113-117 | Nothing filled in and one guest writes no parameter. |
| SearchResultsPage.InitialFilters | src/pages/SearchResults.tsx:17-26 | location is empty iff its parameter is missing or empty; each date is set iff its parameter is non-empty; a missing guests parameter gives 1; the panel-only filters start at their defaults. |
| SearchResultsPage.FilterParams | src/pages/SearchResults.tsx:109-119 | location is written iff non-empty, each date iff set, guests iff above 1. |
| SearchResultsPage.FiltersRoundTrip | src/pages/SearchResults.tsx:17-26 | Reading back what `handleFiltersChange` wrote recovers location, both dates, and any guest count ≥ 1; other counts come back as 1. The panel-only filters return to their defaults. |
| SearchResultsPage.RoundTripLocation | src/pages/SearchResults.tsx:18 | The location survives the round trip. |
| SearchResultsPage.RoundTripDates | src/pages/SearchResults.tsx:19-20 | Both dates survive the round trip. |
| SearchResultsPage.RoundTripCheckIn | src/pages/SearchResults.tsx:19 | The check-in date survives the round trip. |
| SearchResultsPage.RoundTripCheckOut | src/pages/SearchResults.tsx:20 | The check-out date survives the round trip. |
| SearchResultsPage.RoundTripGuests | src/pages/SearchResults.tsx:21 | A count ≥ 1 survives; any other count, or NaN, reads back as 1. |
| SearchResultsPage.GuestsReadBack | src/pages/SearchResults.tsx:21 | `parseInt(written or '1')` of the written guests gives the count back, or 1. |
| SearchResultsPage.PanelFiltersRoundTrip | src/pages/SearchResults.tsx:17-26 | Filters with a guest choice of the panel round-trip exactly, apart from the panel-only fields. |
| SearchResultsPage.ActiveFiltersCount | src/pages/SearchResults.tsx:169-173 | The count is between 0 and 4. It is 0 iff no filter is active and 4 iff all four are. |
| SearchResultsPage.NoActiveFiltersInitially | src/pages/SearchResults.tsx:17-26 | Cleared filters and freshly read filters count 0. |
| SearchResultsPage.AddToComparison | src/pages/SearchResults.tsx:146-163 | The list is kept, or it gains the id at the end when it had fewer than 3 ids and not this one; below 3 the id is always in the result. |
| SearchResultsPage.AddToComparisonCases | src/pages/SearchResults.tsx:146-163 | A full list (≥ 3) is unchanged, and so is a list that already holds the id. Otherwise the id is appended. |
| SearchResultsPage.RemoveFromComparison | src/pages/SearchResults.tsx:165-167 | The id is gone; every other id is kept. |
| SearchResultsPage.AddKeepsComparisonOk | src/pages/SearchResults.tsx:146-163 | Adding keeps the list at most 3 entries long and free of duplicates. |
| SearchResultsPage.RemoveKeepsComparisonOk | src/pages/SearchResults.tsx:165-167 | Removing keeps the list at most 3 entries long and free of duplicates. |
| SearchResultsPage.ComparisonInvariant | src/pages/SearchResults.tsx:146-167 | Every sequence of adds and removes preserves that invariant. |
| SearchResultsPage.FromEmptyComparisonOk | src/pages/SearchResults.tsx:146-167 | From the empty list, the list never exceeds 3 entries or holds a duplicate. |
| SearchResultsPage.DemoResults | src/pages/SearchResults.tsx:35-84 | The three sample results, their ids, prices and favorite flags. |
| SearchResultsPage.ToggleDemoFavorite | src/pages/SearchResults.tsx:129-131 | Toggling sample "2" unflags it and leaves the others as they were. |
| SearchResultsPage.SearchResultsPage.constructor | src/pages/SearchResults.tsx:14-32 | Filters read from the URL, no results, empty comparison list, loading. |
| SearchResultsPage.SearchResultsPage.SearchProperties | src/pages/SearchResults.tsx:90-107 | The results are the three samples, the count is 3, and loading ends. |
| SearchResultsPage.SearchResultsPage.HandleFiltersChange | src/pages/SearchResults.tsx:109-119 | The filters are replaced, and the URL becomes exactly `FilterParams` of them, built by successive `set` calls. |
| SearchResultsPage.SearchResultsPage.HandleAddToComparison | src/pages/SearchResults.tsx:146-163 | The list becomes `AddToComparison` of it; the invariant is kept. |
| SearchResultsPage.SearchResultsPage.RemoveFromComparisonList | src/pages/SearchResults.tsx:165-167 | The list becomes `RemoveFromComparison` of it. |
| SearchResultsPage.SearchResultsPage.HandleToggleFavorite | src/pages/SearchResults.tsx:126-144 | Only the matching property's flag is negated. |
| SearchResultsPage.SearchResultsPage.ActiveFilters | src/pages/SearchResults.tsx:169-173 | The counter of the current filters, between 0 and 4. |
| EnhancedSearch.SearchTarget | src/components/search/EnhancedSearchBar.tsx:28-36 | The path is /search, and the query is empty iff no location and no date is given and guests is at most 1. |
| EnhancedSearch.SearchTargetContents | src/components/search/EnhancedSearchBar.tsx:28-36 | The path is /search. location is present iff non-empty, each date iff picked, guests iff > 1 in decimal; at most four pairs. |
| EnhancedSearch.InitialSearchIsBare | src/components/search/EnhancedSearchBar.tsx:21-26 | The initial state searches /search with no parameter. |
| EnhancedSearch.SearchReachesResults | src/components/search/EnhancedSearchBar.tsx:28-35 | The results page opened on this bar's target reads back its location, dates and guest count, with default panel filters. |
| EnhancedSearch.EnhancedSearchBar.constructor | src/components/search/EnhancedSearchBar.tsx:21-26 | Empty location, no dates, one guest. |
| EnhancedSearch.EnhancedSearchBar.SetLocation | src/components/search/EnhancedSearchBar.tsx:49 | Replaces the location only. |
| EnhancedSearch.EnhancedSearchBar.SelectCheckIn | src/components/search/EnhancedSearchBar.tsx:69 | Replaces the check-in only. |
| EnhancedSearch.EnhancedSearchBar.SelectCheckOut | src/components/search/EnhancedSearchBar.tsx:90 | Replaces the check-out only. |
| EnhancedSearch.EnhancedSearchBar.SelectGuests | src/components/search/EnhancedSearchBar.tsx:102 | The guest count becomes the parse of the chosen option, i.e. the option itself. |
| EnhancedSearch.EnhancedSearchBar.HandleSearch | src/components/search/EnhancedSearchBar.tsx:28-36 | The target of successive `set` calls equals `SearchTarget` of the state. |
| BasicSearch.BasicQuery | src/components/SearchBar.tsx:16-25 | At most four pairs, none iff every input is empty, and no pair has an empty value. |
| BasicSearch.BasicQueryContents | src/components/SearchBar.tsx:16-25 | Each key is present iff its input is non-empty, with the raw input as value. The date keys are lowercase 'checkin'/'checkout'. |
| BasicSearch.OneGuestIsWritten | src/components/SearchBar.tsx:22 | A guest string "1" is written, unlike in the other bar. |
| BasicSearch.ResultsIgnoreBasicDates | src/components/SearchBar.tsx:20-21 | The results page reads this bar's location and parses its guests, but never its dates: it looks under other keys. |
| BasicSearch.SearchBar.constructor | src/components/SearchBar.tsx:10-13 | All four inputs start empty. |
| BasicSearch.SearchBar.SetLocation | src/components/SearchBar.tsx:41 | Replaces the location only. |
| BasicSearch.SearchBar.SetCheckIn | src/components/SearchBar.tsx:56 | Replaces the check-in only. |
| BasicSearch.SearchBar.SetCheckOut | src/components/SearchBar.tsx:71 | Replaces the check-out only. |
| BasicSearch.SearchBar.SetGuests | src/components/SearchBar.tsx:87 | Replaces the guest string only. |
| BasicSearch.SearchBar.HandleSearch | src/components/SearchBar.tsx:16-25 | The target is /search with `BasicQuery` of the inputs. |
| Listings.PropertyOfRow | src/hooks/useFeaturedListings.ts:154-158 | The card keeps every listing column it names, plus the given favorite flag. |
| Listings.SetFavorite | src/hooks/useFeaturedListings.ts:205-224 | Same length. Cards with the id get the flag; every other card is unchanged. |
| Listings.NegateFavorite | src/pages/SearchResults.tsx:129-131 | Same length. Cards with the id have their flag negated; every other card is unchanged. |
| Listings.SetFavoriteLaws | src/hooks/useFeaturedListings.ts:205-207 | Setting twice is setting once; an id no card has changes nothing. |
| Listings.NegateFavoriteTwice | src/pages/SearchResults.tsx:129-131 | Negating twice restores the list. |
| FeaturedListings.AvailableListings | src/hooks/useFeaturedListings.ts:37-41 | The first min(6, n) available rows in table order, where n is the number of available rows; all are available. |
| FeaturedListings.OnlyAvailable | src/hooks/useFeaturedListings.ts:40 | A row is kept iff it is in the table and its is_available is true. |
| FeaturedListings.SampleProperties | src/hooks/useFeaturedListings.ts:53-150 | Six samples with distinct ids, each unflagged and with one image. |
| FeaturedListings.WithDefaults | src/hooks/useFeaturedListings.ts:154-162 | Every column is kept and the card is unflagged. A non-empty image list is kept; otherwise the card gets the single default image. |
| FeaturedListings.WithDefaultsHasImage | src/hooks/useFeaturedListings.ts:159-161 | Every card has at least one image. |
| FeaturedListings.TransformRows | src/hooks/useFeaturedListings.ts:154-162 | One card per row, in order. |
| FeaturedListings.LoadedProperties | src/hooks/useFeaturedListings.ts:51-165 | At least one card; one card per row when there are rows; no card flagged and every card with an image list. |
| FeaturedListings.LoadedPropertiesCases | src/hooks/useFeaturedListings.ts:51-165 | No rows give exactly the samples. Otherwise the count and ids are kept and every card is unflagged. |
| FeaturedListings.SamplesIffNoAvailableRow | src/hooks/useFeaturedListings.ts:37-165 | The query yields nothing iff the table has no available row; the samples are shown then, and otherwise one card per available row, 1 to 6 of them. |
| FeaturedListings.SetFavoriteOnlyThatId | src/hooks/useFeaturedListings.ts:205-224 | Only cards with the id change, and setting again changes nothing. |
| FeaturedListings.StoreDecidesNotLocalFlag | src/hooks/useFeaturedListings.ts:190-207 | For every list, id and store answer, each card with the id gets `!existing`, whatever its own flag. A card already showing `!existing` is left unchanged, where negation would have flipped it. |
| FeaturedListings.FeaturedListingsHook.constructor | src/hooks/useFeaturedListings.ts:25-26 | No cards, loading. |
| FeaturedListings.FeaturedListingsHook.FetchFeaturedListings | src/hooks/useFeaturedListings.ts:34-176 | On success the cards are `LoadedProperties` of the available rows; a failure keeps them. Loading ends on both paths. |
| FeaturedListings.FeaturedListingsHook.HandleToggleFavorite | src/hooks/useFeaturedListings.ts:178-239 | Without a user nothing changes. Otherwise an existing favorite is removed and its flag set false, and a missing one is added and set true; a thrown error keeps the list. |
| AddListing.AmenityChange | src/components/host/AddListingModal.tsx:39-51 | Checking appends the amenity even if present. Unchecking removes every occurrence and keeps the other amenities. No other field changes. |
| AddListing.CheckingTwiceDuplicates | src/components/host/AddListingModal.tsx:40-44 | Checking twice holds the amenity twice more. |
| AddListing.CheckboxClickIsToggle | src/components/host/AddListingModal.tsx:39-51 | A click whose `checked` is "not yet listed" is the toggle, and it keeps the list duplicate-free. |
| AddListing.CheckThenUncheck | src/components/host/AddListingModal.tsx:39-51 | Checking then unchecking an absent amenity restores the form. |
| AddListing.ListingDialog.constructor | src/components/host/AddListingModal.tsx:25-37 | The form starts empty. |
| AddListing.ListingDialog.SetTitle | src/components/host/AddListingModal.tsx:96 | Replaces the title only. |
| AddListing.ListingDialog.HandleAmenityChange | src/components/host/AddListingModal.tsx:39-51 | The form becomes `AmenityChange` of it. |
| AddListing.ListingDialog.HandleSubmit | src/components/host/AddListingModal.tsx:53-78 | The dialog closes and every field is reset to '' or []. |
| FormValidation.ZeroLengthBoundIgnored | src/components/ui/form-validation.tsx:31-36 | A minLength or maxLength of 0 acts as no bound. |
| FormValidation.RequiredMeansNotBlank | src/components/ui/form-validation.tsx:26 | A required rule fails iff the value is blank after trimming. |
| FormValidation.FirstFailure | src/components/ui/form-validation.tsx:25-50 | No failure iff every rule passes. |
| FormValidation.FirstFailureIsFirst | src/components/ui/form-validation.tsx:25-50 | A reported failure is the message of the first failing rule; all earlier rules pass. |
| FormValidation.FirstFailureAt | src/components/ui/form-validation.tsx:25-50 | If rule i fails and all earlier rules pass, the result is rule i's message. |
| FormValidation.AfterValidateOnlyThatField | src/components/ui/form-validation.tsx:52-56 | Validating a field never alters another field's entry. |
| FormValidation.NoRulesIsValid | src/components/ui/form-validation.tsx:22-58 | A field without rules passes and its entry is removed. |
| FormValidation.AfterAllExact | src/components/ui/form-validation.tsx:60-68 | After `validateAll` with distinct names, each field's entry is its first failure, or absent when it passes. |
| FormValidation.AfterAllKeepsOthers | src/components/ui/form-validation.tsx:60-68 | Fields not in the form keep their entries. |
| FormValidation.FormValidator.constructor | src/components/ui/form-validation.tsx:19 | The error map starts empty. |
| FormValidation.FormValidator.ValidateField | src/components/ui/form-validation.tsx:22-58 | The rule loop returns true iff no rule fails, and the map becomes `AfterValidate` with the first failure. |
| FormValidation.FormValidator.ValidateAll | src/components/ui/form-validation.tsx:60-79 | Every field is validated (no short-circuit). The result is true iff all pass, and the map is the fold of the single-field updates. |
| FormValidation.FormValidator.ClearErrors | src/components/ui/form-validation.tsx:81 | The map becomes empty. |
| Common.Trim | src/components/ui/form-validation.tsx:26 | The result is the contiguous piece of the input left after cutting whitespace at both ends: everything cut is whitespace, and the piece neither starts nor ends with whitespace. |
| Common.ParseInt | src/pages/SearchResults.tsx:21 | Whitespace alone gives NaN; a leading digit gives a number ≥ 0; a '-' followed by a digit gives a number ≤ 0. |
| Common.ParseIntNaNIff | src/pages/SearchResults.tsx:21 | NaN exactly when no digit follows the leading whitespace and the optional sign (so '', 'abc', '-' and '+x' are all NaN). |
| Common.ParseIntOfDigits | src/pages/SearchResults.tsx:21 | A non-empty digit string reads as its decimal value. |
| Common.TrimEmptyIffBlank | src/components/ui/form-validation.tsx:26 | `!value.trim()` holds iff the value is all whitespace. |
| Common.ParseIntOfIntToString | src/pages/SearchResults.tsx:21 | `parseInt` reads back what `toString` wrote. |
| PropertyCard.TruncateText | src/components/shared/PropertyCard.tsx:53-55 | Text that fits is unchanged. Longer text becomes its first n characters and '...', length n + 3. |
| PropertyCard.CardTitleBounds | src/components/shared/PropertyCard.tsx:92 | The title is at most 63 characters and starts with the original's first 60. Shortening a shortened title changes nothing. |
| PropertyCard.AmenityPreview | src/components/shared/PropertyCard.tsx:118-126 | At most the first 3 amenities are shown. "+k" appears iff there are more than 3, with shown + k = all. |
| PropertyCard.AmenityIcon | src/components/shared/PropertyCard.tsx:36-43 | Car iff the lower-cased name is "parking", coffee iff it is "kitchen", wifi for every other name. |
| PropertyCard.AmenityIconIgnoresCase | src/components/shared/PropertyCard.tsx:36-43 | A name and its lower-cased form get the same icon. |
| PropertyCard.AmenityIconOfListedNames | src/components/shared/PropertyCard.tsx:36-43 | WiFi, Parking and Kitchen get their icons; an unknown name gets wifi. |
| PropertyCard.CompareButtonFor | src/components/shared/PropertyCard.tsx:146-155 | The button is shown iff asked for and a handler exists. It is disabled and reads 'Added' iff the id is in the list, and reads 'Compare' otherwise. |
| PropertyCard.DefaultListButtonEnabled | src/components/shared/PropertyCard.tsx:146-155 | With the default empty list a shown button is enabled. It is hidden by default. |
| Common.ToLower | src/components/shared/PropertyCard.tsx:37 | Same length; each character is lower-cased in place. |
| Common.ToLowerIdempotent | src/components/shared/PropertyCard.tsx:37 | Lower-casing twice is lower-casing once. |
| SeoHead.FullTitle | src/components/seo/SEOHead.tsx:21-22 | The title itself if it contains "StayFinder", else the title + " \| StayFinder". |
| SeoHead.FullTitleNamesSite | src/components/seo/SEOHead.tsx:22 | The full title always contains the site name and starts with the given title. |
| SeoHead.FullTitleIdempotent | src/components/seo/SEOHead.tsx:22 | Suffixing twice is suffixing once. |
| SeoHead.DefaultTitleUnchanged | src/components/seo/SEOHead.tsx:14-22 | The default title already names the site and is kept. |
| SeoHead.Titles | src/components/seo/SEOHead.tsx:13-40 | The document, og and twitter titles are the same full title; without a title prop the default is used. |
| SeoHead.NoTitleGivesDefault | src/components/seo/SEOHead.tsx:14-22 | Without a title, all three are the default title. |
| Common.ContainsSuffix | src/components/seo/SEOHead.tsx:22 | A string ending with p includes p. |
| AppConfig.RetryDelay | src/App.tsx:22 | The delay is between 1000 and 30000, and it is either the cap or 1000·2^i, never above 1000·2^i. |
| AppConfig.RetryDelayMonotone | src/App.tsx:22 | A later attempt never waits less. |
| AppConfig.RetryDelaySchedule | src/App.tsx:21-22 | Each of the 3 retries waits 1000 × 2^i ms, below the 30000 cap. The first five attempts wait 1000, 2000, 4000, 8000 and 16000 ms; every later attempt waits 30000. |
| AppConfig.RetryWaitGeometric | src/App.tsx:22 | Up to the cap, the first n retries wait 1000 × (2^n − 1) ms in all. |
| AppConfig.Durations | src/App.tsx:21-24 | The `retry` retries wait 7000 ms in all, well under the 5-minute staleTime, which is half the 10-minute cacheTime. |

## Left out

- Backend calls (selects, inserts, deletes), toasts, console logging and navigation are I/O. Backend answers are parameters, and a navigation is the `Target` value it would go to.
- Date handling is left out:
  - browser `Date` parsing, `toISOString`, `format(…, 'yyyy-MM-dd')` and `toLocaleString` are parameters or not modelled;
  - `Math.ceil(ms / day)` is a plain difference of day numbers, so daylight-saving effects are not modelled;
  - "now" is a `today` parameter.
- The form-urlencoded text of a query string is not produced; a target keeps its key/value pairs.
- UrlParams.SetParam carries no ensures of its own, to keep the proofs of its callers small. What `set` promises is stated by UrlParams.SetThenGet, UrlParams.SetThenGetOther, UrlParams.SetLeavesOneKey and UrlParams.SetAbsentAppends.
- Common.ParseInt: the "0x" hexadecimal prefix and values beyond 2^53 are not modelled.
- Common.ToLower: only ASCII letters are folded; `toLowerCase`'s full Unicode case mapping is not modelled.
- String lengths count characters, not UTF-16 code units, so truncation of text outside the Basic Multilingual Plane is not modelled exactly.
- The random demo ratings and review counts (src/pages/PropertyDetails.tsx:52-53, src/hooks/useFeaturedListings.ts:156-157) are not modelled.
- Rendering, styling and dialogs are left out. The one UI-only state that matters here is left out too: `showFilters` of the results page and `handleSearch` (src/pages/SearchResults.tsx:121-124), which only re-runs the sample search and closes the panel.
- FormValidation.Rule: a rule's `pattern` is a predicate on the value. The state a global `RegExp` keeps between `test` calls (`lastIndex`) is not modelled.
- AddListing.ListingDialog.SetTitle stands for all the text-field setters of the form (src/components/host/AddListingModal.tsx:96-201). Each of them replaces one field the same way.
- PropertyDetailsPage.GuestChoices requires a non-negative capacity, because `Array(n)` throws for a negative n.
- HostOverview.HostOverviewPanel.FetchRecentActivity: the ordering by `created_at` is the backend's, so the rows arrive already sorted.
- Bookings.BookingsHook.CreateBooking records the loading flag's successive values in a ghost trace. The interleaving of the asynchronous call with other handlers is not modelled.
- The fixed `rating` and `reviews` values of the featured sample listings (src/hooks/useFeaturedListings.ts:53-150) and of the results page's demonstration data (src/pages/SearchResults.tsx:35-84) are not carried by Listings.Property, like the random ones.
- PropertyCard.AmenityPreview takes a list, while a loaded listing's `amenities` may be null. A featured row with null amenities keeps it through the spread (src/hooks/useFeaturedListings.ts:154-155), and the card's `amenities.slice(0, 3)` (src/components/shared/PropertyCard.tsx:118) then throws; that failure is not modelled.
- Numbers are unbounded integers. JavaScript floating-point prices and `Number(...)` conversions of non-numeric strings are not modelled.
