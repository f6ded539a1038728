/**
 * The host dashboard's overview (src/components/host/HostOverview.tsx):
 * statistics over the bookings of the host's own listings — earnings and
 * guests from confirmed bookings, upcoming check-ins against the current
 * day, the listing count — and the recent-activity feed. The two backend
 * queries are modelled as selections over the `listings` and `bookings`
 * tables, which are parameters, together with whether each query fails.
 */
module HostOverview {
  import opened Common
  import opened Listings
  import opened Bookings

  const ConfirmedStatus := "confirmed"
  /** The growth figure shown, a fixed mock percentage. */
  const MonthlyGrowth := 12
  /** The activity query's `.limit(5)`. */
  const ActivityLimit := 5

  datatype HostStats = HostStats(
    totalEarnings: int,
    totalListings: int,
    upcomingBookings: int,
    totalGuests: int,
    monthlyGrowth: int)

  const InitialStats := HostStats(0, 0, 0, 0, 0)

  /** The host's listings: `.eq('host_id', hostId)`. */
  function HostListings(table: seq<ListingRow>, hostId: string): (r: seq<ListingRow>)
    ensures forall l :: l in r <==> l in table && l.hostId == hostId
    ensures |r| <= |table|
  {
    if table == [] then []
    else (if table[0].hostId == hostId then [table[0]] else []) + HostListings(table[1..], hostId)
  }

  /** `listings.map(l => l.id)`. */
  function Ids(listings: seq<ListingRow>): (r: seq<string>)
    ensures |r| == |listings|
    ensures forall i :: 0 <= i < |listings| ==> r[i] == listings[i].id
  {
    if listings == [] then [] else [listings[0].id] + Ids(listings[1..])
  }

  /** The bookings of those listings: `.in('listing_id', ids)`. */
  function BookingsOf(table: seq<BookingRow>, ids: seq<string>): (r: seq<BookingRow>)
    ensures forall b :: b in r <==> b in table && b.listingId in ids
    ensures |r| <= |table|
  {
    if table == [] then []
    else (if table[0].listingId in ids then [table[0]] else []) + BookingsOf(table[1..], ids)
  }

  /** A booking is aggregated exactly when it is in the table and its listing is one of the host's. */
  lemma {:induction false} BookingsOfExactly(table: seq<BookingRow>, ids: seq<string>, b: BookingRow)
    ensures b in BookingsOf(table, ids) <==> b in table && b.listingId in ids
  {
    if table != [] {
      BookingsOfExactly(table[1..], ids, b);
      assert table == [table[0]] + table[1..];
    }
  }

  /** `filter(b => b.status === 'confirmed')`. */
  function Confirmed(bookings: seq<BookingRow>): (r: seq<BookingRow>)
    ensures forall b :: b in r <==> b in bookings && b.status == Some(ConfirmedStatus)
    ensures |r| <= |bookings|
  {
    if bookings == [] then []
    else (if bookings[0].status == Some(ConfirmedStatus) then [bookings[0]] else []) + Confirmed(bookings[1..])
  }

  function SumPrices(bookings: seq<BookingRow>): int {
    if bookings == [] then 0 else bookings[0].totalPrice + SumPrices(bookings[1..])
  }

  function SumGuests(bookings: seq<BookingRow>): int {
    if bookings == [] then 0 else bookings[0].guests + SumGuests(bookings[1..])
  }

  /** Total earnings: the prices of the confirmed bookings, added up. */
  function TotalEarnings(bookings: seq<BookingRow>): (r: int)
    ensures (forall b :: b in bookings ==> b.status != Some(ConfirmedStatus)) ==> r == 0
  {
    var c := Confirmed(bookings);
    assert c != [] ==> c[0] in c;
    SumPrices(c)
  }

  /** Total guests: the guest counts of the confirmed bookings, added up. */
  function TotalGuests(bookings: seq<BookingRow>): (r: int)
    ensures (forall b :: b in bookings ==> b.status != Some(ConfirmedStatus)) ==> r == 0
  {
    var c := Confirmed(bookings);
    assert c != [] ==> c[0] in c;
    SumGuests(c)
  }

  /** Upcoming bookings: those whose check-in day is after `today`, whatever their status. */
  function UpcomingBookings(bookings: seq<BookingRow>, dayOf: string -> int, today: int): (n: nat)
    ensures n <= |bookings|
  {
    if bookings == [] then 0
    else (if dayOf(bookings[0].checkInDate) > today then 1 else 0) + UpcomingBookings(bookings[1..], dayOf, today)
  }

  /** The statistics `fetchHostStats` sets, for the given tables. */
  function ComputeStats(listingsTable: seq<ListingRow>, bookingsTable: seq<BookingRow>, hostId: string,
                        dayOf: string -> int, today: int): (s: HostStats)
    ensures s.totalListings == |HostListings(listingsTable, hostId)| <= |listingsTable|
    ensures 0 <= s.upcomingBookings <= |bookingsTable|
    ensures s.monthlyGrowth == MonthlyGrowth
    ensures (forall b :: b in bookingsTable && b.listingId in Ids(HostListings(listingsTable, hostId))
               ==> b.status != Some(ConfirmedStatus))
            ==> s.totalEarnings == 0 && s.totalGuests == 0
  {
    var listings := HostListings(listingsTable, hostId);
    var bookings := BookingsOf(bookingsTable, Ids(listings));
    HostStats(TotalEarnings(bookings), |listings|, UpcomingBookings(bookings, dayOf, today),
              TotalGuests(bookings), MonthlyGrowth)
  }

  /** The statistics over two batches of bookings are the sums of the statistics over each. */
  lemma {:induction false} StatsAppend(a: seq<BookingRow>, b: seq<BookingRow>, dayOf: string -> int, today: int)
    ensures TotalEarnings(a + b) == TotalEarnings(a) + TotalEarnings(b)
    ensures TotalGuests(a + b) == TotalGuests(a) + TotalGuests(b)
    ensures UpcomingBookings(a + b, dayOf, today) == UpcomingBookings(a, dayOf, today) + UpcomingBookings(b, dayOf, today)
  {
    ConfirmedAppend(a, b);
    SumsAppend(Confirmed(a), Confirmed(b));
    UpcomingAppend(a, b, dayOf, today);
  }

  lemma {:induction false} ConfirmedAppend(a: seq<BookingRow>, b: seq<BookingRow>)
    ensures Confirmed(a + b) == Confirmed(a) + Confirmed(b)
  {
    if a == [] {
      assert a + b == b;
    } else {
      var head := if a[0].status == Some(ConfirmedStatus) then [a[0]] else [];
      calc {
        Confirmed(a + b);
        == { assert (a + b)[0] == a[0]; assert (a + b)[1..] == a[1..] + b; }
        head + Confirmed(a[1..] + b);
        == { ConfirmedAppend(a[1..], b); }
        head + (Confirmed(a[1..]) + Confirmed(b));
        == (head + Confirmed(a[1..])) + Confirmed(b);
      }
    }
  }

  lemma {:induction false} UpcomingAppend(a: seq<BookingRow>, b: seq<BookingRow>, dayOf: string -> int, today: int)
    ensures UpcomingBookings(a + b, dayOf, today) == UpcomingBookings(a, dayOf, today) + UpcomingBookings(b, dayOf, today)
  {
    if a == [] {
      assert a + b == b;
    } else {
      UpcomingAppend(a[1..], b, dayOf, today);
      assert (a + b)[1..] == a[1..] + b;
      assert (a + b)[0] == a[0];
    }
  }

  lemma {:induction false} SumsAppend(a: seq<BookingRow>, b: seq<BookingRow>)
    ensures SumPrices(a + b) == SumPrices(a) + SumPrices(b)
    ensures SumGuests(a + b) == SumGuests(a) + SumGuests(b)
  {
    if a == [] {
      assert a + b == b;
    } else {
      SumsAppend(a[1..], b);
      assert (a + b)[1..] == a[1..] + b;
    }
  }

  /**
   * One more booking adds its price and guests to the totals exactly when it
   * is confirmed, and counts as upcoming exactly when its check-in is after
   * today: pending and cancelled bookings earn nothing and bring no guests.
   */
  lemma OneMoreBooking(bookings: seq<BookingRow>, b: BookingRow, dayOf: string -> int, today: int)
    ensures TotalEarnings(bookings + [b])
         == TotalEarnings(bookings) + (if b.status == Some(ConfirmedStatus) then b.totalPrice else 0)
    ensures TotalGuests(bookings + [b])
         == TotalGuests(bookings) + (if b.status == Some(ConfirmedStatus) then b.guests else 0)
    ensures UpcomingBookings(bookings + [b], dayOf, today)
         == UpcomingBookings(bookings, dayOf, today) + (if dayOf(b.checkInDate) > today then 1 else 0)
  {
    StatsAppend(bookings, [b], dayOf, today);
    assert [b][1..] == [];
    if b.status == Some(ConfirmedStatus) {
      assert Confirmed([b]) == [b] + Confirmed([]);
      assert SumPrices([b]) == b.totalPrice + SumPrices([]);
      assert SumGuests([b]) == b.guests + SumGuests([]);
    } else {
      assert Confirmed([b]) == [] + Confirmed([]);
    }
  }

  /** No confirmed booking, no earnings and no guests; the upcoming count may still be positive. */
  lemma NothingConfirmed(bookings: seq<BookingRow>)
    requires forall i :: 0 <= i < |bookings| ==> bookings[i].status != Some(ConfirmedStatus)
    ensures TotalEarnings(bookings) == 0 && TotalGuests(bookings) == 0
  {
  }

  /** With no negative prices or guest counts, the totals are never negative. */
  lemma {:induction false} TotalsNonNegative(bookings: seq<BookingRow>)
    requires forall i :: 0 <= i < |bookings| ==> bookings[i].totalPrice >= 0 && bookings[i].guests >= 0
    ensures TotalEarnings(bookings) >= 0 && TotalGuests(bookings) >= 0
  {
    if bookings != [] {
      TotalsNonNegative(bookings[1..]);
      StatsAppend([bookings[0]], bookings[1..], (s: string) => 0, 0);
      assert [bookings[0]] + bookings[1..] == bookings;
    }
  }

  /**
   * A booking of a listing that is not the host's leaves every statistic as
   * it was: only the host's own listings' bookings are aggregated.
   */
  lemma OtherHostsBookingsIgnored(listingsTable: seq<ListingRow>, bookingsTable: seq<BookingRow>, hostId: string,
                                  b: BookingRow, dayOf: string -> int, today: int)
    requires forall l :: l in listingsTable && l.id == b.listingId ==> l.hostId != hostId
    ensures ComputeStats(listingsTable, bookingsTable + [b], hostId, dayOf, today)
         == ComputeStats(listingsTable, bookingsTable, hostId, dayOf, today)
  {
    var ids := Ids(HostListings(listingsTable, hostId));
    BookingsOfAppend(bookingsTable, [b], ids);
    assert BookingsOf([b], ids) == [] + BookingsOf([], ids);
    assert BookingsOf(bookingsTable, ids) + [] == BookingsOf(bookingsTable, ids);
  }

  lemma {:induction false} BookingsOfAppend(a: seq<BookingRow>, b: seq<BookingRow>, ids: seq<string>)
    ensures BookingsOf(a + b, ids) == BookingsOf(a, ids) + BookingsOf(b, ids)
  {
    if a == [] {
      assert a + b == b;
    } else {
      var head := if a[0].listingId in ids then [a[0]] else [];
      calc {
        BookingsOf(a + b, ids);
      == { assert (a + b)[0] == a[0]; assert (a + b)[1..] == a[1..] + b; }
        head + BookingsOf(a[1..] + b, ids);
      == { BookingsOfAppend(a[1..], b, ids); }
        head + (BookingsOf(a[1..], ids) + BookingsOf(b, ids));
      ==
        (head + BookingsOf(a[1..], ids)) + BookingsOf(b, ids);
      }
    }
  }

  /** The listing count is the number of the host's listings, and the growth figure is always 12. */
  lemma StatsListingCount(listingsTable: seq<ListingRow>, bookingsTable: seq<BookingRow>, hostId: string,
                          dayOf: string -> int, today: int)
    ensures var s := ComputeStats(listingsTable, bookingsTable, hostId, dayOf, today);
      && s.totalListings == |HostListings(listingsTable, hostId)|
      && s.totalListings <= |listingsTable|
      && s.monthlyGrowth == 12
      && 0 <= s.upcomingBookings <= |bookingsTable|
  {
  }

  /** An entry of the activity feed. `createdAt` is shown through `toLocaleString`, which is not modelled. */
  datatype Activity = Activity(kind: string, message: string, createdAt: Option<string>, status: Option<string>)

  /** A booking joined with its listing's title (`listings!inner(title)`). */
  datatype BookingWithTitle = BookingWithTitle(booking: BookingRow, title: string)

  /** One feed entry per booking: it names the booking's listing and keeps its status and creation time. */
  function ActivityOf(row: BookingWithTitle): (a: Activity)
    ensures a.kind == "booking"
    ensures |a.message| == 16 + |row.title| && a.message[16..] == row.title
    ensures a.status == row.booking.status && a.createdAt == row.booking.createdAt
  {
    Activity("booking", "New booking for " + row.title, row.booking.createdAt, row.booking.status)
  }

  /**
   * The feed for the activity query's answer (the host's bookings, newest
   * first, before the limit; None when the query yields no data): at most
   * five entries, one per booking in that order, each keeping its booking's
   * status and naming its listing.
   */
  function RecentActivity(answer: Option<seq<BookingWithTitle>>): (r: seq<Activity>)
    ensures answer.None? ==> r == []
    ensures answer.Some? ==> |r| == if |answer.value| <= ActivityLimit then |answer.value| else ActivityLimit
    ensures answer.Some? ==> forall i :: 0 <= i < |r| ==>
      && r[i].kind == "booking"
      && r[i].message == "New booking for " + answer.value[i].title
      && r[i].status == answer.value[i].booking.status
  {
    if answer.None? then [] else MapActivity(Take(answer.value, ActivityLimit))
  }

  function MapActivity(rows: seq<BookingWithTitle>): (r: seq<Activity>)
    ensures |r| == |rows|
    ensures forall i :: 0 <= i < |rows| ==> r[i] == ActivityOf(rows[i])
  {
    if rows == [] then [] else [ActivityOf(rows[0])] + MapActivity(rows[1..])
  }

  /** The colour of an entry's status dot. */
  datatype Dot = Green | Yellow | Blue

  function StatusDot(status: Option<string>): (d: Dot)
    ensures d == Green <==> status == Some(ConfirmedStatus)
    ensures d == Yellow <==> status == Some(PendingStatus)
  {
    if status == Some(ConfirmedStatus) then Green
    else if status == Some(PendingStatus) then Yellow
    else Blue
  }

  class HostOverviewPanel {
    var stats: HostStats
    var loading: bool
    var recentActivity: seq<Activity>

    constructor ()
      ensures stats == InitialStats && loading && recentActivity == []
    {
      stats, loading, recentActivity := InitialStats, true, [];
    }

    /**
     * `fetchHostStats()` over the two tables for the signed-in host; a
     * failing query leaves the statistics as they were. `loading` ends false
     * either way.
     */
    method FetchHostStats(hostId: string, listingsTable: seq<ListingRow>, listingsFail: bool,
                          bookingsTable: seq<BookingRow>, bookingsFail: bool,
                          dayOf: string -> int, today: int)
      modifies this`stats, this`loading
      ensures !loading
      ensures listingsFail || bookingsFail ==> stats == old(stats)
      ensures !listingsFail && !bookingsFail ==> stats == ComputeStats(listingsTable, bookingsTable, hostId, dayOf, today)
    {
      if listingsFail || bookingsFail {
        loading := false;
        return;
      }
      var listings := HostListings(listingsTable, hostId);
      var bookings := BookingsOf(bookingsTable, Ids(listings));
      var totalEarnings := SumPrices(Confirmed(bookings));
      var upcoming := UpcomingBookings(bookings, dayOf, today);
      var totalGuests := SumGuests(Confirmed(bookings));
      stats := HostStats(totalEarnings, |listings|, upcoming, totalGuests, MonthlyGrowth);
      loading := false;
    }

    /** `fetchRecentActivity()` given the query's answer. */
    method FetchRecentActivity(answer: Option<seq<BookingWithTitle>>)
      modifies this`recentActivity
      ensures recentActivity == RecentActivity(answer)
      ensures |recentActivity| <= ActivityLimit
    {
      recentActivity := RecentActivity(answer);
    }
  }
}
