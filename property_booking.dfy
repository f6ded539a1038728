/**
 * The booking widget of a listing (src/components/PropertyBooking.tsx): two
 * date inputs held as the strings the inputs produce, a guest count, the
 * total they cost, and the guard chain that decides whether a booking
 * request goes to the booking hook. Dates are day numbers: `dayOf` stands
 * for the browser's parsing of an input string, so the number of nights is
 * the difference of two day numbers.
 */
module PropertyBookingWidget {
  import opened Common
  import opened Bookings

  /** Nights between two date strings. */
  function Nights(checkIn: string, checkOut: string, dayOf: string -> int): int {
    dayOf(checkOut) - dayOf(checkIn)
  }

  /** The `cleaningFee` prop, 0 when it is not given. */
  function FeeOrZero(cleaningFee: Option<int>): int {
    if cleaningFee.Some? then cleaningFee.value else 0
  }

  /**
   * `calculateTotal()`: 0 while a date is missing or the range has no
   * night in it, otherwise the nightly price for every night plus the
   * cleaning fee.
   */
  function CalculateTotal(checkIn: string, checkOut: string, dayOf: string -> int,
                          pricePerNight: int, cleaningFee: int): (r: int)
    ensures r != 0 ==> checkIn != "" && checkOut != "" && Nights(checkIn, checkOut, dayOf) >= 1
  {
    if checkIn == "" || checkOut == "" then 0
    else
      var nights := Nights(checkIn, checkOut, dayOf);
      if nights <= 0 then 0 else pricePerNight * nights + cleaningFee
  }

  /**
   * What the total is, case by case: nothing without both dates, nothing
   * for a same-day or reversed range, and otherwise price × nights + fee —
   * which, for a non-negative price and fee, is at least one night's price.
   */
  lemma CalculateTotalCases(checkIn: string, checkOut: string, dayOf: string -> int,
                            pricePerNight: int, cleaningFee: int)
    ensures checkIn == "" || checkOut == "" ==> CalculateTotal(checkIn, checkOut, dayOf, pricePerNight, cleaningFee) == 0
    ensures Nights(checkIn, checkOut, dayOf) <= 0 ==> CalculateTotal(checkIn, checkOut, dayOf, pricePerNight, cleaningFee) == 0
    ensures checkIn != "" && checkOut != "" && Nights(checkIn, checkOut, dayOf) >= 1 ==>
      CalculateTotal(checkIn, checkOut, dayOf, pricePerNight, cleaningFee)
        == pricePerNight * Nights(checkIn, checkOut, dayOf) + cleaningFee
    ensures checkIn != "" && checkOut != "" && Nights(checkIn, checkOut, dayOf) >= 1
            && pricePerNight >= 0 && cleaningFee >= 0 ==>
      CalculateTotal(checkIn, checkOut, dayOf, pricePerNight, cleaningFee) >= pricePerNight
  {
    var nights := Nights(checkIn, checkOut, dayOf);
    if nights >= 1 && pricePerNight >= 0 {
      assert pricePerNight * nights >= pricePerNight * 1;
    }
  }

  /** A positive total means both dates are filled in and the range holds at least one night. */
  lemma PositiveTotalNeedsNights(checkIn: string, checkOut: string, dayOf: string -> int,
                                 pricePerNight: int, cleaningFee: int)
    requires CalculateTotal(checkIn, checkOut, dayOf, pricePerNight, cleaningFee) > 0
    ensures checkIn != "" && checkOut != "" && Nights(checkIn, checkOut, dayOf) >= 1
  {
  }

  /**
   * The guest input's handler: `parseInt(value) || 1` — a NaN or a 0 from
   * the parse becomes 1, any other number (negatives too) is kept.
   */
  function GuestInput(parsed: Option<int>): (g: int)
    ensures g != 0
    ensures parsed.Some? && parsed.value != 0 ==> g == parsed.value
    ensures parsed.None? || parsed.value == 0 ==> g == 1
  {
    if parsed.Some? && parsed.value != 0 then parsed.value else 1
  }

  /** Typing a count the input's own `toString` would write gives that count back, except that 0 becomes 1. */
  lemma GuestInputOfTyped(n: int)
    ensures GuestInput(ParseInt(IntToString(n))) == if n == 0 then 1 else n
  {
    ParseIntOfIntToString(n);
  }

  /**
   * The booking request `handleBooking` makes, if any: none without a user,
   * without both dates, with fewer than one guest, or with a total that is
   * not positive; otherwise the listing, the two raw date strings, the
   * guest count and the total.
   */
  function BookingRequest(signedIn: bool, listingId: string, checkIn: string, checkOut: string,
                          guests: int, total: int): (r: Option<BookingData>)
    ensures r.Some? <==> signedIn && checkIn != "" && checkOut != "" && guests >= 1 && total > 0
    ensures r.Some? ==> r.value == BookingData(listingId, checkIn, checkOut, guests, total)
  {
    if !signedIn then None
    else if checkIn == "" || checkOut == "" || guests < 1 then None
    else if total <= 0 then None
    else Some(BookingData(listingId, checkIn, checkOut, guests, total))
  }

  /**
   * The guard chain as one condition: a request is made exactly when the
   * user is signed in, both dates are filled in, the range has a night,
   * there is at least one guest and the total is positive; the request then
   * carries exactly the form's values and `calculateTotal()`. The listing's
   * guest capacity is not among the conditions.
   */
  lemma BookingRequestExactly(signedIn: bool, listingId: string, checkIn: string, checkOut: string,
                              guests: int, dayOf: string -> int, pricePerNight: int, cleaningFee: int)
    ensures var total := CalculateTotal(checkIn, checkOut, dayOf, pricePerNight, cleaningFee);
      var r := BookingRequest(signedIn, listingId, checkIn, checkOut, guests, total);
      && (r.Some? <==> signedIn && checkIn != "" && checkOut != "" && guests >= 1
                       && Nights(checkIn, checkOut, dayOf) >= 1 && total > 0)
      && (r.Some? ==> r.value == BookingData(listingId, checkIn, checkOut, guests, total))
  {
  }

  /**
   * The price breakdown under the total: the nightly line, then the fee
   * line when the fee is positive.
   */
  function BreakdownLines(pricePerNight: int, nights: int, cleaningFee: int): seq<int> {
    [pricePerNight * nights] + (if cleaningFee > 0 then [cleaningFee] else [])
  }

  function Sum(xs: seq<int>): int {
    if xs == [] then 0 else xs[0] + Sum(xs[1..])
  }

  /**
   * Whenever the breakdown is shown (total > 0), its lines add up to the
   * total shown under them, except for a negative fee, which the total
   * includes but no line shows.
   */
  lemma BreakdownSumsToTotal(checkIn: string, checkOut: string, dayOf: string -> int,
                             pricePerNight: int, cleaningFee: int)
    requires CalculateTotal(checkIn, checkOut, dayOf, pricePerNight, cleaningFee) > 0
    ensures var lines := BreakdownLines(pricePerNight, Nights(checkIn, checkOut, dayOf), cleaningFee);
      Sum(lines) == CalculateTotal(checkIn, checkOut, dayOf, pricePerNight, cleaningFee)
                    - (if cleaningFee < 0 then cleaningFee else 0)
  {
    var lines := BreakdownLines(pricePerNight, Nights(checkIn, checkOut, dayOf), cleaningFee);
    if cleaningFee > 0 {
      assert Sum(lines) == lines[0] + Sum(lines[1..]);
      assert lines[1..] == [cleaningFee];
    }
  }

  /** The widget's state: its props and the three inputs. */
  class BookingWidget {
    const listingId: string
    const pricePerNight: int
    const cleaningFee: int
    const maxGuests: int
    var checkIn: string
    var checkOut: string
    var guests: int

    /** Mounting with the props; `cleaningFee` defaults to 0. */
    constructor (listingId: string, pricePerNight: int, cleaningFee: Option<int>, maxGuests: int)
      ensures this.listingId == listingId && this.pricePerNight == pricePerNight
      ensures this.cleaningFee == FeeOrZero(cleaningFee) && this.maxGuests == maxGuests
      ensures checkIn == "" && checkOut == "" && guests == 1
    {
      this.listingId := listingId;
      this.pricePerNight := pricePerNight;
      this.cleaningFee := FeeOrZero(cleaningFee);
      this.maxGuests := maxGuests;
      checkIn, checkOut, guests := "", "", 1;
    }

    function Total(dayOf: string -> int): int
      reads this
    {
      CalculateTotal(checkIn, checkOut, dayOf, pricePerNight, cleaningFee)
    }

    method SetCheckIn(s: string)
      modifies this
      ensures checkIn == s && checkOut == old(checkOut) && guests == old(guests)
    {
      checkIn := s;
    }

    method SetCheckOut(s: string)
      modifies this
      ensures checkOut == s && checkIn == old(checkIn) && guests == old(guests)
    {
      checkOut := s;
    }

    /** The guest input's `onChange`, given what `parseInt` made of the typed text. */
    method ChangeGuests(parsed: Option<int>)
      modifies this
      ensures guests == GuestInput(parsed) && checkIn == old(checkIn) && checkOut == old(checkOut)
    {
      guests := GuestInput(parsed);
    }

    /**
     * `handleBooking()`: run the guards, then hand the request to the
     * booking hook (which inserts it for `user`, given the backend's
     * `answer`). Returns the request made, if any; without one the hook is
     * not called and keeps its state.
     */
    method HandleBooking(user: Option<string>, dayOf: string -> int, hook: BookingsHook, answer: InsertAnswer)
      returns (request: Option<BookingData>)
      modifies hook
      ensures request == BookingRequest(user.Some?, listingId, checkIn, checkOut, guests, Total(dayOf))
      ensures request.None? ==> hook.loading == old(hook.loading) && hook.loadingTrace == old(hook.loadingTrace)
      ensures request.Some? ==> !hook.loading && hook.loadingTrace == old(hook.loadingTrace) + [true, false]
    {
      if user.None? {
        return None;
      }
      if checkIn == "" || checkOut == "" || guests < 1 {
        return None;
      }
      var total := CalculateTotal(checkIn, checkOut, dayOf, pricePerNight, cleaningFee);
      if total <= 0 {
        return None;
      }
      var bookingData := BookingData(listingId, checkIn, checkOut, guests, total);
      var _, _, _ := hook.CreateBooking(user, bookingData, answer);
      request := Some(bookingData);
    }
  }

  /**
   * The widget never compares the guest count with the listing's capacity:
   * with a user signed in, both dates filled in and a positive total, a
   * count above `maxGuests` still makes a request, for exactly that count.
   */
  lemma NoCapacityCheck(w: BookingWidget, dayOf: string -> int)
    requires w.checkIn != "" && w.checkOut != "" && w.Total(dayOf) > 0
    requires w.maxGuests >= 1 && w.guests > w.maxGuests
    ensures var r := BookingRequest(true, w.listingId, w.checkIn, w.checkOut, w.guests, w.Total(dayOf));
      r.Some? && r.value.guests == w.guests && r.value.guests > w.maxGuests
  {
  }
}
