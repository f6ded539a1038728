/**
 * The property details page (src/pages/PropertyDetails.tsx): the listing
 * shown, the dates picked in its calendars (day numbers), the guest count,
 * the saved-to-favorites flag, and the handlers that book the stay and
 * toggle the favorite. The total it submits is the nightly price times the
 * nights, while the total it displays adds the cleaning fee; the model keeps
 * that difference.
 */
module PropertyDetailsPage {
  import opened Common
  import opened Listings
  import opened Bookings

  /** The amenities shown for a listing that has none recorded. */
  const DefaultDetailAmenities: seq<string> := ["WiFi", "Kitchen", "Parking"]
  const PlaceholderImage := "/placeholder.svg"

  /** `fetchProperty`'s defaults: a missing image list or amenity list is replaced, every other column is kept. */
  function WithDetailDefaults(row: ListingRow): (p: ListingRow)
    ensures p == row.(images := p.images, amenities := p.amenities)
    ensures p.images == if row.images.Some? then row.images else Some([PlaceholderImage])
    ensures p.amenities == if row.amenities.Some? then row.amenities else Some(DefaultDetailAmenities)
  {
    row.(images := if row.images.Some? then row.images else Some([PlaceholderImage]),
         amenities := if row.amenities.Some? then row.amenities else Some(DefaultDetailAmenities))
  }

  /** Applying the defaults a second time changes nothing. */
  lemma WithDetailDefaultsIdempotent(row: ListingRow)
    ensures WithDetailDefaults(WithDetailDefaults(row)) == WithDetailDefaults(row)
    ensures WithDetailDefaults(row).images.Some? && WithDetailDefaults(row).amenities.Some?
  {
  }

  /** `calculateTotalPrice()`: nights × nightly price, 0 while a date or the listing is missing; no fee. */
  function CalculateTotalPrice(checkIn: Option<int>, checkOut: Option<int>, property: Option<ListingRow>): (r: int)
    ensures checkIn.None? || checkOut.None? || property.None? ==> r == 0
    ensures checkIn.Some? && checkOut.Some? && checkOut.value == checkIn.value ==> r == 0
  {
    if checkIn.None? || checkOut.None? || property.None? then 0
    else (checkOut.value - checkIn.value) * property.value.pricePerNight
  }

  /** `cleaning_fee || 0`. */
  function CleaningFeeOrZero(row: ListingRow): int {
    if row.cleaningFee.Some? then row.cleaningFee.value else 0
  }

  /**
   * The "Total" line of the price box, which is rendered only once both
   * dates are picked: `calculateTotalPrice()` plus the fee, or 0 when the
   * listing has none.
   */
  function DisplayedTotal(checkIn: Option<int>, checkOut: Option<int>, property: ListingRow): (r: int)
    ensures checkIn.Some? && checkOut.Some? ==>
      r == CalculateTotalPrice(checkIn, checkOut, Some(property)) + CleaningFeeOrZero(property)
    ensures property.cleaningFee.None? ==> r == CalculateTotalPrice(checkIn, checkOut, Some(property))
  {
    CalculateTotalPrice(checkIn, checkOut, Some(property)) + CleaningFeeOrZero(property)
  }

  /** The fee line of the price box appears only for a positive fee. */
  function ShowsFeeLine(property: ListingRow): bool {
    property.cleaningFee.Some? && property.cleaningFee.value > 0
  }

  /**
   * `total_price` of the inserted booking: nothing for a same-day range, at
   * least one night's price for a forward range and nothing or less for a
   * reversed one (for a non-negative price).
   */
  function SubmittedTotal(checkIn: int, checkOut: int, property: ListingRow): (r: int)
    ensures checkOut == checkIn ==> r == 0
    ensures property.pricePerNight >= 0 && checkOut > checkIn ==> r >= property.pricePerNight
    ensures property.pricePerNight >= 0 && checkOut <= checkIn ==> r <= 0
  {
    var p := property.pricePerNight;
    var n := checkOut - checkIn;
    assert p >= 0 && n >= 1 ==> p * n >= p * 1;
    assert p >= 0 && n <= 0 ==> p * n <= 0;
    p * n
  }

  /**
   * With both dates picked, the booking is submitted at the price the box
   * shows before the fee: exactly the cleaning fee less than the total the
   * box displays, so a listing with a positive fee is booked below the
   * displayed price.
   */
  lemma SubmittedTotalOmitsFee(checkIn: int, checkOut: int, property: ListingRow)
    ensures SubmittedTotal(checkIn, checkOut, property)
         == CalculateTotalPrice(Some(checkIn), Some(checkOut), Some(property))
    ensures SubmittedTotal(checkIn, checkOut, property)
         == DisplayedTotal(Some(checkIn), Some(checkOut), property) - CleaningFeeOrZero(property)
    ensures ShowsFeeLine(property) ==>
         SubmittedTotal(checkIn, checkOut, property) < DisplayedTotal(Some(checkIn), Some(checkOut), property)
  {
  }

  /**
   * The calendars' `disabled` tests, with `today` the first day after the
   * current moment: a check-in day before today is disabled, and so is a
   * check-out day before today or not after the picked check-in.
   */
  predicate CheckInDisabled(d: int, today: int) {
    d < today
  }

  predicate CheckOutDisabled(d: int, checkIn: Option<int>, today: int) {
    d < today || (checkIn.Some? && d <= checkIn.value)
  }

  /**
   * A check-out picked after the final check-in, on a day its calendar
   * leaves enabled, makes a range of at least one night, so the submitted
   * price is at least one night's worth (for a non-negative price).
   */
  lemma PickedRangeHasNights(checkIn: int, checkOut: int, today: int, property: ListingRow)
    requires !CheckInDisabled(checkIn, today)
    requires !CheckOutDisabled(checkOut, Some(checkIn), today)
    ensures checkOut - checkIn >= 1
    ensures property.pricePerNight >= 0 ==>
      SubmittedTotal(checkIn, checkOut, property) >= property.pricePerNight
  {
    if property.pricePerNight >= 0 {
      assert property.pricePerNight * (checkOut - checkIn) >= property.pricePerNight * 1;
    }
  }

  /**
   * Picking a check-in does not clear the check-out, and the check-in
   * calendar disables only past days: after check-in and check-out are
   * picked, a later check-in on or after the check-out is still enabled,
   * and the range it leaves has no night. `handleBooking` has no guard for
   * it and inserts a booking whose total is 0 or negative (for a
   * non-negative price).
   */
  lemma RepickedCheckInSubmitsNonPositive(first: int, checkOut: int, second: int, today: int, property: ListingRow)
    requires !CheckInDisabled(first, today)
    requires !CheckOutDisabled(checkOut, Some(first), today)
    requires !CheckInDisabled(second, today) && second >= checkOut
    requires property.pricePerNight >= 0
    ensures CheckOutDisabled(checkOut, Some(second), today)
    ensures SubmittedTotal(second, checkOut, property) <= 0
    ensures second == checkOut ==> SubmittedTotal(second, checkOut, property) == 0
  {
  }

  /**
   * The guest select's choices, `[...Array(max_guests)]` numbered from 1:
   * 1 to max_guests, or the single choice 1 when max_guests is null
   * (`Array(null)` has one element).
   */
  function GuestChoices(maxGuests: Option<int>): (r: seq<int>)
    requires maxGuests.Some? ==> maxGuests.value >= 0
    ensures maxGuests.None? ==> r == [1]
    ensures maxGuests.Some? ==> |r| == maxGuests.value
    ensures forall i :: 0 <= i < |r| ==> r[i] == i + 1
  {
    var n := if maxGuests.Some? then maxGuests.value else 1;
    seq(n, i => i + 1)
  }

  /** A count is offered exactly when it lies between 1 and the capacity. */
  lemma GuestChoicesExactly(maxGuests: int, g: int)
    requires maxGuests >= 0
    ensures g in GuestChoices(Some(maxGuests)) <==> 1 <= g <= maxGuests
  {
    var r := GuestChoices(Some(maxGuests));
    if 1 <= g <= maxGuests {
      assert r[g - 1] == g;
    }
  }

  /** The icons of the amenity list. */
  datatype DetailIcon = WifiIcon | CarIcon | CoffeeIcon | HomeIcon

  /**
   * `getAmenityIcon(amenity)` of this page: an exact, case-sensitive match on
   * the three names the defaults use; any other name gets the house icon.
   */
  function DetailAmenityIcon(amenity: string): (icon: DetailIcon)
    ensures icon == WifiIcon <==> amenity == "WiFi"
    ensures icon == CarIcon <==> amenity == "Parking"
    ensures icon == CoffeeIcon <==> amenity == "Kitchen"
  {
    if amenity == "WiFi" then WifiIcon
    else if amenity == "Parking" then CarIcon
    else if amenity == "Kitchen" then CoffeeIcon
    else HomeIcon
  }

  /**
   * Every default amenity has its own icon, while a name in another case
   * falls through to the house icon.
   */
  lemma DefaultAmenitiesHaveIcons()
    ensures forall a :: a in DefaultDetailAmenities ==> DetailAmenityIcon(a) != HomeIcon
    ensures DetailAmenityIcon("wifi") == HomeIcon
  {
  }

  /** The page's state. */
  class DetailsPage {
    const id: string
    var property: Option<ListingRow>
    var loading: bool
    var checkIn: Option<int>
    var checkOut: Option<int>
    var guests: int
    var isFavorited: bool
    var bookingLoading: bool

    constructor (id: string)
      ensures this.id == id && property.None? && loading
      ensures checkIn.None? && checkOut.None? && guests == 1 && !isFavorited && !bookingLoading
    {
      this.id := id;
      property := None;
      loading := true;
      checkIn, checkOut, guests := None, None, 1;
      isFavorited, bookingLoading := false, false;
    }

    /** `fetchProperty()` given the backend's answer: the listing with its defaults, or nothing on an error. */
    method FetchProperty(answer: Fetch<ListingRow>)
      modifies this
      ensures !loading
      ensures answer.Fetched? ==> property == Some(WithDetailDefaults(answer.value))
      ensures answer.FetchError? ==> property == old(property)
      ensures checkIn == old(checkIn) && checkOut == old(checkOut) && guests == old(guests)
      ensures isFavorited == old(isFavorited) && bookingLoading == old(bookingLoading)
    {
      if answer.Fetched? {
        property := Some(WithDetailDefaults(answer.value));
      }
      loading := false;
    }

    /** `checkIfFavorited()`: with a user, the flag says whether the store holds a favorite for this listing. */
    method CheckIfFavorited(user: Option<string>, stored: bool)
      modifies this`isFavorited
      ensures isFavorited == if user.Some? then stored else old(isFavorited)
    {
      if user.None? {
        return;
      }
      isFavorited := stored;
    }

    method SelectDates(newCheckIn: Option<int>, newCheckOut: Option<int>)
      modifies this`checkIn, this`checkOut
      ensures checkIn == newCheckIn && checkOut == newCheckOut
    {
      checkIn, checkOut := newCheckIn, newCheckOut;
    }

    method SelectGuests(n: int)
      modifies this`guests
      ensures guests == n
    {
      guests := n;
    }

    /**
     * `handleToggleFavorite()`. Without a user nothing happens. Otherwise
     * the favorite is removed or added according to the flag and the flag is
     * negated; an error the backend returns is not looked at, and only a
     * thrown exception (`thrown`) leaves the flag as it was.
     */
    method HandleToggleFavorite(user: Option<string>, thrown: bool) returns (change: Option<FavoriteChange>)
      modifies this`isFavorited
      ensures user.None? ==> change.None? && isFavorited == old(isFavorited)
      ensures user.Some? ==> change == Some(if old(isFavorited) then RemoveFavorite(user.value, id)
                                            else AddFavorite(user.value, id))
      ensures user.Some? ==> isFavorited == (if thrown then old(isFavorited) else !old(isFavorited))
    {
      if user.None? {
        return None;
      }
      if isFavorited {
        change := Some(RemoveFavorite(user.value, id));
        if !thrown {
          isFavorited := false;
        }
      } else {
        change := Some(AddFavorite(user.value, id));
        if !thrown {
          isFavorited := true;
        }
      }
    }

    /**
     * `handleBooking()`, with `formatDay` the 'yyyy-MM-dd' formatting of a
     * day and `insertFails` whether the backend reports an error. Returns
     * the record inserted, if any. Without a user or without both dates it
     * returns at once; with no listing loaded, reading its price throws and
     * the catch ends the attempt before any insert. `bookingLoading` is
     * raised only past the guards and is always lowered again.
     */
    method HandleBooking(user: Option<string>, formatDay: int -> string, insertFails: bool)
      returns (inserted: Option<BookingInsert>, succeeded: bool)
      modifies this`bookingLoading
      ensures user.None? || checkIn.None? || checkOut.None? ==>
        inserted.None? && !succeeded && bookingLoading == old(bookingLoading)
      ensures user.Some? && checkIn.Some? && checkOut.Some? ==> !bookingLoading
      ensures user.Some? && checkIn.Some? && checkOut.Some? && property.None? ==> inserted.None? && !succeeded
      ensures user.Some? && checkIn.Some? && checkOut.Some? && property.Some? ==>
        && inserted == Some(PendingInsert(
             BookingData(id, formatDay(checkIn.value), formatDay(checkOut.value), guests,
                         SubmittedTotal(checkIn.value, checkOut.value, property.value)),
             user.value))
        && succeeded == !insertFails
    {
      if user.None? {
        return None, false;
      }
      if checkIn.None? || checkOut.None? {
        return None, false;
      }
      bookingLoading := true;
      if property.None? {
        inserted, succeeded := None, false;
      } else {
        var totalPrice := property.value.pricePerNight * (checkOut.value - checkIn.value);
        var record := BookingInsert(
          BookingData(id, formatDay(checkIn.value), formatDay(checkOut.value), guests, totalPrice),
          user.value, "pending");
        inserted, succeeded := Some(record), !insertFails;
      }
      bookingLoading := false;
    }
  }
}
