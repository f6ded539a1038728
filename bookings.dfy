/**
 * The booking hook (src/hooks/useBookings.ts): `createBooking` refuses to
 * run without a signed-in user, otherwise raises its `loading` flag, inserts
 * the booking with the user's id and status 'pending', returns the inserted
 * row or null, picks the failure message from the backend's error text, and
 * lowers `loading` again on every path. The insert itself is a backend call,
 * so its answer is a parameter.
 */
module Bookings {
  import opened Common

  /** What a booking form hands to `createBooking`: the dates are the strings the form holds. */
  datatype BookingData = BookingData(
    listingId: string,
    checkInDate: string,
    checkOutDate: string,
    guests: int,
    totalPrice: int)

  /** The record sent to the `bookings` table (the columns of `bookings.Insert` it fills). */
  datatype BookingInsert = BookingInsert(data: BookingData, userId: string, status: string)

  /** A row of the `bookings` table (`bookings.Row`). */
  datatype BookingRow = BookingRow(
    id: string,
    listingId: string,
    userId: string,
    checkInDate: string,
    checkOutDate: string,
    guests: int,
    totalPrice: int,
    status: Option<string>,
    createdAt: Option<string>)

  /** The backend's answer to the insert: the row it stored, or an error and its message, if any. */
  datatype InsertAnswer = Inserted(row: BookingRow) | InsertFailed(message: Option<string>)

  const PendingStatus := "pending"
  const GenericFailureMessage := "Failed to create booking. Please try again."
  const ProfileSetupMessage := "Profile setup required. Please refresh the page and try again."

  /** The record inserted for a user: the form's data, that user's id, and status 'pending'. */
  function PendingInsert(data: BookingData, userId: string): (r: BookingInsert)
    ensures r.status == PendingStatus
    ensures r.data == data && r.userId == userId
  {
    BookingInsert(data, userId, PendingStatus)
  }

  /**
   * The failure toast's text: the profile-setup text exactly when the error
   * has a message that mentions a foreign key, the generic text otherwise.
   */
  function FailureMessage(errorMessage: Option<string>): (m: string)
    ensures m == ProfileSetupMessage <==> errorMessage.Some? && Contains(errorMessage.value, "foreign key")
    ensures m == GenericFailureMessage <==> !(errorMessage.Some? && Contains(errorMessage.value, "foreign key"))
  {
    if errorMessage.Some? && Contains(errorMessage.value, "foreign key") then ProfileSetupMessage
    else GenericFailureMessage
  }

  /** Whatever surrounds it, a message that names a foreign key asks for the profile to be set up. */
  lemma ForeignKeyErrorAsksForProfile(before: string, after: string)
    ensures FailureMessage(Some(before + "foreign key" + after)) == ProfileSetupMessage
  {
    var s := before + "foreign key" + after;
    assert s[|before|..|before| + |"foreign key"|] == "foreign key";
    ContainsAt(s, "foreign key", |before|);
  }

  /** An error without a message gets the generic text. */
  lemma NoMessageIsGeneric()
    ensures FailureMessage(None) == GenericFailureMessage
  {
  }

  /** The hook's state: the `loading` flag, and (for the proofs) every value it has been set to. */
  class BookingsHook {
    var loading: bool
    ghost var loadingTrace: seq<bool>

    constructor ()
      ensures !loading && loadingTrace == []
    {
      loading := false;
      loadingTrace := [];
    }

    /**
     * `createBooking(bookingData)` for the signed-in user `user` (None when
     * nobody is signed in), with `answer` the backend's reply to the insert.
     * Returns the row handed back to the caller, the record inserted (None
     * when no insert was made) and the failure toast's text, if any.
     */
    method CreateBooking(user: Option<string>, data: BookingData, answer: InsertAnswer)
      returns (result: Option<BookingRow>, inserted: Option<BookingInsert>, failure: Option<string>)
      modifies this
      ensures user.None? ==> result.None? && inserted.None? && failure.None?
      ensures user.None? ==> loading == old(loading) && loadingTrace == old(loadingTrace)
      ensures user.Some? ==> inserted == Some(PendingInsert(data, user.value))
      ensures user.Some? ==> loadingTrace == old(loadingTrace) + [true, false] && !loading
      ensures user.Some? && answer.Inserted? ==> result == Some(answer.row) && failure.None?
      ensures user.Some? && answer.InsertFailed? ==>
                result.None? && failure == Some(FailureMessage(answer.message))
    {
      if user.None? {
        return None, None, None;
      }
      loading := true;
      loadingTrace := loadingTrace + [true];
      inserted := Some(PendingInsert(data, user.value));
      match answer {
        case Inserted(row) =>
          result, failure := Some(row), None;
        case InsertFailed(message) =>
          result, failure := None, Some(FailureMessage(message));
      }
      loading := false;
      loadingTrace := loadingTrace + [false];
      assert loadingTrace == old(loadingTrace) + [true, false];
    }
  }
}
