/**
 * The signed-in user's bookings: the token pre-check, the load with its
 * sign-out-on-401/403 rule, cancel-then-reload, and the display fallbacks.
 */
module MyBookingsPage {
  import opened Wrappers
  import opened Text
  import opened Types
  import opened Session
  import Clock
  import ConfirmationPage

  const LoadFailedMessage := "Failed to load bookings"
  const CancelFailedMessage := "Failed to cancel booking"
  const NotAvailable := "N/A"

  /** Top-level fields a list response may carry beside the nested records. */
  datatype FlatFields = FlatFields(
    origin: Option<string>, destination: Option<string>, bookingDate: Option<string>,
    departureTime: Option<string>, arrivalTime: Option<string>)

  /** One entry of the bookings list as the API returns it. */
  datatype ListedBooking = ListedBooking(booking: Booking, flat: FlatFields)

  // ---------------------------------------------------------------------------
  // Display fallbacks
  // ---------------------------------------------------------------------------

  /** Origin: the flat field, else the route's, else 'N/A'; never empty. */
  function DisplayOrigin(b: ListedBooking): (s: string)
    ensures s != ""
    ensures Truthy(b.flat.origin) ==> s == b.flat.origin.value
    ensures !Truthy(b.flat.origin) && b.booking.route.Some? && b.booking.route.value.origin != "" ==>
              s == b.booking.route.value.origin
    ensures !Truthy(b.flat.origin) && (b.booking.route.None? || b.booking.route.value.origin == "") ==>
              s == NotAvailable
    ensures s == NotAvailable <==>
              if Truthy(b.flat.origin) then b.flat.origin.value == NotAvailable
              else b.booking.route.None? || b.booking.route.value.origin in {"", NotAvailable}
  {
    if Truthy(b.flat.origin) then b.flat.origin.value
    else if b.booking.route.Some? && b.booking.route.value.origin != "" then b.booking.route.value.origin
    else NotAvailable
  }

  /** Destination: the flat field, else the route's, else 'N/A'; never empty. */
  function DisplayDestination(b: ListedBooking): (s: string)
    ensures s != ""
    ensures Truthy(b.flat.destination) ==> s == b.flat.destination.value
    ensures !Truthy(b.flat.destination) && b.booking.route.Some? && b.booking.route.value.destination != "" ==>
              s == b.booking.route.value.destination
    ensures !Truthy(b.flat.destination) && (b.booking.route.None? || b.booking.route.value.destination == "") ==>
              s == NotAvailable
    ensures s == NotAvailable <==>
              if Truthy(b.flat.destination) then b.flat.destination.value == NotAvailable
              else b.booking.route.None? || b.booking.route.value.destination in {"", NotAvailable}
  {
    if Truthy(b.flat.destination) then b.flat.destination.value
    else if b.booking.route.Some? && b.booking.route.value.destination != "" then b.booking.route.value.destination
    else NotAvailable
  }

  /** Departure: the flat field, else the schedule's, else ''. */
  function DisplayDeparture(b: ListedBooking): (s: string)
    ensures Truthy(b.flat.departureTime) ==> s == b.flat.departureTime.value
    ensures !Truthy(b.flat.departureTime) && b.booking.schedule.Some? ==> s == b.booking.schedule.value.departureTime
    ensures s == "" <==> !Truthy(b.flat.departureTime) && (b.booking.schedule.None? || b.booking.schedule.value.departureTime == "")
  {
    if Truthy(b.flat.departureTime) then b.flat.departureTime.value
    else if b.booking.schedule.Some? then b.booking.schedule.value.departureTime
    else ""
  }

  /** Arrival: the flat field, else the schedule's, else ''. */
  function DisplayArrival(b: ListedBooking): (s: string)
    ensures Truthy(b.flat.arrivalTime) ==> s == b.flat.arrivalTime.value
    ensures !Truthy(b.flat.arrivalTime) && b.booking.schedule.Some? ==> s == b.booking.schedule.value.arrivalTime
    ensures s == "" <==> !Truthy(b.flat.arrivalTime) && (b.booking.schedule.None? || b.booking.schedule.value.arrivalTime == "")
  {
    if Truthy(b.flat.arrivalTime) then b.flat.arrivalTime.value
    else if b.booking.schedule.Some? then b.booking.schedule.value.arrivalTime
    else ""
  }

  /** The date to render: the flat booking date, else the creation time; `None` shows 'N/A'. */
  function DisplayDate(b: ListedBooking): (d: Option<string>)
    ensures Truthy(b.flat.bookingDate) ==> d == b.flat.bookingDate
    ensures !Truthy(b.flat.bookingDate) && b.booking.createdAt != "" ==> d == Some(b.booking.createdAt)
    ensures d.None? <==> !Truthy(b.flat.bookingDate) && b.booking.createdAt == ""
  {
    if Truthy(b.flat.bookingDate) then b.flat.bookingDate
    else if b.booking.createdAt != "" then Some(b.booking.createdAt)
    else None
  }

  /** The departure line, shown only for a non-empty time, in 12-hour form. */
  function DepartureLine(b: ListedBooking): (line: Option<string>)
    requires DisplayDeparture(b) != "" ==> Clock.ValidTime(DisplayDeparture(b))
    ensures line.Some? <==> DisplayDeparture(b) != ""
    ensures line.Some? ==> line.value == Clock.FormatTime(DisplayDeparture(b))
  {
    var t := DisplayDeparture(b);
    if t == "" then None else Some(Clock.FormatTimeOrEmpty(Some(t)))
  }

  /** The Cancel button: every booking whose status is not exactly 'cancelled'. */
  predicate CancelShown(b: ListedBooking) {
    b.booking.status != "cancelled"
  }

  /**
   * The list and the confirmation page offer cancelling alike: for a booking not
   * yet cancelled on the confirmation page, both show the control exactly when
   * its status is not 'cancelled'.
   */
  lemma CancelControlsAgree(b: ListedBooking, trip: Trip, cancelling: bool, error: Option<string>)
    ensures CancelShown(b) <==> b.booking.status != "cancelled"
    ensures CancelShown(b) <==>
              ConfirmationPage.CancelBooking in
                ConfirmationPage.Actions(ConfirmationPage.ViewOf(Some(b.booking), Some(trip), false, cancelling, error))
  {
  }

  /** A load error that means the credential was refused. */
  predicate IsAuthFailure(message: string) {
    Contains(message, "401") || Contains(message, "403")
  }

  /** A status code 401 or 403 starts at position `i` of `message`. */
  predicate AuthCodeAt(message: string, i: int) {
    0 <= i <= |message| - 3 && message[i..i + 3] in {"401", "403"}
  }

  /** A 401 or 403 anywhere in the message counts, and only that does. */
  lemma AuthFailureIff(message: string)
    ensures IsAuthFailure(message) <==> exists i :: AuthCodeAt(message, i)
  {
    if IsAuthFailure(message) {
      var i;
      if Contains(message, "401") {
        i := ContainsWitness(message, "401");
      } else {
        i := ContainsWitness(message, "403");
      }
      assert AuthCodeAt(message, i);
    }
    if exists i :: AuthCodeAt(message, i) {
      var i :| AuthCodeAt(message, i);
      if message[i..i + 3] == "401" {
        ContainsAt(message, "401", i);
      } else {
        ContainsAt(message, "403", i);
      }
    }
  }

  /** The load fallback never counts as a refused credential, so it is always shown. */
  lemma LoadFallbackIsShown()
    ensures !IsAuthFailure(LoadFailedMessage)
  {
    NoDigitFour(LoadFailedMessage);
  }

  /** A message without the character '4' names neither code. */
  lemma NoDigitFour(message: string)
    requires forall k :: 0 <= k < |message| ==> message[k] != '4'
    ensures !IsAuthFailure(message)
  {
    NotContainsWithoutHead(message, "401");
    NotContainsWithoutHead(message, "403");
  }

  // ---------------------------------------------------------------------------
  // The page
  // ---------------------------------------------------------------------------

  class Page {
    var bookings: seq<ListedBooking>
    var loading: bool
    var error: Option<string>
    var navigation: Option<Navigation>
    const storage: LocalStorage
    /** How many times the list was requested. */
    var loads: nat
    /** The ids sent to `cancelBooking`, in order. */
    var cancelRequests: seq<int>

    constructor (storage: LocalStorage)
      ensures bookings == [] && loading && error == None && navigation == None
      ensures this.storage == storage && loads == 0 && cancelRequests == []
    {
      bookings, loading, error, navigation := [], true, None, None;
      this.storage := storage;
      loads, cancelRequests := 0, [];
    }

    /**
     * The mount effect, with `result` the outcome of the first load: without a
     * stored token the page goes to '/signin' and never asks for the list.
     */
    method Mount(result: ApiResult<seq<ListedBooking>>)
      modifies this, storage
      ensures !Truthy(old(storage.Token())) ==>
                && navigation == Some(GoTo("/signin")) && loads == old(loads)
                && bookings == old(bookings) && loading == old(loading) && error == old(error)
                && storage.items == old(storage.items)
      ensures Truthy(old(storage.Token())) ==> loads == old(loads) + 1 && !loading
      ensures Truthy(old(storage.Token())) && result.Ok? ==>
                bookings == result.value && error == None
                && navigation == old(navigation) && storage.items == old(storage.items)
      ensures Truthy(old(storage.Token())) && result.Failed? && IsAuthFailure(MessageOr(result.thrown, LoadFailedMessage)) ==>
                && storage.items == old(storage.items) - {TokenKey, UserKey}
                && navigation == Some(GoTo("/signin")) && error == None && bookings == old(bookings)
      ensures Truthy(old(storage.Token())) && result.Failed? && !IsAuthFailure(MessageOr(result.thrown, LoadFailedMessage)) ==>
                && error == Some(MessageOr(result.thrown, LoadFailedMessage))
                && navigation == old(navigation) && storage.items == old(storage.items)
                && bookings == old(bookings)
      ensures cancelRequests == old(cancelRequests)
    {
      var token := storage.Token();
      if token.None? || token.value == "" {
        navigation := Some(GoTo("/signin"));
        return;
      }
      LoadBookings(result);
    }

    /**
     * `loadBookings`, with `result` the outcome of `getMyBookings`. A message
     * naming 401 or 403 signs the user out and leaves for '/signin' without an
     * error; any other message is shown as it is.
     */
    method LoadBookings(result: ApiResult<seq<ListedBooking>>)
      modifies this, storage
      ensures loads == old(loads) + 1 && !loading && cancelRequests == old(cancelRequests)
      ensures result.Ok? ==>
                && bookings == result.value && error == None
                && navigation == old(navigation) && storage.items == old(storage.items)
      ensures result.Failed? && IsAuthFailure(MessageOr(result.thrown, LoadFailedMessage)) ==>
                && storage.items == old(storage.items) - {TokenKey, UserKey}
                && navigation == Some(GoTo("/signin")) && error == None && bookings == old(bookings)
      ensures result.Failed? && !IsAuthFailure(MessageOr(result.thrown, LoadFailedMessage)) ==>
                && error == Some(MessageOr(result.thrown, LoadFailedMessage))
                && navigation == old(navigation) && storage.items == old(storage.items)
                && bookings == old(bookings)
    {
      loading := true;
      error := None;
      loads := loads + 1;
      match result {
        case Ok(list) =>
          bookings := list;
        case Failed(thrown) =>
          var message := MessageOr(thrown, LoadFailedMessage);
          if IsAuthFailure(message) {
            storage.RemoveItem(TokenKey);
            storage.RemoveItem(UserKey);
            navigation := Some(GoTo("/signin"));
          } else {
            error := Some(message);
          }
      }
      loading := false;
    }

    /**
     * `handleCancel(bookingId)`, with `confirmed` the answer to the prompt,
     * `cancelResult` the outcome of `cancelBooking` and `reloadResult` that of
     * the reload that follows a success.
     */
    method HandleCancel(bookingId: int, confirmed: bool,
                        cancelResult: ApiResult<()>, reloadResult: ApiResult<seq<ListedBooking>>)
      modifies this, storage
      ensures !confirmed ==>
                && bookings == old(bookings) && loading == old(loading) && error == old(error)
                && navigation == old(navigation) && loads == old(loads)
                && cancelRequests == old(cancelRequests) && storage.items == old(storage.items)
      ensures confirmed ==> cancelRequests == old(cancelRequests) + [bookingId]
      ensures confirmed && cancelResult.Ok? ==> loads == old(loads) + 1 && !loading
      ensures confirmed && cancelResult.Ok? && reloadResult.Ok? ==>
                && bookings == reloadResult.value && error == None
                && navigation == old(navigation) && storage.items == old(storage.items)
      ensures confirmed && cancelResult.Ok? && reloadResult.Failed?
              && IsAuthFailure(MessageOr(reloadResult.thrown, LoadFailedMessage)) ==>
                && storage.items == old(storage.items) - {TokenKey, UserKey}
                && navigation == Some(GoTo("/signin")) && error == None && bookings == old(bookings)
      ensures confirmed && cancelResult.Ok? && reloadResult.Failed?
              && !IsAuthFailure(MessageOr(reloadResult.thrown, LoadFailedMessage)) ==>
                && error == Some(MessageOr(reloadResult.thrown, LoadFailedMessage))
                && navigation == old(navigation) && storage.items == old(storage.items)
                && bookings == old(bookings)
      ensures confirmed && cancelResult.Failed? ==>
                && error == Some(MessageOr(cancelResult.thrown, CancelFailedMessage))
                && loads == old(loads) && bookings == old(bookings) && loading == old(loading)
                && navigation == old(navigation) && storage.items == old(storage.items)
    {
      if !confirmed {
        return;
      }
      cancelRequests := cancelRequests + [bookingId];
      match cancelResult {
        case Ok(_) =>
          LoadBookings(reloadResult);
        case Failed(thrown) =>
          error := Some(MessageOr(thrown, CancelFailedMessage));
      }
    }
  }
}
