/**
 * The confirmation page: it shows a new booking and can cancel it, after which
 * it shows only a terminal "cancelled" view.
 */
module ConfirmationPage {
  import opened Wrappers
  import opened Types

  const CancelFailedMessage := "Failed to cancel booking"

  /** What the page draws. */
  datatype View =
    | Nothing
    | CancelledView
    | ConfirmedView(error: Option<string>, cancelShown: bool, cancelDisabled: bool)

  /** The controls a view offers. */
  datatype Action = BookAnotherTrip | CancelBooking

  /** The view for the page's state: nothing without a booking and a trip, then the cancelled view, then the details. */
  function ViewOf(booking: Option<Booking>, trip: Option<Trip>, cancelled: bool, cancelling: bool, error: Option<string>): (v: View)
    ensures v.Nothing? <==> booking.None? || trip.None?
    ensures v.CancelledView? <==> booking.Some? && trip.Some? && cancelled
    ensures v.ConfirmedView? ==>
              v.cancelShown == (booking.value.status != "cancelled") && v.cancelDisabled == cancelling && v.error == error
  {
    if booking.None? || trip.None? then Nothing
    else if cancelled then CancelledView
    else ConfirmedView(error, booking.value.status != "cancelled", cancelling)
  }

  function Actions(v: View): (r: set<Action>)
    ensures BookAnotherTrip in r <==> !v.Nothing?
    ensures CancelBooking in r <==> v.ConfirmedView? && v.cancelShown
  {
    match v
    case Nothing => {}
    case CancelledView => {BookAnotherTrip}
    case ConfirmedView(_, shown, _) => if shown then {BookAnotherTrip, CancelBooking} else {BookAnotherTrip}
  }

  /** Once cancelled, the page offers only "Book Another Trip". */
  lemma CancelledOffersOnlyBookAnother(booking: Booking, trip: Trip, cancelling: bool, error: Option<string>)
    ensures Actions(ViewOf(Some(booking), Some(trip), true, cancelling, error)) == {BookAnotherTrip}
  {
  }

  /** The cancel control is offered exactly when the booking's status is not 'cancelled' and the page is not yet cancelled. */
  lemma CancelOfferedIff(booking: Booking, trip: Trip, cancelled: bool, cancelling: bool, error: Option<string>)
    ensures CancelBooking in Actions(ViewOf(Some(booking), Some(trip), cancelled, cancelling, error))
            <==> !cancelled && booking.status != "cancelled"
  {
  }

  class Page {
    const booking: Option<Booking>
    const trip: Option<Trip>
    const origin: Option<string>
    const destination: Option<string>
    const date: Option<string>

    var cancelling: bool
    var cancelled: bool
    var error: Option<string>
    var navigation: Option<Navigation>
    /** Ids of every cancel request sent. */
    var cancelRequests: seq<int>

    constructor (state: LocationState)
      ensures booking == state.booking && trip == state.trip
      ensures origin == state.origin && destination == state.destination && date == state.date
      ensures !cancelling && !cancelled && error == None && navigation == None && cancelRequests == []
    {
      booking, trip := state.booking, state.trip;
      origin, destination, date := state.origin, state.destination, state.date;
      cancelling, cancelled, error := false, false, None;
      navigation, cancelRequests := None, [];
    }

    /** What the page draws in its current state. */
    function View(): (v: View)
      reads this
      ensures v.Nothing? <==> booking.None? || trip.None?
    {
      ViewOf(booking, trip, cancelled, cancelling, error)
    }

    /** The mount effect: without a booking go back to '/'. */
    method Mount()
      modifies this`navigation
      ensures booking.None? ==> navigation == Some(GoTo("/"))
      ensures booking.Some? ==> navigation == old(navigation)
    {
      if booking.None? {
        navigation := Some(GoTo("/"));
      }
    }

    /**
     * The first half of `handleCancel`, up to the request: with no booking, or
     * when the prompt is declined, nothing changes and no request is made;
     * otherwise the error is cleared and the page is cancelling.
     */
    method BeginCancel(confirmed: bool) returns (sent: bool)
      modifies this`cancelling, this`error, this`cancelRequests
      ensures sent <==> booking.Some? && confirmed
      ensures !sent ==> cancelling == old(cancelling) && error == old(error) && cancelRequests == old(cancelRequests)
      ensures sent ==> cancelling && error == None && cancelRequests == old(cancelRequests) + [booking.value.id]
    {
      if booking.None? || !confirmed {
        return false;
      }
      cancelling := true;
      error := None;
      cancelRequests := cancelRequests + [booking.value.id];
      return true;
    }

    /** The second half: the request's outcome `result` arrives. */
    method CompleteCancel(result: ApiResult<()>)
      modifies this`cancelling, this`cancelled, this`error
      ensures !cancelling
      ensures result.Ok? ==> cancelled && error == old(error)
      ensures result.Failed? ==> cancelled == old(cancelled) && error == Some(MessageOr(result.thrown, CancelFailedMessage))
    {
      match result {
        case Ok(_) =>
          cancelled := true;
        case Failed(thrown) =>
          error := Some(MessageOr(thrown, CancelFailedMessage));
      }
      cancelling := false;
    }

    /** `handleCancel` as a whole; `cancelled` is never reset. */
    method HandleCancel(confirmed: bool, result: ApiResult<()>)
      modifies this`cancelling, this`cancelled, this`error, this`cancelRequests
      ensures old(cancelled) ==> cancelled
      ensures !(booking.Some? && confirmed) ==> unchanged(this)
      ensures booking.Some? && confirmed ==>
                !cancelling && cancelRequests == old(cancelRequests) + [booking.value.id]
      ensures booking.Some? && confirmed && result.Ok? ==> cancelled && error == None
      ensures booking.Some? && trip.Some? && old(cancelled) ==> View() == CancelledView && Actions(View()) == {BookAnotherTrip}
      ensures trip.Some? && booking.Some? && confirmed && result.Ok? ==>
                View() == CancelledView && Actions(View()) == {BookAnotherTrip}
      ensures booking.Some? && confirmed && result.Failed? ==>
                cancelled == old(cancelled) && error == Some(MessageOr(result.thrown, CancelFailedMessage))
    {
      var sent := BeginCancel(confirmed);
      if sent {
        CompleteCancel(result);
      }
    }

    /** "Book Another Trip". */
    method BookAnother()
      modifies this`navigation
      ensures navigation == Some(GoTo("/"))
    {
      navigation := Some(GoTo("/"));
    }
  }
}
