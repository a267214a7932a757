/** One trip in the results list: its class name, times, duration and seat count. */
module TripCard {
  import opened Wrappers
  import opened Text
  import opened Types
  import BookingPage
  import Clock

  const DefaultDuration := "4h 30m"
  const DefaultTotalSeats := 14

  /** The `isSelected` prop, `false` when the caller leaves it out. */
  function SelectedProp(isSelected: Option<bool>): (b: bool)
    ensures isSelected.None? ==> !b
    ensures isSelected.Some? ==> b == isSelected.value
  {
    isSelected.GetOr(false)
  }

  /** The card's class list: it names 'selected' exactly when the card is selected. */
  function CardClass(isSelected: bool): (r: string)
    ensures Contains(r, "selected") <==> isSelected
    ensures StartsWith(r, "trip-card ")
  {
    var r := "trip-card " + (if isSelected then "selected" else "");
    assert r[..10] == "trip-card ";
    if isSelected then
      ContainsAt(r, "selected", 10); r
    else
      NotContainsWithoutHead(r, "selected"); r
  }

  /** `trip.total_seats || 14`: an absent or zero total shows the default. */
  function TotalSeatsShown(trip: Trip): (n: int)
    ensures trip.totalSeats.Some? && trip.totalSeats.value != 0 ==> n == trip.totalSeats.value
    ensures trip.totalSeats.None? || trip.totalSeats.value == 0 ==> n == DefaultTotalSeats
  {
    match trip.totalSeats
    case Some(t) => if t != 0 then t else DefaultTotalSeats
    case None => DefaultTotalSeats
  }

  /** The default seat total is the size of the fallback seat map, 5 + 5 + 4. */
  lemma DefaultTotalMatchesLayout(trip: Trip)
    requires trip.totalSeats.None? || trip.totalSeats == Some(0)
    ensures TotalSeatsShown(trip) == |BookingPage.DefaultSeats().All()|
    ensures |BookingPage.DefaultSeats().level1| == 5 && |BookingPage.DefaultSeats().level2| == 5
    ensures |BookingPage.DefaultSeats().level3| == 4
  {
    BookingPage.DefaultIsFallback();
  }

  /** `trip.duration || '4h 30m'`: the shown duration is never empty. */
  function DurationShown(trip: Trip): (d: string)
    ensures d != ""
    ensures Truthy(trip.duration) ==> d == trip.duration.value
    ensures !Truthy(trip.duration) ==> d == DefaultDuration
  {
    if Truthy(trip.duration) then trip.duration.value else DefaultDuration
  }

  /** The text the card shows. */
  datatype CardView = CardView(className: string, departure: string, arrival: string,
                               duration: string, availableSeats: int, totalSeats: int)

  /** The card for `trip` with the given `isSelected` prop. */
  function Card(trip: Trip, isSelected: Option<bool>): (v: CardView)
    requires Clock.ValidTime(trip.departureTime) && Clock.ValidTime(trip.arrivalTime)
    ensures Contains(v.className, "selected") <==> isSelected == Some(true)
    ensures v.departure == Clock.FormatTime(trip.departureTime)
    ensures v.arrival == Clock.FormatTime(trip.arrivalTime)
    ensures v.duration != "" && v.totalSeats != 0 && v.availableSeats == trip.availableSeats
  {
    var className := CardClass(SelectedProp(isSelected));
    assert Contains(className, "selected") <==> isSelected == Some(true);
    CardView(className, Clock.FormatTime(trip.departureTime), Clock.FormatTime(trip.arrivalTime),
             DurationShown(trip), trip.availableSeats, TotalSeatsShown(trip))
  }
}
