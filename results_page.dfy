/** The results page: it lists the trips of one search and lets the user pick one. */
module ResultsPage {
  import opened Wrappers
  import opened Types

  const SelectTripMessage := "Please select a trip"
  const TripsFailedMessage := "Failed to load trips"

  /** A card is drawn selected when its trip has the selected trip's inventory id. */
  predicate IsCardSelected(selected: Option<Trip>, trip: Trip) {
    selected.Some? && selected.value.inventoryId == trip.inventoryId
  }

  /** "Continue to Booking" is disabled until a trip is selected. */
  predicate ContinueDisabled(selected: Option<Trip>) {
    selected.None?
  }

  predicate DistinctInventoryIds(trips: seq<Trip>) {
    forall i, j :: 0 <= i < j < |trips| ==> trips[i].inventoryId != trips[j].inventoryId
  }

  /** Where inventory ids are distinct, at most one card is drawn selected. */
  lemma AtMostOneCardSelected(trips: seq<Trip>, selected: Option<Trip>, i: nat, j: nat)
    requires DistinctInventoryIds(trips)
    requires i < |trips| && j < |trips| && IsCardSelected(selected, trips[i]) && IsCardSelected(selected, trips[j])
    ensures i == j
  {
  }

  /** The selected trip's own card is drawn selected, and so is any card sharing its id. */
  lemma SelectedCardShown(trips: seq<Trip>, t: Trip)
    ensures IsCardSelected(Some(t), t)
    ensures forall k :: 0 <= k < |trips| ==> (IsCardSelected(Some(t), trips[k]) <==> trips[k].inventoryId == t.inventoryId)
  {
  }

  class Page {
    /** The search handed over by the search page; a key it did not set is `None`. */
    const origin: Option<string>
    const destination: Option<string>
    const date: Option<string>

    var trips: seq<Trip>
    var loading: bool
    var error: Option<string>
    var selectedTrip: Option<Trip>
    var navigation: Option<Navigation>
    /** Every search request sent: origin, destination, date. */
    var searches: seq<(string, string, string)>

    constructor (state: LocationState)
      ensures origin == state.origin && destination == state.destination && date == state.date
      ensures trips == [] && loading && error == None && selectedTrip == None
      ensures navigation == None && searches == []
    {
      origin, destination, date := state.origin, state.destination, state.date;
      trips, loading, error, selectedTrip := [], true, None, None;
      navigation, searches := None, [];
    }

    predicate HasSearch()
      reads this
    {
      Truthy(origin) && Truthy(destination) && Truthy(date)
    }

    /** The mount effect: without a full search go back to '/', never searching; else search (its outcome is `result`). */
    method Mount(result: ApiResult<seq<Trip>>)
      modifies this
      ensures selectedTrip == old(selectedTrip)
      ensures !HasSearch() ==>
                navigation == Some(GoTo("/")) && searches == old(searches)
                && trips == old(trips) && error == old(error) && loading == old(loading)
      ensures HasSearch() ==>
                navigation == old(navigation) && !loading
                && searches == old(searches) + [(origin.value, destination.value, date.value)]
      ensures HasSearch() && result.Ok? ==> trips == result.value && error == None
      ensures HasSearch() && result.Failed? ==>
                trips == old(trips) && error == Some(MessageOr(result.thrown, TripsFailedMessage))
    {
      if !Truthy(origin) || !Truthy(destination) || !Truthy(date) {
        navigation := Some(GoTo("/"));
        return;
      }
      LoadTrips(result);
    }

    /** `loadTrips`. */
    method LoadTrips(result: ApiResult<seq<Trip>>)
      requires HasSearch()
      modifies this`loading, this`error, this`trips, this`searches
      ensures !loading && searches == old(searches) + [(origin.value, destination.value, date.value)]
      ensures result.Ok? ==> trips == result.value && error == None
      ensures result.Failed? ==> trips == old(trips) && error == Some(MessageOr(result.thrown, TripsFailedMessage))
    {
      loading := true;
      error := None;
      searches := searches + [(origin.value, destination.value, date.value)];
      match result {
        case Ok(data) =>
          trips := data;
        case Failed(thrown) =>
          error := Some(MessageOr(thrown, TripsFailedMessage));
      }
      loading := false;
    }

    /** `handleTripSelect`: the new trip replaces any earlier choice. */
    method HandleTripSelect(trip: Trip)
      modifies this`selectedTrip
      ensures selectedTrip == Some(trip)
    {
      selectedTrip := Some(trip);
    }

    /** `handleContinue`: on to the booking page with the trip and the unchanged search, or ask for a trip. */
    method HandleContinue()
      modifies this`error, this`navigation
      ensures ContinueDisabled(selectedTrip) ==> error == Some(SelectTripMessage) && navigation == old(navigation)
      ensures !ContinueDisabled(selectedTrip) ==>
                error == old(error)
                && navigation == Some(Navigation("/booking", LocationState(origin, destination, date, selectedTrip, None), false))
    {
      if selectedTrip.None? {
        error := Some(SelectTripMessage);
        return;
      }
      navigation := Some(Navigation("/booking", LocationState(origin, destination, date, selectedTrip, None), false));
    }

    /** `handleBack`: to '/' with no state. */
    method HandleBack()
      modifies this`navigation
      ensures navigation == Some(GoTo("/"))
    {
      navigation := Some(GoTo("/"));
    }
  }
}
