/**
 * The booking page: it loads and normalises the seat map of one trip, keeps the
 * passenger form and the chosen seat, validates the form and sends the
 * create-booking request.
 */
module BookingPage {
  import opened Wrappers
  import opened Text
  import opened Types

  // ---------------------------------------------------------------------------
  // Seat map
  // ---------------------------------------------------------------------------

  /**
   * The seat-map response as the page inspects it: for each level, the array the
   * response holds there, or `None` when that key is missing or not an array.
   */
  datatype SeatResponse = SeatResponse(level1: Option<seq<Seat>>, level2: Option<seq<Seat>>, level3: Option<seq<Seat>>) {
    function At(level: LevelNo): Option<seq<Seat>> {
      if level == 1 then level1 else if level == 2 then level2 else level3
    }
  }

  /** First and last seat number of each level in the fixed layout. */
  function FirstSeat(level: LevelNo): int {
    if level == 1 then 1 else if level == 2 then 6 else 11
  }

  function LastSeat(level: LevelNo): int {
    if level == 1 then 5 else if level == 2 then 10 else 14
  }

  /** The run of available seats a level gets when the response has none for it. */
  function FallbackLevel(level: LevelNo): (r: seq<Seat>)
    ensures |r| == (if level == 3 then 4 else 5)
    ensures forall k :: 0 <= k < |r| ==> r[k].available && r[k].level == level
    ensures forall k :: 0 <= k < |r| ==> r[k].seatNumber == FirstSeat(level) + k
  {
    seq(LastSeat(level) - FirstSeat(level) + 1, i => Seat(FirstSeat(level) + i, level, true))
  }

  /** The fallback layout seat by seat: 1..5 on level 1, 6..10 on level 2, 11..14 on level 3. */
  lemma FallbackLayout()
    ensures FallbackLevel(1) == [Seat(1, 1, true), Seat(2, 1, true), Seat(3, 1, true), Seat(4, 1, true), Seat(5, 1, true)]
    ensures FallbackLevel(2) == [Seat(6, 2, true), Seat(7, 2, true), Seat(8, 2, true), Seat(9, 2, true), Seat(10, 2, true)]
    ensures FallbackLevel(3) == [Seat(11, 3, true), Seat(12, 3, true), Seat(13, 3, true), Seat(14, 3, true)]
  {
  }

  /** The seat map used when the seat request fails: three `Array.from` runs of 5, 5 and 4 seats. */
  function DefaultSeats(): SeatsByLevel {
    SeatsByLevel(
      seq(5, i => Seat(i + 1, 1, true)),
      seq(5, i => Seat(i + 6, 2, true)),
      seq(4, i => Seat(i + 11, 3, true)))
  }

  /** The failure default is the per-level fallback: 14 seats, all available, numbered 1..14 in order. */
  lemma DefaultIsFallback()
    ensures DefaultSeats() == SeatsByLevel(FallbackLevel(1), FallbackLevel(2), FallbackLevel(3))
    ensures |DefaultSeats().All()| == 14
    ensures forall k :: 0 <= k < 14 ==> DefaultSeats().All()[k] == Seat(k + 1, DefaultSeats().All()[k].level, true)
  {
    var all := DefaultSeats().All();
    assert all == seq(5, i => Seat(i + 1, 1, true)) + seq(5, i => Seat(i + 6, 2, true)) + seq(4, i => Seat(i + 11, 3, true));
    forall k | 0 <= k < 14
      ensures all[k] == Seat(k + 1, all[k].level, true)
    {
      if k < 5 {
      } else if k < 10 {
        assert all[k] == seq(5, i => Seat(i + 6, 2, true))[k - 5];
      } else {
        assert all[k] == seq(4, i => Seat(i + 11, 3, true))[k - 10];
      }
    }
  }

  /** The counting `for` loop that pushes one level's fallback seats. */
  method FallbackSeats(level: LevelNo) returns (seats: seq<Seat>)
    ensures seats == FallbackLevel(level)
  {
    var startSeat := if level == 1 then 1 else if level == 2 then 6 else 11;
    var endSeat := if level == 1 then 5 else if level == 2 then 10 else 14;
    seats := [];
    for i := startSeat to endSeat + 1
      invariant seats == FallbackLevel(level)[..i - startSeat]
    {
      seats := seats + [Seat(i, level, true)];
    }
  }

  predicate SortedBySeatNumber(s: seq<Seat>) {
    forall i, j :: 0 <= i < j < |s| ==> s[i].seatNumber <= s[j].seatNumber
  }

  /** `seats.sort((a, b) => a.seat_number - b.seat_number)`, in place. */
  method SortBySeatNumber(a: array<Seat>)
    modifies a
    ensures SortedBySeatNumber(a[..])
    ensures multiset(a[..]) == multiset(old(a[..]))
  {
    var i := 0;
    while i < a.Length
      invariant 0 <= i <= a.Length
      invariant SortedBySeatNumber(a[..i])
      invariant multiset(a[..]) == multiset(old(a[..]))
    {
      InsertAt(a, i);
      i := i + 1;
    }
    assert a[..a.Length] == a[..];
  }

  /**
   * While `a[j]` moves left: `a[..i + 1]` is sorted apart from position `j`,
   * and everything right of `j` is larger than `a[j]`.
   */
  ghost predicate SortedBut(s: seq<Seat>, i: nat, j: nat)
    requires j <= i < |s|
  {
    && (forall p, q :: 0 <= p < q <= i && p != j && q != j ==> s[p].seatNumber <= s[q].seatNumber)
    && (forall q :: j < q <= i ==> s[j].seatNumber < s[q].seatNumber)
  }

  /** One insertion step: move `a[i]` left into the sorted prefix `a[..i]`. */
  method InsertAt(a: array<Seat>, i: nat)
    requires i < a.Length && SortedBySeatNumber(a[..i])
    modifies a
    ensures SortedBySeatNumber(a[..i + 1])
    ensures multiset(a[..]) == multiset(old(a[..]))
  {
    var j := i;
    while j > 0 && a[j - 1].seatNumber > a[j].seatNumber
      invariant 0 <= j <= i
      invariant SortedBut(a[..], i, j)
      invariant multiset(a[..]) == multiset(old(a[..]))
    {
      SwapDown(a, j);
      j := j - 1;
    }
  }

  /** Exchange `a[j - 1]` and `a[j]`. */
  method SwapDown(a: array<Seat>, j: nat)
    requires 0 < j < a.Length
    modifies a
    ensures a[..] == old(a[..])[j - 1 := old(a[j])][j := old(a[j - 1])]
    ensures multiset(a[..]) == multiset(old(a[..]))
  {
    a[j - 1], a[j] := a[j], a[j - 1];
  }

  /**
   * What normalisation makes of one level: a non-empty array from the response
   * is kept as a permutation of itself sorted by seat number; a missing or empty
   * one becomes the fallback run.
   */
  ghost predicate LevelNormalized(level: LevelNo, raw: Option<seq<Seat>>, seats: seq<Seat>) {
    if raw.Some? && raw.value != [] then
      SortedBySeatNumber(seats) && multiset(seats) == multiset(raw.value)
    else
      seats == FallbackLevel(level)
  }

  /** The response `null` or not an object counts as every level missing. */
  function RawLevel(response: Option<SeatResponse>, level: LevelNo): (r: Option<seq<Seat>>)
    ensures response.None? ==> r.None?
    ensures response.Some? && level == 1 ==> r == response.value.level1
    ensures response.Some? && level == 2 ==> r == response.value.level2
    ensures response.Some? && level == 3 ==> r == response.value.level3
  {
    if response.Some? then response.value.At(level) else None
  }

  ghost predicate SeatsNormalized(response: Option<SeatResponse>, levels: SeatsByLevel) {
    forall level: LevelNo :: LevelNormalized(level, RawLevel(response, level), levels.At(level))
  }

  /** One level of `loadSeats`: copy and sort what the response has, then fill an empty level. */
  method NormalizeLevel(level: LevelNo, raw: Option<seq<Seat>>) returns (seats: seq<Seat>)
    ensures LevelNormalized(level, raw, seats)
    ensures seats != []
  {
    seats := [];
    if raw.Some? {
      var a := new Seat[|raw.value|](k requires 0 <= k < |raw.value| => raw.value[k]);
      assert a[..] == raw.value;
      SortBySeatNumber(a);
      seats := a[..];
    }
    if |seats| == 0 {
      seats := FallbackSeats(level);
    }
  }

  /** The successful branch of `loadSeats`: every level normalised, none left empty. */
  method NormalizeSeats(response: Option<SeatResponse>) returns (levels: SeatsByLevel)
    ensures SeatsNormalized(response, levels)
    ensures levels.level1 != [] && levels.level2 != [] && levels.level3 != []
  {
    var l1 := NormalizeLevel(1, RawLevel(response, 1));
    var l2 := NormalizeLevel(2, RawLevel(response, 2));
    var l3 := NormalizeLevel(3, RawLevel(response, 3));
    levels := SeatsByLevel(l1, l2, l3);
    assert levels.At(1) == l1 && levels.At(2) == l2 && levels.At(3) == l3;
  }

  /** A non-empty level keeps exactly its own seats, availability included, and gains no fallback seat. */
  lemma NonEmptyLevelKept(level: LevelNo, raw: seq<Seat>, seats: seq<Seat>, s: Seat)
    requires raw != [] && LevelNormalized(level, Some(raw), seats)
    ensures |seats| == |raw|
    ensures s in seats <==> s in raw
  {
    assert |multiset(seats)| == |multiset(raw)|;
    assert s in seats <==> s in multiset(seats);
  }

  // ---------------------------------------------------------------------------
  // Passenger form and seat selection
  // ---------------------------------------------------------------------------

  datatype BookingForm = BookingForm(passengerName: string, passengerEmail: string, seatNumber: Option<int>, seatLevel: Option<int>)

  const EmptyForm := BookingForm("", "", None, None)

  /** The two text inputs, by their `name` attribute. */
  datatype FormField = PassengerName | PassengerEmail

  /** `{ ...prev, [name]: value }`. */
  function WithField(form: BookingForm, field: FormField, value: string): (r: BookingForm)
    ensures field == PassengerName ==> r.passengerName == value && r.passengerEmail == form.passengerEmail
    ensures field == PassengerEmail ==> r.passengerEmail == value && r.passengerName == form.passengerName
    ensures r.seatNumber == form.seatNumber && r.seatLevel == form.seatLevel
  {
    match field
    case PassengerName => form.(passengerName := value)
    case PassengerEmail => form.(passengerEmail := value)
  }

  /** A seat is drawn selected when its number is the form's; its level is not compared. */
  predicate IsSelected(form: BookingForm, seat: Seat) {
    form.seatNumber == Some(seat.seatNumber)
  }

  /** The seat button is disabled when the seat is unavailable or a booking is being sent. */
  predicate SeatDisabled(seat: Seat, loading: bool) {
    !seat.available || loading
  }

  predicate DistinctSeatNumbers(seats: seq<Seat>) {
    forall i, j :: 0 <= i < j < |seats| ==> seats[i].seatNumber != seats[j].seatNumber
  }

  /** Where seat numbers are distinct, at most one seat is drawn selected. */
  lemma AtMostOneSeatSelected(seats: seq<Seat>, form: BookingForm, i: nat, j: nat)
    requires DistinctSeatNumbers(seats)
    requires i < |seats| && j < |seats| && IsSelected(form, seats[i]) && IsSelected(form, seats[j])
    ensures i == j
  {
  }

  /** Only the number is compared: the same number on another level is drawn selected too. */
  lemma SelectionIgnoresLevel(form: BookingForm, n: int, l1: int, l2: int, a1: bool, a2: bool)
    ensures IsSelected(form, Seat(n, l1, a1)) <==> IsSelected(form, Seat(n, l2, a2))
    ensures IsSelected(form, Seat(n, l1, a1)) <==> form.seatNumber == Some(n)
  {
  }

  /** The fallback layout numbers its 14 seats distinctly. */
  lemma DefaultSeatNumbersDistinct()
    ensures DistinctSeatNumbers(DefaultSeats().All())
  {
    DefaultIsFallback();
  }

  // ---------------------------------------------------------------------------
  // Submit validation
  // ---------------------------------------------------------------------------

  const RequiredFieldsMessage := "Please fill in all required fields"
  const InvalidEmailMessage := "Please enter a valid email address"
  const SeatLoadFailedMessage := "Failed to load seat availability. Please try again."
  const CreateFailedMessage := "Failed to create booking"

  /** `[^\s@]+`: one or more characters, none of them white space or '@'. */
  predicate NoSpaceOrAtRun(s: string) {
    s != [] && forall k :: 0 <= k < |s| ==> !IsSpace(s[k]) && s[k] != '@'
  }

  /**
   * `/^[^\s@]+@[^\s@]+\.[^\s@]+$/.test(s)`: the text splits as a run, '@', a run,
   * '.', and a run.
   */
  predicate EmailPatternMatch(s: string) {
    exists at, dot | 0 < at < |s| && 0 < dot < |s| ::
      && at + 1 < dot && dot + 1 < |s|
      && s[at] == '@' && s[dot] == '.'
      && NoSpaceOrAtRun(s[..at]) && NoSpaceOrAtRun(s[at + 1..dot]) && NoSpaceOrAtRun(s[dot + 1..])
  }

  /** The address in plain words: no white space, exactly one '@' with something before it, and a '.' inside the domain. */
  predicate IsValidEmail(s: string) {
    && (forall k :: 0 <= k < |s| ==> !IsSpace(s[k]))
    && multiset(s)['@'] == 1
    && var at := IndexOf(s, '@');
       at > 0 && HasInnerDot(s[at + 1..])
  }

  /** A '.' that is neither the first nor the last character. */
  predicate HasInnerDot(domain: string) {
    exists k | 0 < k < |domain| - 1 :: domain[k] == '.'
  }

  lemma TwoOccurrences(s: string, c: char, i: nat, j: nat)
    requires i < j < |s| && s[i] == c && s[j] == c
    ensures multiset(s)[c] >= 2
  {
    assert s == s[..i] + [s[i]] + s[i + 1..j] + [s[j]] + s[j + 1..];
  }

  /** Every match of the pattern is an address the plain-words description accepts. */
  lemma PatternImpliesValid(s: string, at: nat, dot: nat)
    requires at + 1 < dot && dot + 1 < |s| && s[at] == '@' && s[dot] == '.'
    requires NoSpaceOrAtRun(s[..at]) && NoSpaceOrAtRun(s[at + 1..dot]) && NoSpaceOrAtRun(s[dot + 1..])
    ensures IsValidEmail(s)
  {
    var a, b, c := s[..at], s[at + 1..dot], s[dot + 1..];
    assert s == a + ['@'] + b + ['.'] + c;
    forall k | 0 <= k < |s|
      ensures !IsSpace(s[k])
    {
      if k < at {
        assert s[k] == a[k];
      } else if at < k < dot {
        assert s[k] == b[k - at - 1];
      } else if dot < k {
        assert s[k] == c[k - dot - 1];
      }
    }
    assert '@' !in a && '@' !in b && '@' !in c;
    assert multiset(s) == multiset(a) + multiset{'@'} + multiset(b) + multiset{'.'} + multiset(c);
    IndexOfAt(s, '@', at);
    var domain := s[at + 1..];
    assert domain[dot - at - 1] == '.';
  }

  /** Every address the plain-words description accepts matches the pattern. */
  lemma ValidImpliesPattern(s: string)
    requires IsValidEmail(s)
    ensures EmailPatternMatch(s)
  {
    var at := IndexOf(s, '@');
    var domain := s[at + 1..];
    var k :| 0 < k < |domain| - 1 && domain[k] == '.';
    var dot := at + 1 + k;
    forall m | 0 <= m < |s| && m != at
      ensures s[m] != '@'
    {
      if m < at {
        assert s[m] != '@';
      } else if s[m] == '@' {
        TwoOccurrences(s, '@', at, m);
      }
    }
    assert NoSpaceOrAtRun(s[..at]);
    assert NoSpaceOrAtRun(s[at + 1..dot]);
    assert NoSpaceOrAtRun(s[dot + 1..]);
  }

  /** The pattern and the plain-words description accept the same addresses. */
  lemma EmailPatternIff(s: string)
    ensures EmailPatternMatch(s) <==> IsValidEmail(s)
  {
    if EmailPatternMatch(s) {
      var at, dot :| 0 < at < |s| && 0 < dot < |s| && at + 1 < dot && dot + 1 < |s|
        && s[at] == '@' && s[dot] == '.'
        && NoSpaceOrAtRun(s[..at]) && NoSpaceOrAtRun(s[at + 1..dot]) && NoSpaceOrAtRun(s[dot + 1..]);
      PatternImpliesValid(s, at, dot);
    }
    if IsValidEmail(s) {
      ValidImpliesPattern(s);
    }
  }

  /**
   * The checks `handleSubmit` makes before any request, in order: `Some` of the
   * message it shows, or `None` when the booking may be sent.
   */
  function ValidateBooking(form: BookingForm): (r: Option<string>)
    ensures form.passengerName == "" || form.passengerEmail == "" ==> r == Some(RequiredFieldsMessage)
    ensures form.passengerName != "" && form.passengerEmail != "" ==>
              (r == Some(InvalidEmailMessage) <==> !IsValidEmail(form.passengerEmail))
    ensures r == None <==> form.passengerName != "" && IsValidEmail(form.passengerEmail)
  {
    EmailPatternIff(form.passengerEmail);
    if form.passengerName == "" || form.passengerEmail == "" then Some(RequiredFieldsMessage)
    else if !EmailPatternMatch(form.passengerEmail) then Some(InvalidEmailMessage)
    else None
  }

  // ---------------------------------------------------------------------------
  // The page
  // ---------------------------------------------------------------------------

  class Page {
    /** Navigation state: the trip and the search it came from. */
    const trip: Option<Trip>
    const origin: Option<string>
    const destination: Option<string>
    const date: Option<string>

    var form: BookingForm
    var seatsByLevel: SeatsByLevel
    var loadingSeats: bool
    var loading: bool
    var error: Option<string>
    /** The last navigation the page performed, if any. */
    var navigation: Option<Navigation>
    /** Every create-booking request sent, oldest first. */
    var requests: seq<BookingData>

    /** A chosen seat always has both its number and its level. */
    ghost predicate Valid()
      reads this
    {
      form.seatNumber.Some? <==> form.seatLevel.Some?
    }

    constructor (state: LocationState)
      ensures Valid()
      ensures trip == state.trip && origin == state.origin && destination == state.destination && date == state.date
      ensures form == EmptyForm && seatsByLevel == SeatsByLevel([], [], [])
      ensures loadingSeats && !loading && error == None && navigation == None && requests == []
    {
      trip, origin, destination, date := state.trip, state.origin, state.destination, state.date;
      form := EmptyForm;
      seatsByLevel := SeatsByLevel([], [], []);
      loadingSeats, loading := true, false;
      error, navigation, requests := None, None, [];
    }

    /** The mount effect: without a trip go back to search, else load the seat map (its outcome is `response`). */
    method Mount(response: ApiResult<Option<SeatResponse>>)
      requires Valid()
      modifies this
      ensures Valid() && form == old(form) && requests == old(requests) && loading == old(loading)
      ensures trip.None? ==> navigation == Some(GoTo("/")) && seatsByLevel == old(seatsByLevel)
                             && loadingSeats == old(loadingSeats) && error == old(error)
      ensures trip.Some? ==> navigation == old(navigation) && !loadingSeats
      ensures trip.Some? && response.Ok? ==> error == None && SeatsNormalized(response.value, seatsByLevel)
      ensures trip.Some? && response.Failed? ==> error == Some(SeatLoadFailedMessage) && seatsByLevel == DefaultSeats()
    {
      if trip.None? {
        navigation := Some(GoTo("/"));
        return;
      }
      LoadSeats(response);
    }

    /** `loadSeats`: fetch, normalise, or fall back to the default map when the request fails. */
    method LoadSeats(response: ApiResult<Option<SeatResponse>>)
      requires Valid()
      modifies this
      ensures Valid() && form == old(form) && requests == old(requests) && loading == old(loading)
      ensures navigation == old(navigation)
      ensures trip.None? ==> seatsByLevel == old(seatsByLevel) && loadingSeats == old(loadingSeats) && error == old(error)
      ensures trip.Some? ==> !loadingSeats
      ensures trip.Some? && response.Ok? ==> error == None && SeatsNormalized(response.value, seatsByLevel)
      ensures trip.Some? && response.Failed? ==> error == Some(SeatLoadFailedMessage) && seatsByLevel == DefaultSeats()
    {
      if trip.None? {
        return;
      }
      loadingSeats := true;
      error := None;
      match response {
        case Ok(seats) =>
          seatsByLevel := NormalizeSeats(seats);
        case Failed(_) =>
          error := Some(SeatLoadFailedMessage);
          seatsByLevel := DefaultSeats();
      }
      loadingSeats := false;
    }

    /** `handleChange`: only the named text field changes. */
    method HandleChange(field: FormField, value: string)
      requires Valid()
      modifies this`form
      ensures Valid() && form == WithField(old(form), field, value)
    {
      form := WithField(form, field, value);
    }

    /** `handleSeatSelect`: the seat number and level are replaced together. */
    method HandleSeatSelect(seatNumber: int, level: int)
      requires Valid()
      modifies this`form
      ensures Valid()
      ensures form == BookingForm(old(form).passengerName, old(form).passengerEmail, Some(seatNumber), Some(level))
    {
      form := form.(seatNumber := Some(seatNumber), seatLevel := Some(level));
    }

    /**
     * A click on a seat button: a disabled button does nothing, and the handler
     * itself selects only an available seat.
     */
    method ClickSeat(seat: Seat)
      requires Valid()
      modifies this`form
      ensures Valid()
      ensures !seat.available ==> form == old(form)
      ensures !SeatDisabled(seat, loading) ==> form == old(form).(seatNumber := Some(seat.seatNumber), seatLevel := Some(seat.level))
      ensures SeatDisabled(seat, loading) ==> form == old(form)
    {
      if !SeatDisabled(seat, loading) && seat.available {
        HandleSeatSelect(seat.seatNumber, seat.level);
      }
    }

    /**
     * `handleSubmit`, with the outcome of `createBooking` as `result`: a form that
     * fails validation shows the message and sends nothing; a valid one sends
     * exactly the trip id, the name, the email and the seat pair.
     */
    method HandleSubmit(result: ApiResult<Booking>)
      requires Valid()
      modifies this
      ensures Valid() && form == old(form) && seatsByLevel == old(seatsByLevel) && loadingSeats == old(loadingSeats)
      ensures trip.None? ==> error == old(error) && requests == old(requests) && navigation == old(navigation) && loading == old(loading)
      ensures trip.Some? && ValidateBooking(form).Some? ==>
                error == ValidateBooking(form) && requests == old(requests)
                && navigation == old(navigation) && loading == old(loading)
      ensures trip.Some? && ValidateBooking(form).None? ==>
                && requests == old(requests) + [BookingData(trip.value.inventoryId, form.passengerName,
                                                            form.passengerEmail, form.seatNumber, form.seatLevel)]
                && !loading
                && (requests[|requests| - 1].seatNumber.None? <==> requests[|requests| - 1].seatLevel.None?)
      ensures trip.Some? && ValidateBooking(form).None? && result.Ok? ==>
                error == None
                && navigation == Some(Navigation("/confirmation", LocationState(origin, destination, date, trip, Some(result.value)), false))
      ensures trip.Some? && ValidateBooking(form).None? && result.Failed? ==>
                error == Some(MessageOr(result.thrown, CreateFailedMessage)) && navigation == old(navigation)
    {
      if trip.None? {
        return;
      }
      error := None;
      var problem := ValidateBooking(form);
      if problem.Some? {
        error := problem;
        return;
      }
      loading := true;
      requests := requests + [BookingData(trip.value.inventoryId, form.passengerName, form.passengerEmail,
                                          form.seatNumber, form.seatLevel)];
      match result {
        case Ok(booking) =>
          navigation := Some(Navigation("/confirmation", LocationState(origin, destination, date, trip, Some(booking)), false));
        case Failed(thrown) =>
          error := Some(MessageOr(thrown, CreateFailedMessage));
      }
      loading := false;
    }

    /**
     * A click on "Back": the button is disabled while a booking is being sent,
     * and a click on a disabled button does nothing.
     */
    method ClickBack()
      requires Valid()
      modifies this`navigation
      ensures Valid()
      ensures loading ==> navigation == old(navigation)
      ensures !loading ==> navigation == Some(Navigation("/results", LocationState(origin, destination, date, None, None), false))
    {
      if !loading {
        HandleBack();
      }
    }

    /** `handleBack`: back to the results with the original search. */
    method HandleBack()
      requires Valid()
      modifies this`navigation
      ensures Valid()
      ensures navigation == Some(Navigation("/results", LocationState(origin, destination, date, None, None), false))
    {
      navigation := Some(Navigation("/results", LocationState(origin, destination, date, None, None), false));
    }
  }
}
