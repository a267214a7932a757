/**
 * The search page: it offers the distinct origins and destinations of the route
 * list, checks the search form and hands the search on to the results page.
 */
module SearchPage {
  import opened Wrappers
  import opened Text
  import opened Types

  // ---------------------------------------------------------------------------
  // Option lists: `[...new Set(values)].sort()`
  // ---------------------------------------------------------------------------

  predicate StrictlySorted(s: seq<string>) {
    forall i, j :: 0 <= i < j < |s| ==> LexLess(s[i], s[j])
  }

  /** Put `x` into a strictly sorted list, unless it is there already. */
  function InsertSorted(x: string, s: seq<string>): (r: seq<string>)
    requires StrictlySorted(s)
    ensures StrictlySorted(r)
    ensures forall y :: y in r <==> y == x || y in s
  {
    if s == [] then [x]
    else if x == s[0] then s
    else if LexLess(x, s[0]) then
      assert forall j | 0 < j < |s| :: LexLess(x, s[j]) by {
        forall j | 0 < j < |s| ensures LexLess(x, s[j]) { LexLessTransitive(x, s[0], s[j]); }
      }
      [x] + s
    else
      LexLessTotal(x, s[0]);
      var rest := InsertSorted(x, s[1..]);
      assert forall y :: y in rest ==> LexLess(s[0], y);
      [s[0]] + rest
  }

  /** The distinct values of `xs`, each once, in ascending order. */
  function UniqueSorted(xs: seq<string>): (r: seq<string>)
    ensures StrictlySorted(r)
    ensures forall y :: y in r <==> y in xs
  {
    if xs == [] then []
    else
      var init := UniqueSorted(xs[..|xs| - 1]);
      assert xs == xs[..|xs| - 1] + [xs[|xs| - 1]];
      InsertSorted(xs[|xs| - 1], init)
  }

  /** A strictly sorted list holds no value twice. */
  lemma StrictlySortedIsDistinct(s: seq<string>, i: nat, j: nat)
    requires StrictlySorted(s) && i < j < |s|
    ensures s[i] != s[j]
  {
    LexLessIrreflexive(s[i]);
  }

  /**
   * Being strictly sorted and holding exactly the given values fixes a list:
   * whatever order the set met the values in, the sorted result is the same.
   */
  lemma {:induction false} StrictlySortedUnique(a: seq<string>, b: seq<string>)
    requires StrictlySorted(a) && StrictlySorted(b)
    requires forall y :: y in a <==> y in b
    ensures a == b
  {
    assert |a| > 0 ==> a[0] in b;
    assert |b| > 0 ==> b[0] in a;
    if a != [] && b != [] {
      if a[0] != b[0] {
        assert b[0] in a;
        assert a[0] in b;
        var i :| 0 <= i < |a| && a[i] == b[0];
        var j :| 0 <= j < |b| && b[j] == a[0];
        assert i > 0 && j > 0;
        LexLessTransitive(a[0], b[0], a[0]);
        LexLessIrreflexive(a[0]);
      }
      forall y ensures y in a[1..] <==> y in b[1..] {
        if y in a[1..] {
          TailMember(a, b, y);
        }
        if y in b[1..] {
          TailMember(b, a, y);
        }
      }
      StrictlySortedUnique(a[1..], b[1..]);
    }
  }

  lemma TailMember(a: seq<string>, b: seq<string>, y: string)
    requires StrictlySorted(a) && StrictlySorted(b) && a != [] && b != [] && a[0] == b[0]
    requires forall z :: z in a <==> z in b
    requires y in a[1..]
    ensures y in b[1..]
  {
    var i :| 0 <= i < |a[1..]| && a[1..][i] == y;
    assert LexLess(a[0], a[i + 1]);
    LexLessIrreflexive(y);
    assert y in b;
    var j :| 0 <= j < |b| && b[j] == y;
    assert j != 0;
    assert b[1..][j - 1] == y;
  }

  function RouteOrigins(routes: seq<Route>): seq<string> {
    seq(|routes|, i requires 0 <= i < |routes| => routes[i].origin)
  }

  function RouteDestinations(routes: seq<Route>): seq<string> {
    seq(|routes|, i requires 0 <= i < |routes| => routes[i].destination)
  }

  /** The origin options: every route's origin, once each, ascending. */
  function OriginOptions(routes: seq<Route>): (r: seq<string>)
    ensures StrictlySorted(r)
    ensures forall o :: o in r <==> exists i :: 0 <= i < |routes| && routes[i].origin == o
  {
    var origins := RouteOrigins(routes);
    assert forall i :: 0 <= i < |routes| ==> origins[i] == routes[i].origin;
    UniqueSorted(origins)
  }

  /** The destination options, computed the same way and independently of any chosen origin. */
  function DestinationOptions(routes: seq<Route>): (r: seq<string>)
    ensures StrictlySorted(r)
    ensures forall d :: d in r <==> exists i :: 0 <= i < |routes| && routes[i].destination == d
  {
    var destinations := RouteDestinations(routes);
    assert forall i :: 0 <= i < |routes| ==> destinations[i] == routes[i].destination;
    UniqueSorted(destinations)
  }

  // ---------------------------------------------------------------------------
  // Calendar dates
  // ---------------------------------------------------------------------------

  /** A local calendar date; the page compares two of them at noon, so only the day counts. */
  datatype CalendarDate = CalendarDate(year: nat, month: nat, day: nat)

  predicate Before(a: CalendarDate, b: CalendarDate) {
    a.year < b.year
    || (a.year == b.year && (a.month < b.month || (a.month == b.month && a.day < b.day)))
  }

  /** `<` on the two noon instants is a strict total order on the days. */
  lemma BeforeIsStrictOrder(a: CalendarDate, b: CalendarDate, c: CalendarDate)
    ensures !Before(a, a)
    ensures Before(a, b) && Before(b, c) ==> Before(a, c)
    ensures a == b || Before(a, b) || Before(b, a)
    ensures !(Before(a, b) && Before(b, a))
  {
  }

  predicate IsLeapYear(y: nat) {
    (y % 4 == 0 && y % 100 != 0) || y % 400 == 0
  }

  function DaysInMonth(y: nat, m: nat): nat {
    if m == 2 then (if IsLeapYear(y) then 29 else 28)
    else if m == 4 || m == 6 || m == 9 || m == 11 then 30
    else 31
  }

  predicate IsRealDate(d: CalendarDate) {
    d.year <= 9999 && 1 <= d.month <= 12 && 1 <= d.day <= DaysInMonth(d.year, d.month)
  }

  /**
   * The day `new Date(text + 'T12:00:00')` lands on, read as the V8 engine reads a
   * "YYYY-MM-DD" text: a month in 1..12 and a day in 1..31 are accepted, and a day
   * past the end of its month rolls over into the next month. `None` is an invalid
   * date.
   */
  function NoonDate(s: string): (r: Option<CalendarDate>)
    ensures r.Some? ==> IsRealDate(r.value)
  {
    if |s| == 10 && s[4] == '-' && s[7] == '-' && AllDigits(s[..4]) && AllDigits(s[5..7]) && AllDigits(s[8..]) then
      var y, m, d := DigitsValue(s[..4]), DigitsValue(s[5..7]), DigitsValue(s[8..]);
      DigitsBelowPower(s[..4]);
      assert Power10(4) == 10000;
      if 1 <= m <= 12 && 1 <= d <= 31 then Some(RollOver(y, m, d)) else None
    else None
  }

  /** Year, month and day made into a real date: a day past the month's end moves into the next month. */
  function RollOver(y: nat, m: nat, d: nat): (r: CalendarDate)
    requires y <= 9999 && 1 <= m <= 12 && 1 <= d <= 31
    ensures IsRealDate(r)
    ensures d <= DaysInMonth(y, m) ==> r == CalendarDate(y, m, d)
    ensures d > DaysInMonth(y, m) ==> r == CalendarDate(y, m + 1, d - DaysInMonth(y, m))
  {
    if d <= DaysInMonth(y, m) then CalendarDate(y, m, d)
    else CalendarDate(y, m + 1, d - DaysInMonth(y, m))
  }

  /** A run of `k` digits stands for a number below `10^k`. */
  lemma {:induction false} DigitsBelowPower(s: string)
    requires AllDigits(s)
    ensures DigitsValue(s) < Power10(|s|)
    decreases |s|
  {
    if s != [] {
      DigitsBelowPower(s[..|s| - 1]);
    }
  }

  function DigitValue(c: char): int {
    c as int - '0' as int
  }

  lemma TwoDigits(a: char, b: char)
    requires IsDigit(a) && IsDigit(b)
    ensures DigitsValue([a, b]) == DigitValue(a) * 10 + DigitValue(b)
  {
    assert [a][..0] == [];
    assert DigitsValue([a]) == DigitValue(a);
    assert [a, b][..1] == [a];
    assert DigitsValue([a, b]) == DigitsValue([a]) * 10 + DigitValue(b);
  }

  lemma FourDigits(a: char, b: char, c: char, d: char)
    requires IsDigit(a) && IsDigit(b) && IsDigit(c) && IsDigit(d)
    ensures DigitsValue([a, b, c, d]) == DigitValue(a) * 1000 + DigitValue(b) * 100 + DigitValue(c) * 10 + DigitValue(d)
  {
    TwoDigits(a, b);
    assert [a, b, c][..2] == [a, b];
    assert [a, b, c, d][..3] == [a, b, c];
  }

  /** The day a "YYYY-MM-DD" text of the given digits lands on. */
  lemma NoonDateOfDigits(y1: char, y2: char, y3: char, y4: char, m1: char, m2: char, d1: char, d2: char)
    requires IsDigit(y1) && IsDigit(y2) && IsDigit(y3) && IsDigit(y4)
    requires IsDigit(m1) && IsDigit(m2) && IsDigit(d1) && IsDigit(d2)
    ensures var y := DigitValue(y1) * 1000 + DigitValue(y2) * 100 + DigitValue(y3) * 10 + DigitValue(y4);
            var m := DigitValue(m1) * 10 + DigitValue(m2);
            var d := DigitValue(d1) * 10 + DigitValue(d2);
            NoonDate([y1, y2, y3, y4, '-', m1, m2, '-', d1, d2])
              == if 1 <= m <= 12 && 1 <= d <= 31 then Some(RollOver(y, m, d)) else None
  {
    var s := [y1, y2, y3, y4, '-', m1, m2, '-', d1, d2];
    assert s[..4] == [y1, y2, y3, y4];
    assert s[5..7] == [m1, m2];
    assert s[8..] == [d1, d2];
    FourDigits(y1, y2, y3, y4);
    TwoDigits(m1, m2);
    TwoDigits(d1, d2);
  }

  /** An impossible day rolls over into the next month: 30 February 2023 is 2 March. */
  lemma NoonDateRollsOver()
    ensures NoonDate("2023-02-30") == Some(CalendarDate(2023, 3, 2))
  {
    NoonDateOfDigits('2', '0', '2', '3', '0', '2', '3', '0');
    assert RollOver(2023, 2, 30) == CalendarDate(2023, 3, 2);
  }

  /** In the leap year 2024, 30 February is 1 March. */
  lemma NoonDateRollsOverLeap()
    ensures NoonDate("2024-02-30") == Some(CalendarDate(2024, 3, 1))
  {
    NoonDateOfDigits('2', '0', '2', '4', '0', '2', '3', '0');
    assert RollOver(2024, 2, 30) == CalendarDate(2024, 3, 1);
  }

  /** A month outside 1..12, or an empty text, makes an invalid date. */
  lemma NoonDateRejects()
    ensures NoonDate("2024-13-01") == None
    ensures NoonDate("") == None
  {
    NoonDateOfDigits('2', '0', '2', '4', '1', '3', '0', '1');
  }

  /** `n` as exactly `width` digits, zero-padded. */
  function Padded(n: nat, width: nat): (s: string)
    ensures |s| == width && AllDigits(s)
  {
    if width == 0 then [] else Padded(n / 10, width - 1) + [DigitChar(n % 10)]
  }

  lemma {:induction false} PaddedValue(n: nat, width: nat)
    requires n < Power10(width)
    ensures DigitsValue(Padded(n, width)) == n
  {
    if width > 0 {
      var s := Padded(n, width);
      assert s[..|s| - 1] == Padded(n / 10, width - 1);
      PaddedValue(n / 10, width - 1);
    }
  }

  function Power10(k: nat): nat {
    if k == 0 then 1 else 10 * Power10(k - 1)
  }

  /** The "YYYY-MM-DD" text of a date, as a date input holds it. */
  function IsoDate(d: CalendarDate): string
    requires IsRealDate(d)
  {
    Padded(d.year, 4) + "-" + Padded(d.month, 2) + "-" + Padded(d.day, 2)
  }

  /** The text of a real date, as a date input holds it, reads back as that date. */
  lemma IsoDateRoundTrip(d: CalendarDate)
    requires IsRealDate(d)
    ensures NoonDate(IsoDate(d)) == Some(d)
  {
    var s := IsoDate(d);
    assert s[..4] == Padded(d.year, 4);
    assert s[5..7] == Padded(d.month, 2);
    assert s[8..] == Padded(d.day, 2);
    assert Power10(4) == 10000 && Power10(2) == 100;
    PaddedValue(d.year, 4);
    PaddedValue(d.month, 2);
    PaddedValue(d.day, 2);
  }

  // ---------------------------------------------------------------------------
  // The form and its checks
  // ---------------------------------------------------------------------------

  datatype SearchForm = SearchForm(origin: string, destination: string, date: string)

  datatype SearchField = Origin | Destination | Date

  const FillAllMessage := "Please fill in all fields"
  const SamePlaceMessage := "Origin and destination cannot be the same"
  const PastDateMessage := "Please select today or a future date"
  const RoutesFailedMessage := "Failed to load routes"

  /** `{ ...prev, [name]: value }`. */
  function WithField(form: SearchForm, field: SearchField, value: string): (r: SearchForm)
    ensures field == Origin ==> r == SearchForm(value, form.destination, form.date)
    ensures field == Destination ==> r == SearchForm(form.origin, value, form.date)
    ensures field == Date ==> r == SearchForm(form.origin, form.destination, value)
  {
    match field
    case Origin => form.(origin := value)
    case Destination => form.(destination := value)
    case Date => form.(date := value)
  }

  /** Both places chosen and the same. */
  predicate SamePlace(form: SearchForm) {
    form.origin != "" && form.destination != "" && form.origin == form.destination
  }

  /** The error `handleChange` leaves showing after an edit. */
  function ErrorAfterChange(form: SearchForm): (r: Option<string>)
    ensures r.Some? <==> SamePlace(form)
    ensures r.Some? ==> r.value == SamePlaceMessage
  {
    if SamePlace(form) then Some(SamePlaceMessage) else None
  }

  /** `isSearchDisabled`: the search button is not rendered. */
  predicate IsSearchDisabled(form: SearchForm) {
    form.origin == form.destination && form.origin != "" && form.destination != ""
  }

  /** The button is hidden exactly when an edit would show the same-place error. */
  lemma HiddenButtonMatchesChangeError(form: SearchForm)
    ensures IsSearchDisabled(form) <==> ErrorAfterChange(form).Some?
  {
  }

  /**
   * How `handleSubmit` ends: with a message shown, with the navigation to the
   * results, or with the `RangeError` that `toISOString` raises on an invalid
   * date while the page logs it, before the date is compared.
   */
  datatype SearchOutcome = Rejected(message: string) | Accepted | InvalidDateError

  /** The checks of `handleSubmit` on the given `today`, in order. */
  function ValidateSearch(form: SearchForm, today: CalendarDate): (r: SearchOutcome)
    ensures form.origin == "" || form.destination == "" || form.date == "" ==> r == Rejected(FillAllMessage)
    ensures form.origin != "" && form.destination != "" && form.date != "" && form.origin == form.destination ==>
              r == Rejected(SamePlaceMessage)
    ensures r == InvalidDateError <==>
              form.origin != "" && form.destination != "" && form.date != ""
              && form.origin != form.destination && NoonDate(form.date).None?
    ensures r == Rejected(PastDateMessage) <==>
              form.origin != "" && form.destination != "" && form.origin != form.destination
              && NoonDate(form.date).Some? && Before(NoonDate(form.date).value, today)
    ensures r == Accepted <==>
              form.origin != "" && form.destination != "" && form.origin != form.destination
              && NoonDate(form.date).Some? && !Before(NoonDate(form.date).value, today)
  {
    if form.origin == "" || form.destination == "" || form.date == "" then Rejected(FillAllMessage)
    else if form.origin == form.destination then Rejected(SamePlaceMessage)
    else match NoonDate(form.date)
      case None => InvalidDateError
      case Some(d) => if Before(d, today) then Rejected(PastDateMessage) else Accepted
  }

  /**
   * On a date a date input can hold, the check never throws: an earlier day is
   * rejected, and today and every later day pass.
   */
  lemma DateCheckBoundary(form: SearchForm, d: CalendarDate, today: CalendarDate)
    requires IsRealDate(d) && form.date == IsoDate(d)
    requires form.origin != "" && form.destination != "" && form.origin != form.destination
    ensures ValidateSearch(form, today) == (if Before(d, today) then Rejected(PastDateMessage) else Accepted)
    ensures d == today ==> ValidateSearch(form, today) == Accepted
  {
    IsoDateRoundTrip(d);
    assert form.date != "" by {
      assert |IsoDate(d)| == 10;
    }
  }

  // ---------------------------------------------------------------------------
  // The page
  // ---------------------------------------------------------------------------

  class Page {
    var routes: Option<seq<Route>>
    var origins: seq<string>
    var destinations: seq<string>
    var form: SearchForm
    var loading: bool
    var error: Option<string>
    var navigation: Option<Navigation>

    /** `initialDate` is the text of the current UTC date, which the page starts the date field with. */
    constructor (initialDate: string)
      ensures routes == None && origins == [] && destinations == []
      ensures form == SearchForm("", "", initialDate)
      ensures loading && error == None && navigation == None
    {
      routes, origins, destinations := None, [], [];
      form := SearchForm("", "", initialDate);
      loading, error, navigation := true, None, None;
    }

    /** `loadRoutes`, with the outcome of `getRoutes` as `result`. */
    method LoadRoutes(result: ApiResult<seq<Route>>)
      modifies this
      ensures form == old(form) && navigation == old(navigation) && !loading
      ensures result.Ok? ==>
                routes == Some(result.value) && error == None
                && origins == OriginOptions(result.value) && destinations == DestinationOptions(result.value)
      ensures result.Failed? ==>
                routes == old(routes) && origins == old(origins) && destinations == old(destinations)
                && error == Some(MessageOr(result.thrown, RoutesFailedMessage))
    {
      loading := true;
      match result {
        case Ok(data) =>
          routes := Some(data);
          origins := OriginOptions(data);
          destinations := DestinationOptions(data);
          error := None;
        case Failed(thrown) =>
          error := Some(MessageOr(thrown, RoutesFailedMessage));
      }
      loading := false;
    }

    /**
     * `handleChange`: only the named field changes, and the error becomes the
     * same-place message or is cleared, whatever was showing before.
     */
    method HandleChange(field: SearchField, value: string)
      modifies this`form, this`error
      ensures form == WithField(old(form), field, value)
      ensures error == ErrorAfterChange(form)
      ensures SearchHidden() <==> error.Some?
    {
      form := WithField(form, field, value);
      if form.origin != "" && form.destination != "" && form.origin == form.destination {
        error := Some(SamePlaceMessage);
      } else {
        error := None;
      }
    }

    /**
     * `handleSubmit` on the given `today`: navigate with exactly the three values,
     * show why not, or stop at the invalid-date error with nothing changed.
     */
    method HandleSubmit(today: CalendarDate)
      modifies this`error, this`navigation
      ensures ValidateSearch(form, today).Rejected? ==>
                error == Some(ValidateSearch(form, today).message) && navigation == old(navigation)
      ensures ValidateSearch(form, today).InvalidDateError? ==>
                error == old(error) && navigation == old(navigation)
      ensures ValidateSearch(form, today).Accepted? ==>
                error == old(error)
                && navigation == Some(Navigation("/results",
                     LocationState(Some(form.origin), Some(form.destination), Some(form.date), None, None), false))
    {
      if form.origin == "" || form.destination == "" || form.date == "" {
        error := Some(FillAllMessage);
        return;
      }
      if form.origin == form.destination {
        error := Some(SamePlaceMessage);
        return;
      }
      var selected := NoonDate(form.date);
      if selected.None? {
        // the log call's `toISOString` throws here, before the comparison
        return;
      }
      if Before(selected.value, today) {
        error := Some(PastDateMessage);
        return;
      }
      navigation := Some(Navigation("/results",
        LocationState(Some(form.origin), Some(form.destination), Some(form.date), None, None), false));
    }

    /** The search button is not rendered. */
    function SearchHidden(): bool
      reads this
    {
      IsSearchDisabled(form)
    }
  }
}
