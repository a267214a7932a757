# Landline shuttle booking client — a Dafny model of its decision logic

The Landline client is a single-page web application. Travellers sign in, search shuttle
routes by origin, destination and date, pick a trip, pick a seat on a three-level
shuttle, book it, and look at or cancel their bookings. This project models the small
deterministic logic inside those pages and proves what each page promises:

- **Seat map** (`BookingPage`, file `booking_page.dfy`). The seat request gives back
  up to three levels. The page sorts each level in place by seat number. A missing or
  empty level is filled with a fixed run of available seats: 1–5, 6–10 and 11–14. A
  failed request shows the 14-seat default. The fill-in loop, the in-place sort and the
  per-level normalisation are methods proved against `LevelNormalized`: sorted and a
  permutation, or exactly the fallback run.
- **Passenger form** (`BookingPage`). Field edits and seat choice are modelled. A seat
  is drawn selected by number alone. An unavailable or busy seat button does nothing.
  The submit checks run in order: presence, then the pattern `^[^\s@]+@[^\s@]+\.[^\s@]+$`.
  The pattern is written out as a predicate over its split points and proved equivalent
  to a plain-words description. A valid form sends exactly one request body, and success
  navigates to the confirmation page.
- **Search** (`SearchPage`). The option lists are the distinct route origins and
  destinations, sorted. The ordered submit checks are presence, then different places,
  then not before today. A date text that makes no date stops the handler where it
  logs the date, because `toISOString` throws there. Also modelled: the same-place
  error while editing, and the hidden search button.
- **Journey pages** (`ResultsPage`, `ConfirmationPage`, `MyBookingsPage`). Covered are:
  - the missing-state redirects;
  - single trip selection keyed by inventory id;
  - the cancel flow with its `cancelling`, `cancelled` and `error` flags, ending in a
    terminal cancelled view;
  - list loading that signs the user out on a 401/403 message;
  - cancel then reload;
  - the fallbacks between flat and nested fields in each list entry.
- **The 12-hour formatter** (`Clock`). The trip card, the booking page and the
  confirmation page each carry an identical copy of `formatTime`. Those three copies
  are one function, `Clock.FormatTime`. The bookings-list copy also accepts a missing
  time; it is `Clock.FormatTimeOrEmpty`. Proved about them:
  - the conversion follows the 0..23 table;
  - the text reads back to the same hour and minutes;
  - seconds are dropped;
  - the copies agree.
- **Trip card** (`TripCard`): the selected class, the defaults for duration and seat
  total, and the card text.
- **Session and routing** (`Session`, `ProtectedRoute`, `App`, `SigninPage`). Browser
  storage is a class over a map. Sign-in writes `token` and then `user`. Logout, a
  malformed stored user and a refused credential each remove both keys. The guard checks
  only that a token is present. The path table is `App.Resolve`.

Every outside value is an explicit input: each API call's outcome (`ApiResult`), the
answer to `window.confirm` (`confirmed`), today's date (`today`), the UTC date that
starts the search form, and the result of parsing the stored user (`ParseResult`).
Navigation is recorded in a `navigation` field of each page. Requests sent are
appended to a `requests`, `searches`, `loads` or `cancelRequests` field.

## Model

| member | source | states |
|---|---|---|
| Text.Contains | src/pages/MyBookingsPage.tsx:31 | `message.includes(sub)`: `sub` occurs at some position; `ContainsAt` and `ContainsWitness` prove it holds exactly when such a position exists |
| Text.ContainsAt | src/pages/MyBookingsPage.tsx:31 | an occurrence of `sub` at any position makes `includes` true |
| Text.ContainsWitness | src/pages/MyBookingsPage.tsx:31 | when `includes` is true, a position where `sub` occurs exists |
| Text.Split | src/components/TripCard.tsx:7 | `split(':')` gives at least one part and no part holds the separator; without a separator the text is the only part, otherwise the first part is the text before the first separator and a second part exists. The contract does not state that joining the parts with the separator gives back the text |
| Text.LexLess | src/pages/SearchPage.tsx:30-31 | the default `sort()` order on strings: character codes compared left to right, a proper prefix first; the three lemmas below make it a strict total order |
| Text.LexLessIrreflexive | src/pages/SearchPage.tsx:30-31 | no string sorts before itself |
| Text.LexLessTransitive | src/pages/SearchPage.tsx:30-31 | the order is transitive |
| Text.LexLessTotal | src/pages/SearchPage.tsx:30-31 | any two different strings are ordered one way or the other |
| Types.MessageOr | src/pages/SearchPage.tsx:37 | `err instanceof Error ? err.message : fallback`: an Error gives its message and any other thrown value the fallback; every page's catch block uses it |
| Clock.HoursText | src/components/TripCard.tsx:7 | the hours part holds no ':', is a prefix of the time, and is followed by the first ':' when there is one |
| Clock.MinutesText | src/components/TripCard.tsx:7-11 | without a ':' the minutes text is "undefined", as the template renders a missing part; otherwise it holds no ':' and starts the text after the first ':' |
| Clock.Hour | src/components/TripCard.tsx:8 | on a time whose hour part is a digit run of value at most 23, `parseInt` yields that hour, in 0..23 |
| Clock.DisplayHour | src/components/TripCard.tsx:10 | `hour % 12 \|\| 12` is always in 1..12 |
| Clock.Meridiem | src/components/TripCard.tsx:9 | the suffix is "PM" exactly when hour ≥ 12 and "AM" exactly when hour < 12 |
| Clock.FormatTime | src/components/TripCard.tsx:6-12 | the 12-hour text ends in a space and a suffix that is "PM" exactly when the hour is at least 12 and "AM" exactly when it is below 12 |
| Clock.FormatTimeOrEmpty | src/pages/MyBookingsPage.tsx:56-63 | the text is empty exactly when the time is missing or empty; otherwise it is the 12-hour text of the other copies |
| Clock.DisplayHourFollowsTable | src/components/TripCard.tsx:8-11 | 0 gives 12 AM, 1..11 the same hour AM, 12 gives 12 PM, and 13..23 give hour−12 PM |
| Clock.FormatTimeRoundTrip | src/components/TripCard.tsx:6-12 | the 12-hour text reads back as the original 24-hour hour and the original minutes text, so the conversion loses nothing |
| Clock.ParseFormatted | src/components/TripCard.tsx:11 | a display hour in 1..12, any minutes text and an AM/PM suffix, written as `h:MM AM`, read back as that hour in 24-hour form and the minutes text |
| Clock.SecondsDropped | src/components/TripCard.tsx:7-11 | the minutes after the first ':' are copied verbatim, and a further ':'-part such as seconds does not change the output |
| Clock.FormatTimeCopiesAgree | src/pages/MyBookingsPage.tsx:56-63 | the bookings-list copy gives '' for a missing or empty time and the same text as the other copies on any time they accept |
| BookingPage.FallbackLayout | src/pages/BookingPage.tsx:49-61 | the fallback run is seats 1..5 on level 1, 6..10 on level 2 and 11..14 on level 3, all available, listed seat by seat |
| BookingPage.RawLevel | src/pages/BookingPage.tsx:41 | a response that is not an object gives every level as missing; otherwise each level is the response's own entry |
| BookingPage.FallbackLevel | src/pages/BookingPage.tsx:49-61 | a level's fallback run has 5 seats on levels 1 and 2 and 4 on level 3, all available, on that level, numbered up from the level's first seat |
| BookingPage.FallbackSeats | src/pages/BookingPage.tsx:51-59 | the counting loop from the start seat to the end seat pushes exactly the level's fallback run |
| BookingPage.DefaultSeats | src/pages/BookingPage.tsx:66-70 | the failure default map: three runs of 5, 5 and 4 available seats; `DefaultIsFallback` proves it is the per-level fallback |
| BookingPage.DefaultIsFallback | src/pages/BookingPage.tsx:66-70 | the failure default equals the per-level fallback: 14 seats, numbered 1..14 in order, all available |
| BookingPage.DefaultSeatNumbersDistinct | src/pages/BookingPage.tsx:66-70 | no two seats of the default map share a seat number |
| BookingPage.SortBySeatNumber | src/pages/BookingPage.tsx:44 | sorting in place leaves the array ascending by seat number and a permutation of what it held |
| BookingPage.NormalizeLevel | src/pages/BookingPage.tsx:41-61 | a non-empty level from the response becomes a sorted permutation of itself; a missing or empty one becomes the fallback run; the result is never empty |
| BookingPage.NormalizeSeats | src/pages/BookingPage.tsx:39-61 | every level is normalised as above, a response that is not an object counts as all levels missing, and no level is left empty |
| BookingPage.NonEmptyLevelKept | src/pages/BookingPage.tsx:41-50 | a normalised non-empty level has the same length and holds the same seats, availability included, with no fallback seat added |
| BookingPage.WithField | src/pages/BookingPage.tsx:77-83 | an edit changes only the named text field; the seat pair is untouched |
| BookingPage.IsSelected | src/pages/BookingPage.tsx:174 | a seat is drawn selected when the chosen seat number is its number; `SelectionIgnoresLevel` and `AtMostOneSeatSelected` state what follows |
| BookingPage.SeatDisabled | src/pages/BookingPage.tsx:182 | a seat button is disabled when the seat is unavailable or a booking is being sent; `Page.ClickSeat` proves such a click changes nothing |
| BookingPage.SelectionIgnoresLevel | src/pages/BookingPage.tsx:174 | a seat is drawn selected exactly when its number is the chosen number, whatever its level |
| BookingPage.AtMostOneSeatSelected | src/pages/BookingPage.tsx:174 | where seat numbers are distinct, at most one seat is drawn selected |
| BookingPage.EmailPatternMatch | src/pages/BookingPage.tsx:104 | the regular expression `^[^\s@]+@[^\s@]+\.[^\s@]+$` as split points: a non-empty run, '@', a non-empty run, '.', a non-empty run, none holding white space or '@'; `EmailPatternIff` gives its meaning |
| BookingPage.EmailPatternIff | src/pages/BookingPage.tsx:104-105 | the pattern accepts an address exactly when it has no white space, exactly one '@' with text before it, and a '.' in the domain that is neither its first nor its last character |
| BookingPage.ValidateBooking | src/pages/BookingPage.tsx:99-108 | an empty name or email gives the required-fields message; otherwise an address the pattern rejects gives the invalid-email message; the form passes exactly when the name is non-empty and the address is valid |
| BookingPage.Page.constructor | src/pages/BookingPage.tsx:10-21 | the page takes trip and search from navigation state and starts with an empty form, empty levels and the seat map loading |
| BookingPage.Page.Mount | src/pages/BookingPage.tsx:23-29 | without a trip it navigates to '/' and loads nothing; with one it loads the seat map |
| BookingPage.Page.LoadSeats | src/pages/BookingPage.tsx:31-75 | success clears the error and stores the normalised map; failure shows the seat-load message and the default map; loading ends either way and the form is untouched |
| BookingPage.Page.HandleChange | src/pages/BookingPage.tsx:77-83 | the form becomes the old form with the named field replaced |
| BookingPage.Page.HandleSeatSelect | src/pages/BookingPage.tsx:85-91 | seat number and level are set together; name and email are unchanged |
| BookingPage.Page.ClickSeat | src/pages/BookingPage.tsx:181-182 | an unavailable seat is never selected; a click on an enabled button selects that seat's pair; a disabled button changes nothing |
| BookingPage.Page.ClickBack | src/pages/BookingPage.tsx:370-372 | the Back button, disabled while a booking is being sent, does nothing then; otherwise it navigates as `HandleBack` does |
| BookingPage.Page.HandleSubmit | src/pages/BookingPage.tsx:93-135 | a failing check shows its message and sends nothing; a valid form sends exactly the trip's inventory id, name, email and seat pair, whose number and level are both set or both None; success navigates to '/confirmation' with the booking, trip and search; failure shows the message or the fallback; loading ends false |
| BookingPage.Page.HandleBack | src/pages/BookingPage.tsx:137-145 | navigates to '/results' carrying the original origin, destination and date, and keeps the page's invariant |
| SearchPage.UniqueSorted | src/pages/SearchPage.tsx:30-31 | `[...new Set(xs)].sort()` is strictly ascending and holds exactly the values of xs |
| SearchPage.StrictlySortedUnique | src/pages/SearchPage.tsx:30-31 | a strictly sorted list is fixed by its members, so the options do not depend on the order of the routes |
| SearchPage.OriginOptions | src/pages/SearchPage.tsx:30 | the origin options are strictly ascending, so each appears once, and are exactly the routes' origins |
| SearchPage.DestinationOptions | src/pages/SearchPage.tsx:31 | the destination options are strictly ascending and are exactly the routes' destinations, independent of any chosen origin |
| SearchPage.NoonDate | src/pages/SearchPage.tsx:74 | `new Date(text + 'T12:00:00')` on a "YYYY-MM-DD" text with month 1..12 and day 1..31 lands on a real date; anything else is an invalid date |
| SearchPage.RollOver | src/pages/SearchPage.tsx:74 | a day within its month is kept; a day past the month's end moves into the next month by the excess; the result is always a real date |
| SearchPage.Before | src/pages/SearchPage.tsx:85 | `selectedDate < today` on two noon instants: the earlier year, then month, then day; `BeforeIsStrictOrder` makes it a strict total order |
| SearchPage.BeforeIsStrictOrder | src/pages/SearchPage.tsx:85 | no day is before itself; the order is transitive, total and asymmetric |
| SearchPage.DigitsBelowPower | src/pages/SearchPage.tsx:74 | a run of k digits stands for a number below 10^k, so a four-digit year is at most 9999 |
| SearchPage.NoonDateOfDigits | src/pages/SearchPage.tsx:74 | a "YYYY-MM-DD" text of digits lands on the rolled-over date of its year, month and day when the month is in 1..12 and the day in 1..31, and is an invalid date otherwise |
| SearchPage.NoonDateRollsOver | src/pages/SearchPage.tsx:74 | "2023-02-30" lands on 2 March 2023 |
| SearchPage.NoonDateRollsOverLeap | src/pages/SearchPage.tsx:74 | "2024-02-30" lands on 1 March 2024, a leap year |
| SearchPage.NoonDateRejects | src/pages/SearchPage.tsx:74 | "2024-13-01" and "" are invalid dates |
| SearchPage.IsoDateRoundTrip | src/pages/SearchPage.tsx:74 | the "YYYY-MM-DD" text of a real date lands on that date |
| SearchPage.WithField | src/pages/SearchPage.tsx:45-49 | an edit changes only the named field |
| SearchPage.ErrorAfterChange | src/pages/SearchPage.tsx:51-55 | after an edit the same-place message shows exactly when both places are non-empty and equal; otherwise no error shows |
| SearchPage.IsSearchDisabled | src/pages/SearchPage.tsx:99 | the search button is hidden when both places are chosen and equal; `HiddenButtonMatchesChangeError` ties it to the edit error |
| SearchPage.HiddenButtonMatchesChangeError | src/pages/SearchPage.tsx:99 | the search button is hidden exactly when an edit would show the same-place error |
| SearchPage.ValidateSearch | src/pages/SearchPage.tsx:64-88 | any empty field gives the fill-all message; then equal places give the same-place message; then an invalid date ends in the logging error exactly when the date text is not a date; a date before today gives the past-date message, and the form passes exactly when the date is not before today |
| SearchPage.DateCheckBoundary | src/pages/SearchPage.tsx:74-88 | on the text of a real date the check never throws: the date is rejected exactly when it is strictly before today, and today itself is accepted |
| SearchPage.Page.constructor | src/pages/SearchPage.tsx:8-17 | empty places, the given initial date, no routes, loading |
| SearchPage.Page.LoadRoutes | src/pages/SearchPage.tsx:24-41 | success stores the routes and the two option lists and clears the error; failure shows the message or the fallback and keeps the lists; loading ends |
| SearchPage.Page.HandleChange | src/pages/SearchPage.tsx:43-59 | only the named field changes, and the error becomes the same-place message or is cleared, whatever showed before; the search button is hidden exactly when that error shows |
| SearchPage.Page.HandleSubmit | src/pages/SearchPage.tsx:61-97 | a failing check shows its message and does not navigate; an invalid date stops at the log call, which throws, so neither the error nor the navigation changes; a valid form navigates to '/results' carrying exactly the three form values and leaves the error as it was |
| ResultsPage.SelectedCardShown | src/pages/ResultsPage.tsx:101 | a card is drawn selected exactly when its inventory id is the selected trip's |
| ResultsPage.AtMostOneCardSelected | src/pages/ResultsPage.tsx:101 | where inventory ids are distinct, at most one card is drawn selected |
| ResultsPage.IsCardSelected | src/pages/ResultsPage.tsx:101 | a card is drawn selected when a trip is selected and has the card's inventory id; `SelectedCardShown` states the consequence |
| ResultsPage.ContinueDisabled | src/pages/ResultsPage.tsx:113 | "Continue to Booking" is disabled exactly while no trip is selected; `Page.HandleContinue` is stated through it |
| ResultsPage.Page.constructor | src/pages/ResultsPage.tsx:11-16 | the search comes from navigation state; no trips, no selection, loading |
| ResultsPage.Page.HasSearch | src/pages/ResultsPage.tsx:19 | `!origin \|\| !destination \|\| !date` negated: all three search values are present and non-empty; `Page.Mount` is stated through it |
| ResultsPage.Page.Mount | src/pages/ResultsPage.tsx:18-25 | if origin, destination or date is missing or empty it navigates to '/' and sends no search; otherwise it searches once with the three values |
| ResultsPage.Page.LoadTrips | src/pages/ResultsPage.tsx:27-38 | success stores the trips and clears the error; failure shows the message or the fallback; loading ends |
| ResultsPage.Page.HandleTripSelect | src/pages/ResultsPage.tsx:40-42 | the new trip replaces any earlier selection |
| ResultsPage.Page.HandleContinue | src/pages/ResultsPage.tsx:44-58 | while the continue button would be disabled it shows the select-a-trip message and does not navigate; otherwise it navigates to '/booking' with the trip and the unchanged search and leaves the error as it was |
| ResultsPage.Page.HandleBack | src/pages/ResultsPage.tsx:60-62 | navigates to '/' with no state |
| ConfirmationPage.ViewOf | src/pages/ConfirmationPage.tsx:39-68 | nothing is drawn exactly when booking or trip is missing; the cancelled view exactly when both are present and cancelled; otherwise the details, whose cancel control shows when the status is not 'cancelled' and is disabled while cancelling |
| ConfirmationPage.Actions | src/pages/ConfirmationPage.tsx:51-121 | "Book Another Trip" is offered by every view that draws anything, and "Cancel Booking" exactly by the details view whose cancel control shows |
| ConfirmationPage.CancelledOffersOnlyBookAnother | src/pages/ConfirmationPage.tsx:51-68 | the cancelled view offers only "Book Another Trip" |
| ConfirmationPage.CancelOfferedIff | src/pages/ConfirmationPage.tsx:112-117 | cancelling is offered exactly when the page is not cancelled and the booking's status is not 'cancelled' |
| ConfirmationPage.Page.constructor | src/pages/ConfirmationPage.tsx:10-14 | booking, trip and search come from navigation state; all flags start false and no error shows |
| ConfirmationPage.Page.Mount | src/pages/ConfirmationPage.tsx:16-20 | without a booking it navigates to '/' |
| ConfirmationPage.Page.BeginCancel | src/pages/ConfirmationPage.tsx:22-30 | with no booking or a declined prompt nothing changes and no request is sent; otherwise the error is cleared, cancelling is true and one request for the booking id is sent |
| ConfirmationPage.Page.CompleteCancel | src/pages/ConfirmationPage.tsx:30-36 | success sets cancelled; failure shows the message or the fallback and leaves cancelled as it was; cancelling is false afterwards |
| ConfirmationPage.Page.HandleCancel | src/pages/ConfirmationPage.tsx:22-37 | a declined prompt or a missing booking changes nothing; once cancelled the page stays cancelled; the confirmed flow ends as the two halves state; with booking and trip present, a page cancelled before or by a successful request draws the cancelled view, which offers only "Book Another Trip" |
| ConfirmationPage.Page.BookAnother | src/pages/ConfirmationPage.tsx:59-64 | navigates to '/' |
| MyBookingsPage.DisplayOrigin | src/pages/MyBookingsPage.tsx:89 | the flat origin if non-empty, else the route's origin if non-empty, else 'N/A'; never empty; 'N/A' shows only when the value chosen is missing, empty or itself 'N/A' |
| MyBookingsPage.DisplayDestination | src/pages/MyBookingsPage.tsx:90 | the flat destination if non-empty, else the route's destination if non-empty, else 'N/A'; never empty; 'N/A' shows only when the value chosen is missing, empty or itself 'N/A' |
| MyBookingsPage.DisplayDate | src/pages/MyBookingsPage.tsx:91 | the flat booking date if non-empty, else the creation time; nothing, shown as 'N/A', exactly when both are empty |
| MyBookingsPage.DisplayDeparture | src/pages/MyBookingsPage.tsx:92 | the flat departure time if non-empty, else the schedule's, else ''; empty exactly when neither is given |
| MyBookingsPage.DisplayArrival | src/pages/MyBookingsPage.tsx:93 | the flat arrival time if non-empty, else the schedule's, else ''; empty exactly when neither is given |
| MyBookingsPage.DepartureLine | src/pages/MyBookingsPage.tsx:107 | the departure line is shown exactly when the departure text is non-empty, in 12-hour form |
| MyBookingsPage.CancelShown | src/pages/MyBookingsPage.tsx:118 | the Cancel button shows for every booking whose status is not exactly 'cancelled' |
| MyBookingsPage.CancelControlsAgree | src/pages/MyBookingsPage.tsx:118 | the list offers cancelling exactly when the confirmation page, not yet cancelled, would offer it for the same booking |
| MyBookingsPage.IsAuthFailure | src/pages/MyBookingsPage.tsx:31 | a load error means a refused credential when its message contains '401' or '403'; `AuthFailureIff` states it position by position |
| MyBookingsPage.AuthFailureIff | src/pages/MyBookingsPage.tsx:31 | a message counts as a refused credential exactly when '401' or '403' occurs anywhere in it |
| MyBookingsPage.LoadFallbackIsShown | src/pages/MyBookingsPage.tsx:30-37 | the load fallback message never counts as a refused credential, so a non-Error failure is always shown |
| MyBookingsPage.Page.constructor | src/pages/MyBookingsPage.tsx:8-11 | no bookings, loading, no error |
| MyBookingsPage.Page.Mount | src/pages/MyBookingsPage.tsx:13-21 | with no stored token, or an empty one, it navigates to '/signin' and never loads; otherwise it loads once, with the outcomes `LoadBookings` states, the list kept on any failure |
| MyBookingsPage.Page.LoadBookings | src/pages/MyBookingsPage.tsx:23-41 | success stores the list; a message naming 401 or 403 removes 'token' and 'user' and navigates to '/signin' with no error shown; any other message is shown verbatim, or the fallback if the failure is not an Error; loading ends |
| MyBookingsPage.Page.HandleCancel | src/pages/MyBookingsPage.tsx:23-54 | a declined prompt sends nothing and changes nothing; a confirmed one sends one request for the id; a successful cancel reloads the list, with the reload's three outcomes: the new list, sign-out to '/signin' on a refused credential, or the load message with storage and navigation kept; a failed cancel shows the message or the cancel fallback and does not reload |
| TripCard.SelectedProp | src/components/TripCard.tsx:5 | an omitted isSelected prop is false |
| TripCard.CardClass | src/components/TripCard.tsx:16 | the class list starts with 'trip-card ' and contains 'selected' exactly when the card is selected |
| TripCard.TotalSeatsShown | src/components/TripCard.tsx:29 | a present non-zero total is shown as it is; an absent or zero total shows 14 |
| TripCard.DefaultTotalMatchesLayout | src/components/TripCard.tsx:29 | the default total of 14 is the size of the 5 + 5 + 4 fallback seat map |
| TripCard.DurationShown | src/components/TripCard.tsx:27 | a non-empty duration is shown as it is, otherwise '4h 30m'; never empty |
| TripCard.Card | src/components/TripCard.tsx:14-31 | the card is marked selected exactly when isSelected is true, shows both times in 12-hour form and a non-empty duration and a non-zero total |
| Session.LocalStorage.SetItem | src/pages/SigninPage.tsx:35-36 | the key gets the value and every other key keeps its own |
| Session.LocalStorage.RemoveItem | src/App.tsx:30-31 | the key is gone and every other key keeps its value |
| Session.LocalStorage.GetItem | src/components/ProtectedRoute.tsx:6 | a key holds a value exactly when it is stored, and the value is the stored one; a missing key reads as null |
| Session.JsonEscape | src/pages/SigninPage.tsx:36 | the string body `JSON.stringify` writes is never shorter than the string and equals it when nothing needs escaping; `EscapeRoundTrip` proves it reads back exactly |
| Session.EscapeRoundTrip | src/pages/SigninPage.tsx:36 | the string body `JSON.stringify` writes, with its escapes for '"', backslash and control characters, reads back as the original string |
| Session.SerializeUser | src/pages/SigninPage.tsx:36 | `JSON.stringify(user)` for the id and the email; `SerializeUserReadsBack` states what it holds |
| Session.SerializeUserReadsBack | src/pages/SigninPage.tsx:36 | the stored user text begins with the id field, ends with the closing quote and brace, and the email between them reads back exactly |
| ProtectedRoute.Guard | src/components/ProtectedRoute.tsx:5-12 | renders its child exactly when the token is present and non-empty; otherwise redirects to '/signin' with replace |
| ProtectedRoute.Check | src/components/ProtectedRoute.tsx:6-12 | the component's decision is the guard's decision on the stored token, and it changes no storage |
| ProtectedRoute.GuardIgnoresTokenText | src/components/ProtectedRoute.tsx:12 | any two non-empty tokens decide alike: the token's contents are never checked |
| App.OpenPaths | src/App.tsx:78-79 | '/signup' and '/signin' render whatever is stored |
| App.GuardedPaths | src/App.tsx:80-119 | '/', '/results', '/booking', '/confirmation' and '/my-bookings' each go through the guard, and render exactly when a non-empty token is stored |
| App.UnknownPathsRedirect | src/App.tsx:120 | every other path redirects to '/signin' with replace |
| App.SignedOutEndsAtSignin | src/App.tsx:77-120 | without a token every path but '/signup' ends on the sign-in page |
| App.GuardedPage | src/App.tsx:80-119 | exactly the five journey paths have a guarded page, and neither sign-up nor sign-in is one of them |
| App.Resolve | src/App.tsx:77-120 | every redirect goes to '/signin' with replace; a page renders only on '/signup', '/signin' or with a non-empty token, and a journey page only on its own path |
| App.HeaderFor | src/App.tsx:40-72 | the logout button and the email show exactly when a user is held; otherwise only the sign-in and sign-up links show |
| App.HeaderAndGuardDisagree | src/App.tsx:40-72 | with no user but a stored token the header shows signed-out links while the search page renders |
| App.Shell.constructor | src/App.tsx:15 | the shell starts with no user |
| App.Shell.Mount | src/App.tsx:17-27 | with no stored user nothing changes; a parsed user is held and the header shows it; a malformed one removes 'user' and 'token' and nothing else |
| App.Shell.HandleLogout | src/App.tsx:29-33 | 'token' and 'user' are removed, every other key stays, the user is forgotten and the header shows the signed-out links |
| SigninPage.Page.constructor | src/pages/SigninPage.tsx:7-13 | empty fields, not loading, no error |
| SigninPage.Page.HandleChange | src/pages/SigninPage.tsx:15-21 | only the named field changes |
| SigninPage.Page.HandleSubmit | src/pages/SigninPage.tsx:23-43 | an empty email or password shows the fill-all message and sends nothing; otherwise one request is sent; success writes 'token' and then 'user' (the serialised user) and navigates to '/'; failure shows the message or the fallback and leaves storage untouched; loading ends false |

## Left out

- Rendering, styles and hover handlers: only the predicates behind visibility and
  disabled state are kept. The HTTP layer in `src/services/api.ts` is not part of
  this model either.
- Asynchrony: each handler runs start to finish with its awaited outcome given as an
  input. React's effect and re-render timing, and races between tabs, are not
  modelled. The confirmation cancel is split into the part before the request and the
  part after it, so its in-flight state can be seen.
- Dates: `today` is a calendar-date input, and the UTC text that starts the search
  form is a constructor input. Time zones, `toLocaleDateString` and the created-at
  date rendering at line 101 of the bookings list are left out. A date text is read
  as the V8 engine reads "YYYY-MM-DD": a month in 1..12 and a day in 1..31 give a
  date, and a day past the month's end rolls over into the next month.
- SearchPage.NoonDate: treats any text that is not "YYYY-MM-DD" as an invalid date.
  The engine's lenient fallback parser for other formats is not modelled; a date
  input holds either "" or such a text.
- Clock.FormatTime: requires the hour part to be a digit run of value 0..23. `parseInt`
  on other text, NaN, and JavaScript's negative remainder are not modelled.
- Prices: the `toFixed(2)` price formatting is left out. Prices are reals that no
  decision reads.
- Session.SerializeUser: writes `JSON.stringify` output for a user record's two fields
  only. `JSON.parse` of the stored user is an abstract `ParseResult` input; the read
  back proved is of the email text only.
- The log call in the search submit prints nothing here. Only its effect on control
  flow is kept: on an invalid date its `toISOString` throws, so the handler ends with
  no error shown and no navigation.
- SearchPage.UniqueSorted: orders strings lexicographically by character code.
  JavaScript's default sort compares UTF-16 code units, which differs for characters
  outside the Basic Multilingual Plane.
- Text.Split: the contract does not state that joining the parts with the separator
  gives the text back. The page reads only the first two parts, and those are stated.
- Text.IsSpace: lists the ECMAScript `\s` characters explicitly. It is not a regular
  expression engine.
- The router: paths are compared exactly. React Router's case-insensitive and
  trailing-slash matching is not modelled.
- The sign-up page is not part of this model; `App.Resolve` only renders it.
- The sort's stability is not stated: seats with equal numbers may come out in any order.
- `window.location.href = '/'` after sign-in is recorded as a `location` field; the full
  page reload it causes is not modelled.
- After a refused credential the bookings page removes 'token' and then 'user'. The
  state after both removals is stated; the order of the two removals is not.
- The bookings page's seat line (`seat_number && …`) and the status colour are
  rendering only and are not modelled.
