/** The records the client exchanges with the booking API and between pages. */
module Types {
  import opened Wrappers

  datatype Route = Route(id: int, origin: string, destination: string, distanceMiles: real, basePrice: real)

  datatype Schedule = Schedule(id: int, routeId: int, departureTime: string, arrivalTime: string)

  /** A scheduled trip on one date; the last four fields may be absent in a response. */
  datatype Trip = Trip(
    inventoryId: int, scheduleId: int, routeId: int, date: string,
    departureTime: string, arrivalTime: string, price: real, availableSeats: int,
    origin: Option<string>, destination: Option<string>,
    duration: Option<string>, totalSeats: Option<int>)

  datatype Seat = Seat(seatNumber: int, level: int, available: bool)

  /** The three seat levels of a shuttle. */
  type LevelNo = l: int | 1 <= l <= 3 witness 1

  datatype SeatsByLevel = SeatsByLevel(level1: seq<Seat>, level2: seq<Seat>, level3: seq<Seat>) {
    function At(level: LevelNo): seq<Seat> {
      if level == 1 then level1 else if level == 2 then level2 else level3
    }

    /** All seats, level 1 first. */
    function All(): seq<Seat> {
      level1 + level2 + level3
    }
  }

  datatype Booking = Booking(
    id: int, inventoryId: int, passengerName: string, passengerEmail: string,
    seatNumber: Option<int>, seatLevel: Option<int>, status: string,
    createdAt: string, updatedAt: string, userId: Option<int>,
    schedule: Option<Schedule>, route: Option<Route>)

  datatype User = User(id: int, email: string)

  datatype AuthResponse = AuthResponse(token: string, user: User)

  /** The body of a create-booking request. */
  datatype BookingData = BookingData(
    inventoryId: int, passengerName: string, passengerEmail: string,
    seatNumber: Option<int>, seatLevel: Option<int>)

  /**
   * The transient state one page hands to the next through navigation. A key the
   * sender did not set reads as `None` (JavaScript's `undefined`); a page opened
   * without any state sees `NoState`, every key absent.
   */
  datatype LocationState = LocationState(
    origin: Option<string>, destination: Option<string>, date: Option<string>,
    trip: Option<Trip>, booking: Option<Booking>)

  const NoState := LocationState(None, None, None, None, None)

  /** An in-app navigation performed by a page (`navigate(path, {state, replace})`). */
  datatype Navigation = Navigation(path: string, state: LocationState, replace: bool)

  /** `navigate(path)` with no options. */
  function GoTo(path: string): Navigation {
    Navigation(path, NoState, false)
  }

  /** What a failed `await` throws: an `Error` with a message, or some other value. */
  datatype Thrown = ErrorWith(message: string) | OtherValue

  /** `err instanceof Error ? err.message : fallback`. */
  function MessageOr(err: Thrown, fallback: string): (r: string)
    ensures err.ErrorWith? ==> r == err.message
    ensures err.OtherValue? ==> r == fallback
  {
    match err
    case ErrorWith(msg) => msg
    case OtherValue => fallback
  }

  /** The outcome of one API call, supplied to the model as an input. */
  datatype ApiResult<T> = Ok(value: T) | Failed(thrown: Thrown)

  /** JavaScript truthiness of an optional string: present and not empty. */
  predicate Truthy(s: Option<string>) {
    s.Some? && s.value != ""
  }
}
