/** The vocabulary shared by the store and the simulation: statuses, entities, errors, the
    tunable constants of app/config.py, and Python's rounding on reals.
    Times and durations are real numbers of minutes. */
module Domain {
  datatype Option<+T> = None | Some(value: T)

  /** What a service call can raise.  `KeyError` is a failed internal dictionary lookup. */
  datatype Error = NotFound | Conflict | KeyError

  datatype Result<+T> = Ok(value: T) | Err(error: Error) {
    predicate IsFailure() {
      Err?
    }

    function PropagateFailure<U>(): Result<U>
      requires Err?
    {
      Err(error)
    }

    function Extract(): T
      requires Ok?
    {
      value
    }
  }

  datatype Status = Offline | InFeederPark | Called | OnFare | ReturnExempt
  datatype FareClass = Standard | Local | FaresFare
  datatype Traffic = Normal | Moderate | Heavy

  type Badge = string
  type TerminalId = string
  type AgentId = string

  /** Fare ids are drawn from a generator that never repeats. */
  type FareId = nat

  datatype TaxiState = TaxiState(
    driverName: string,
    status: Status,
    joinedAt: Option<real>,
    terminalId: Option<TerminalId>,
    calledAt: Option<real>,
    selfCheckedIn: bool,
    currentFare: Option<FareId>,
    exemptionType: Option<FareClass>,
    exemptionDestination: Option<string>,
    returnDeadline: Option<real>,
    lastReturnOnTime: Option<bool>,
    pendingTerminal: Option<TerminalId>,
    expectedArrival: Option<real>)

  datatype TerminalState = TerminalState(name: string, capacity: int)

  datatype FareState = FareState(
    badge: Badge,
    terminalId: TerminalId,
    destination: string,
    classification: FareClass,
    roundTrip: Option<real>,
    recordedBy: AgentId,
    recordedAt: real,
    completedAt: Option<real>)

  datatype DispatchEvent = DispatchEvent(terminalId: TerminalId, at: real)

  const THROUGHPUT_WINDOW_MINUTES := 30.0
  const MIN_EVENTS_FOR_ESTIMATE := 3
  const DEFAULT_CALL_INTERVAL_MINUTES := 3.0
  const MIN_CALL_INTERVAL_MINUTES := 0.25
  const SCREEN_LOOKAHEAD_MINUTES := 5.0
  const DEFAULT_TERMINAL_CAPACITY := 15
  const TERMINAL_ADD_LEAD_MINUTES := 5.0

  function ReturnTimeFloorMinutes(c: FareClass): real
    requires c != Standard
  {
    if c == Local then 60.0 else 90.0
  }

  function TrafficMultiplier(level: Traffic): real {
    match level
    case Normal => 1.0
    case Moderate => 1.15
    case Heavy => 1.35
  }

  /** Python truth of an optional string: absent and empty are both false. */
  predicate Truthy(o: Option<string>) {
    o.Some? && o.value != ""
  }

  function Min(a: int, b: int): int {
    if a <= b then a else b
  }

  function Max(a: int, b: int): int {
    if a <= b then b else a
  }

  function MaxReal(a: real, b: real): real {
    if a <= b then b else a
  }

  /** Python's `round(x)`: to the nearest integer, a half going to the even neighbour. */
  function RoundHalfEven(x: real): int {
    var below := x.Floor;
    var part := x - below as real;
    if part < 0.5 || (part == 0.5 && below % 2 == 0) then below else below + 1
  }

  /** `r` is a nearest integer to `x`, and the even one where two are equally near. */
  predicate Rounds(x: real, r: int) {
    && -0.5 <= x - r as real <= 0.5
    && (x - r as real == 0.5 || x - r as real == -0.5 ==> r % 2 == 0)
  }

  lemma RoundsToNearest(x: real, r: int)
    ensures Rounds(x, r) <==> r == RoundHalfEven(x)
  {
  }

  /** Python's `round(x, 1)`. */
  function RoundTenth(x: real): real {
    RoundHalfEven(10.0 * x) as real / 10.0
  }

  lemma RoundsToTenths(x: real, tenths: int)
    requires Rounds(10.0 * x, tenths)
    ensures 10.0 * RoundTenth(x) == tenths as real
  {
    RoundsToNearest(10.0 * x, tenths);
  }

  lemma RoundTenthMonotone(x: real, y: real)
    requires x <= y
    ensures RoundTenth(x) <= RoundTenth(y)
  {
    var a, b := 10.0 * x, 10.0 * y;
    assert a.Floor <= b.Floor;
    assert RoundHalfEven(a) <= RoundHalfEven(b);
  }
}
