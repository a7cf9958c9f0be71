/** The store as a value, and every locked service call as one atomic step on it.
    The class in Store.dfy is proved to do exactly these steps in place. */
module StoreSpec {
  import opened Domain
  import opened Lists
  import opened Destinations

  datatype State = State(
    taxis: map<Badge, TaxiState>,
    order: seq<Badge>,  // insertion order of the taxi dictionary
    terminals: map<TerminalId, TerminalState>,
    rankAgents: map<AgentId, Option<TerminalId>>,
    queue: seq<Badge>,
    fares: map<FareId, FareState>,
    nextFareId: FareId,
    dispatchEvents: seq<DispatchEvent>,
    traffic: Traffic,
    now: real)

  const EMPTY := State(map[], [], map[], map[], [], map[], 0, [], Normal, 0.0)

  const NEW_TAXI := TaxiState("", Offline, None, None, None, false, None, None, None, None, None, None, None)

  // ---- lookups ----

  predicate OnRank(x: TaxiState, t: TerminalId) {
    x.terminalId == Some(t) && x.status == Called
  }

  /** The taxis holding a rank slot at terminal `t`. */
  function Occupants(s: State, t: TerminalId): set<Badge> {
    set b | b in s.taxis && OnRank(s.taxis[b], t)
  }

  function Occupancy(s: State, t: TerminalId): nat {
    |Occupants(s, t)|
  }

  predicate HasRoom(s: State, t: TerminalId) {
    t in s.terminals && Occupancy(s, t) < s.terminals[t].capacity
  }

  ghost predicate RanksFit(s: State) {
    forall t :: t in s.terminals ==> Occupancy(s, t) <= s.terminals[t].capacity
  }

  // ---- administration ----

  function AddTaxi(s: State, b: Badge, name: string): Result<State> {
    if b in s.taxis then Err(Conflict)
    else Ok(s.(taxis := s.taxis[b := NEW_TAXI.(driverName := name)], order := s.order + [b]))
  }

  function RemoveTaxi(s: State, b: Badge): Result<State> {
    if b !in s.taxis then Err(NotFound)
    else Ok(s.(taxis := s.taxis - {b}, order := RemoveFirst(s.order, b), queue := RemoveFirst(s.queue, b)))
  }

  function AddTerminal(s: State, t: TerminalId, name: string, capacity: Option<int>): Result<State> {
    if t in s.terminals then Err(Conflict)
    else
      var slots := if capacity.Some? then capacity.value else DEFAULT_TERMINAL_CAPACITY;
      Ok(s.(terminals := s.terminals[t := TerminalState(name, slots)]))
  }

  function RemoveTerminal(s: State, t: TerminalId): Result<State> {
    if t !in s.terminals then Err(NotFound) else Ok(s.(terminals := s.terminals - {t}))
  }

  function AddRankAgent(s: State, a: AgentId, t: Option<TerminalId>): Result<State> {
    if a in s.rankAgents then Err(Conflict)
    else if t.Some? && t.value !in s.terminals then Err(NotFound)
    else Ok(s.(rankAgents := s.rankAgents[a := t]))
  }

  // ---- the feeder park ----

  function JoinFeederPark(s: State, b: Badge): Result<State> {
    if b !in s.taxis then Err(NotFound)
    else if s.taxis[b].status != Offline then Err(Conflict)
    else
      var x := s.taxis[b].(status := InFeederPark, joinedAt := Some(s.now));
      Ok(s.(taxis := s.taxis[b := x], queue := s.queue + [b]))
  }

  function LeaveFeederPark(s: State, b: Badge): Result<State> {
    if b !in s.taxis then Err(NotFound)
    else if s.taxis[b].status != InFeederPark then Err(Conflict)
    else
      var x := s.taxis[b].(status := Offline, joinedAt := None);
      Ok(s.(taxis := s.taxis[b := x], queue := RemoveFirst(s.queue, b)))
  }

  /** No capacity check: a terminal may call a taxi onto a full rank. */
  function CallNextTaxi(s: State, t: TerminalId): Result<State> {
    if t !in s.terminals then Err(NotFound)
    else if s.queue == [] then Err(Conflict)
    else if s.queue[0] !in s.taxis then Err(KeyError)
    else
      var b := s.queue[0];
      var x := s.taxis[b].(status := Called, terminalId := Some(t), calledAt := Some(s.now),
                           selfCheckedIn := false, joinedAt := None);
      Ok(s.(taxis := s.taxis[b := x], queue := s.queue[1..],
            dispatchEvents := s.dispatchEvents + [DispatchEvent(t, s.now)]))
  }

  // ---- fares ----

  function RecordFare(s: State, b: Badge, destination: string, agent: AgentId,
                      override: Option<FareClass>, roundTripOverride: Option<real>): Result<State>
  {
    if b !in s.taxis then Err(NotFound)
    else if agent !in s.rankAgents then Err(NotFound)
    else if s.taxis[b].status != Called || !Truthy(s.taxis[b].terminalId) then Err(Conflict)
    else if s.taxis[b].terminalId.value !in s.terminals then Err(NotFound)
    else
      var (class_, roundTrip) := ClassifyDestination(destination, override, roundTripOverride);
      var f := FareState(b, s.taxis[b].terminalId.value, destination, class_, roundTrip, agent, s.now, None);
      var x := s.taxis[b].(currentFare := Some(s.nextFareId), status := OnFare);
      Ok(s.(taxis := s.taxis[b := x], fares := s.fares[s.nextFareId := f], nextFareId := s.nextFareId + 1))
  }

  function ReturnDeadlineMinutes(level: Traffic, c: FareClass, roundTrip: Option<real>): real
    requires c != Standard
  {
    MaxReal(ReturnTimeFloorMinutes(c), if roundTrip.Some? then roundTrip.value else 0.0) * TrafficMultiplier(level)
  }

  /** What the end of fare `f` makes of its taxi. */
  function EndFare(x: TaxiState, f: FareState, deadline: real, now: real): TaxiState {
    var y := x.(currentFare := None, terminalId := None);
    if f.classification == Standard then
      y.(status := InFeederPark, joinedAt := Some(now), exemptionType := None, exemptionDestination := None,
         returnDeadline := None)
    else
      y.(status := ReturnExempt, exemptionType := Some(f.classification),
         exemptionDestination := Some(f.destination), returnDeadline := Some(deadline))
  }

  function CompleteFare(s: State, b: Badge): Result<State> {
    if b !in s.taxis then Err(NotFound)
    else if s.taxis[b].status != OnFare || s.taxis[b].currentFare.None? then Err(Conflict)
    else if s.taxis[b].currentFare.value !in s.fares then Err(KeyError)
    else
      var id := s.taxis[b].currentFare.value;
      var f := s.fares[id].(completedAt := Some(s.now));
      var minutes := if f.classification == Standard then 0.0
                     else ReturnDeadlineMinutes(s.traffic, f.classification, f.roundTrip);
      Ok(s.(taxis := s.taxis[b := EndFare(s.taxis[b], f, s.now + minutes, s.now)],
            fares := s.fares[id := f],
            queue := if f.classification == Standard then s.queue + [b] else s.queue))
  }

  /** What `_add_taxi_to_terminal` makes of a taxi. */
  function Seat(x: TaxiState, t: TerminalId, now: real): TaxiState {
    x.(status := Called, terminalId := Some(t), calledAt := Some(now), selfCheckedIn := true,
       lastReturnOnTime := Some(x.returnDeadline.None? || now <= x.returnDeadline.value),
       exemptionType := None, exemptionDestination := None, returnDeadline := None,
       pendingTerminal := None, expectedArrival := None)
  }

  function ReturnToTerminal(s: State, b: Badge, t: TerminalId, eta: real): Result<State> {
    if b !in s.taxis then Err(NotFound)
    else if s.taxis[b].status != ReturnExempt then Err(Conflict)
    else if t !in s.terminals then Err(NotFound)
    else if !HasRoom(s, t) then Err(Conflict)
    else if eta <= TERMINAL_ADD_LEAD_MINUTES then
      Ok(s.(taxis := s.taxis[b := Seat(s.taxis[b], t, s.now)]))
    else
      var x := s.taxis[b].(pendingTerminal := Some(t), expectedArrival := Some(s.now + eta));
      Ok(s.(taxis := s.taxis[b := x]))
  }

  // ---- promotion of pending returns, by its outcome rather than by its loop ----

  /** Taxi `b` is a pending return to `t` and within the lead time of its expected arrival. */
  predicate DueAt(s: State, b: Badge, t: TerminalId) {
    && b in s.taxis
    && s.taxis[b].status == ReturnExempt
    && s.taxis[b].pendingTerminal == Some(t) && t != ""
    && s.taxis[b].expectedArrival.Some?
    && s.now >= s.taxis[b].expectedArrival.value - TERMINAL_ADD_LEAD_MINUTES
  }

  /** The taxis due at `t` among the first `n` of the store, in store order. */
  function DueUpTo(s: State, t: TerminalId, n: nat): seq<Badge>
    requires n <= |s.order|
  {
    if n == 0 then []
    else DueUpTo(s, t, n - 1) + if DueAt(s, s.order[n - 1], t) then [s.order[n - 1]] else []
  }

  function DueList(s: State, t: TerminalId): seq<Badge> {
    DueUpTo(s, t, |s.order|)
  }

  function FreeSlots(s: State, t: TerminalId): nat {
    if t in s.terminals then Max(0, s.terminals[t].capacity - Occupancy(s, t)) else 0
  }

  /** The due taxis that get a slot at `t`: the first ones in store order, as many as fit. */
  function SeatedList(s: State, t: TerminalId): seq<Badge> {
    DueList(s, t)[..Min(FreeSlots(s, t), |DueList(s, t)|)]
  }

  function PromotedTaxi(s: State, b: Badge): TaxiState
    requires b in s.taxis
  {
    var x := s.taxis[b];
    if x.pendingTerminal.None? || !DueAt(s, b, x.pendingTerminal.value) then x
    else
      var t := x.pendingTerminal.value;
      if t !in s.terminals then x.(pendingTerminal := None, expectedArrival := None)
      else if b in SeatedList(s, t) then Seat(x, t, s.now)
      else x
  }

  function PromoteDueReturns(s: State): State {
    s.(taxis := map b | b in s.taxis :: PromotedTaxi(s, b))
  }

  // ---- operations and runs ----

  datatype Op =
    | NewTaxi(badge: Badge, name: string)
    | DropTaxi(badge: Badge)
    | NewTerminal(terminal: TerminalId, name: string, capacity: Option<int>)
    | DropTerminal(terminal: TerminalId)
    | NewAgent(agent: AgentId, home: Option<TerminalId>)
    | SetTraffic(level: Traffic)
    | SetClock(time: real)
    | Join(badge: Badge)
    | Leave(badge: Badge)
    | CallNext(terminal: TerminalId)
    | Record(badge: Badge, destination: string, agent: AgentId,
             override: Option<FareClass>, roundTrip: Option<real>)
    | Complete(badge: Badge)
    | Return(badge: Badge, terminal: TerminalId, eta: real)
    | Promote

  function Apply(s: State, op: Op): Result<State> {
    match op
    case NewTaxi(b, name) => AddTaxi(s, b, name)
    case DropTaxi(b) => RemoveTaxi(s, b)
    case NewTerminal(t, name, capacity) => AddTerminal(s, t, name, capacity)
    case DropTerminal(t) => RemoveTerminal(s, t)
    case NewAgent(a, home) => AddRankAgent(s, a, home)
    case SetTraffic(level) => Ok(s.(traffic := level))
    case SetClock(time) => Ok(s.(now := time))
    case Join(b) => JoinFeederPark(s, b)
    case Leave(b) => LeaveFeederPark(s, b)
    case CallNext(t) => CallNextTaxi(s, t)
    case Record(b, d, a, o, r) => RecordFare(s, b, d, a, o, r)
    case Complete(b) => CompleteFare(s, b)
    case Return(b, t, eta) => ReturnToTerminal(s, b, t, eta)
    case Promote => Ok(PromoteDueReturns(s))
  }

  /** The state after a call: a call that raises changes nothing. */
  function After(s: State, op: Op): State {
    if Apply(s, op).Ok? then Apply(s, op).value else s
  }

  function Run(s: State, ops: seq<Op>): State
    decreases |ops|
  {
    if ops == [] then s else Run(After(s, ops[0]), ops[1..])
  }

  lemma RunNothing(s: State)
    ensures Run(s, []) == s
  {
  }

  lemma RunFirst(s: State, op: Op, rest: seq<Op>)
    ensures Run(s, [op] + rest) == Run(After(s, op), rest)
  {
    assert ([op] + rest)[1..] == rest;
  }

  /** A run can be cut anywhere. */
  lemma {:induction false} RunJoin(s: State, first: seq<Op>, second: seq<Op>)
    ensures Run(s, first + second) == Run(Run(s, first), second)
    decreases |first|
  {
    if first == [] {
      assert first + second == second;
    } else {
      RunJoin(After(s, first[0]), first[1..], second);
      assert (first + second)[1..] == first[1..] + second;
    }
  }

  lemma RunLast(s: State, ops: seq<Op>, op: Op)
    ensures Run(s, ops + [op]) == After(Run(s, ops), op)
  {
    RunJoin(s, ops, [op]);
  }
}
