/** The simulation engine (app/simulation/engine.py) as a value and one step per event.  Every random
    draw is a parameter.  The class in Simulation.dfy runs these steps in the engine's order. */
module Engine {
  import opened Domain
  import opened Destinations
  import opened StoreSpec
  import opened Buckets

  const MAX_RETURN_RETRIES := 8
  const RETRY_DELAY_MINUTES := 5

  datatype SimulatedFare = SimulatedFare(destination: string, classification: FareClass)
  datatype FareEnd = FareEnd(badge: Badge, fare: SimulatedFare)

  datatype Reason = ShiftEnded | DeclinedCentralLondon | DeclinedOther | AllTerminalsFull | NeverFreedUp

  datatype Snapshot = Snapshot(minute: nat, feederParkLength: nat, activeDrivers: nat,
                               occupancy: map<TerminalId, nat>, cumulativeFares: nat)

  /** The counters of SimulationStats; a Counter is a multiset. */
  datatype Stats = Stats(
    unmet: nat,
    faresByClass: multiset<FareClass>,
    completed: nat,
    returned: nat,
    notReturnedByReason: multiset<Reason>,
    notReturnedByDestination: multiset<string>,
    fullRejections: nat,
    snapshots: seq<Snapshot>)

  const NO_STATS := Stats(0, multiset{}, 0, 0, multiset{}, multiset{}, 0, [])

  datatype Sim = Sim(
    store: State,
    minute: nat,
    fareEnds: seq<seq<FareEnd>>,
    checks: seq<seq<Badge>>,
    retries: map<Badge, nat>,
    waiting: map<TerminalId, seq<Badge>>,
    lastDestination: map<Badge, string>,
    finished: set<Badge>,
    stats: Stats)

  /** The fare oracle's label is what the store's classifier will find. */
  predicate LabelAgrees(fare: SimulatedFare) {
    ClassifyDestination(fare.destination, None, None).0 == fare.classification
  }

  function AgentOf(t: TerminalId): AgentId {
    "SIM-" + t
  }

  predicate InDay(sim: Sim) {
    sim.minute < |sim.fareEnds| == |sim.checks|
  }

  // ---- a shift starts ----

  function JoinStep(sim: Sim, b: Badge): Result<Sim> {
    match JoinFeederPark(sim.store, b)
    case Ok(s) => Ok(sim.(store := s))
    case Err(Conflict) => Ok(sim)
    case Err(e) => Err(e)
  }

  // ---- a passenger wants a taxi ----

  function Deque(sim: Sim, t: TerminalId): seq<Badge> {
    if t in sim.waiting then sim.waiting[t] else []
  }

  /** The bucket, among `buckets`, for the end of a fare begun at `minute`. */
  function FareEndMinute(minute: nat, buckets: nat, leg: real): (k: nat)
    requires minute < buckets
    ensures minute <= k < buckets
  {
    Min(minute + Max(1, RoundHalfEven(leg)), buckets - 1)
  }

  /** The engine's bookkeeping once the store has recorded the fare. */
  function Board(sim: Sim, s: State, b: Badge, fare: SimulatedFare, leg: real): Sim
    requires InDay(sim)
  {
    sim.(store := s,
         stats := sim.stats.(faresByClass := sim.stats.faresByClass + multiset{fare.classification}),
         lastDestination := sim.lastDestination[b := fare.destination],
         fareEnds := File(sim.fareEnds, FareEndMinute(sim.minute, |sim.fareEnds|, leg), FareEnd(b, fare)))
  }

  /** Taxi `b`, on the rank of `t`, takes the passenger. */
  function ServeStep(sim: Sim, t: TerminalId, b: Badge, fare: SimulatedFare, leg: real): Result<Sim>
    requires InDay(sim)
  {
    var s :- RecordFare(sim.store, b, fare.destination, AgentOf(t), None, None);
    Ok(Board(sim, s, b, fare, leg))
  }

  datatype Found = Found(sim: Sim, caller: Option<Badge>)

  /** The longest waiting taxi at the terminal, else the front of the park, else unmet demand. */
  function FindTaxi(sim: Sim, t: TerminalId): Result<Found> {
    var line := Deque(sim, t);
    var popped := if line == [] then sim else sim.(waiting := sim.waiting[t := line[1..]]);
    if line != [] && line[0] in sim.store.taxis then Ok(Found(popped, Some(line[0])))
    else
      match CallNextTaxi(popped.store, t)
      case Ok(s) => Ok(Found(popped.(store := s), Some(popped.store.queue[0])))
      case Err(Conflict) => Ok(Found(popped.(stats := sim.stats.(unmet := sim.stats.unmet + 1)), None))
      case Err(e) => Err(e)
  }

  function DemandStep(sim: Sim, t: TerminalId, fare: SimulatedFare, leg: real): Result<Sim>
    requires InDay(sim)
  {
    var found :- FindTaxi(sim, t);
    if found.caller.None? then Ok(found.sim) else ServeStep(found.sim, t, found.caller.value, fare, leg)
  }

  // ---- a fare finishes ----

  function GiveUp(sim: Sim, b: Badge, destination: string, reason: Reason): Sim {
    sim.(finished := sim.finished + {b},
         stats := sim.stats.(
           notReturnedByReason := sim.stats.notReturnedByReason + multiset{reason},
           notReturnedByDestination := sim.stats.notReturnedByDestination + multiset{destination}))
  }

  /** What is drawn when an exempt fare finishes: whether the driver declines to return, how far
      out he is, and the order in which he tries the terminals. */
  datatype ReturnDraw = ReturnDraw(declines: bool, eta: real, candidates: seq<TerminalId>)

  datatype Tried = Tried(store: State, chosen: Option<TerminalId>, refusals: nat)

  /** Try the candidates in turn until one accepts. */
  function TryTerminals(s: State, b: Badge, candidates: seq<TerminalId>, eta: real): Result<Tried> {
    if candidates == [] then Ok(Tried(s, None, 0))
    else
      match ReturnToTerminal(s, b, candidates[0], eta)
      case Ok(s') => Ok(Tried(s', Some(candidates[0]), 0))
      case Err(Conflict) =>
        var rest :- TryTerminals(s, b, candidates[1..], eta);
        Ok(rest.(refusals := rest.refusals + 1))
      case Err(e) => Err(e)
  }

  /** The bucket for the promotion check of a return expected in `eta` minutes. */
  function DueMinute(minute: nat, buckets: nat, eta: real): (k: nat)
    requires minute < buckets
    ensures minute <= k < buckets
  {
    Min(Max(minute, RoundHalfEven(minute as real + eta - TERMINAL_ADD_LEAD_MINUTES)), buckets - 1)
  }

  function Refused(sim: Sim, tried: Tried): Sim {
    sim.(store := tried.store,
         stats := sim.stats.(fullRejections := sim.stats.fullRejections + tried.refusals))
  }

  function Accepted(sim: Sim, tried: Tried): Sim {
    sim.(store := tried.store,
         stats := sim.stats.(fullRejections := sim.stats.fullRejections + tried.refusals,
                             returned := sim.stats.returned + 1))
  }

  function QueueForDemand(sim: Sim, t: TerminalId, b: Badge): Sim {
    sim.(waiting := sim.waiting[t := Deque(sim, t) + [b]])
  }

  function FileCheck(sim: Sim, b: Badge, eta: real): Sim
    requires InDay(sim)
  {
    sim.(checks := File(sim.checks, DueMinute(sim.minute, |sim.checks|, eta), b))
  }

  /** The books after the terminals were tried: nobody took the taxi, it is on a rank, or it is on
      its way. */
  function Settle(sim: Sim, e: FareEnd, eta: real, tried: Tried): Sim
    requires InDay(sim)
  {
    match tried.chosen
    case None => GiveUp(Refused(sim, tried), e.badge, e.fare.destination, AllTerminalsFull)
    case Some(t) =>
      if e.badge in tried.store.taxis && tried.store.taxis[e.badge].status == Called then
        QueueForDemand(Accepted(sim, tried), t, e.badge)
      else
        FileCheck(Accepted(sim, tried), e.badge, eta)
  }

  function ReturnStep(sim: Sim, e: FareEnd, draw: ReturnDraw): Result<Sim>
    requires InDay(sim)
  {
    var tried :- TryTerminals(sim.store, e.badge, draw.candidates, draw.eta);
    Ok(Settle(sim, e, draw.eta, tried))
  }

  function DeclineReason(shiftOver: bool, destination: string, central: set<string>): Reason {
    if shiftOver then ShiftEnded else if destination in central then DeclinedCentralLondon else DeclinedOther
  }

  /** The driver's next move, once the fare is complete. */
  function AfterFare(sim: Sim, e: FareEnd, shiftEnd: int, central: set<string>, draw: ReturnDraw): Result<Sim>
    requires InDay(sim) && e.badge in sim.store.taxis
  {
    var shiftOver := shiftEnd - sim.minute <= 0;
    match sim.store.taxis[e.badge].status
    case InFeederPark =>
      if shiftOver then
        var s :- LeaveFeederPark(sim.store, e.badge);
        Ok(sim.(store := s, finished := sim.finished + {e.badge}))
      else Ok(sim)
    case ReturnExempt =>
      if shiftOver || draw.declines then
        Ok(GiveUp(sim, e.badge, e.fare.destination, DeclineReason(shiftOver, e.fare.destination, central)))
      else ReturnStep(sim, e, draw)
    case _ => Ok(sim)
  }

  function CompleteStep(sim: Sim, e: FareEnd, shiftEnd: int, central: set<string>, draw: ReturnDraw): Result<Sim>
    requires InDay(sim)
  {
    if e.badge !in sim.store.taxis || sim.store.taxis[e.badge].status != OnFare then Ok(sim)
    else
      var s :- CompleteFare(sim.store, e.badge);
      AfterFare(sim.(store := s, stats := sim.stats.(completed := sim.stats.completed + 1)),
                e, shiftEnd, central, draw)
  }

  // ---- pending returns come due ----

  /** Promote, and queue everyone newly seated, in store order, behind those already waiting. */
  function SweepStep(sim: Sim): Sim {
    sim.(store := PromoteDueReturns(sim.store),
         waiting := map t | t in sim.waiting :: sim.waiting[t] + SeatedList(sim.store, t))
  }

  predicate StillPending(s: State, b: Badge) {
    b in s.taxis && s.taxis[b].status == ReturnExempt && Truthy(s.taxis[b].pendingTerminal)
  }

  function RetryCount(retries: map<Badge, nat>, b: Badge): nat {
    if b in retries then retries[b] else 0
  }

  /** The bucket for a retried check: five minutes on, or again in the last bucket. */
  function RetryMinute(minute: nat, buckets: nat): (k: nat)
    requires minute < buckets
    ensures minute <= k < buckets
  {
    Min(minute + RETRY_DELAY_MINUTES, buckets - 1)
  }

  /** One entry of the list of promotion checks: retry later, or give up. */
  function RetryStep(sim: Sim, b: Badge): Sim
    requires InDay(sim)
  {
    if !StillPending(sim.store, b) then sim
    else if RetryCount(sim.retries, b) < MAX_RETURN_RETRIES then
      sim.(retries := sim.retries[b := RetryCount(sim.retries, b) + 1],
           checks := File(sim.checks, RetryMinute(sim.minute, |sim.checks|), b))
    else
      GiveUp(sim, b, if b in sim.lastDestination then sim.lastDestination[b] else "unknown", NeverFreedUp)
  }

  /** How many retries the taxis of `order` have left between them. */
  ghost function RetriesLeft(order: seq<Badge>, retries: map<Badge, nat>): nat {
    if order == [] then 0
    else
      RetriesLeft(order[1..], retries) + Max(0, MAX_RETURN_RETRIES - RetryCount(retries, order[0]))
  }

  // ---- a shift ends ----

  function EndShiftStep(sim: Sim, b: Badge): Result<Sim> {
    if b in sim.store.taxis && sim.store.taxis[b].status == InFeederPark then
      var s :- LeaveFeederPark(sim.store, b);
      Ok(sim.(store := s, finished := sim.finished + {b}))
    else Ok(sim)
  }

  // ---- the books ----

  function OnFareSet(s: State): set<Badge> {
    set b | b in s.taxis && s.taxis[b].status == OnFare
  }

  predicate CarriesExemptFare(s: State, b: Badge) {
    && b in s.taxis && s.taxis[b].status == OnFare && s.taxis[b].currentFare.Some?
    && s.taxis[b].currentFare.value in s.fares
    && s.fares[s.taxis[b].currentFare.value].classification != Standard
  }

  function OnExemptFareSet(s: State): set<Badge> {
    set b | b in s.taxis && CarriesExemptFare(s, b)
  }

  function ActiveDrivers(s: State): nat {
    |set b | b in s.taxis && s.taxis[b].status != Offline|
  }

  function TakeSnapshot(sim: Sim): Sim {
    var occupancy := map t | t in sim.waiting :: Occupancy(sim.store, t);
    var shot := Snapshot(sim.minute, |sim.store.queue|, ActiveDrivers(sim.store), occupancy, sim.stats.completed);
    sim.(stats := sim.stats.(snapshots := sim.stats.snapshots + [shot]))
  }

  /** The clock moves on to minute `m`. */
  function Tick(sim: Sim, m: nat, now: real): Sim {
    sim.(minute := m, store := sim.store.(now := now))
  }
}
