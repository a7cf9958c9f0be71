# Feeder park: a verified model

The repository runs an airport's taxi feeder park: a first-come-first-served queue, terminals that
call the next taxi forward, rank agents who record fares, and drivers who, after a short fare, may
return straight to a terminal. On top of it sits a simulation that drives the real service functions
through a whole day, minute by minute. This project models both layers and proves how they fit.

* **The store.** `StoreSpec` gives the store as a value and every locked service call as one atomic
  step, errors included. `StoreModule.Store` is the store itself: taxi and fare objects, dictionaries
  and the queue, changed in place; each method is proved to do exactly the step of `StoreSpec` it
  names, or to raise and change nothing. `promote_due_returns` is a loop that recounts occupancy as it
  seats taxis; its specification is the outcome in closed form, not the loop. Facts about all runs are
  proved over arbitrary sequences of calls (`StoreSpec.Run`).
* **The engine.** `Engine` gives each event of `run_simulation` as a step, and `EngineDay` the whole
  day as a function of the plan and the draws: each phase of a minute folds its step over its list,
  and `DayOf` folds the minutes. Every random draw is a value of an arbitrary function of the number
  of demand events and fare ends processed so far (`PlanModule.Oracle`), so the theorems hold for
  every seed and every distribution, and the day is determined by plan and draws. `EngineInvariant`
  says what is true between events, and `WholeDay` proves that it holds after every single event of
  every day, that no event raises, and how the day ends (`WholeDay.DayEndsWell`).
  `SimulationModule.Simulation` is the engine itself, with its buckets, deques, counters and a real
  `Store`; each of its methods does exactly the step or fold of the same event or phase, so
  `RunSimulation` ends in `DayOf`.
* **Estimates and rates.** The call interval, the wait estimates, the information screen, the flight
  rate table and destination matching.

| file | content |
|---|---|
| `Domain.dfy`, `Lists.dfy` | statuses, entities, constants, rounding; lists without duplicates |
| `Destinations.dfy` | the destination table, matching and classification |
| `StoreSpec.dfy`, `Store.dfy` | service calls as steps; the mutable store |
| `Transitions.dfy` | what each service call does, and what it leaves alone |
| `Lifecycle.dfy`, `Promotion.dfy`, `Capacity.dfy`, `Fairness.dfy`, `Deadlines.dfy`, `Timeline.dfy` | what runs of the store keep |
| `Throughput.dfy`, `Screen.dfy`, `FlightRates.dfy` | call interval, screen, flight rates |
| `Buckets.dfy`, `Plan.dfy`, `Sweep.dfy` | minute buckets, inputs of a day, noticing newly seated taxis |
| `Engine.dfy`, `EngineDay.dfy` | events as steps, the day as a function |
| `EngineEvents.dfy` | what each event of the day does, in numbers |
| `EngineInvariant.dfy`, `EngineSteps.dfy`, `EngineFares.dfy`, `EngineMemory.dfy`, `WholeDay.dfy` | the invariant, each event keeps it, every day keeps it |
| `Day.dfy`, `Tally.dfy`, `Simulation.dfy` | the end of the day, the exempt-fare tally, the engine |

Modelling choices. Time is a real number of minutes. A Python `Counter` is a multiset. Fare ids come
from a counter that never repeats. The dictionary of taxis is a map together with its insertion order.
`DriverProfile.finished` is the set `finished` of badges. The `defaultdict` of deques has all
terminals as keys from the start. A method's `Valid()` says that different keys hold different
objects; `LookupsSafe()` says that queued badges and held fares can be looked up, and follows from
the lifecycle invariant, which every step keeps (`Lifecycle.StepKeepsValid`).

## Findings

Two promises of the documentation and the tests do not hold as stated:

* The README promises at most `capacity` taxis on a rank (README.md:38), but `call_next_taxi` never
  checks. `Capacity.CentralDispatchOverfills` is a run in which it overfills a rank;
  `Capacity.RunKeepsFit` says exactly when the promise holds over a run, and
  `EngineSteps.CentralDispatchFits` why the engine keeps it all the same. For taxis that checked
  themselves in, opening a terminal smaller than the rank already there is the one way to exceed
  capacity (`Capacity.RunKeepsRanks`, an equivalence): with a negative capacity at once, and with
  capacities of at least 0 only when the terminal was removed before with such taxis on its rank
  (`Capacity.CarefulRunsRespectCapacity`). `Capacity.ReopenedTooSmall` is a run that does it, with
  two slots and then one.
* The tests state that returned plus not-returned equals the number of exempt fares
  (tests/test_simulation.py:34-40). A driver given up as `terminal_never_freed_up` was counted as
  returned before, so this holds exactly when that reason was never used (`WholeDay.DayEndsWell`);
  each check that breaks it is identified (`Tally.CheckBreaksTallyIff`). In the last minute a pending
  return uses up all its retries in one walk (`Tally.LastMinuteWalk`), and `Tally.TallyFails` is a
  plan of one minute whose day counts its only exempt fare twice.

Two observations. The README says that a deadline is extended by the destination's own estimate
(README.md:32-35); no estimate of the table exceeds the floor of its class, so only an estimate given
by an agent ever does (`Deadlines.KnownPlacesGetTheFloor`). And, promised nowhere: the call interval is at most 15 minutes for
all histories up to a given latest call if and only if that call is not in the future
(`Throughput.BoundHoldsIff`). `Throughput.ClockSetBackBreaksBound` is a run that sets the clock back
and ends with an interval of 50 minutes.

## Model

| member | source | states |
|---|---|---|
| `StoreModule.Store.AddTaxi` | app/services/admin_service.py:20-26 | adds one offline taxi at the end of the store order, or conflicts and changes nothing |
| `StoreModule.Store.RemoveTaxi` | app/services/admin_service.py:29-35 | removes the taxi from the dictionary, the order and the queue in any status, or reports it unknown |
| `StoreModule.Store.AddTerminal` | app/services/admin_service.py:72-82 | opens a terminal, with the default capacity when none is given |
| `StoreModule.Store.RemoveTerminal` | app/services/admin_service.py:85-88 | closes a terminal whoever is on its rank or on the way to it |
| `StoreModule.Store.AddRankAgent` | app/services/admin_service.py:42-50 | registers an agent at an existing terminal, or none |
| `StoreModule.Store.SetTrafficLevel` | app/services/admin_service.py:95-97 | changes the traffic level and nothing else |
| `StoreModule.Store.JoinFeederPark` | app/services/queue_service.py:14-23 | an offline taxi joins the back of the queue, stamped with the time; any other status conflicts |
| `StoreModule.Store.LeaveFeederPark` | app/services/queue_service.py:26-35 | a queued taxi goes offline and leaves the queue, wherever it stands |
| `StoreModule.Store.CallNextTaxi` | app/services/dispatch_service.py:12-37 | exactly the front of the queue is called and the dispatch recorded; only an unknown terminal or an empty queue raise |
| `StoreModule.Store.RecordFare` | app/services/fare_service.py:54-91 | a taxi on a rank gets a new fare under an unused id, classified by the table unless overridden; error cases in the order of the checks |
| `StoreModule.Store.CompleteFare` | app/services/fare_service.py:101-134 | closes the fare; a standard one sends the taxi to the back of the queue, an exempt one starts its deadline |
| `StoreModule.Store.ReturnToTerminal` | app/services/fare_service.py:175-208 | with a free slot, seats a near taxi and records a far one as pending; counts the rank taxi by taxi |
| `StoreModule.Taxi.AddToTerminal` | app/services/fare_service.py:137-161 | seating clears exemption and pending return and judges punctuality against the deadline |
| `StoreModule.Store.PromoteDueReturns` | app/services/fare_service.py:211-238 | the loop, which recounts ranks while filling them, has the closed-form outcome: at every terminal the first due taxis in store order, as many as slots are free |
| `StoreModule.Store.OccupancyCounts` | app/services/lookups.py:29-35 | counting over all taxis gives the number of slot holders |
| `StoreModule.Store.HasFreeSlot` | app/services/lookups.py:38-39 | answers whether fewer taxis are on the rank than it holds |
| `StoreModule.Store.FeederParkSnapshot` | app/services/queue_service.py:62-80 | one row per known queue entry; in every valid store one per entry, in order |
| `StoreModule.Store.DueSoonBadgeNumbers` | app/services/queue_service.py:83-84 | in every valid store, a prefix of the queue: exactly the entries due soon |
| `Destinations.KnownKeyWins` | app/data/destinations.py:51-56 | an exact key returns its own entry, whatever other keys overlap it |
| `Destinations.WritingDoesNotMatter` | app/services/fare_service.py:48-51 | the answer for a text is that for its lower-case form without the blanks around it, letter by letter |
| `Destinations.KnownPlaceAnyCase` | app/services/fare_service.py:48-51 | a key of the table, with any of its letters in upper case and blanks around it, gets its own class and estimate |
| `Destinations.ForeignPlaceIsStandard` | app/services/fare_service.py:48-50 | text that neither contains a key nor is contained in one is standard, without estimate, however it is written |
| `Destinations.TestedPlaces` | tests/test_fare_service.py:20-70 | "Kensington", "Hounslow" and "Windsor", typed as the tests type them, get 45, 25 and 65 minutes and the classes the tests expect |
| `Destinations.ContainsIff` | app/data/destinations.py:57-59 | a text contains another exactly if that one stands somewhere in it |
| `Destinations.KeyHasOwnClass` | app/data/destinations.py:27-48 | for the actual table, every key classifies as itself |
| `Destinations.MatchIff` | app/data/destinations.py:51-60 | a match exists exactly for non-empty text that contains a key or is contained in one |
| `Destinations.FirstOverlapWins` | app/data/destinations.py:57-60 | without an exact hit, the first overlapping key in table order answers |
| `Lifecycle.StepKeepsValid` | app/services/fare_service.py:88-132 | every call keeps the lifecycle invariant (fields set exactly in their statuses, queue = parked taxis without duplicates, own open fare exactly on a fare) and never fails an internal lookup |
| `Lifecycle.RunKeepsValid` | app/services/queue_service.py:21-35 | so does every run |
| `Lifecycle.ReachableIsValid` | app/store.py:28-43 | every sequence of calls on an empty store leads to a valid store |
| `Lifecycle.CompleteKeepsValid` | app/services/fare_service.py:109-134 | the end of a fare keeps the lifecycle invariant in both of its branches |
| `Lifecycle.PromotionKeepsValid` | app/services/fare_service.py:211-238 | promotion keeps it |
| `Lifecycle.FaresNotShared` | app/services/fare_service.py:79-90 | taxis on a fare hold different fares |
| `Lifecycle.FareCompletedOnce` | app/services/fare_service.py:110-115 | over any run a recorded fare persists, changes only by being completed, and is completed at most once |
| `Lifecycle.FareBijection` | app/services/fare_service.py:79-118 | in runs that never remove a taxi mid-fare, open fares and taxis on a fare correspond one to one |
| `Transitions.StatusDiagram` | app/services/fare_service.py:54-238 | a taxi changes status only along the edges of the documented life cycle, each with its own call |
| `Transitions.FieldsFollowStatus` | app/services/fare_service.py:54-238 | each field of a taxi changes only with the moves it belongs to, and a call never touches a taxi it is not about |
| `Transitions.PartsFollowCalls` | app/store.py:28-43 | each part of the store changes only with the calls it belongs to |
| `Transitions.NewTaxiEffect` | app/services/admin_service.py:20-35 | a new taxi is blank and last in order; adding succeeds exactly for an unknown badge; removing at once undoes it |
| `Transitions.DropTaxiEffect` | app/services/admin_service.py:29-35 | a removed badge is gone from dictionary, order and queue, and the others keep their order |
| `Transitions.TerminalEffect` | app/services/admin_service.py:72-88 | a terminal gets the given capacity or 15; opening succeeds exactly for a new id; removing at once undoes it |
| `Transitions.AgentEffect` | app/services/admin_service.py:42-50 | an agent is registered exactly if the id is new and the terminal, if any, exists, and is stationed there |
| `Transitions.SettingsEffect` | app/services/admin_service.py:95-97 | traffic level and clock are set as asked and nothing else changes |
| `Transitions.JoinEffect` | app/services/queue_service.py:14-35 | exactly an offline taxi joins: last in the queue, stamped now; leaving at once undoes it |
| `Transitions.LeaveEffect` | app/services/queue_service.py:26-35 | exactly a queued taxi leaves, from wherever it stands, and the others keep their order |
| `Transitions.CallEffect` | app/services/dispatch_service.py:12-37 | the call succeeds exactly with an open terminal and a non-empty queue; the front of the queue is on the rank, stamped now and not self-checked-in, and the dispatch is recorded last |
| `Transitions.RecordRaises` | app/services/fare_service.py:67-73 | which error in which case: unknown taxi or agent, not waiting on a rank, rank closed; otherwise it succeeds |
| `Transitions.RecordEffect` | app/services/fare_service.py:75-91 | the new fare bears badge, rank, destination, agent and time, and the class and estimate given by the agent or found for the destination; no other fare changes |
| `Transitions.KnownPlaceIsRecorded` | app/services/fare_service.py:43-51 | without an override a known place is recorded with its own class and estimate, however it is written and whatever estimate is entered beside it |
| `Transitions.CompleteEffect` | app/services/fare_service.py:109-134 | exactly a taxi on a fare completes it; the fare is stamped now; after a standard one the taxi is last in the queue, after the others it is exempt and the queue unchanged |
| `Transitions.ReturnRaises` | app/services/fare_service.py:191-200 | which error in which case: unknown taxi, no exemption, no such terminal, no free slot; otherwise the return is accepted |
| `Transitions.ReturnEffect` | app/services/fare_service.py:202-206 | up to five minutes out the taxi is on the rank now, on time exactly within its deadline; from further out it is only expected, at now plus eta |
| `Transitions.DueFromFiveMinutesBefore` | app/services/fare_service.py:219-225 | an expected taxi is due from five minutes before its arrival |
| `Promotion.FullMidwayIffNotSeated` | app/services/fare_service.py:235-238 | the loop's test on the half-updated store agrees with the closed form |
| `Promotion.DueTaxiMidway` | app/services/fare_service.py:227-238 | what the closed form makes of each due taxi: cleared, seated or left pending, by the state midway |
| `Promotion.OccupancyMidway` | app/services/fare_service.py:219-238 | the occupancy recounted in the middle of the loop |
| `Promotion.PromotionFillsSlots` | app/services/fare_service.py:211-238 | each terminal gains exactly min(free slots, due taxis) and ends at most at max(old occupancy, capacity) |
| `Promotion.NoSlotLeftForDueTaxi` | app/services/fare_service.py:211-216 | afterwards no terminal has both a free slot and a due taxi, and nobody is due at a closed terminal |
| `Promotion.PromotionIdempotent` | app/services/fare_service.py:211-238 | a second run at the same instant changes nothing |
| `Promotion.PollingIndependence` | app/services/fare_service.py:211-238 | promoting now and again later fills every rank exactly as much as once later |
| `Capacity.ReturnFillsFreeSlot` | app/services/fare_service.py:197-206 | an accepted return fills at most one slot, a free one |
| `Capacity.StepKeepsRanks` | app/services/fare_service.py:152-161 | a call keeps self-checked-in taxis within capacity exactly when it does not open a terminal smaller than its rank |
| `Capacity.RunKeepsRanks` | app/services/fare_service.py:175-238 | the same over every run, as an equivalence |
| `Capacity.CarefulRunsRespectCapacity` | app/services/admin_service.py:72-88 | capacities of at least 0 and removing only terminals without self-checked-in taxis suffice |
| `Capacity.ReopenedTooSmall` | app/services/admin_service.py:72-88 | a run with positive capacities after which two self-checked-in taxis are on a rank that holds one: its terminal was removed and opened again smaller |
| `Capacity.CallTakesOneSlot` | app/services/dispatch_service.py:21-28 | a taxi called forward takes one more slot at that terminal, full or not, and none elsewhere |
| `Capacity.StepKeepsFit` | app/services/dispatch_service.py:16-28 | a call keeps every rank within capacity exactly when it neither calls a taxi to a full rank nor opens a terminal smaller than its rank |
| `Capacity.RunKeepsFit` | README.md:38-40 | over every run, all ranks stay within capacity if and only if no call overfills |
| `Capacity.CentralDispatchOverfills` | app/services/dispatch_service.py:16-28 | after a short run from an empty store, a second taxi is called to a rank with one slot, and accepted |
| `Fairness.PositionCountsFromOne` | app/services/queue_service.py:38-42 | the position of a badge is p exactly if it stands in the p-th place, counted from one, and not before; others have none |
| `Fairness.PositionLaw` | app/services/queue_service.py:38-42 | while a taxi stays queued, its position drops by exactly the dispatches plus the withdrawals ahead of it |
| `Fairness.CalledWithinPosition` | app/services/dispatch_service.py:18-28 | a taxi at position p cannot still be waiting after p dispatches |
| `Fairness.NoOvertaking` | app/services/queue_service.py:21-35 | while both stay queued, the one ahead stays ahead |
| `Fairness.RunKeepsJoinTimes` | app/services/fare_service.py:120-126 | with a clock that never goes back, join times ascend along the queue at every point of a run |
| `Deadlines.AllowanceInPercent` | app/services/fare_service.py:94-98 | the allowance is 100, 115 or 135 percent, by traffic, of the larger of the estimate and 60 minutes for a local or 90 for a fares fare |
| `Deadlines.AllowanceBounds` | app/services/fare_service.py:94-98 | the allowance is at least the floor, grows with the estimate, and strictly with each level of traffic |
| `Deadlines.KnownPlacesGetTheFloor` | app/data/destinations.py:27-48 | for every place of the table the floor is the longer one, so its own estimate never extends the deadline |
| `Deadlines.DeadlineFixed` | app/services/fare_service.py:127-132 | while a taxi stays exempt no call, traffic changes included, moves its deadline |
| `Deadlines.DeadlineOverTrace` | app/services/fare_service.py:147-156 | from completion to seating, any run in between: the exemption is that fare's, its deadline is completion time plus the larger of floor and estimate in percent of the traffic at completion, and the taxi is on time exactly when seated within it |
| `Deadlines.ReachableDeadline` | app/services/fare_service.py:127-132 | every exempt taxi of every reachable store completed an exempt fare in the run, has been exempt ever since, and holds that fare's exemption with the deadline, in percent, of that moment |
| `Timeline.RunKeepsOrder` | app/services/fare_service.py:79-133 | over any run with a monotone clock: a taxi is called to a terminal, then its fare is recorded at that same terminal, then completed, and nothing is stamped in the future |
| `Timeline.ArrivalIsMarked` | app/services/fare_service.py:152-155 | whoever steps onto a rank is stamped with the time, and marked self-checked-in exactly when it was not central dispatch that brought them |
| `Throughput.IntervalExactly` | app/services/throughput.py:29-42 | for any history: with the calls of the last 30 minutes in order, fewer than three or no spread give 3 minutes, otherwise their mean gap, at least 0.25 |
| `Throughput.IntervalIsMeanGap` | app/services/throughput.py:29-42 | with a monotone clock the recent events are a suffix, sorting is the identity and the interval is the mean of consecutive gaps |
| `Throughput.IntervalBounds` | app/services/throughput.py:33-42 | at least 0.25 minutes for any history, at most 15 when no event lies in the future |
| `Throughput.BoundHoldsIff` | app/services/throughput.py:29-42 | the interval is at most 15 minutes for every history without calls after a given moment if and only if that moment is not in the future |
| `Throughput.ClockSetBackBreaksBound` | app/services/throughput.py:20-42 | a run from an empty store whose clock is set back, after which the interval is 50 minutes |
| `Throughput.MonotoneRunInterval` | app/services/throughput.py:20-42 | in every state of a run with a monotone clock the interval lies between 0.25 and 15 |
| `Throughput.SortedSorts` | app/services/throughput.py:36 | sorting gives an ascending permutation |
| `Screen.RowShows` | app/services/queue_service.py:62-80 | a row shows badge, name, place in the queue and that many call intervals, rounded half to even to a tenth, and is due soon exactly up to 5.0 minutes |
| `Domain.RoundsToNearest` | app/services/queue_service.py:50 | rounding goes to the nearest integer, and between two equally near ones to the even one |
| `Screen.RowsAgreeWithEstimates` | app/services/queue_service.py:45-50 | each row shows its badge's own position and wait estimate |
| `Screen.WaitsAscend` | app/services/queue_service.py:62-80 | waits never shrink towards the back, despite rounding |
| `Screen.DueSoonBadgesArePrefix` | app/services/queue_service.py:83-84 | the due-soon badges are a prefix of the queue |
| `FlightRates.BuildRatePerMinute` | app/simulation/flights.py:45-71 | for any positive shape, rates in the window keep its proportions and average to the peak rate; every other minute has the overnight rate |
| `FlightRates.RatesAverageOut` | app/simulation/flights.py:61-71 | scaling by the mean makes the window add up to the peak rate once per minute |
| `FlightRates.WindowMinutesAre` | app/simulation/flights.py:45-60 | the window minutes are exactly those from opening to closing hour, each once, in order |
| `FlightRates.CopiesMultiply` | app/simulation/flights.py:61-62 | added up n times means multiplied by n |
| `PlanModule.FileShifts` | app/simulation/engine.py:83-88 | the buckets are exactly the plan's: every shift start and every shift end in the bucket of its minute or, if late, in the last one, in plan order; and each driver's own shift end is kept |
| `PlanModule.DriverIsFiled` | app/simulation/engine.py:86-88 | every driver is in the bucket of his own shift start and in that of his own shift end, no start after its end, and the shift end kept for him is his |
| `PlanModule.EverythingIsFiledOnce` | app/simulation/engine.py:84-92 | taken together, the buckets hold every shift start, shift end and demand event exactly as often as the plan does, and nothing else |
| `PlanModule.FileDemand` | app/simulation/engine.py:90-92 | the demand buckets are exactly the plan's: every event's terminal in the bucket of its ready minute or in the last one, in plan order |
| `PlanModule.FilingsArePlanned` | app/simulation/engine.py:83-92 | there is one filing for each planned shift start, shift end and demand event, under its own badge or terminal, in its own minute or, past the end of the day, in the last |
| `PlanModule.InitialStoreShowsPlan` | app/simulation/engine.py:63-79 | set-up takes from the plan the time, every terminal with its capacity and its own agent, and the drivers in order, and nothing else |
| `PlanModule.InitialStoreIsSetUp` | app/simulation/engine.py:63-79 | the store set up for a plan is valid: its taxis are the drivers, all offline with no pending return, and every terminal has its rank agent |
| `Buckets.FilledHoldsAll` | app/simulation/engine.py:84-92 | filing into minute buckets loses and adds nothing |
| `Buckets.RestFile` | app/simulation/engine.py:140-141 | filing into the current bucket or a later one is never missed, also in the list being walked |
| `Sweep.NewcomersAreSeated` | app/simulation/engine.py:208-217 | looking at all remembered pending returns finds exactly the newly seated taxis, in store order |
| `EngineInvariant.HeadWaitsLongest` | app/simulation/engine.py:16-22 | the head of a terminal's deque has waited longest of all on the rank |
| `EngineEvents.DayStartsClean` | app/simulation/engine.py:94-107 | before the first minute nobody is finished or waiting, no retry is used, and nothing is filed, noted or counted |
| `EngineEvents.ShiftStarts` | app/simulation/engine.py:115-119 | an offline driver joins the back of the queue, stamped now; any other start changes nothing |
| `EngineEvents.PassengerIsServed` | app/simulation/engine.py:121-141 | the longest waiting taxi, else the front of the park, takes the drawn fare from the terminal's own agent; its end is filed last in the bucket of the rounded leg, at least one minute on and at most the last |
| `EngineEvents.PassengerIsTurnedAway` | app/simulation/engine.py:127-131 | with nobody waiting and an empty park, one unmet demand is counted and nothing else changes |
| `EngineEvents.PassengerDraws` | app/simulation/engine.py:133-139 | each passenger uses the fare and the leg of its own draw |
| `EngineEvents.StandardFareEnds` | app/simulation/engine.py:148-157 | after a standard fare the driver is at the back of the queue while his shift lasts, and home and finished, with the queue as it was, once it is over |
| `EngineEvents.ReturnIsDeclined` | app/simulation/engine.py:162-176 | a driver who declines or whose shift is over is finished, under the reason shift end, central London or other, and the destination is counted |
| `EngineEvents.ReturnIsRefused` | app/simulation/engine.py:182-194 | with every terminal full, every refusal is counted, and the driver is finished for that reason |
| `EngineEvents.ReturnIsAccepted` | app/simulation/engine.py:178-202 | the first terminal with room takes the taxi, refusals before it counted: at most five minutes out onto the end of its deque, else with a check in the bucket of the rounded arrival less five minutes, within the rest of the day |
| `EngineEvents.FareEndDraws` | app/simulation/engine.py:150-180 | each fare end is settled against the planned end of the driver's own shift, with its own draws |
| `EngineEvents.CheckIsProcessed` | app/simulation/engine.py:219-230 | a return still pending is checked again five minutes on or in the last minute, at most eight times; then the driver is given up under the noted destination; any other check changes nothing |
| `EngineEvents.ChecksPromote` | app/simulation/engine.py:204-217 | a minute with checks promotes: afterwards no due return has a free slot, and the newly seated stand behind those waiting |
| `EngineEvents.ShiftEndsNow` | app/simulation/engine.py:232-236 | a parked driver goes home and is finished; any other shift end changes nothing |
| `EngineEvents.SnapshotShows` | app/simulation/engine.py:239-254 | a snapshot shows minute, queue length, the number of drivers not offline, the number of taxis on each rank and the fares completed |
| `EngineEvents.MinuteEndsWithShot` | app/simulation/engine.py:238-254 | a snapshot is taken at every multiple of the interval and in the last minute, and shows the state in which the minute ends |
| `EngineSteps.JoinKeepsInv` | app/simulation/engine.py:115-119 | a shift start keeps the engine invariant and raises at most the handled conflict |
| `EngineSteps.ServedDemandKeepsInv` | app/simulation/engine.py:121-141 | demand is served by the head of the deque, else the front of the park; no service call raises; the invariant holds again |
| `EngineSteps.UnmetDemandKeepsInv` | app/simulation/engine.py:127-131 | demand is unmet exactly when nobody waits and the park is empty, and is counted |
| `EngineSteps.CentralDispatchFits` | app/simulation/engine.py:16-22 | central dispatch, which never checks capacity, finds the rank empty, so the called taxi is alone on it: it fits if and only if the terminal has a slot at all |
| `EngineSteps.SweepKeepsInv` | app/simulation/engine.py:204-217 | the promotion sweep keeps the shadow index in step with the store |
| `EngineSteps.RetryKeepsInv` | app/simulation/engine.py:219-230 | a check is dropped, filed again or ends in giving up, and nobody is lost |
| `EngineSteps.WalkMakesProgress` | app/simulation/engine.py:219-226 | a check that lengthens the list uses up a retry: the measure that ends the walk |
| `EngineSteps.EndShiftKeepsInv` | app/simulation/engine.py:232-236 | a shift end keeps the invariant |
| `EngineSteps.SnapshotKeepsInv` | app/simulation/engine.py:238-254 | a snapshot shows every terminal, no rank above its slots |
| `EngineSteps.TickKeepsInv` | app/simulation/engine.py:109-110 | the passing of time keeps the invariant |
| `EngineFares.TriedOutcome` | app/simulation/engine.py:178-188 | the shuffled terminals are refused while full, and the first with room accepts |
| `EngineFares.CompleteKeepsInv` | app/simulation/engine.py:143-202 | the end of a fare raises nothing, consumes one fare end, files a check exactly for a pending return, and keeps the invariant; which outcome it has is stated by the rows of `EngineEvents` |
| `EngineMemory.CompleteKeepsSound` | app/simulation/engine.py:143-202 | the end of a fare also keeps the engine's note of the last destination in agreement with the store |
| `EngineMemory.ServedDemandKeepsSound` | app/simulation/engine.py:133-141 | so does serving a passenger, who overwrites the note |
| `EngineMemory.GivenUpByDestination` | app/simulation/engine.py:228-230 | a driver given up on is counted under the destination of the exemption in force; the fallback "unknown" is never used |
| `EngineDay.WalkFrom` | app/simulation/engine.py:219-230 | the walk over a list of checks that it may lengthen itself ends, in the same minute, with a valid store and the same buckets and snapshots |
| `EngineDay.MinuteOf` | app/simulation/engine.py:109-110 | minute m is played at m minutes after the start of the day, and leaves the day in order |
| `EngineDay.DayOf` | app/simulation/engine.py:109-110 | the day ends in its last minute, at the time of that minute |
| `WholeDay.JoinsKeepSound` | app/simulation/engine.py:115-119 | whoever starts a shift in this minute, the invariant with the note of destinations holds after the whole list, and nothing raises |
| `WholeDay.ServingKeepsSound` | app/simulation/engine.py:121-141 | so it does after all of this minute's demand, whatever fares are drawn |
| `WholeDay.FinishingKeepsSound` | app/simulation/engine.py:143-202 | so it does after all fare ends of this minute, whatever the drivers decide; no fare end is added to the list being processed |
| `WholeDay.CheckNext` | app/simulation/engine.py:219-230 | a promotion check keeps the invariant, with what it files counted as still ahead |
| `WholeDay.WalkKeepsSound` | app/simulation/engine.py:219-230 | so does the walk over all checks, those added under it included |
| `WholeDay.EndingKeepsSound` | app/simulation/engine.py:232-236 | so does the end of every shift that ends in this minute |
| `WholeDay.MinuteKeepsSound` | app/simulation/engine.py:109-254 | so does every minute: nothing raises, and nothing is filed into a phase already past |
| `WholeDay.MinuteTakesShot` | app/simulation/engine.py:238-254 | after each minute there is one snapshot for every minute so far that was due one, in order |
| `WholeDay.ShotMinutesAre` | app/simulation/engine.py:238 | the minutes due a snapshot are the multiples of the interval and the last minute, in order |
| `WholeDay.LastShot` | app/simulation/engine.py:238 | the last snapshot is that of the last minute, so there is always one |
| `WholeDay.DayEndsWell` | app/simulation/engine.py:109-260 | for every plan and all draws, the day ends without raising: everyone is accounted for, books balance, every snapshot due was taken and shows ranks within their slots, and the tests' tally holds exactly if nobody was given up as `terminal_never_freed_up` |
| `Day.DayEnds` | app/simulation/engine.py:256-260 | with nothing left ahead: empty park, nobody on a fare, everyone but taxis on a rank finished, ranks within their slots, books balanced; the tests' tally holds exactly without `terminal_never_freed_up` |
| `Tally.SurplusIsNeverFreedUp` | app/simulation/engine.py:196-229 | in every state between events, outcomes exceed ended exempt fares by exactly the returns given up on |
| `Tally.CheckBreaksTallyIff` | app/simulation/engine.py:223-230 | a check breaks the tally exactly when the return is still pending and no retry is left |
| `Tally.LastMinuteWalk` | app/simulation/engine.py:219-230 | in the last minute a pending return at the end of the list uses up all its retries in one walk, and the driver is given up |
| `Tally.TallyFails` | tests/test_simulation.py:34-40 | a plan of one minute, one terminal and one driver, and draws within the default jitter, whose day counts its only exempt fare as returned and as not returned |
| `SimulationModule.SetUpStore` | app/simulation/engine.py:63-79 | builds exactly the plan's store: its terminals, one agent each, and every driver offline, in plan order |
| `SimulationModule.Prepare` | app/simulation/engine.py:63-107 | everything before the first minute: the plan's store, all buckets filed, empty books |
| `SimulationModule.Simulation.constructor` | app/simulation/engine.py:94-107 | the books are empty, with one deque for each terminal |
| `SimulationModule.Simulation.StartShift` | app/simulation/engine.py:115-119 | does the engine's join step on the store |
| `SimulationModule.Simulation.StartShifts` | app/simulation/engine.py:115-119 | does it for this minute's whole list, in order |
| `SimulationModule.Simulation.TakeOrCall` | app/simulation/engine.py:122-131 | pops the deque, else calls a taxi, else counts unmet demand |
| `SimulationModule.Simulation.ServeDemand` | app/simulation/engine.py:121-141 | does the engine's demand step: fare recorded, counted and its end filed |
| `SimulationModule.Simulation.ServePassengers` | app/simulation/engine.py:121-141 | does it for this minute's whole list, with the next draws for each |
| `SimulationModule.Simulation.FinishFare` | app/simulation/engine.py:143-202 | does the engine's step at the end of a fare, in all its branches |
| `SimulationModule.Simulation.FinishFares` | app/simulation/engine.py:143-202 | does it for this minute's whole list, against each driver's own shift end |
| `SimulationModule.Simulation.TryInTurn` | app/simulation/engine.py:182-188 | the loop over shuffled terminals with early exit, counting refusals |
| `SimulationModule.Simulation.SweepReturns` | app/simulation/engine.py:208-217 | remembering, promoting and looking again queues exactly the newly seated taxis |
| `SimulationModule.Simulation.RetryCheck` | app/simulation/engine.py:219-230 | one promotion check |
| `SimulationModule.Simulation.WalkChecks` | app/simulation/engine.py:219-230 | the loop over a list that grows while it is walked ends, in the state that the fold of single checks describes |
| `SimulationModule.Simulation.PromoteReturns` | app/simulation/engine.py:204-230 | does nothing without checks, else the sweep and the walk |
| `SimulationModule.Simulation.TakeSnapshot` | app/simulation/engine.py:239-254 | a snapshot reports queue length, active drivers, every rank's occupancy and completed fares |
| `SimulationModule.Simulation.EndShifts` | app/simulation/engine.py:232-236 | sends home whoever of this minute's list is parked |
| `SimulationModule.Simulation.RunMinute` | app/simulation/engine.py:109-254 | one minute: clock at m minutes after the start, shift starts, demand, fare ends, promotion checks, shift ends, and a snapshot if due, each exactly as `EngineDay.MinuteOf` says |
| `SimulationModule.Simulation.RunMinutes` | app/simulation/engine.py:109-254 | all minutes from the first to the last, as `EngineDay.DayFrom` says |
| `SimulationModule.Simulation.CountStatuses` | app/simulation/engine.py:256-257 | the final count of each status is the number of taxis in it |
| `SimulationModule.Simulation.Run` | app/simulation/engine.py:109-260 | the whole day is `EngineDay.DayOf`, and the final counts are those of its end, with nobody parked or on a fare |
| `SimulationModule.RunSimulation` | tests/test_simulation.py:19-82 | for every plan, terminals without slots included, and all draws: the result is the day that plan and draws determine, the same on every repetition; every driver is accounted for, no taxi is stuck mid-fare, fares match completions, every snapshot due is taken and shows ranks within their slots, and outcomes match exempt fares up to the double counting found above |

## Left out

- HTTP routers, schemas, serializers, templates, scripts, CSV and summary output: input and output only.
- Notifications and the geofence: they affect message texts, never the state modelled here.
- Ids drawn from a uuid generator: replaced by a counter that never repeats.
- Thread scheduling: each locked function is one atomic step; reads without the lock are not interleaved with writes.
- Floating-point rounding: times, rates and estimates are real numbers; `round` is exact half-to-even on reals.
- Unicode: trimming and lower-casing cover the ASCII characters only.
- Creation timestamps, administrators, listing functions and removal of rank agents: nothing modelled here depends on them.
- Probability distributions, `generate_taxi_demand`, `generate_driver_population` and `probability_of_not_returning`: replaced by arbitrary inputs. A plan's demand names existing terminals and no shift ends before it starts, as the generators guarantee; a fare's drawn label is what the classifier finds for its destination.
- `clock.reset` and the progress output of `run_simulation`.
- StoreModule.Store.CallNextTaxi: assumes that queued badges can be looked up, as the lifecycle invariant guarantees; the half-done state after a failed dictionary lookup is not modelled, because no run reaches it.
- StoreModule.Store.RecordFare: rejects unknown taxis and unknown agents with the same error, without the message text.
- SimulationModule.Simulation.Run: the one function `run_simulation` is split into methods of a class; its local variables are the fields. A plan has at least one minute and a snapshot interval of at least one.
