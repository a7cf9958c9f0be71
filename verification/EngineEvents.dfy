/** What each event of the simulated day does, in numbers: when a fare ends, who goes home, which check
    is filed for when, and what a snapshot shows. */
module EngineEvents {
  import opened Domain
  import opened StoreSpec
  import opened Lifecycle
  import opened Promotion
  import opened Transitions
  import opened Engine
  import opened EngineInvariant
  import opened EngineSteps
  import opened EngineFares
  import opened PlanModule
  import opened EngineDay

  /** `x` now stands last in bucket `k`, and nothing else has changed. */
  predicate Appended<T(==)>(before: seq<seq<T>>, after: seq<seq<T>>, k: int, x: T) {
    0 <= k < |before| && after == before[k := before[k] + [x]]
  }

  /** Minute `k` of the day, or its last one if `k` is past the end. */
  function OrLast(k: int, buckets: nat): int {
    if k < buckets then k else buckets - 1
  }

  /** The day starts with nobody finished, no retry used, nothing noted, counted or filed, and nobody
      waiting at any terminal. */
  lemma DayStartsClean(plan: Plan, t: TerminalId, k: nat)
    requires GoodPlan(plan)
    ensures var sim := InitialSim(plan);
            && sim.store == InitialStore(plan) && sim.minute == 0 && |sim.fareEnds| == |sim.checks| == plan.totalBuckets
            && (k < plan.totalBuckets ==> sim.fareEnds[k] == [] && sim.checks[k] == [])
            && sim.retries == map[] && sim.lastDestination == map[] && sim.finished == {}
            && (t in sim.waiting <==> t in sim.store.terminals) && (t in sim.waiting ==> sim.waiting[t] == [])
            && sim.stats.unmet == sim.stats.completed == sim.stats.returned == sim.stats.fullRejections == 0
            && sim.stats.faresByClass == multiset{} && sim.stats.notReturnedByReason == multiset{}
            && sim.stats.notReturnedByDestination == multiset{} && sim.stats.snapshots == []
  {
  }

  // ---- shifts ----

  /** A driver who is offline joins the back of the queue; any other start is skipped. */
  lemma ShiftStarts(sim: Sim, b: Badge)
    requires Valid(sim.store) && b in sim.store.taxis
    ensures sim.store.taxis[b].status != Offline ==> JoinStep(sim, b) == Ok(sim)
    ensures sim.store.taxis[b].status == Offline ==>
              && JoinStep(sim, b).Ok?
              && var sim' := JoinStep(sim, b).value;
              && sim' == sim.(store := sim'.store) && Ok(sim'.store) == JoinFeederPark(sim.store, b)
              && b in sim'.store.taxis && sim'.store.taxis[b].status == InFeederPark
              && sim'.store.taxis[b].joinedAt == Some(sim.store.now) && sim'.store.queue == sim.store.queue + [b]
  {
    hide JoinFeederPark, Valid;
    JoinEffect(sim.store, b);
  }

  /** A driver in the park goes home and is finished for the day; any other shift end is skipped. */
  lemma ShiftEndsNow(sim: Sim, b: Badge)
    requires Valid(sim.store) && b in sim.store.taxis
    ensures sim.store.taxis[b].status != InFeederPark ==> EndShiftStep(sim, b) == Ok(sim)
    ensures sim.store.taxis[b].status == InFeederPark ==>
              && EndShiftStep(sim, b).Ok?
              && var sim' := EndShiftStep(sim, b).value;
              && sim' == sim.(store := sim'.store, finished := sim.finished + {b})
              && Ok(sim'.store) == LeaveFeederPark(sim.store, b)
              && b in sim'.store.taxis && sim'.store.taxis[b].status == Offline && b !in sim'.store.queue
  {
    hide LeaveFeederPark, Valid;
    LeaveEffect(sim.store, b);
  }

  // ---- demand ----

  lemma FareEndBucket(minute: nat, buckets: nat, leg: real, r: int)
    requires minute < buckets && Rounds(leg, r)
    ensures FareEndMinute(minute, buckets, leg) == OrLast(minute + if r < 1 then 1 else r, buckets)
  {
    RoundsToNearest(leg, r);
  }

  /** A passenger is served by the longest waiting taxi, or by the front of the park if nobody waits.
      The fare is recorded by the terminal's own agent, and ends after the drawn leg, rounded to whole
      minutes but at least one, or at the end of the day. */
  lemma PassengerIsServed(sim: Sim, ahead: Ahead, cast: Cast, t: TerminalId, fare: SimulatedFare, leg: real, r: int)
    requires Inv(sim, ahead, cast) && t in ahead.demand && t in cast.terminals && LabelAgrees(fare) && Rounds(leg, r)
    requires sim.waiting[t] != [] || sim.store.queue != []
    ensures DemandStep(sim, t, fare, leg).Ok?
    ensures var sim', id := DemandStep(sim, t, fare, leg).value, sim.store.nextFareId;
            var b := if sim.waiting[t] != [] then sim.waiting[t][0] else sim.store.queue[0];
            && b in sim'.store.taxis && sim'.store.taxis[b].status == OnFare && sim'.store.taxis[b].currentFare == Some(id)
            && id in sim'.store.fares && sim'.store.fares[id].destination == fare.destination
            && sim'.store.fares[id].classification == fare.classification
            && sim'.store.fares[id].terminalId == t && sim'.store.fares[id].recordedBy == "SIM-" + t
            && Appended(sim.fareEnds, sim'.fareEnds, OrLast(sim.minute + if r < 1 then 1 else r, |sim.fareEnds|),
                        FareEnd(b, fare))
            && sim'.lastDestination == sim.lastDestination[b := fare.destination]
            && sim'.stats == sim.stats.(faresByClass := sim.stats.faresByClass + multiset{fare.classification})
            && (if sim.waiting[t] != [] then sim'.waiting == sim.waiting[t := sim.waiting[t][1..]]
                else sim'.waiting == sim.waiting)
  {
    hide DemandStep, FareEndMinute, LabelAgrees, Valid, ShadowAgrees, FaresScheduled, EveryoneAccounted, RanksHold,
         SnapshotsFit, BooksBalance, RetriesBounded;
    ServedDemandKeepsInv(sim, ahead, cast, t, fare, leg);
    FareEndBucket(sim.minute, |sim.fareEnds|, leg, r);
  }

  /** With nobody waiting and an empty park, the passenger is counted and nothing else happens. */
  lemma PassengerIsTurnedAway(sim: Sim, t: TerminalId, fare: SimulatedFare, leg: real)
    requires InDay(sim) && t in sim.store.terminals && sim.store.queue == []
    requires t in sim.waiting && sim.waiting[t] == []
    ensures DemandStep(sim, t, fare, leg) == Ok(sim.(stats := sim.stats.(unmet := sim.stats.unmet + 1)))
  {
  }

  /** Each passenger is given the fare and the leg drawn under the number of events so far. */
  lemma PassengerDraws(oracle: Oracle, w: World, t: TerminalId)
    requires Runnable(w.sim) && DemandStep(w.sim, t, oracle.fare(w.draws), oracle.leg(w.draws)).Ok?
    ensures ServeEvent(oracle, w, t) ==
            Ok(World(DemandStep(w.sim, t, oracle.fare(w.draws), oracle.leg(w.draws)).value, w.draws + 1))
  {
    hide Runnable, DemandStep;
  }

  // ---- the end of a fare ----

  /** Taxi `e.badge` is carrying a fare of this kind, and the day is in order. */
  ghost predicate Carrying(sim: Sim, e: FareEnd, exempt: bool) {
    && InDay(sim) && Valid(sim.store) && e.badge in OnFareSet(sim.store)
    && (exempt <==> e.badge in OnExemptFareSet(sim.store))
  }

  /** The fare is closed, the taxi has moved on, and one more completed fare is counted. */
  lemma FareCloses(sim: Sim, e: FareEnd, exempt: bool, shiftEnd: int, central: set<string>, draw: ReturnDraw) returns (s1: State)
    requires Carrying(sim, e, exempt)
    ensures CompleteFare(sim.store, e.badge) == Ok(s1) && MovedOn(sim.store, s1, e.badge)
    ensures s1.taxis[e.badge].pendingTerminal.None?
    ensures if exempt then s1.taxis[e.badge].status == ReturnExempt && s1.queue == sim.store.queue
            else s1.taxis[e.badge].status == InFeederPark && s1.queue == sim.store.queue + [e.badge]
    ensures var sim1 := sim.(store := s1, stats := sim.stats.(completed := sim.stats.completed + 1));
            CompleteStep(sim, e, shiftEnd, central, draw) == AfterFare(sim1, e, shiftEnd, central, draw)
  {
    hide Valid, AfterFare, CompleteFare, OnExemptFareSet, MovedOn;
    CompletionMovesOn(sim.store, e.badge);
    CompleteEffect(sim.store, e.badge);
    s1 := CompleteFare(sim.store, e.badge).value;
    CarriedClass(sim.store, e.badge);
  }

  lemma CarriedClass(s: State, b: Badge)
    requires Valid(s) && b in OnFareSet(s)
    ensures s.taxis[b].currentFare.Some? && s.taxis[b].currentFare.value in s.fares
    ensures b in OnExemptFareSet(s) <==> s.fares[s.taxis[b].currentFare.value].classification != Standard
  {
    assert Coherent(s.taxis[b]) && HoldsOwnFare(s, b);
  }

  /** After a standard fare the driver waits at the back of the queue while the shift lasts; once it is
      over, he goes home, and the queue is as it was. */
  lemma StandardFareEnds(sim: Sim, e: FareEnd, shiftEnd: int, central: set<string>, draw: ReturnDraw)
    requires Carrying(sim, e, false)
    ensures CompleteStep(sim, e, shiftEnd, central, draw).Ok?
    ensures var sim' := CompleteStep(sim, e, shiftEnd, central, draw).value;
            && sim' == sim.(store := sim'.store, finished := sim'.finished,
                            stats := sim.stats.(completed := sim.stats.completed + 1))
            && e.badge in sim'.store.taxis
            && (sim.minute < shiftEnd ==>
                  && sim'.store.taxis[e.badge].status == InFeederPark
                  && sim'.store.queue == sim.store.queue + [e.badge] && sim'.finished == sim.finished)
            && (shiftEnd <= sim.minute ==>
                  && sim'.store.taxis[e.badge].status == Offline
                  && sim'.store.queue == sim.store.queue && sim'.finished == sim.finished + {e.badge})
  {
    hide Valid, CompleteStep, CompleteFare, OnFareSet, OnExemptFareSet, LeaveFeederPark;
    var s1 := FareCloses(sim, e, false, shiftEnd, central, draw);
    LeaveEffect(s1, e.badge);
    assert s1.queue == sim.store.queue + [e.badge] + [];
  }

  /** After an exempt fare the driver who declines, or whose shift is over, is finished for the day, with
      the reason and the destination counted. */
  lemma ReturnIsDeclined(sim: Sim, e: FareEnd, shiftEnd: int, central: set<string>, draw: ReturnDraw)
    requires Carrying(sim, e, true) && (shiftEnd <= sim.minute || draw.declines)
    ensures CompleteStep(sim, e, shiftEnd, central, draw).Ok?
    ensures var sim' := CompleteStep(sim, e, shiftEnd, central, draw).value;
            var reason := if shiftEnd <= sim.minute then ShiftEnded
                          else if e.fare.destination in central then DeclinedCentralLondon else DeclinedOther;
            && Ok(sim'.store) == CompleteFare(sim.store, e.badge)
            && sim' == sim.(store := sim'.store, finished := sim.finished + {e.badge},
                            stats := sim.stats.(
                              completed := sim.stats.completed + 1,
                              notReturnedByReason := sim.stats.notReturnedByReason + multiset{reason},
                              notReturnedByDestination := sim.stats.notReturnedByDestination + multiset{e.fare.destination}))
  {
    hide Valid, CompleteStep, CompleteFare, OnFareSet, OnExemptFareSet, ReturnStep;
    var s1 := FareCloses(sim, e, true, shiftEnd, central, draw);
  }

  /** With every terminal full, each refusal is counted and the driver is finished for the day. */
  lemma ReturnIsRefused(sim: Sim, e: FareEnd, shiftEnd: int, central: set<string>, draw: ReturnDraw)
    requires Carrying(sim, e, true) && sim.minute < shiftEnd && !draw.declines
    requires forall i :: 0 <= i < |draw.candidates| ==>
               draw.candidates[i] in sim.store.terminals && !HasRoom(sim.store, draw.candidates[i])
    ensures CompleteStep(sim, e, shiftEnd, central, draw).Ok?
    ensures var sim' := CompleteStep(sim, e, shiftEnd, central, draw).value;
            && Ok(sim'.store) == CompleteFare(sim.store, e.badge)
            && sim' == sim.(store := sim'.store, finished := sim.finished + {e.badge},
                            stats := sim.stats.(
                              completed := sim.stats.completed + 1,
                              fullRejections := sim.stats.fullRejections + |draw.candidates|,
                              notReturnedByReason := sim.stats.notReturnedByReason + multiset{AllTerminalsFull},
                              notReturnedByDestination := sim.stats.notReturnedByDestination + multiset{e.fare.destination}))
  {
    hide Valid, CompleteStep, CompleteFare, OnFareSet, OnExemptFareSet, TryTerminals, HasRoom;
    var s1 := FareCloses(sim, e, true, shiftEnd, central, draw);
    forall t ensures HasRoom(s1, t) <==> HasRoom(sim.store, t) {
      ClosingKeepsRoom(sim.store, s1, e.badge, t);
    }
    TriedOutcome(s1, e.badge, draw.candidates, draw.eta);
  }

  lemma ClosingKeepsRoom(s: State, s1: State, b: Badge, t: TerminalId)
    requires MovedOn(s, s1, b) && s1.taxis[b].status != Called
    ensures HasRoom(s1, t) <==> HasRoom(s, t)
  {
    assert Occupants(s1, t) == Occupants(s, t);
  }

  /** The terminals before the `k`-th are full, and the `k`-th takes the taxi. */
  ghost predicate FirstWithRoom(s: State, candidates: seq<TerminalId>, k: nat) {
    && k < |candidates| && HasRoom(s, candidates[k])
    && forall i :: 0 <= i < |candidates| ==> candidates[i] in s.terminals && (i < k ==> !HasRoom(s, candidates[i]))
  }

  lemma FirstWithRoomIsChosen(s: State, s1: State, b: Badge, candidates: seq<TerminalId>, eta: real, k: nat)
    requires MovedOn(s, s1, b) && s1.taxis[b].status == ReturnExempt && FirstWithRoom(s, candidates, k)
    ensures ReturnToTerminal(s1, b, candidates[k], eta).Ok?
    ensures TryTerminals(s1, b, candidates, eta) ==
            Ok(Tried(ReturnToTerminal(s1, b, candidates[k], eta).value, Some(candidates[k]), k))
  {
    hide TryTerminals, HasRoom, Valid;
    forall t ensures HasRoom(s1, t) <==> HasRoom(s, t) {
      ClosingKeepsRoom(s, s1, b, t);
    }
    TriedOutcome(s1, b, candidates, eta);
    var tried := TryTerminals(s1, b, candidates, eta).value;
    assert tried.refusals == k;
  }

  lemma CheckBucket(minute: nat, buckets: nat, eta: real, r: int)
    requires minute < buckets && Rounds(minute as real + eta - 5.0, r)
    ensures DueMinute(minute, buckets, eta) == OrLast(if r < minute then minute else r, buckets)
  {
    RoundsToNearest(minute as real + eta - 5.0, r);
  }

  /** Otherwise the first terminal with room takes the taxi: onto its rank and the end of its deque when
      it is at most five minutes out; else it is expected there, and a check is filed for five minutes
      before its arrival, rounded to a whole minute, but not before this one nor past the end of the day. */
  lemma ReturnIsAccepted(sim: Sim, e: FareEnd, shiftEnd: int, central: set<string>, draw: ReturnDraw, k: nat, r: int)
    requires Carrying(sim, e, true) && sim.minute < shiftEnd && !draw.declines
    requires FirstWithRoom(sim.store, draw.candidates, k) && draw.candidates[k] in sim.waiting
    requires Rounds(sim.minute as real + draw.eta - 5.0, r)
    ensures CompleteStep(sim, e, shiftEnd, central, draw).Ok?
    ensures var sim', t := CompleteStep(sim, e, shiftEnd, central, draw).value, draw.candidates[k];
            && e.badge in sim'.store.taxis && sim'.finished == sim.finished
            && sim'.stats == sim.stats.(completed := sim.stats.completed + 1,
                                        fullRejections := sim.stats.fullRejections + k,
                                        returned := sim.stats.returned + 1)
            && (draw.eta <= 5.0 ==>
                  && sim'.store.taxis[e.badge].status == Called && sim'.store.taxis[e.badge].terminalId == Some(t)
                  && sim'.waiting == sim.waiting[t := sim.waiting[t] + [e.badge]] && sim'.checks == sim.checks)
            && (draw.eta > 5.0 ==>
                  && sim'.store.taxis[e.badge].status == ReturnExempt
                  && sim'.store.taxis[e.badge].pendingTerminal == Some(t)
                  && sim'.store.taxis[e.badge].expectedArrival == Some(sim.store.now + draw.eta)
                  && sim'.waiting == sim.waiting
                  && Appended(sim.checks, sim'.checks, OrLast(if r < sim.minute then sim.minute else r, |sim.checks|), e.badge))
  {
    hide Valid, CompleteStep, CompleteFare, OnFareSet, OnExemptFareSet, TryTerminals, HasRoom, DueMinute,
         ReturnToTerminal, Rounds;
    var b, t := e.badge, draw.candidates[k];
    var s1 := FareCloses(sim, e, true, shiftEnd, central, draw);
    FirstWithRoomIsChosen(sim.store, s1, b, draw.candidates, draw.eta, k);
    ReturnEffect(s1, b, t, draw.eta);
    AcceptedStays(s1, b, t, draw.eta);
    CheckBucket(sim.minute, |sim.checks|, draw.eta, r);
  }

  lemma AcceptedStays(s1: State, b: Badge, t: TerminalId, eta: real)
    requires ReturnToTerminal(s1, b, t, eta).Ok?
    ensures b in ReturnToTerminal(s1, b, t, eta).value.taxis
  {
  }

  /** Each fare end is settled against the planned end of the driver's own shift, with the draws under
      the number of events so far. */
  lemma FareEndDraws(plan: Plan, oracle: Oracle, w: World, e: FareEnd, i: nat)
    requires GoodPlan(plan) && Runnable(w.sim) && i < |plan.drivers| && plan.drivers[i].badge == e.badge
    ensures var draw := ReturnDraw(oracle.declines(w.draws), oracle.eta(w.draws), oracle.shuffle(w.draws));
            var r := CompleteStep(w.sim, e, plan.drivers[i].shiftEnd, plan.central, draw);
            r.Ok? ==> FinishEvent(plan, oracle, w, e) == Ok(World(r.value, w.draws + 1))
  {
    hide Runnable, CompleteStep, ShiftEnds;
    ShiftEndsEntries(plan.drivers);
  }

  // ---- promotion checks ----

  /** One check: a return still pending is looked at again in five minutes, or in the last minute, up to
      eight times for each driver; after that the driver is given up. */
  lemma CheckIsProcessed(sim: Sim, b: Badge)
    requires InDay(sim)
    ensures var pending := && b in sim.store.taxis && sim.store.taxis[b].status == ReturnExempt
                           && sim.store.taxis[b].pendingTerminal.Some? && sim.store.taxis[b].pendingTerminal.value != "";
            var count := if b in sim.retries then sim.retries[b] else 0;
            var sim' := RetryStep(sim, b);
            && (!pending ==> sim' == sim)
            && (pending && count < 8 ==>
                  && sim' == sim.(retries := sim.retries[b := count + 1], checks := sim'.checks)
                  && Appended(sim.checks, sim'.checks, OrLast(sim.minute + 5, |sim.checks|), b))
            && (pending && count >= 8 ==>
                  var noted := if b in sim.lastDestination then sim.lastDestination[b] else "unknown";
                  sim' == sim.(finished := sim.finished + {b}, stats := sim.stats.(
                    notReturnedByReason := sim.stats.notReturnedByReason + multiset{NeverFreedUp},
                    notReturnedByDestination := sim.stats.notReturnedByDestination + multiset{noted})))
  {
  }

  lemma {:induction false} WalkKeepsStore(sim: Sim, i: nat)
    requires Runnable(sim)
    ensures WalkFrom(sim, i).store == sim.store && WalkFrom(sim, i).waiting == sim.waiting
    decreases RetriesLeft(sim.store.order, sim.retries), |sim.checks[sim.minute]| - i
  {
    hide GoodStore;
    if i < |sim.checks[sim.minute]| {
      var b := sim.checks[sim.minute][i];
      RetryContinues(sim, b);
      GoodIsValid(sim.store);
      WalkMakesProgress(sim, b);
      WalkKeepsStore(RetryStep(sim, b), i + 1);
    }
  }

  /** In a minute with checks, every due return is promoted as far as slots are free, and the newly
      seated stand behind those already waiting, in store order. */
  lemma ChecksPromote(sim: Sim, b: Badge, t: TerminalId)
    requires Runnable(sim) && sim.checks[sim.minute] != []
    ensures var sim' := PromotePhase(sim);
            && sim'.store == PromoteDueReturns(sim.store)
            && (DueAt(sim'.store, b, t) ==> t in sim'.store.terminals && !HasRoom(sim'.store, t))
            && (t in sim.waiting ==> t in sim'.waiting && sim'.waiting[t] == sim.waiting[t] + SeatedList(sim.store, t))
  {
    hide GoodStore, WalkFrom, PromoteDueReturns, DueAt, HasRoom, SeatedList;
    GoodIsValid(sim.store);
    SweepContinues(sim);
    WalkKeepsStore(SweepStep(sim), 0);
    if DueAt(PromoteDueReturns(sim.store), b, t) {
      NoSlotLeftForDueTaxi(sim.store, t, b);
    }
  }

  // ---- snapshots ----

  /** A snapshot shows the minute, the queue's length, how many drivers are not offline, how many taxis
      are on each rank, and the fares completed so far. */
  lemma SnapshotShows(sim: Sim, t: TerminalId)
    ensures var sim' := Engine.TakeSnapshot(sim);
            && |sim'.stats.snapshots| == |sim.stats.snapshots| + 1
            && sim' == sim.(stats := sim.stats.(snapshots := sim'.stats.snapshots))
            && sim'.stats.snapshots[..|sim.stats.snapshots|] == sim.stats.snapshots
            && var shot := sim'.stats.snapshots[|sim.stats.snapshots|];
            && shot.minute == sim.minute && shot.feederParkLength == |sim.store.queue|
            && shot.activeDrivers == |set b | b in sim.store.taxis && sim.store.taxis[b].status != Offline|
            && shot.occupancy.Keys == sim.waiting.Keys && shot.cumulativeFares == sim.stats.completed
            && (t in sim.waiting ==>
                  shot.occupancy[t] == |set b | b in sim.store.taxis && sim.store.taxis[b].terminalId == Some(t)
                                                && sim.store.taxis[b].status == Called|)
  {
    assert Occupants(sim.store, t) ==
           set b | b in sim.store.taxis && sim.store.taxis[b].terminalId == Some(t) && sim.store.taxis[b].status == Called;
  }

  /** The snapshot of a minute, if it is due one, shows the state in which the minute ends. */
  lemma MinuteEndsWithShot(plan: Plan, oracle: Oracle, w: World, m: nat, t: TerminalId)
    requires RunnableDay(plan, w.sim) && m < plan.totalBuckets && MinuteOf(plan, oracle, w, m).Ok?
    ensures var sim, n := MinuteOf(plan, oracle, w, m).value.sim, |w.sim.stats.snapshots|;
            if m % plan.snapshotInterval == 0 || m == plan.totalBuckets - 1 then
              && |sim.stats.snapshots| == n + 1 && sim.stats.snapshots[..n] == w.sim.stats.snapshots
              && var shot := sim.stats.snapshots[n];
              && shot.minute == m && shot.feederParkLength == |sim.store.queue|
              && shot.activeDrivers == |set b | b in sim.store.taxis && sim.store.taxis[b].status != Offline|
              && shot.occupancy.Keys == sim.waiting.Keys && shot.cumulativeFares == sim.stats.completed
              && (t in sim.waiting ==>
                    shot.occupancy[t] == |set b | b in sim.store.taxis && sim.store.taxis[b].terminalId == Some(t)
                                                  && sim.store.taxis[b].status == Called|)
            else sim.stats.snapshots == w.sim.stats.snapshots
  {
    hide Runnable, FirstHalf, PromotePhase, EndFrom, Engine.TakeSnapshot;
    var half := FirstHalf(plan, oracle, w, m).value;
    var ended := EndFrom(PromotePhase(half.sim), EndBuckets(plan)[m], 0).value;
    assert ended.stats.snapshots == w.sim.stats.snapshots && ended.minute == m;
    SnapshotShows(ended, t);
  }
}
