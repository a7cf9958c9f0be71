/** The tally "returned + not returned = exempt fares": what each step does to it, and a day on which
    it fails. */
module Tally {
  import opened Domain
  import opened Destinations
  import opened StoreSpec
  import opened Lifecycle
  import opened Promotion
  import opened Buckets
  import opened Engine
  import opened EngineInvariant
  import opened EngineSteps
  import opened PlanModule
  import opened Day
  import opened EngineDay

  /** By how much outcomes exceed the exempt fares that have ended. */
  function Surplus(sim: Sim): int {
    sim.stats.returned + |sim.stats.notReturnedByReason| + |OnExemptFareSet(sim.store)| - ExemptFares(sim.stats)
  }

  /** In every state the engine reaches, the surplus is exactly the number of returns given up on. */
  lemma SurplusIsNeverFreedUp(sim: Sim, ahead: Ahead, cast: Cast)
    requires Inv(sim, ahead, cast)
    ensures Surplus(sim) == sim.stats.notReturnedByReason[NeverFreedUp]
  {
  }

  /** A promotion check breaks the tally exactly when it finds the return still pending with no
      retries left. */
  lemma CheckBreaksTallyIff(sim: Sim, b: Badge)
    requires InDay(sim)
    ensures Surplus(RetryStep(sim, b)) ==
            Surplus(sim) + if StillPending(sim.store, b) && RetryCount(sim.retries, b) >= MAX_RETURN_RETRIES then 1 else 0
  {
    CountOne(sim.stats.notReturnedByReason, NeverFreedUp, NeverFreedUp);
  }

  /** In the last minute every retry lands in the list being walked: a pending return at the end of
      the list uses up its retries in that one walk, and the driver is given up. */
  lemma {:induction false} LastMinuteWalk(sim: Sim, b: Badge, i: nat)
    requires Runnable(sim) && sim.minute == |sim.checks| - 1 && StillPending(sim.store, b)
    requires i == |sim.checks[sim.minute]| - 1 && sim.checks[sim.minute][i] == b
    requires RetryCount(sim.retries, b) <= MAX_RETURN_RETRIES
    ensures var destination := if b in sim.lastDestination then sim.lastDestination[b] else "unknown";
            var sim' := WalkFrom(sim, i);
            && sim'.store == sim.store && sim'.minute == sim.minute
            && sim'.stats == GiveUp(sim, b, destination, NeverFreedUp).stats
    decreases MAX_RETURN_RETRIES - RetryCount(sim.retries, b)
  {
    hide GoodStore;
    RetryContinues(sim, b);
    if RetryCount(sim.retries, b) < MAX_RETURN_RETRIES {
      LastMinuteWalk(RetryStep(sim, b), b, i + 1);
    }
  }

  // ---- a day on which the tally fails: one minute, one terminal with one slot, one driver ----

  const RANK: TerminalState := TerminalState("Terminal", 1)
  const SHORT_TRIP: SimulatedFare := SimulatedFare("hounslow", Local)

  const SHORT_DAY: Plan :=
    Plan(0.0, 1, [TerminalSetup("T", "Terminal", 1)], [Driver("D", 0, 30)], [Demand(0, "T")], {}, 15)

  /** Half of hounslow's 25 minutes for each leg, no driver declines, the one terminal is tried. */
  const DRAWS: Oracle := Oracle(_ => SHORT_TRIP, _ => 12.5, _ => false, _ => 12.5, _ => ["T"])

  lemma ShortTripIsLocal()
    ensures LabelAgrees(SHORT_TRIP)
  {
    hide KNOWN_DESTINATIONS;
    TestedEntries();
    KeyHasOwnClass(7);
  }

  lemma TheDayIsGood()
    ensures GoodPlan(SHORT_DAY) && GoodOracle(DRAWS, SHORT_DAY)
    ensures TerminalMap(SHORT_DAY.terminals) == map["T" := RANK]
  {
    ShortTripIsLocal();
    assert SHORT_DAY.terminals[..0] == [];
    assert TerminalMap(SHORT_DAY.terminals) == map["T" := RANK];
  }

  lemma TheBuckets()
    ensures StartBuckets(SHORT_DAY) == EndBuckets(SHORT_DAY) == [["D"]] && DemandBuckets(SHORT_DAY) == [["T"]]
    ensures ShiftEnds(SHORT_DAY.drivers) == map["D" := 30]
  {
    assert StartFilings(SHORT_DAY) == EndFilings(SHORT_DAY) == [Filing(0, "D")];
    assert DemandFilings(SHORT_DAY) == [Filing(0, "T")];
    OneFiling("D");
    OneFiling("T");
    assert SHORT_DAY.drivers[..0] == [];
  }

  lemma OneFiling<T>(x: T)
    ensures Filled([Filing(0, x)], 1) == [[x]]
  {
    assert [Filing(0, x)][..0] == [];
    assert ItemsIn([Filing(0, x)], 0) == [x];
  }

  lemma TheCast()
    ensures GoodPlan(SHORT_DAY) && CastOf(SHORT_DAY) == Cast({"D"}, map["T" := RANK], 1)
    ensures var sim := InitialSim(SHORT_DAY);
            && AsSetUp(sim, CastOf(SHORT_DAY)) && Runnable(sim)
            && sim.store.taxis.Keys == {"D"} && sim.store.taxis["D"].status == Offline && sim.store.queue == []
            && sim.store.now == 0.0 && sim.fareEnds == [[]] && sim.checks == [[]] && sim.minute == 0
            && sim.retries == map[] && sim.stats == NO_STATS && sim.waiting == map["T" := []]
            && Occupants(sim.store, "T") == {}
  {
    TheDayIsGood();
    InitialStoreIsSetUp(SHORT_DAY);
    InitialIsRunnable(SHORT_DAY);
    assert SHORT_DAY.drivers[0].badge in CastOf(SHORT_DAY).drivers;
  }

  // ---- its one minute ----

  ghost predicate Joined(sim: Sim) {
    && Runnable(sim) && AsSetUp(sim, CastOf(SHORT_DAY)) && sim.store.queue == ["D"]
    && "D" in sim.store.taxis && sim.store.taxis.Keys == {"D"} && sim.store.now == 0.0
    && sim.store.terminals == map["T" := RANK]
    && sim.fareEnds == [[]] && sim.checks == [[]] && sim.minute == 0 && sim.retries == map[]
    && sim.stats == NO_STATS && sim.waiting == map["T" := []]
  }

  lemma DriverJoins() returns (sim: Sim)
    ensures Runnable(Tick(InitialSim(SHORT_DAY), 0, 0.0)) && Joined(sim)
    ensures JoinFrom(Tick(InitialSim(SHORT_DAY), 0, 0.0), ["D"], 0) == Ok(sim)
  {
    TheCast();
    var start := Tick(InitialSim(SHORT_DAY), 0, 0.0);
    assert start == InitialSim(SHORT_DAY);
    JoinKeepsValid(start.store, "D");
    sim := JoinStep(start, "D").value;
    JoinContinues(start, "D");
  }

  ghost predicate Away(sim: Sim) {
    && Runnable(sim) && sim.store.terminals == map["T" := RANK] && sim.store.now == 0.0
    && "D" in sim.store.taxis && CarriesExemptFare(sim.store, "D") && Occupants(sim.store, "T") == {}
    && sim.minute == 0 && sim.fareEnds == [[FareEnd("D", SHORT_TRIP)]] && sim.checks == [[]]
    && sim.retries == map[] && sim.stats == NO_STATS.(faresByClass := multiset{Local})
  }

  lemma FirstEntry<T>(x: T)
    ensures File([[]], 0, x) == [[x]]
  {
    var none: seq<T> := [];
    assert none + [x] == [x];
    assert [none][0 := [x]] == [[x]];
  }

  lemma TripIsTaken(joined: Sim, sim: Sim)
    requires Joined(joined) && Served(joined, sim, "T", "D", SHORT_TRIP, 12.5) && Runnable(sim)
    ensures Away(sim)
  {
    hide SHORT_DAY, GoodStore, AsSetUp;
    FirstEntry(FareEnd("D", SHORT_TRIP));
    assert sim.store.taxis.Keys == {"D"};
    assert Occupants(sim.store, "T") == {};
  }

  /** The driver takes a short trip, too far from home to be back in five minutes. */
  lemma DriverLeaves(joined: Sim) returns (w: World)
    requires Joined(joined)
    ensures ServeFrom(DRAWS, World(joined, 0), ["T"], 0) == Ok(w)
    ensures w.draws == 1 && Away(w.sim)
  {
    hide LabelAgrees, Served, GoodStore, DemandStep;
    ShortTripIsLocal();
    TheCast();
    CalledTaxiServes(joined, CastOf(SHORT_DAY), "T", SHORT_TRIP, 12.5);
    DemandContinues(joined, "T", SHORT_TRIP, 12.5);
    TripIsTaken(joined, DemandStep(joined, "T", SHORT_TRIP, 12.5).value);
    w := World(DemandStep(joined, "T", SHORT_TRIP, 12.5).value, 1);
    assert ServeEvent(DRAWS, World(joined, 0), "T") == Ok(w);
  }

  ghost predicate ReturnPromised(sim: Sim) {
    && Runnable(sim) && sim.minute == 0 && sim.checks == [["D"]] && sim.retries == map[]
    && StillPending(sim.store, "D") && sim.store.taxis["D"].expectedArrival == Some(sim.store.now + 12.5)
    && sim.stats == NO_STATS.(faresByClass := multiset{Local}, completed := 1, returned := 1)
  }

  lemma DriverPromisesToReturn(away: Sim)
    requires Away(away)
    ensures var r := CompleteStep(away, FareEnd("D", SHORT_TRIP), 30, {}, DrawAt(DRAWS, 1));
            r.Ok? && ReturnPromised(r.value)
  {
    CompleteKeepsValid(away.store, "D");
    var s := CompleteFare(away.store, "D").value;
    assert Occupants(s, "T") == {};
    ReturnKeepsValid(s, "D", "T", 12.5);
    FirstEntry("D");
    var sim := CompleteStep(away, FareEnd("D", SHORT_TRIP), 30, {}, DrawAt(DRAWS, 1)).value;
    CompleteContinues(away, FareEnd("D", SHORT_TRIP), 30, {}, DrawAt(DRAWS, 1));
  }

  lemma FareFinishes(w: World) returns (w': World)
    requires w.draws == 1 && Away(w.sim)
    ensures FinishFrom(SHORT_DAY, DRAWS, w, [FareEnd("D", SHORT_TRIP)], 0) == Ok(w') && ReturnPromised(w'.sim)
  {
    hide CompleteStep, ReturnPromised, GoodStore, ShiftEnds;
    TheBuckets();
    DriverPromisesToReturn(w.sim);
    w' := World(CompleteStep(w.sim, FareEnd("D", SHORT_TRIP), 30, {}, DrawAt(DRAWS, 1)).value, 2);
    assert FinishEvent(SHORT_DAY, DRAWS, w, FareEnd("D", SHORT_TRIP)) == Ok(w');
  }

  lemma SweepPassesBy(sim: Sim)
    requires ReturnPromised(sim)
    ensures ReturnPromised(SweepStep(sim))
  {
    hide GoodStore, SeatedList, PromotedTaxi;
    SweepContinues(sim);
    DueOrLeftAlone(sim.store, "D");
    assert SweepStep(sim).store.taxis["D"] == PromotedTaxi(sim.store, "D");
  }

  ghost predicate DoubleCounted(stats: Stats) {
    && ExemptFares(stats) == 1 && stats.returned == 1
    && stats.notReturnedByReason == multiset{NeverFreedUp} && !TallyLaw(stats)
  }

  /** The sweep finds nobody due; eight retries later, in the same walk, the driver is given up. */
  lemma DriverIsGivenUp(sim: Sim)
    requires ReturnPromised(sim)
    ensures var sim' := PromotePhase(sim);
            && Runnable(sim') && sim'.minute == 0 && DoubleCounted(sim'.stats)
            && "D" in sim'.store.taxis && sim'.store.taxis["D"].status == ReturnExempt
  {
    hide GoodStore, SweepStep, WalkFrom, GiveUp, DoubleCounted;
    SweepPassesBy(sim);
    SweepContinues(sim);
    LastMinuteWalk(SweepStep(sim), "D", 0);
    GivingUpCountsTwice(SweepStep(sim));
  }

  lemma GivingUpCountsTwice(sim: Sim)
    requires ReturnPromised(sim)
    ensures forall destination :: DoubleCounted(GiveUp(sim, "D", destination, NeverFreedUp).stats)
  {
    hide Runnable;
  }

  // ---- put together ----

  lemma TheFirstHalf() returns (w: World)
    requires RunnableDay(SHORT_DAY, InitialSim(SHORT_DAY))
    ensures FirstHalf(SHORT_DAY, DRAWS, World(InitialSim(SHORT_DAY), 0), 0) == Ok(w) && ReturnPromised(w.sim)
  {
    hide GoodStore, InitialSim, JoinFrom, ServeFrom, FinishFrom, StartBuckets, EndBuckets, DemandBuckets, AsSetUp;
    TheBuckets();
    var joined := DriverJoins();
    var away := DriverLeaves(joined);
    w := FareFinishes(away);
  }

  lemma TheSecondHalf(sim: Sim)
    requires ReturnPromised(sim) && RunnableDay(SHORT_DAY, sim)
    ensures SecondHalf(SHORT_DAY, sim).Ok? && DoubleCounted(SecondHalf(SHORT_DAY, sim).value.stats)
  {
    hide GoodStore, PromotePhase, StartBuckets, EndBuckets, DemandBuckets, ReturnPromised;
    TheBuckets();
    DriverIsGivenUp(sim);
  }

  lemma OneMinuteDay(plan: Plan, oracle: Oracle)
    requires GoodPlan(plan) && plan.totalBuckets == 1
    ensures RunnableDay(plan, InitialSim(plan))
    ensures DayOf(plan, oracle) == MinuteOf(plan, oracle, World(InitialSim(plan), 0), 0)
  {
    hide GoodPlan, Runnable, InitialSim, MinuteOf;
    InitialIsRunnable(plan);
    var w := World(InitialSim(plan), 0);
    if MinuteOf(plan, oracle, w, 0).Ok? {
      assert DayFrom(plan, oracle, MinuteOf(plan, oracle, w, 0).value, 1) == MinuteOf(plan, oracle, w, 0);
    }
  }

  /** On this day the only exempt fare is counted twice: as returned, and as not returned. */
  lemma TallyFails()
    ensures GoodPlan(SHORT_DAY) && GoodOracle(DRAWS, SHORT_DAY)
    ensures DayOf(SHORT_DAY, DRAWS).Ok? && DoubleCounted(DayOf(SHORT_DAY, DRAWS).value.sim.stats)
  {
    hide GoodPlan, GoodOracle, Runnable, InitialSim, FirstHalf, SecondHalf, DayOf, DoubleCounted, ReturnPromised;
    TheDayIsGood();
    OneMinuteDay(SHORT_DAY, DRAWS);
    var half := TheFirstHalf();
    TheSecondHalf(half.sim);
  }
}
