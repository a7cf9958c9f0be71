/** The engine invariant through a whole day: it holds after every event of every minute, no event
    raises, nothing is filed into a phase that has passed, and the day ends as it should. */
module WholeDay {
  import opened Domain
  import opened StoreSpec
  import opened Lifecycle
  import opened Buckets
  import opened Engine
  import opened EngineInvariant
  import opened EngineSteps
  import opened EngineFares
  import opened EngineMemory
  import opened PlanModule
  import opened EngineDay
  import opened Day

  /** The badges of fare ends, bucket by bucket. */
  ghost function BadgesOf(fareEnds: seq<seq<FareEnd>>): (badges: seq<seq<Badge>>)
    ensures |badges| == |fareEnds|
    ensures forall k :: 0 <= k < |fareEnds| ==> badges[k] == BadgesIn(fareEnds[k])
  {
    seq(|fareEnds|, k requires 0 <= k < |fareEnds| => BadgesIn(fareEnds[k]))
  }

  ghost function BadgesIn(ends: seq<FareEnd>): (badges: seq<Badge>)
    ensures |badges| == |ends| && forall i :: 0 <= i < |ends| ==> badges[i] == ends[i].badge
  {
    seq(|ends|, i requires 0 <= i < |ends| => ends[i].badge)
  }

  lemma BadgesOfFile(fareEnds: seq<seq<FareEnd>>, k: nat, e: FareEnd)
    requires k < |fareEnds|
    ensures BadgesOf(File(fareEnds, k, e)) == File(BadgesOf(fareEnds), k, e.badge)
  {
    assert BadgesIn(fareEnds[k] + [e]) == BadgesIn(fareEnds[k]) + [e.badge];
  }

  // ---- where the engine is in its day ----

  ghost predicate Fits(plan: Plan, sim: Sim) {
    plan.totalBuckets >= 1 && |sim.fareEnds| == |sim.checks| == plan.totalBuckets && sim.minute < plan.totalBuckets
  }

  /** How many entries of each of this minute's lists are done. */
  datatype Done = Done(joined: nat, served: nat, ended: nat, checked: nat, closed: nat)

  ghost predicate Reaches(plan: Plan, sim: Sim, done: Done)
    requires Fits(plan, sim)
  {
    var m := sim.minute;
    && done.joined <= |StartBuckets(plan)[m]| && done.served <= |DemandBuckets(plan)[m]|
    && done.ended <= |sim.fareEnds[m]| && done.checked <= |sim.checks[m]| && done.closed <= |EndBuckets(plan)[m]|
  }

  /** Everything ahead in this minute and the later ones. */
  ghost function Backlog(plan: Plan, sim: Sim, done: Done): Ahead
    requires Fits(plan, sim) && Reaches(plan, sim, done)
  {
    var m := sim.minute;
    Ahead(Rest(StartBuckets(plan), m, done.joined), Rest(DemandBuckets(plan), m, done.served),
          Rest(BadgesOf(sim.fareEnds), m, done.ended), Rest(sim.checks, m, done.checked),
          Rest(EndBuckets(plan), m, done.closed))
  }

  /** Everything filed at or after minute `m`. */
  ghost function FiledFrom(plan: Plan, sim: Sim, m: nat): Ahead
    requires Fits(plan, sim) && m <= plan.totalBuckets
  {
    Ahead(Agenda(StartBuckets(plan), m), Agenda(DemandBuckets(plan), m), Agenda(BadgesOf(sim.fareEnds), m),
          Agenda(sim.checks, m), Agenda(EndBuckets(plan), m))
  }

  ghost predicate SoundAt(plan: Plan, sim: Sim, done: Done) {
    && Fits(plan, sim) && Reaches(plan, sim, done)
    && sim.store.now == ClockAt(plan, sim.minute)
    && Sound(sim, Backlog(plan, sim, done), CastOf(plan))
  }

  ghost predicate SoundBefore(plan: Plan, sim: Sim, m: nat) {
    && Fits(plan, sim) && m <= plan.totalBuckets
    && sim.store.now <= ClockAt(plan, m)
    && Sound(sim, FiledFrom(plan, sim, m), CastOf(plan))
  }

  lemma SoundIsRunnable(sim: Sim, ahead: Ahead, cast: Cast)
    requires Sound(sim, ahead, cast)
    ensures Runnable(sim)
  {
    forall b | b in sim.store.taxis && sim.store.taxis[b].pendingTerminal.Some?
      ensures sim.store.taxis[b].pendingTerminal.value in sim.store.terminals
    {
      assert Accounted(sim, ahead, b);
    }
  }

  // ---- shifts start ----

  /** Whoever starts now is a driver, and has not reached the end of the shift. */
  lemma StarterIsDriver(plan: Plan, m: nat, i: nat)
    requires GoodPlan(plan) && m < plan.totalBuckets && i < |StartBuckets(plan)[m]|
    ensures StartBuckets(plan)[m][i] in CastOf(plan).drivers
    ensures StartBuckets(plan)[m][i] in Rest(EndBuckets(plan), m, 0)
  {
    var b := StartBuckets(plan)[m][i];
    var j := StarterIsPlanned(plan, m, b);
    DriverIsFiled(plan, j);
    FiledIsAhead(EndBuckets(plan), m, Clamp(plan, plan.drivers[j].shiftEnd), b);
    RestBounds(EndBuckets(plan), m);
  }

  lemma JoinNext(plan: Plan, sim: Sim, i: nat)
    requires GoodPlan(plan) && SoundAt(plan, sim, Done(i, 0, 0, 0, 0)) && i < |StartBuckets(plan)[sim.minute]|
    ensures var r := JoinStep(sim, StartBuckets(plan)[sim.minute][i]);
            r.Ok? && r.value.minute == sim.minute && SoundAt(plan, r.value, Done(i + 1, 0, 0, 0, 0))
  {
    hide Sound, GoodPlan, JoinFeederPark, StartBuckets, EndBuckets, DemandBuckets, CastOf;
    var m, ahead := sim.minute, Backlog(plan, sim, Done(i, 0, 0, 0, 0));
    StarterIsDriver(plan, m, i);
    RestNext(StartBuckets(plan), m, i);
    JoinKeepsSound(sim, ahead, CastOf(plan), StartBuckets(plan)[m][i]);
    var sim' := JoinStep(sim, StartBuckets(plan)[m][i]).value;
    assert Backlog(plan, sim', Done(i + 1, 0, 0, 0, 0)) ==
           ahead.(starts := ahead.starts - multiset{StartBuckets(plan)[m][i]});
  }

  lemma {:induction false} JoinsKeepSound(plan: Plan, sim: Sim, i: nat)
    requires GoodPlan(plan) && SoundAt(plan, sim, Done(i, 0, 0, 0, 0)) && Runnable(sim)
    ensures var list := StartBuckets(plan)[sim.minute];
            var r := JoinFrom(sim, list, i);
            r.Ok? && r.value.minute == sim.minute && SoundAt(plan, r.value, Done(|list|, 0, 0, 0, 0))
    decreases |StartBuckets(plan)[sim.minute]| - i
  {
    hide Sound, GoodPlan, Runnable, JoinStep;
    var list := StartBuckets(plan)[sim.minute];
    if i < |list| {
      JoinNext(plan, sim, i);
      JoinContinues(sim, list[i]);
      JoinsKeepSound(plan, JoinStep(sim, list[i]).value, i + 1);
    }
  }

  // ---- passengers are served ----

  ghost function AfterStarts(plan: Plan, m: nat, i: nat): Done
    requires 1 <= plan.totalBuckets && m < plan.totalBuckets
  {
    Done(|StartBuckets(plan)[m]|, i, 0, 0, 0)
  }

  /** What a served passenger changes in the fields the schedule depends on. */
  lemma ServedAndFiled(sim: Sim, t: TerminalId, b: Badge, fare: SimulatedFare, leg: real)
    requires InDay(sim) && DemandStep(sim, t, fare, leg).Ok?
    requires Served(sim, DemandStep(sim, t, fare, leg).value, t, b, fare, leg)
    ensures var sim' := DemandStep(sim, t, fare, leg).value;
            && sim'.store.now == sim.store.now && sim'.minute == sim.minute && sim'.checks == sim.checks
            && |sim'.fareEnds| == |sim.fareEnds|
            && Rest(BadgesOf(sim'.fareEnds), sim.minute, 0) ==
               Rest(BadgesOf(sim.fareEnds), sim.minute, 0) + multiset{b}
  {
    var k := FareEndMinute(sim.minute, |sim.fareEnds|, leg);
    BadgesOfFile(sim.fareEnds, k, FareEnd(b, fare));
    RestFile(BadgesOf(sim.fareEnds), sim.minute, 0, k, b);
  }

  /** In minute `m` all shifts have started, and the first `i` passengers have been served. */
  ghost predicate ServedUpTo(plan: Plan, sim: Sim, m: nat, i: nat) {
    Fits(plan, sim) && sim.minute == m && SoundAt(plan, sim, AfterStarts(plan, m, i))
  }

  lemma ServedNext(plan: Plan, sim: Sim, m: nat, i: nat, fare: SimulatedFare, leg: real)
    requires ServedUpTo(plan, sim, m, i) && LabelAgrees(fare)
    requires i < |DemandBuckets(plan)[m]| && DemandBuckets(plan)[m][i] in CastOf(plan).terminals
    requires Caller(sim, DemandBuckets(plan)[m][i]).Some?
    ensures var r := DemandStep(sim, DemandBuckets(plan)[m][i], fare, leg);
            r.Ok? && ServedUpTo(plan, r.value, m, i + 1)
  {
    hide Sound;
    var t, ahead := DemandBuckets(plan)[m][i], Backlog(plan, sim, AfterStarts(plan, m, i));
    var b := Caller(sim, t).value;
    RestNext(DemandBuckets(plan), m, i);
    ServedDemandKeepsSound(sim, ahead, CastOf(plan), t, fare, leg);
    ServedAndFiled(sim, t, b, fare, leg);
    var sim' := DemandStep(sim, t, fare, leg).value;
    assert Backlog(plan, sim', AfterStarts(plan, m, i + 1)) == ServedAhead(ahead, t, b);
  }

  lemma UnmetNext(plan: Plan, sim: Sim, m: nat, i: nat, fare: SimulatedFare, leg: real)
    requires ServedUpTo(plan, sim, m, i)
    requires i < |DemandBuckets(plan)[m]| && DemandBuckets(plan)[m][i] in CastOf(plan).terminals
    requires Caller(sim, DemandBuckets(plan)[m][i]).None?
    ensures var r := DemandStep(sim, DemandBuckets(plan)[m][i], fare, leg);
            r.Ok? && ServedUpTo(plan, r.value, m, i + 1)
  {
    hide Sound;
    var t, ahead := DemandBuckets(plan)[m][i], Backlog(plan, sim, AfterStarts(plan, m, i));
    RestNext(DemandBuckets(plan), m, i);
    UnmetDemandKeepsSound(sim, ahead, CastOf(plan), t, fare, leg);
    assert Backlog(plan, Unmet(sim), AfterStarts(plan, m, i + 1)) == ahead.(demand := ahead.demand - multiset{t});
  }

  lemma DemandIsForTerminal(plan: Plan, m: nat, i: nat)
    requires GoodPlan(plan) && m < plan.totalBuckets && i < |DemandBuckets(plan)[m]|
    ensures DemandBuckets(plan)[m][i] in CastOf(plan).terminals
  {
    var j := DemandIsPlanned(plan, m, DemandBuckets(plan)[m][i]);
  }

  lemma DemandIsDrawn(plan: Plan, oracle: Oracle, w: World, t: TerminalId) returns (fare: SimulatedFare, leg: real)
    requires GoodOracle(oracle, plan) && Runnable(w.sim)
    ensures LabelAgrees(fare)
    ensures var r := DemandStep(w.sim, t, fare, leg);
            r.Ok? ==> ServeEvent(oracle, w, t) == Ok(World(r.value, w.draws + 1))
  {
    hide Runnable, LabelAgrees, DemandStep;
    fare, leg := oracle.fare(w.draws), oracle.leg(w.draws);
    DrawsAreKnown(plan, oracle, w.draws);
  }

  lemma ServeNext(plan: Plan, oracle: Oracle, w: World, m: nat, i: nat)
    requires GoodPlan(plan) && GoodOracle(oracle, plan) && Runnable(w.sim)
    requires ServedUpTo(plan, w.sim, m, i) && i < |DemandBuckets(plan)[m]|
    ensures var r := ServeEvent(oracle, w, DemandBuckets(plan)[m][i]);
            r.Ok? && ServedUpTo(plan, r.value.sim, m, i + 1)
  {
    hide SoundAt, GoodPlan, GoodOracle, LabelAgrees, Runnable, DemandStep, ServeEvent, DemandBuckets, CastOf, Caller;
    var t := DemandBuckets(plan)[m][i];
    DemandIsForTerminal(plan, m, i);
    var fare, leg := DemandIsDrawn(plan, oracle, w, t);
    if Caller(w.sim, t).Some? {
      ServedNext(plan, w.sim, m, i, fare, leg);
    } else {
      UnmetNext(plan, w.sim, m, i, fare, leg);
    }
  }

  lemma {:induction false} ServingKeepsSound(plan: Plan, oracle: Oracle, w: World, m: nat, i: nat)
    requires GoodPlan(plan) && GoodOracle(oracle, plan) && Runnable(w.sim)
    requires ServedUpTo(plan, w.sim, m, i) && i <= |DemandBuckets(plan)[m]|
    ensures var list := DemandBuckets(plan)[m];
            var r := ServeFrom(oracle, w, list, i);
            r.Ok? && ServedUpTo(plan, r.value.sim, m, |list|)
    decreases |DemandBuckets(plan)[m]| - i
  {
    hide SoundAt, GoodPlan, GoodOracle, Runnable, ServeEvent, DemandBuckets;
    var list := DemandBuckets(plan)[m];
    if i < |list| {
      ServeNext(plan, oracle, w, m, i);
      ServingKeepsSound(plan, oracle, ServeEvent(oracle, w, list[i]).value, m, i + 1);
    }
  }

  // ---- fares finish ----

  ghost function AfterDemand(plan: Plan, m: nat, i: nat): Done
    requires 1 <= plan.totalBuckets && m < plan.totalBuckets
  {
    Done(|StartBuckets(plan)[m]|, |DemandBuckets(plan)[m]|, i, 0, 0)
  }

  /** Whoever finishes a fare is a driver, whose shift is over or ends later. */
  lemma FinisherIsDriver(plan: Plan, sim: Sim, ahead: Ahead, b: Badge)
    requires GoodPlan(plan) && Sound(sim, ahead, CastOf(plan)) && sim.minute < plan.totalBuckets
    requires b in ahead.fareEnds && ahead.ends == Rest(EndBuckets(plan), sim.minute, 0)
    ensures b in ShiftEnds(plan.drivers)
    ensures sim.minute < ShiftEnds(plan.drivers)[b] ==> b in ahead.ends
  {
    hide GoodPlan, StartBuckets, EndBuckets, ShiftEnds, CastOf;
    FareEndIsDrivers(sim, ahead, CastOf(plan), b);
    var i := DriverIsPlanned(plan, b);
    DriverIsFiled(plan, i);
    if sim.minute < plan.drivers[i].shiftEnd {
      FiledIsAhead(EndBuckets(plan), sim.minute, Clamp(plan, plan.drivers[i].shiftEnd), b);
      RestBounds(EndBuckets(plan), sim.minute);
    }
  }

  lemma FareEndIsDrivers(sim: Sim, ahead: Ahead, cast: Cast, b: Badge)
    requires Inv(sim, ahead, cast) && b in ahead.fareEnds
    ensures b in cast.drivers
  {
    hide Valid, ShadowAgrees, EveryoneAccounted, RanksHold, SnapshotsFit, BooksBalance, RetriesBounded;
    assert b in OnFareSet(sim.store);
  }

  lemma DriverIsPlanned(plan: Plan, b: Badge) returns (i: nat)
    requires b in CastOf(plan).drivers
    ensures i < |plan.drivers| && plan.drivers[i].badge == b
  {
    var d :| d in plan.drivers && d.badge == b;
    i :| 0 <= i < |plan.drivers| && plan.drivers[i] == d;
  }

  lemma DrawsAreKnown(plan: Plan, oracle: Oracle, n: nat)
    requires GoodOracle(oracle, plan)
    ensures LabelAgrees(oracle.fare(n))
    ensures forall t :: t in DrawAt(oracle, n).candidates ==> t in CastOf(plan).terminals
  {
  }

  lemma FareEndIsKept(sim: Sim, sim': Sim, ahead: Ahead, cast: Cast, e: FareEnd, eta: real)
    requires InDay(sim) && FareEndKept(sim, sim', ahead, cast, e, eta)
    ensures sim'.minute == sim.minute && sim'.fareEnds == sim.fareEnds
  {
  }

  lemma FinishNext(plan: Plan, oracle: Oracle, w: World, i: nat)
    requires GoodPlan(plan) && GoodOracle(oracle, plan) && Fits(plan, w.sim) && Runnable(w.sim)
    requires SoundAt(plan, w.sim, AfterDemand(plan, w.sim.minute, i)) && i < |w.sim.fareEnds[w.sim.minute]|
    ensures var r := FinishEvent(plan, oracle, w, w.sim.fareEnds[w.sim.minute][i]);
            && r.Ok? && r.value.sim.minute == w.sim.minute && r.value.sim.fareEnds == w.sim.fareEnds
            && SoundAt(plan, r.value.sim, AfterDemand(plan, w.sim.minute, i + 1))
  {
    hide CompleteStep, Sound, GoodPlan, GoodOracle, FareEndKept, Runnable;
    var sim, m := w.sim, w.sim.minute;
    DrawsAreKnown(plan, oracle, w.draws);
    var e, ahead, draw := sim.fareEnds[m][i], Backlog(plan, sim, AfterDemand(plan, m, i)), DrawAt(oracle, w.draws);
    RestNext(BadgesOf(sim.fareEnds), m, i);
    FinisherIsDriver(plan, sim, ahead, e.badge);
    var shiftEnd := ShiftEnds(plan.drivers)[e.badge];
    CompleteKeepsSound(sim, ahead, CastOf(plan), e, shiftEnd, plan.central, draw);
    var sim' := CompleteStep(sim, e, shiftEnd, plan.central, draw).value;
    FareEndIsKept(sim, sim', ahead, CastOf(plan), e, draw.eta);
    FareEndBacklog(plan, sim, sim', i, e, draw.eta);
  }

  lemma FareEndBacklog(plan: Plan, sim: Sim, sim': Sim, i: nat, e: FareEnd, eta: real)
    requires Fits(plan, sim) && Reaches(plan, sim, AfterDemand(plan, sim.minute, i)) && i < |sim.fareEnds[sim.minute]|
    requires e == sim.fareEnds[sim.minute][i]
    requires var ahead := Backlog(plan, sim, AfterDemand(plan, sim.minute, i));
             FareEndKept(sim, sim', ahead, CastOf(plan), e, eta) && NotesAgree(sim'.store, sim'.lastDestination)
    requires sim.store.now == ClockAt(plan, sim.minute)
    ensures SoundAt(plan, sim', AfterDemand(plan, sim.minute, i + 1))
  {
    hide Inv;
    var m, k, pending := sim.minute, DueMinute(sim.minute, |sim.checks|, eta), StillPending(sim'.store, e.badge);
    RestNext(BadgesOf(sim.fareEnds), m, i);
    RestFile(sim.checks, m, 0, k, e.badge);
    assert Backlog(plan, sim', AfterDemand(plan, m, i + 1)) ==
           FareEndAhead(Backlog(plan, sim, AfterDemand(plan, m, i)), e.badge, pending);
  }

  lemma {:induction false} FinishingKeepsSound(plan: Plan, oracle: Oracle, w: World, i: nat)
    requires GoodPlan(plan) && GoodOracle(oracle, plan) && Fits(plan, w.sim) && Runnable(w.sim)
    requires SoundAt(plan, w.sim, AfterDemand(plan, w.sim.minute, i))
    ensures var list := w.sim.fareEnds[w.sim.minute];
            var r := FinishFrom(plan, oracle, w, list, i);
            && r.Ok? && r.value.sim.minute == w.sim.minute && r.value.sim.fareEnds == w.sim.fareEnds
            && SoundAt(plan, r.value.sim, AfterDemand(plan, w.sim.minute, |list|))
    decreases |w.sim.fareEnds[w.sim.minute]| - i
  {
    hide Sound, GoodPlan, GoodOracle, Runnable, FinishEvent;
    var list := w.sim.fareEnds[w.sim.minute];
    if i < |list| {
      FinishNext(plan, oracle, w, i);
      FinishingKeepsSound(plan, oracle, FinishEvent(plan, oracle, w, list[i]).value, i + 1);
    }
  }

  // ---- returns are promoted ----

  ghost function AfterFares(plan: Plan, sim: Sim, i: nat): Done
    requires Fits(plan, sim)
  {
    Done(|StartBuckets(plan)[sim.minute]|, |DemandBuckets(plan)[sim.minute]|, |sim.fareEnds[sim.minute]|, i, 0)
  }

  lemma CheckNext(plan: Plan, sim: Sim, i: nat)
    requires Fits(plan, sim) && SoundAt(plan, sim, AfterFares(plan, sim, i)) && i < |sim.checks[sim.minute]|
    ensures var sim' := RetryStep(sim, sim.checks[sim.minute][i]);
            sim'.minute == sim.minute && Fits(plan, sim') && SoundAt(plan, sim', AfterFares(plan, sim', i + 1))
  {
    hide Sound, GoodStore;
    var m, b, ahead := sim.minute, sim.checks[sim.minute][i], Backlog(plan, sim, AfterFares(plan, sim, i));
    RestNext(sim.checks, m, i);
    RetryKeepsSound(sim, ahead, CastOf(plan), b);
    SoundIsRunnable(sim, ahead, CastOf(plan));
    GoodIsValid(sim.store);
    WalkMakesProgress(sim, b);
    RestFile(sim.checks, m, i + 1, RetryMinute(m, |sim.checks|), b);
    var sim' := RetryStep(sim, b);
    assert Rest(sim'.checks, m, i + 1) == ahead.checks - multiset{b} + Refiled(sim, b);
    assert Backlog(plan, sim', AfterFares(plan, sim', i + 1)) ==
           ahead.(checks := ahead.checks - multiset{b} + Refiled(sim, b));
  }

  lemma {:induction false} WalkKeepsSound(plan: Plan, sim: Sim, i: nat)
    requires Fits(plan, sim) && SoundAt(plan, sim, AfterFares(plan, sim, i)) && Runnable(sim)
    ensures var sim' := WalkFrom(sim, i);
            && sim'.minute == sim.minute && Fits(plan, sim')
            && SoundAt(plan, sim', AfterFares(plan, sim', |sim'.checks[sim.minute]|))
    decreases RetriesLeft(sim.store.order, sim.retries), |sim.checks[sim.minute]| - i
  {
    hide Sound, RetryStep;
    if i < |sim.checks[sim.minute]| {
      var b := sim.checks[sim.minute][i];
      RetryContinues(sim, b);
      WalkMakesProgress(sim, b);
      CheckNext(plan, sim, i);
      WalkKeepsSound(plan, RetryStep(sim, b), i + 1);
    }
  }

  lemma SweepNext(plan: Plan, sim: Sim)
    requires Fits(plan, sim) && SoundAt(plan, sim, AfterFares(plan, sim, 0))
    ensures var sim' := SweepStep(sim);
            sim'.minute == sim.minute && Fits(plan, sim') && SoundAt(plan, sim', AfterFares(plan, sim', 0))
  {
    hide Sound;
    SweepKeepsSound(sim, Backlog(plan, sim, AfterFares(plan, sim, 0)), CastOf(plan));
  }

  lemma PromotionPhaseKeepsSound(plan: Plan, sim: Sim)
    requires Fits(plan, sim) && SoundAt(plan, sim, AfterFares(plan, sim, 0)) && Runnable(sim)
    ensures var sim' := PromotePhase(sim);
            && sim'.minute == sim.minute && Fits(plan, sim')
            && SoundAt(plan, sim', AfterFares(plan, sim', |sim'.checks[sim.minute]|))
  {
    hide Sound, Runnable, SweepStep, WalkFrom;
    if sim.checks[sim.minute] != [] {
      SweepContinues(sim);
      SweepNext(plan, sim);
      WalkKeepsSound(plan, SweepStep(sim), 0);
    }
  }

  // ---- shifts end ----

  ghost function AfterChecks(plan: Plan, sim: Sim, i: nat): Done
    requires Fits(plan, sim)
  {
    Done(|StartBuckets(plan)[sim.minute]|, |DemandBuckets(plan)[sim.minute]|, |sim.fareEnds[sim.minute]|,
         |sim.checks[sim.minute]|, i)
  }

  lemma EndNext(plan: Plan, sim: Sim, i: nat)
    requires Fits(plan, sim) && SoundAt(plan, sim, AfterChecks(plan, sim, i)) && i < |EndBuckets(plan)[sim.minute]|
    ensures var r := EndShiftStep(sim, EndBuckets(plan)[sim.minute][i]);
            && r.Ok? && r.value.minute == sim.minute && Fits(plan, r.value)
            && SoundAt(plan, r.value, AfterChecks(plan, r.value, i + 1))
  {
    hide Sound;
    var m, b, ahead := sim.minute, EndBuckets(plan)[sim.minute][i], Backlog(plan, sim, AfterChecks(plan, sim, i));
    RestNext(EndBuckets(plan), m, i);
    EndShiftKeepsSound(sim, ahead, CastOf(plan), b);
    var sim' := EndShiftStep(sim, b).value;
    assert Backlog(plan, sim', AfterChecks(plan, sim', i + 1)) == ahead.(ends := ahead.ends - multiset{b});
  }

  lemma {:induction false} EndingKeepsSound(plan: Plan, sim: Sim, i: nat)
    requires Fits(plan, sim) && SoundAt(plan, sim, AfterChecks(plan, sim, i)) && Runnable(sim)
    ensures var list := EndBuckets(plan)[sim.minute];
            var r := EndFrom(sim, list, i);
            && r.Ok? && r.value.minute == sim.minute && Fits(plan, r.value)
            && SoundAt(plan, r.value, AfterChecks(plan, r.value, |list|))
    decreases |EndBuckets(plan)[sim.minute]| - i
  {
    hide Sound, Runnable, EndShiftStep;
    var list := EndBuckets(plan)[sim.minute];
    if i < |list| {
      EndNext(plan, sim, i);
      EndShiftContinues(sim, list[i]);
      EndingKeepsSound(plan, EndShiftStep(sim, list[i]).value, i + 1);
    }
  }

  // ---- minutes ----

  lemma MinuteOpens(plan: Plan, sim: Sim, m: nat)
    requires GoodPlan(plan) && SoundBefore(plan, sim, m) && m < plan.totalBuckets
    ensures SoundAt(plan, Tick(sim, m, ClockAt(plan, m)), Done(0, 0, 0, 0, 0))
  {
    hide Sound, GoodPlan;
    TickKeepsSound(sim, FiledFrom(plan, sim, m), CastOf(plan), m, ClockAt(plan, m));
    RestBounds(StartBuckets(plan), m);
    RestBounds(DemandBuckets(plan), m);
    RestBounds(BadgesOf(sim.fareEnds), m);
    RestBounds(sim.checks, m);
    RestBounds(EndBuckets(plan), m);
    assert Backlog(plan, Tick(sim, m, ClockAt(plan, m)), Done(0, 0, 0, 0, 0)) == FiledFrom(plan, sim, m);
  }

  lemma ClockMovesOn(plan: Plan, m: nat)
    ensures ClockAt(plan, m) <= ClockAt(plan, m + 1)
  {
  }

  lemma AllDone(plan: Plan, sim: Sim)
    requires Fits(plan, sim)
    ensures var done := AfterChecks(plan, sim, |EndBuckets(plan)[sim.minute]|);
            Reaches(plan, sim, done) && Backlog(plan, sim, done) == FiledFrom(plan, sim, sim.minute + 1)
  {
    var m := sim.minute;
    RestBounds(StartBuckets(plan), m);
    RestBounds(DemandBuckets(plan), m);
    RestBounds(BadgesOf(sim.fareEnds), m);
    RestBounds(sim.checks, m);
    RestBounds(EndBuckets(plan), m);
  }

  lemma MinuteCloses(plan: Plan, sim: Sim)
    requires Fits(plan, sim) && SoundAt(plan, sim, AfterChecks(plan, sim, |EndBuckets(plan)[sim.minute]|))
    ensures SoundBefore(plan, sim, sim.minute + 1)
  {
    hide Sound, Backlog, FiledFrom, ClockAt, EndBuckets;
    AllDone(plan, sim);
    ClockMovesOn(plan, sim.minute);
  }

  lemma ShotKeepsSound(plan: Plan, sim: Sim, m: nat)
    requires SoundBefore(plan, sim, m)
    ensures SoundBefore(plan, TakeSnapshot(sim), m)
  {
    hide Sound;
    SnapshotKeepsSound(sim, FiledFrom(plan, sim, m), CastOf(plan));
  }

  lemma FirstHalfKeepsSound(plan: Plan, oracle: Oracle, w: World, m: nat)
    requires GoodPlan(plan) && GoodOracle(oracle, plan) && RunnableDay(plan, w.sim)
    requires SoundBefore(plan, w.sim, m) && m < plan.totalBuckets
    ensures var r := FirstHalf(plan, oracle, w, m);
            && r.Ok? && Fits(plan, r.value.sim) && r.value.sim.minute == m
            && SoundAt(plan, r.value.sim, AfterFares(plan, r.value.sim, 0))
  {
    hide Sound, GoodPlan, GoodOracle, Runnable, JoinFrom, ServeFrom, FinishFrom;
    var sim := Tick(w.sim, m, ClockAt(plan, m));
    TickContinues(w.sim, m, ClockAt(plan, m));
    MinuteOpens(plan, w.sim, m);
    JoinsKeepSound(plan, sim, 0);
    var joined := World(JoinFrom(sim, StartBuckets(plan)[m], 0).value, w.draws);
    ServingKeepsSound(plan, oracle, joined, m, 0);
    FinishingKeepsSound(plan, oracle, ServeFrom(oracle, joined, DemandBuckets(plan)[m], 0).value, 0);
  }

  lemma SecondHalfKeepsSound(plan: Plan, sim: Sim)
    requires GoodPlan(plan) && RunnableDay(plan, sim) && Fits(plan, sim)
    requires SoundAt(plan, sim, AfterFares(plan, sim, 0))
    ensures var r := SecondHalf(plan, sim);
            r.Ok? && r.value.minute == sim.minute && SoundBefore(plan, r.value, sim.minute + 1)
  {
    hide SoundAt, SoundBefore, GoodPlan, Runnable, PromotePhase, EndFrom, TakeSnapshot, EndBuckets;
    PromotionPhaseKeepsSound(plan, sim);
    EndingKeepsSound(plan, PromotePhase(sim), 0);
    var ended := EndFrom(PromotePhase(sim), EndBuckets(plan)[sim.minute], 0).value;
    MinuteCloses(plan, ended);
    ShotKeepsSound(plan, ended, sim.minute + 1);
  }

  lemma MinuteKeepsSound(plan: Plan, oracle: Oracle, w: World, m: nat)
    requires GoodPlan(plan) && GoodOracle(oracle, plan) && RunnableDay(plan, w.sim)
    requires SoundBefore(plan, w.sim, m) && m < plan.totalBuckets
    ensures var r := MinuteOf(plan, oracle, w, m);
            r.Ok? && r.value.sim.minute == m && SoundBefore(plan, r.value.sim, m + 1)
  {
    hide SoundBefore, SoundAt, GoodPlan, GoodOracle, RunnableDay, FirstHalf, SecondHalf;
    FirstHalfKeepsSound(plan, oracle, w, m);
    SecondHalfKeepsSound(plan, FirstHalf(plan, oracle, w, m).value.sim);
  }

  // ---- snapshots ----

  /** The minutes below `n` at which a snapshot is due. */
  ghost function ShotMinutes(plan: Plan, n: nat): seq<nat>
    requires plan.snapshotInterval >= 1
  {
    if n == 0 then [] else ShotMinutes(plan, n - 1) + if ShotDue(plan, n - 1) then [n - 1] else []
  }

  /** They are the multiples of the interval and the last minute of the day, in ascending order. */
  lemma {:induction false} ShotMinutesAre(plan: Plan, n: nat, m: nat)
    requires plan.snapshotInterval >= 1
    ensures m in ShotMinutes(plan, n) <==> m < n && (m % plan.snapshotInterval == 0 || m == plan.totalBuckets - 1)
    ensures forall i, j :: 0 <= i < j < |ShotMinutes(plan, n)| ==> ShotMinutes(plan, n)[i] < ShotMinutes(plan, n)[j]
    ensures forall i :: 0 <= i < |ShotMinutes(plan, n)| ==> ShotMinutes(plan, n)[i] < n
  {
    if n > 0 {
      ShotMinutesAre(plan, n - 1, m);
    }
  }

  /** One snapshot for each minute below `n` that is due one, in order. */
  ghost predicate ShotsTaken(plan: Plan, stats: Stats, n: nat) {
    && plan.snapshotInterval >= 1
    && |stats.snapshots| == |ShotMinutes(plan, n)|
    && forall i :: 0 <= i < |stats.snapshots| ==> stats.snapshots[i].minute == ShotMinutes(plan, n)[i]
  }

  lemma MinuteTakesShot(plan: Plan, oracle: Oracle, w: World, m: nat)
    requires RunnableDay(plan, w.sim) && m < plan.totalBuckets && MinuteOf(plan, oracle, w, m).Ok?
    requires ShotsTaken(plan, w.sim.stats, m)
    ensures ShotsTaken(plan, MinuteOf(plan, oracle, w, m).value.sim.stats, m + 1)
  {
    hide Runnable, FirstHalf, PromotePhase, EndFrom;
    var half := FirstHalf(plan, oracle, w, m).value;
    var ended := EndFrom(PromotePhase(half.sim), EndBuckets(plan)[m], 0).value;
    assert ended.stats.snapshots == w.sim.stats.snapshots && ended.minute == m;
  }

  /** The last minute always has a snapshot, so there is one. */
  lemma LastShot(plan: Plan, stats: Stats)
    requires plan.totalBuckets >= 1 && ShotsTaken(plan, stats, plan.totalBuckets)
    ensures stats.snapshots != [] && stats.snapshots[|stats.snapshots| - 1].minute == plan.totalBuckets - 1
  {
    assert ShotDue(plan, plan.totalBuckets - 1);
  }

  // ---- the day ----

  lemma {:induction false} DayKeepsSound(plan: Plan, oracle: Oracle, w: World, m: nat)
    requires GoodPlan(plan) && GoodOracle(oracle, plan) && RunnableDay(plan, w.sim) && m <= plan.totalBuckets
    requires SoundBefore(plan, w.sim, m) && ShotsTaken(plan, w.sim.stats, m)
    ensures var r := DayFrom(plan, oracle, w, m);
            && r.Ok? && SoundBefore(plan, r.value.sim, plan.totalBuckets)
            && ShotsTaken(plan, r.value.sim.stats, plan.totalBuckets)
    decreases plan.totalBuckets - m
  {
    hide SoundBefore, GoodPlan, GoodOracle, MinuteOf, ShotsTaken;
    if m < plan.totalBuckets {
      MinuteKeepsSound(plan, oracle, w, m);
      MinuteTakesShot(plan, oracle, w, m);
      DayKeepsSound(plan, oracle, MinuteOf(plan, oracle, w, m).value, m + 1);
    }
  }

  lemma DriversAreAhead(plan: Plan, b: Badge)
    requires GoodPlan(plan) && b in CastOf(plan).drivers
    ensures b in Agenda(StartBuckets(plan), 0)
  {
    var i := DriverIsPlanned(plan, b);
    DriverIsFiled(plan, i);
    FiledIsAhead(StartBuckets(plan), 0, Clamp(plan, plan.drivers[i].shiftStart), b);
  }

  lemma InitialBacklog(plan: Plan)
    requires GoodPlan(plan)
    ensures Fits(plan, InitialSim(plan))
    ensures var ahead := FiledFrom(plan, InitialSim(plan), 0);
            && ahead.fareEnds == ahead.checks == multiset{} && |ahead.demand| == |plan.demand|
            && forall b :: b in CastOf(plan).drivers ==> b in ahead.starts
  {
    var sim := InitialSim(plan);
    EmptyAgenda(BadgesOf(sim.fareEnds), 0);
    EmptyAgenda(sim.checks, 0);
    EverythingIsFiledOnce(plan);
    forall b | b in CastOf(plan).drivers ensures b in Agenda(StartBuckets(plan), 0) {
      DriversAreAhead(plan, b);
    }
  }

  lemma NothingHappenedYet(plan: Plan, ahead: Ahead)
    requires GoodPlan(plan) && ahead.fareEnds == ahead.checks == multiset{} && |ahead.demand| == |plan.demand|
    requires forall b :: b in CastOf(plan).drivers ==> b in ahead.starts
    ensures Sound(InitialSim(plan), ahead, CastOf(plan))
  {
    hide Valid, TaxiMap, TerminalMap, AgentMap, BadgeList;
    var sim := InitialSim(plan);
    InitialStoreIsSetUp(plan);
    assert OnFareSet(sim.store) == {} && OnExemptFareSet(sim.store) == {};
    assert forall t :: Occupants(sim.store, t) == {};
    assert forall b :: b in sim.store.taxis ==> Accounted(sim, ahead, b);
  }

  lemma DayBegins(plan: Plan)
    requires GoodPlan(plan)
    ensures RunnableDay(plan, InitialSim(plan))
    ensures SoundBefore(plan, InitialSim(plan), 0) && ShotsTaken(plan, InitialSim(plan).stats, 0)
  {
    hide Sound;
    InitialIsRunnable(plan);
    InitialBacklog(plan);
    NothingHappenedYet(plan, FiledFrom(plan, InitialSim(plan), 0));
  }

  /** The end of every day, whatever the plan and the draws: no event has raised; everyone is
      accounted for; the books balance; every snapshot due was taken and shows ranks within their
      slots; and the tally of exempt fares holds exactly if nobody was given up on. */
  lemma DayEndsWell(plan: Plan, oracle: Oracle)
    requires GoodPlan(plan) && GoodOracle(oracle, plan)
    ensures DayOf(plan, oracle).Ok?
    ensures var sim := DayOf(plan, oracle).value.sim;
            && Valid(sim.store) && DayDone(sim, CastOf(plan)) && ShotsTaken(plan, sim.stats, plan.totalBuckets)
            && (TallyLaw(sim.stats) <==> sim.stats.notReturnedByReason[NeverFreedUp] == 0)
  {
    hide GoodPlan, GoodOracle, DayFrom;
    DayBegins(plan);
    DayKeepsSound(plan, oracle, World(InitialSim(plan), 0), 0);
    var sim := DayOf(plan, oracle).value.sim;
    DayEnds(sim, FiledFrom(plan, sim, plan.totalBuckets), CastOf(plan));
  }
}
