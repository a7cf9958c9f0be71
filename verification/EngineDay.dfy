/** A whole simulated day as a function of the plan and the draws: each phase of a minute folds its
    step over its list, and the day folds the minutes. */
module EngineDay {
  import opened Domain
  import opened StoreSpec
  import opened Lifecycle
  import opened Engine
  import opened EngineSteps
  import opened PlanModule

  /** The engine, and how many demand events and fare ends it has processed: each of them draws from
      the oracle under its own number. */
  datatype World = World(sim: Sim, draws: nat)

  // ---- what every event leaves in order ----

  ghost predicate GoodStore(s: State) {
    && Valid(s) && "" !in s.terminals
    && forall b :: b in s.taxis && s.taxis[b].pendingTerminal.Some? ==> s.taxis[b].pendingTerminal.value in s.terminals
  }

  ghost predicate Runnable(sim: Sim) {
    InDay(sim) && GoodStore(sim.store) && sim.waiting.Keys == sim.store.terminals.Keys
  }

  lemma GoodIsValid(s: State)
    requires GoodStore(s)
    ensures Valid(s) && OrderListsTaxis(s)
  {
  }

  /** The day goes on: same minute, same time, same buckets, no snapshot. */
  ghost predicate Continues(sim: Sim, sim': Sim) {
    && Runnable(sim') && sim'.minute == sim.minute && sim'.store.now == sim.store.now
    && |sim'.fareEnds| == |sim.fareEnds| && |sim'.checks| == |sim.checks|
    && sim'.stats.snapshots == sim.stats.snapshots
  }

  predicate EngineCall(op: Op) {
    op.Join? || op.Leave? || op.CallNext? || op.Record? || op.Complete? || op.Return? || op.Promote?
  }

  /** A call gives a taxi an intended terminal only if that terminal exists. */
  lemma CallSetsKnownIntent(s: State, op: Op, b: Badge)
    requires EngineCall(op) && !op.Promote? && b in s.taxis && b in After(s, op).taxis
    ensures var intent := After(s, op).taxis[b].pendingTerminal;
            intent == s.taxis[b].pendingTerminal || intent.None? || intent.value in s.terminals
  {
  }

  lemma CallKeepsTaxis(s: State, op: Op)
    requires EngineCall(op)
    ensures After(s, op).taxis.Keys == s.taxis.Keys && After(s, op).terminals == s.terminals
    ensures After(s, op).now == s.now
  {
  }

  lemma CallKeepsIntents(s: State, op: Op, b: Badge)
    requires GoodStore(s) && EngineCall(op) && b in s.taxis && b in After(s, op).taxis
    ensures After(s, op).taxis[b].pendingTerminal.Some? ==> After(s, op).taxis[b].pendingTerminal.value in s.terminals
  {
    hide Valid;
    if op.Promote? {
      assert After(s, op).taxis[b] == PromotedTaxi(s, b);
    } else {
      CallSetsKnownIntent(s, op, b);
    }
  }

  lemma CallKeepsGood(s: State, op: Op)
    requires GoodStore(s) && EngineCall(op)
    ensures GoodStore(After(s, op)) && After(s, op).terminals == s.terminals && After(s, op).taxis.Keys == s.taxis.Keys
    ensures After(s, op).now == s.now
  {
    hide Valid, After;
    StepKeepsValid(s, op);
    CallKeepsTaxis(s, op);
    forall b | b in After(s, op).taxis
      ensures After(s, op).taxis[b].pendingTerminal.Some? ==> After(s, op).taxis[b].pendingTerminal.value in s.terminals
    {
      CallKeepsIntents(s, op, b);
    }
  }

  lemma JoinContinues(sim: Sim, b: Badge)
    requires Runnable(sim) && JoinStep(sim, b).Ok?
    ensures Continues(sim, JoinStep(sim, b).value)
  {
    hide GoodStore, JoinFeederPark;
    CallKeepsGood(sim.store, Join(b));
  }

  lemma EndShiftContinues(sim: Sim, b: Badge)
    requires Runnable(sim) && EndShiftStep(sim, b).Ok?
    ensures Continues(sim, EndShiftStep(sim, b).value)
  {
    hide GoodStore, LeaveFeederPark;
    CallKeepsGood(sim.store, Leave(b));
  }

  lemma FindContinues(sim: Sim, t: TerminalId)
    requires Runnable(sim) && FindTaxi(sim, t).Ok?
    ensures Continues(sim, FindTaxi(sim, t).value.sim)
  {
    hide GoodStore, CallNextTaxi;
    CallKeepsGood(sim.store, CallNext(t));
  }

  lemma ServeContinues(sim: Sim, t: TerminalId, b: Badge, fare: SimulatedFare, leg: real)
    requires Runnable(sim) && ServeStep(sim, t, b, fare, leg).Ok?
    ensures Continues(sim, ServeStep(sim, t, b, fare, leg).value)
  {
    hide GoodStore, RecordFare;
    CallKeepsGood(sim.store, Record(b, fare.destination, AgentOf(t), None, None));
  }

  lemma DemandContinues(sim: Sim, t: TerminalId, fare: SimulatedFare, leg: real)
    requires Runnable(sim) && DemandStep(sim, t, fare, leg).Ok?
    ensures Continues(sim, DemandStep(sim, t, fare, leg).value)
  {
    FindContinues(sim, t);
    var found := FindTaxi(sim, t).value;
    if found.caller.Some? {
      ServeContinues(found.sim, t, found.caller.value, fare, leg);
    }
  }

  lemma AcceptedTerminalExists(s: State, b: Badge, t: TerminalId, eta: real)
    ensures ReturnToTerminal(s, b, t, eta).Ok? ==> t in s.terminals
  {
  }

  lemma {:induction false} TryingContinues(s: State, b: Badge, candidates: seq<TerminalId>, eta: real)
    requires GoodStore(s) && TryTerminals(s, b, candidates, eta).Ok?
    ensures var tried := TryTerminals(s, b, candidates, eta).value;
            && GoodStore(tried.store) && tried.store.terminals == s.terminals && tried.store.now == s.now
            && (tried.chosen.Some? ==> tried.chosen.value in s.terminals)
  {
    hide GoodStore, ReturnToTerminal;
    if candidates != [] {
      CallKeepsGood(s, Return(b, candidates[0], eta));
      AcceptedTerminalExists(s, b, candidates[0], eta);
      if ReturnToTerminal(s, b, candidates[0], eta).Err? {
        TryingContinues(s, b, candidates[1..], eta);
      }
    }
  }

  lemma ReturnContinues(sim: Sim, e: FareEnd, draw: ReturnDraw)
    requires Runnable(sim) && ReturnStep(sim, e, draw).Ok?
    ensures Continues(sim, ReturnStep(sim, e, draw).value)
  {
    TryingContinues(sim.store, e.badge, draw.candidates, draw.eta);
  }

  lemma NextMoveContinues(sim: Sim, e: FareEnd, shiftEnd: int, central: set<string>, draw: ReturnDraw)
    requires Runnable(sim) && e.badge in sim.store.taxis && AfterFare(sim, e, shiftEnd, central, draw).Ok?
    ensures Continues(sim, AfterFare(sim, e, shiftEnd, central, draw).value)
  {
    hide GoodStore, ReturnStep, LeaveFeederPark;
    var x, shiftOver := sim.store.taxis[e.badge], shiftEnd - sim.minute <= 0;
    if x.status == InFeederPark && shiftOver {
      CallKeepsGood(sim.store, Leave(e.badge));
    } else if x.status == ReturnExempt && !shiftOver && !draw.declines {
      ReturnContinues(sim, e, draw);
    }
  }

  lemma CompleteContinues(sim: Sim, e: FareEnd, shiftEnd: int, central: set<string>, draw: ReturnDraw)
    requires Runnable(sim) && CompleteStep(sim, e, shiftEnd, central, draw).Ok?
    ensures Continues(sim, CompleteStep(sim, e, shiftEnd, central, draw).value)
  {
    hide GoodStore, CompleteFare, AfterFare;
    if e.badge in sim.store.taxis && sim.store.taxis[e.badge].status == OnFare {
      CallKeepsGood(sim.store, Complete(e.badge));
      var sim1 := sim.(store := CompleteFare(sim.store, e.badge).value,
                       stats := sim.stats.(completed := sim.stats.completed + 1));
      NextMoveContinues(sim1, e, shiftEnd, central, draw);
    }
  }

  lemma SweepContinues(sim: Sim)
    requires Runnable(sim)
    ensures Continues(sim, SweepStep(sim))
  {
    hide GoodStore, PromoteDueReturns;
    CallKeepsGood(sim.store, Promote);
  }

  lemma RetryContinues(sim: Sim, b: Badge)
    requires Runnable(sim)
    ensures Continues(sim, RetryStep(sim, b))
  {
  }

  lemma TickContinues(sim: Sim, m: nat, now: real)
    requires Runnable(sim) && m < |sim.checks|
    ensures Runnable(Tick(sim, m, now))
  {
    ValidIgnoresTheRest(sim.store, Tick(sim, m, now).store);
  }

  // ---- the phases of a minute ----

  function JoinFrom(sim: Sim, list: seq<Badge>, i: nat): (r: Result<Sim>)
    requires Runnable(sim) && i <= |list|
    ensures r.Ok? ==> Continues(sim, r.value)
    decreases |list| - i
  {
    if i == |list| then Ok(sim)
    else
      var sim' :- JoinStep(sim, list[i]);
      JoinContinues(sim, list[i]);
      JoinFrom(sim', list, i + 1)
  }

  function ServeEvent(oracle: Oracle, w: World, t: TerminalId): (r: Result<World>)
    requires Runnable(w.sim)
    ensures r.Ok? ==> Continues(w.sim, r.value.sim)
  {
    var sim :- DemandStep(w.sim, t, oracle.fare(w.draws), oracle.leg(w.draws));
    DemandContinues(w.sim, t, oracle.fare(w.draws), oracle.leg(w.draws));
    Ok(World(sim, w.draws + 1))
  }

  function ServeFrom(oracle: Oracle, w: World, list: seq<TerminalId>, i: nat): (r: Result<World>)
    requires Runnable(w.sim) && i <= |list|
    ensures r.Ok? ==> Continues(w.sim, r.value.sim)
    decreases |list| - i
  {
    if i == |list| then Ok(w)
    else
      var w' :- ServeEvent(oracle, w, list[i]);
      ServeFrom(oracle, w', list, i + 1)
  }

  function DrawAt(oracle: Oracle, n: nat): ReturnDraw {
    ReturnDraw(oracle.declines(n), oracle.eta(n), oracle.shuffle(n))
  }

  function FinishEvent(plan: Plan, oracle: Oracle, w: World, e: FareEnd): (r: Result<World>)
    requires Runnable(w.sim)
    ensures r.Ok? ==> Continues(w.sim, r.value.sim)
  {
    var shiftEnds := ShiftEnds(plan.drivers);
    if e.badge !in shiftEnds then Err(KeyError)
    else
      var sim :- CompleteStep(w.sim, e, shiftEnds[e.badge], plan.central, DrawAt(oracle, w.draws));
      CompleteContinues(w.sim, e, shiftEnds[e.badge], plan.central, DrawAt(oracle, w.draws));
      Ok(World(sim, w.draws + 1))
  }

  function FinishFrom(plan: Plan, oracle: Oracle, w: World, list: seq<FareEnd>, i: nat): (r: Result<World>)
    requires Runnable(w.sim) && i <= |list|
    ensures r.Ok? ==> Continues(w.sim, r.value.sim)
    decreases |list| - i
  {
    if i == |list| then Ok(w)
    else
      var w' :- FinishEvent(plan, oracle, w, list[i]);
      FinishFrom(plan, oracle, w', list, i + 1)
  }

  /** The walk over this minute's checks, from entry `i` on.  The list may grow under it: then a retry
      has been used up. */
  function WalkFrom(sim: Sim, i: nat): (sim': Sim)
    requires Runnable(sim)
    ensures Continues(sim, sim')
    decreases RetriesLeft(sim.store.order, sim.retries), |sim.checks[sim.minute]| - i
  {
    if i >= |sim.checks[sim.minute]| then sim
    else
      var b := sim.checks[sim.minute][i];
      RetryContinues(sim, b);
      WalkMakesProgress(sim, b);
      WalkFrom(RetryStep(sim, b), i + 1)
  }

  function PromotePhase(sim: Sim): (sim': Sim)
    requires Runnable(sim)
    ensures Continues(sim, sim')
  {
    if sim.checks[sim.minute] == [] then sim
    else SweepContinues(sim); WalkFrom(SweepStep(sim), 0)
  }

  function EndFrom(sim: Sim, list: seq<Badge>, i: nat): (r: Result<Sim>)
    requires Runnable(sim) && i <= |list|
    ensures r.Ok? ==> Continues(sim, r.value)
    decreases |list| - i
  {
    if i == |list| then Ok(sim)
    else
      var sim' :- EndShiftStep(sim, list[i]);
      EndShiftContinues(sim, list[i]);
      EndFrom(sim', list, i + 1)
  }

  // ---- minutes and days ----

  predicate ShotDue(plan: Plan, m: nat)
    requires plan.snapshotInterval >= 1
  {
    m % plan.snapshotInterval == 0 || m + 1 == plan.totalBuckets
  }

  ghost predicate RunnableDay(plan: Plan, sim: Sim) {
    && plan.totalBuckets >= 1 && plan.snapshotInterval >= 1
    && Runnable(sim) && |sim.checks| == plan.totalBuckets
  }

  function ClockAt(plan: Plan, m: nat): real {
    plan.dayStart + m as real
  }

  ghost predicate RunnableAt(plan: Plan, sim: Sim, m: nat) {
    RunnableDay(plan, sim) && sim.minute == m && sim.store.now == plan.dayStart + m as real
  }

  /** Clock, shift starts, demand, fare ends: everything before the promotion checks. */
  function FirstHalf(plan: Plan, oracle: Oracle, w: World, m: nat): (r: Result<World>)
    requires RunnableDay(plan, w.sim) && m < plan.totalBuckets
    ensures r.Ok? ==> RunnableAt(plan, r.value.sim, m)
    ensures r.Ok? ==> r.value.sim.stats.snapshots == w.sim.stats.snapshots
  {
    TickContinues(w.sim, m, ClockAt(plan, m));
    var joined :- JoinFrom(Tick(w.sim, m, ClockAt(plan, m)), StartBuckets(plan)[m], 0);
    var served :- ServeFrom(oracle, World(joined, w.draws), DemandBuckets(plan)[m], 0);
    FinishFrom(plan, oracle, served, served.sim.fareEnds[m], 0)
  }

  /** Promotion checks, shift ends, and a snapshot if one is due. */
  function SecondHalf(plan: Plan, sim: Sim): (r: Result<Sim>)
    requires RunnableDay(plan, sim)
    ensures r.Ok? ==> RunnableDay(plan, r.value) && r.value.minute == sim.minute && r.value.store.now == sim.store.now
  {
    var ended :- EndFrom(PromotePhase(sim), EndBuckets(plan)[sim.minute], 0);
    Ok(if ShotDue(plan, sim.minute) then TakeSnapshot(ended) else ended)
  }

  /** Minute `m` is played at `m` minutes after the start of the day. */
  function MinuteOf(plan: Plan, oracle: Oracle, w: World, m: nat): (r: Result<World>)
    requires RunnableDay(plan, w.sim) && m < plan.totalBuckets
    ensures r.Ok? ==> RunnableAt(plan, r.value.sim, m)
  {
    var half :- FirstHalf(plan, oracle, w, m);
    var sim :- SecondHalf(plan, half.sim);
    Ok(World(sim, half.draws))
  }

  /** The minutes from `m` to the end of the day. */
  function DayFrom(plan: Plan, oracle: Oracle, w: World, m: nat): (r: Result<World>)
    requires RunnableDay(plan, w.sim) && m <= plan.totalBuckets
    ensures r.Ok? ==> RunnableDay(plan, r.value.sim)
    ensures r.Ok? && m < plan.totalBuckets ==> RunnableAt(plan, r.value.sim, plan.totalBuckets - 1)
    decreases plan.totalBuckets - m
  {
    if m == plan.totalBuckets then Ok(w)
    else
      var w' :- MinuteOf(plan, oracle, w, m);
      DayFrom(plan, oracle, w', m + 1)
  }

  /** Empty books, before the first minute. */
  function InitialSim(plan: Plan): Sim {
    Sim(InitialStore(plan), 0, seq(plan.totalBuckets, _ => []), seq(plan.totalBuckets, _ => []), map[],
        map t | t in TerminalMap(plan.terminals) :: [], map[], {}, NO_STATS)
  }

  lemma InitialIsRunnable(plan: Plan)
    requires GoodPlan(plan)
    ensures RunnableDay(plan, InitialSim(plan))
  {
    InitialStoreIsSetUp(plan);
  }

  /** The whole day. */
  function DayOf(plan: Plan, oracle: Oracle): (r: Result<World>)
    requires GoodPlan(plan)
    ensures r.Ok? ==> RunnableAt(plan, r.value.sim, plan.totalBuckets - 1)
  {
    InitialIsRunnable(plan);
    DayFrom(plan, oracle, World(InitialSim(plan), 0), 0)
  }
}
