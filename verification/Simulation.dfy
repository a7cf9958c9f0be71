/** `run_simulation`: the minute loop of app/simulation/engine.py, driving the real store.  It computes
    exactly the day that EngineDay describes. */
module SimulationModule {
  import opened Domain
  import Spec = StoreSpec
  import opened StoreModule
  import opened Lifecycle
  import opened Buckets
  import opened Engine
  import opened EngineSteps
  import opened EngineFares
  import opened PlanModule
  import opened Sweep
  import opened Day
  import opened EngineDay
  import opened WholeDay

  // ---- set-up ----

  method SetUpStore(plan: Plan) returns (store: Store)
    requires GoodPlan(plan)
    ensures fresh(store) && fresh(store.taxis.Values) && fresh(store.fares.Values)
    ensures store.Valid() && store.View() == InitialStore(plan)
  {
    store := new Store();
    store.SetTime(plan.dayStart);
    AddTerminals(plan, store);
    AddAgents(plan, store);
    AddDrivers(plan, store);
  }

  method AddTerminals(plan: Plan, store: Store)
    requires GoodPlan(plan) && store.Valid() && store.taxis == map[] && store.fares == map[] && store.terminals == map[]
    modifies store
    ensures store.Valid() && store.taxis == map[] && store.fares == map[]
    ensures store.View() == old(store.View()).(terminals := TerminalMap(plan.terminals))
  {
    ghost var before := store.View();
    for i := 0 to |plan.terminals|
      invariant store.Valid() && store.taxis == map[] && store.fares == map[]
      invariant store.View() == before.(terminals := TerminalMap(plan.terminals[..i]))
    {
      var setup := plan.terminals[i];
      PrefixSetup(plan, i);
      var r := store.AddTerminal(setup.id, setup.name, Some(setup.capacity));
    }
    assert plan.terminals[..|plan.terminals|] == plan.terminals;
  }

  lemma PrefixSetup(plan: Plan, i: nat)
    requires GoodPlan(plan) && i < |plan.terminals|
    ensures plan.terminals[i].id !in TerminalMap(plan.terminals[..i])
    ensures TerminalMap(plan.terminals[..i + 1]) ==
            TerminalMap(plan.terminals[..i])[plan.terminals[i].id :=
              TerminalState(plan.terminals[i].name, plan.terminals[i].capacity)]
  {
    TerminalMapEntries(plan.terminals[..i]);
    assert plan.terminals[..i + 1][..i] == plan.terminals[..i];
  }

  method AddAgents(plan: Plan, store: Store)
    requires GoodPlan(plan) && store.Valid() && store.taxis == map[] && store.fares == map[] && store.rankAgents == map[]
    requires store.terminals == TerminalMap(plan.terminals)
    modifies store
    ensures store.Valid() && store.taxis == map[] && store.fares == map[]
    ensures store.View() == old(store.View()).(rankAgents := AgentMap(plan.terminals))
  {
    ghost var before := store.View();
    TerminalMapEntries(plan.terminals);
    for i := 0 to |plan.terminals|
      invariant store.Valid() && store.taxis == map[] && store.fares == map[]
      invariant store.View() == before.(rankAgents := AgentMap(plan.terminals[..i]))
    {
      var t := plan.terminals[i].id;
      PrefixAgent(plan, i);
      var r := store.AddRankAgent(AgentOf(t), Some(t));
    }
    assert plan.terminals[..|plan.terminals|] == plan.terminals;
  }

  lemma PrefixAgent(plan: Plan, i: nat)
    requires GoodPlan(plan) && i < |plan.terminals|
    ensures AgentOf(plan.terminals[i].id) !in AgentMap(plan.terminals[..i])
    ensures AgentMap(plan.terminals[..i + 1]) ==
            AgentMap(plan.terminals[..i])[AgentOf(plan.terminals[i].id) := Some(plan.terminals[i].id)]
  {
    AgentMapEntries(plan.terminals[..i]);
    assert forall t :: AgentOf(t)[4..] == t;
    assert plan.terminals[..i + 1][..i] == plan.terminals[..i];
  }

  method AddDrivers(plan: Plan, store: Store)
    requires GoodPlan(plan) && store.Valid() && store.taxis == map[] && store.fares == map[] && store.order == []
    modifies store
    ensures store.Valid() && fresh(store.taxis.Values) && store.fares == map[]
    ensures store.View() == old(store.View()).(taxis := TaxiMap(plan.drivers), order := BadgeList(plan.drivers))
  {
    ghost var before := store.View();
    for i := 0 to |plan.drivers|
      invariant store.Valid() && fresh(store.taxis.Values) && store.fares == map[]
      invariant store.View() == before.(taxis := TaxiMap(plan.drivers[..i]), order := BadgeList(plan.drivers[..i]))
    {
      var b := plan.drivers[i].badge;
      PrefixDriver(plan, i);
      assert b !in store.View().taxis;
      var r := store.AddTaxi(b, DriverName(b));
    }
    assert plan.drivers[..|plan.drivers|] == plan.drivers;
  }

  lemma PrefixDriver(plan: Plan, i: nat)
    requires GoodPlan(plan) && i < |plan.drivers|
    ensures var b := plan.drivers[i].badge;
            && b !in TaxiMap(plan.drivers[..i])
            && TaxiMap(plan.drivers[..i + 1]) ==
               TaxiMap(plan.drivers[..i])[b := Spec.NEW_TAXI.(driverName := DriverName(b))]
            && BadgeList(plan.drivers[..i + 1]) == BadgeList(plan.drivers[..i]) + [b]
  {
    TaxiMapEntries(plan.drivers[..i]);
    assert plan.drivers[..i + 1][..i] == plan.drivers[..i];
  }

  class Simulation {
    const plan: Plan
    const oracle: Oracle
    const store: Store

    // Filed once, before the day starts.
    const starts: seq<seq<Badge>>
    const ends: seq<seq<Badge>>
    const demandBuckets: seq<seq<TerminalId>>
    const shiftEnd: map<Badge, nat>

    var minute: nat
    var fareEnds: seq<seq<FareEnd>>
    var checks: seq<seq<Badge>>
    var retries: map<Badge, nat>
    var waiting: map<TerminalId, seq<Badge>>
    var lastDestination: map<Badge, string>
    var finished: set<Badge>
    var stats: Stats
    var finalStatus: multiset<Status>
    var draws: nat  // how many demand events and fare ends have been processed so far

    ghost function View(): Sim
      reads this, store, store.taxis.Values, store.fares.Values
    {
      Sim(store.View(), minute, fareEnds, checks, retries, waiting, lastDestination, finished, stats)
    }

    /** Start with empty books, given a store that is set up and the filed shifts and demand. */
    constructor (plan: Plan, oracle: Oracle, store: Store, starts: seq<seq<Badge>>, ends: seq<seq<Badge>>,
                 shiftEnd: map<Badge, nat>, demandBuckets: seq<seq<TerminalId>>)
      requires GoodPlan(plan) && store.Valid() && store.View() == InitialStore(plan)
      requires starts == StartBuckets(plan) && ends == EndBuckets(plan) && demandBuckets == DemandBuckets(plan)
      requires shiftEnd == ShiftEnds(plan.drivers)
      ensures this.plan == plan && this.oracle == oracle && this.store == store
      ensures Filed() && store.Valid() && View() == InitialSim(plan) && draws == 0
    {
      this.plan, this.oracle, this.store := plan, oracle, store;
      this.starts, this.ends, this.shiftEnd, this.demandBuckets := starts, ends, shiftEnd, demandBuckets;
      minute, retries, lastDestination, finished, stats, draws := 0, map[], map[], {}, NO_STATS, 0;
      fareEnds := seq(plan.totalBuckets, _ => []);
      checks := seq(plan.totalBuckets, _ => []);
      waiting := map t | t in TerminalMap(plan.terminals) :: [];
      finalStatus := multiset{};
      new;
      assert store.View() == InitialStore(plan);
    }

    /** Shifts and demand are in their buckets; this never changes. */
    ghost predicate Filed() {
      && plan.totalBuckets >= 1 && plan.snapshotInterval >= 1
      && starts == StartBuckets(plan) && ends == EndBuckets(plan) && demandBuckets == DemandBuckets(plan)
      && shiftEnd == ShiftEnds(plan.drivers)
    }

    // ---- single events: each does exactly its step of the specification ----

    twostate predicate SameObjects()
      reads store
    {
      store.taxis == old(store.taxis) && store.fares == old(store.fares)
    }

    method StartShift(b: Badge)
      requires store.Valid() && JoinStep(View(), b).Ok?
      modifies store, store.taxis.Values
      ensures store.Valid() && SameObjects()
      ensures Ok(View()) == JoinStep(old(View()), b)
    {
      var r := store.JoinFeederPark(b);
    }

    method ServeDemand(t: TerminalId, fare: SimulatedFare, leg: real)
      requires store.Valid() && store.LookupsSafe() && InDay(View())
      requires DemandStep(View(), t, fare, leg).Ok?
      modifies this`waiting, this`stats, this`lastDestination, this`fareEnds, store, store.taxis.Values
      ensures store.Valid() && store.taxis == old(store.taxis) && store.FaresOnlyAdded()
      ensures Ok(View()) == DemandStep(old(View()), t, fare, leg)
    {
      var caller := TakeOrCall(t);
      if caller.Some? {
        TakePassenger(t, caller.value, fare, leg);
      }
    }

    /** A waiting taxi, or one called forward; with neither, the demand is unmet. */
    method TakeOrCall(t: TerminalId) returns (caller: Option<Badge>)
      requires store.Valid() && store.LookupsSafe() && FindTaxi(View(), t).Ok?
      modifies this`waiting, this`stats, store, store.taxis.Values
      ensures store.Valid() && store.LookupsSafe() && SameObjects()
      ensures FindTaxi(old(View()), t) == Ok(Found(View(), caller))
    {
      caller := PopWaiting(t);
      if caller.None? || caller.value !in store.taxis {
        var r := store.CallNextTaxi(t);
        if r.Err? {
          CountUnmet();
          return None;
        }
        caller := Some(r.value);
      }
    }

    method PopWaiting(t: TerminalId) returns (caller: Option<Badge>)
      modifies this`waiting
      ensures var line := Deque(old(View()), t);
              && caller == (if line == [] then None else Some(line[0]))
              && View() == if line == [] then old(View()) else old(View()).(waiting := old(waiting)[t := line[1..]])
    {
      caller := None;
      if t in waiting && waiting[t] != [] {
        caller := Some(waiting[t][0]);
        waiting := waiting[t := waiting[t][1..]];
      }
    }

    method CountUnmet()
      modifies this`stats
      ensures View() == old(View()).(stats := old(stats).(unmet := old(stats).unmet + 1))
    {
      stats := stats.(unmet := stats.unmet + 1);
    }

    method TakePassenger(t: TerminalId, b: Badge, fare: SimulatedFare, leg: real)
      requires store.Valid() && store.LookupsSafe() && InDay(View())
      requires ServeStep(View(), t, b, fare, leg).Ok?
      modifies this`stats, this`lastDestination, this`fareEnds, store, store.taxis.Values
      ensures store.Valid() && store.taxis == old(store.taxis) && store.FaresOnlyAdded()
      ensures Ok(View()) == ServeStep(old(View()), t, b, fare, leg)
    {
      hide Spec.RecordFare, ServeStep, Board;
      ServeStepUnfolds(View(), t, b, fare, leg);
      var r := store.RecordFare(b, fare.destination, AgentOf(t), None, None);
      BookFare(b, fare, leg);
    }

    static lemma ServeStepUnfolds(sim: Sim, t: TerminalId, b: Badge, fare: SimulatedFare, leg: real)
      requires InDay(sim) && ServeStep(sim, t, b, fare, leg).Ok?
      ensures var r := Spec.RecordFare(sim.store, b, fare.destination, AgentOf(t), None, None);
              r.Ok? && ServeStep(sim, t, b, fare, leg) == Ok(Board(sim.(store := r.value), r.value, b, fare, leg))
    {
      hide Spec.RecordFare;
    }

    /** The engine's own books for a fare just begun: its class, its destination, and its end. */
    method BookFare(b: Badge, fare: SimulatedFare, leg: real)
      requires InDay(View())
      modifies this`stats, this`lastDestination, this`fareEnds
      ensures View() == Board(old(View()), store.View(), b, fare, leg)
    {
      stats := stats.(faresByClass := stats.faresByClass + multiset{fare.classification});
      lastDestination := lastDestination[b := fare.destination];
      var completeMinute := FareEndMinute(minute, |fareEnds|, leg);
      fareEnds := File(fareEnds, completeMinute, FareEnd(b, fare));
    }

    method FinishFare(e: FareEnd, shiftEndMinute: int, draw: ReturnDraw)
      requires store.Valid() && store.LookupsSafe() && OrderListsTaxis(store.View()) && InDay(View())
      requires CompleteStep(View(), e, shiftEndMinute, plan.central, draw).Ok?
      modifies this`waiting, this`stats, this`checks, this`finished
      modifies store, store.taxis.Values, store.fares.Values
      ensures store.Valid() && SameObjects()
      ensures Ok(View()) == CompleteStep(old(View()), e, shiftEndMinute, plan.central, draw)
    {
      hide CompleteStep, AfterFare;
      ghost var sim := View();
      CompleteStepSkips(sim, e, shiftEndMinute, plan.central, draw);
      if e.badge !in store.taxis || store.taxis[e.badge].status != OnFare {
        return;
      }
      assert sim.store.taxis[e.badge] == store.taxis[e.badge].View();
      CompleteStepUnfolds(sim, e, shiftEndMinute, plan.central, draw);
      DropPassenger(e.badge);
      NextMove(e, shiftEndMinute, draw);
    }

    method DropPassenger(b: Badge)
      requires store.Valid() && store.LookupsSafe() && Spec.CompleteFare(store.View(), b).Ok?
      modifies this`stats, store, store.taxis.Values, store.fares.Values
      ensures store.Valid() && SameObjects()
      ensures View() == Completed(old(View()), Spec.CompleteFare(old(store.View()), b).value)
    {
      hide Spec.CompleteFare;
      var r := store.CompleteFare(b);
      CountCompleted();
    }

    method CountCompleted()
      modifies this`stats
      ensures View() == Completed(old(View()), store.View())
    {
      stats := stats.(completed := stats.completed + 1);
    }

    static lemma CompleteStepSkips(sim: Sim, e: FareEnd, shiftEndMinute: int, central: set<string>, draw: ReturnDraw)
      requires InDay(sim)
      ensures e.badge !in sim.store.taxis || sim.store.taxis[e.badge].status != OnFare ==>
                CompleteStep(sim, e, shiftEndMinute, central, draw) == Ok(sim)
    {
    }

    static lemma CompleteStepUnfolds(sim: Sim, e: FareEnd, shiftEndMinute: int, central: set<string>, draw: ReturnDraw)
      requires InDay(sim) && CompleteStep(sim, e, shiftEndMinute, central, draw).Ok? && OrderListsTaxis(sim.store)
      requires e.badge in sim.store.taxis && sim.store.taxis[e.badge].status == OnFare
      ensures Spec.CompleteFare(sim.store, e.badge).Ok?
      ensures var s1 := Spec.CompleteFare(sim.store, e.badge).value;
              && e.badge in s1.taxis && OrderListsTaxis(s1)
              && CompleteStep(sim, e, shiftEndMinute, central, draw) ==
                 AfterFare(Completed(sim, s1), e, shiftEndMinute, central, draw)
    {
    }

    /** What the driver does once the passenger is dropped off. */
    method NextMove(e: FareEnd, shiftEndMinute: int, draw: ReturnDraw)
      requires store.Valid() && OrderListsTaxis(store.View()) && InDay(View()) && e.badge in store.taxis
      requires AfterFare(View(), e, shiftEndMinute, plan.central, draw).Ok?
      modifies this`waiting, this`stats, this`checks, this`finished, store, store.taxis.Values
      ensures store.Valid() && SameObjects()
      ensures Ok(View()) == AfterFare(old(View()), e, shiftEndMinute, plan.central, draw)
    {
      var taxi := store.taxis[e.badge];
      assert store.View().taxis[e.badge] == taxi.View();
      var shiftOver := shiftEndMinute - minute <= 0;
      if taxi.status == InFeederPark {
        if shiftOver {
          GoHome(e.badge);
        }
      } else if taxi.status == ReturnExempt {
        if shiftOver || draw.declines {
          RecordNoReturn(e.badge, e.fare.destination, DeclineReason(shiftOver, e.fare.destination, plan.central));
        } else {
          PickTerminal(e, draw);
        }
      }
    }

    method GoHome(b: Badge)
      requires store.Valid() && Spec.LeaveFeederPark(store.View(), b).Ok?
      modifies this`finished, store, store.taxis.Values
      ensures store.Valid() && SameObjects()
      ensures View() == old(View()).(store := Spec.LeaveFeederPark(old(store.View()), b).value,
                                     finished := old(finished) + {b})
    {
      var r := store.LeaveFeederPark(b);
      ghost var s := store.View();
      finished := finished + {b};
      assert store.View() == s;
    }

    method RecordNoReturn(b: Badge, destination: string, reason: Reason)
      modifies this`finished, this`stats
      ensures View() == GiveUp(old(View()), b, destination, reason)
    {
      finished := finished + {b};
      stats := stats.(notReturnedByReason := stats.notReturnedByReason + multiset{reason},
                      notReturnedByDestination := stats.notReturnedByDestination + multiset{destination});
    }

    /** Try the shuffled terminals until one accepts; give up for the day if all are full. */
    method PickTerminal(e: FareEnd, draw: ReturnDraw)
      requires store.Valid() && OrderListsTaxis(store.View()) && InDay(View()) && e.badge in store.taxis
      requires ReturnStep(View(), e, draw).Ok?
      modifies this`waiting, this`stats, this`checks, this`finished, store, store.taxis.Values
      ensures store.Valid() && SameObjects()
      ensures Ok(View()) == ReturnStep(old(View()), e, draw)
    {
      hide TryTerminals, Settle, OrderListsTaxis;
      ghost var sim := View();
      var added, refusals := TryInTurn(e.badge, draw.candidates, draw.eta);
      SettleIgnoresStore(sim, e, draw.eta, Tried(store.View(), added, refusals));
      SettleReturn(e, draw.eta, added, refusals);
    }

    static lemma SettleIgnoresStore(sim: Sim, e: FareEnd, eta: real, tried: Tried)
      requires InDay(sim)
      ensures Settle(sim.(store := tried.store), e, eta, tried) == Settle(sim, e, eta, tried)
    {
    }

    method SettleReturn(e: FareEnd, eta: real, added: Option<TerminalId>, refusals: nat)
      requires InDay(View()) && e.badge in store.taxis
      modifies this`waiting, this`stats, this`checks, this`finished
      ensures View() == Settle(old(View()), e, eta, Tried(store.View(), added, refusals))
    {
      hide GiveUp, QueueForDemand, FileCheck;
      assert store.View().taxis[e.badge] == store.taxis[e.badge].View();
      CountTries(added, refusals);
      if added.None? {
        RecordNoReturn(e.badge, e.fare.destination, AllTerminalsFull);
      } else {
        ExpectReturn(e.badge, added.value, store.taxis[e.badge].status == Called, eta);
      }
    }

    method CountTries(added: Option<TerminalId>, refusals: nat)
      modifies this`stats
      ensures var tried := Tried(store.View(), added, refusals);
              View() == if added.None? then Refused(old(View()), tried) else Accepted(old(View()), tried)
    {
      stats := stats.(fullRejections := stats.fullRejections + refusals);
      if added.Some? {
        stats := stats.(returned := stats.returned + 1);
      }
    }

    /** A taxi already on the rank is queued for demand; for the others a check is filed. */
    method ExpectReturn(b: Badge, t: TerminalId, seated: bool, eta: real)
      requires InDay(View())
      modifies this`waiting, this`checks
      ensures View() == if seated then QueueForDemand(old(View()), t, b) else FileCheck(old(View()), b, eta)
    {
      if seated {
        var line := if t in waiting then waiting[t] else [];
        waiting := waiting[t := line + [b]];
      } else {
        checks := File(checks, DueMinute(minute, |checks|, eta), b);
      }
    }

    static function AddRefusals(r: Result<Tried>, n: nat): Result<Tried> {
      if r.Ok? then Ok(r.value.(refusals := r.value.refusals + n)) else r
    }

    method TryInTurn(b: Badge, candidates: seq<TerminalId>, eta: real)
      returns (added: Option<TerminalId>, refusals: nat)
      requires store.Valid() && OrderListsTaxis(store.View())
      requires TryTerminals(store.View(), b, candidates, eta).Ok?
      modifies store, store.taxis.Values
      ensures store.Valid() && SameObjects()
      ensures TryTerminals(old(store.View()), b, candidates, eta) == Ok(Tried(store.View(), added, refusals))
    {
      ghost var s := store.View();
      ghost var all := TryTerminals(s, b, candidates, eta);
      added, refusals := None, 0;
      assert candidates[0..] == candidates;
      while added.None? && refusals < |candidates|
        invariant refusals <= |candidates|
        invariant store.Valid() && store.taxis == old(store.taxis) && store.fares == old(store.fares)
        invariant added.None? ==> store.View() == s
        invariant all == if added.None? then AddRefusals(TryTerminals(s, b, candidates[refusals..], eta), refusals)
                         else Ok(Tried(store.View(), added, refusals))
        decreases added.None?, |candidates| - refusals
      {
        var t := candidates[refusals];
        assert candidates[refusals..][0] == t && candidates[refusals..][1..] == candidates[refusals + 1..];
        var r := store.ReturnToTerminal(b, t, eta);
        if r.Ok? {
          added := Some(t);
        } else {
          refusals := refusals + 1;
        }
      }
    }

    /** Promote the due returns, then queue for demand whoever was pending before and is seated now. */
    method SweepReturns()
      requires store.Valid() && Lifecycle.Valid(store.View()) && EveryIntentIsKnown()
      modifies this`waiting, store, store.taxis.Values
      ensures store.Valid() && SameObjects()
      ensures View() == SweepStep(old(View()))
    {
      hide PendingUpTo, Newcomers, SweepStep, Spec.PromoteDueReturns, TaxisCoherent, QueueListsParked, FaresHeld;
      ghost var sim, s := View(), store.View();
      var pending := PendingReturns();
      PendingIntents(s, waiting, |s.order|);
      PromoteOnly();
      QueueArrivals(pending);
      ArrivalsAreSeated(sim, waiting);
    }

    method PromoteOnly()
      requires store.Valid() && Lifecycle.Valid(store.View())
      modifies store, store.taxis.Values
      ensures store.Valid() && SameObjects()
      ensures View() == old(View()).(store := Spec.PromoteDueReturns(old(store.View())))
    {
      hide Lifecycle.Valid, Spec.PromoteDueReturns;
      store.PromoteDueReturns();
    }

    static lemma ArrivalsAreSeated(sim: Sim, after: map<TerminalId, seq<Badge>>)
      requires Lifecycle.Valid(sim.store) && after.Keys == sim.waiting.Keys
      requires forall t :: t in sim.waiting ==> t in sim.store.terminals && t != ""
      requires var pending := PendingUpTo(sim.store, |sim.store.order|);
               forall t :: t in after ==>
                 after[t] == sim.waiting[t] + Newcomers(pending, |pending|, Spec.PromoteDueReturns(sim.store), t)
      ensures SweepStep(sim) == sim.(store := Spec.PromoteDueReturns(sim.store), waiting := after)
    {
      hide Lifecycle.Valid, Newcomers, PendingUpTo, Spec.PromoteDueReturns;
      forall t | t in sim.waiting ensures after[t] == sim.waiting[t] + Spec.SeatedList(sim.store, t) {
        NewcomersAreSeated(sim.store, t, |sim.store.order|);
      }
    }

    ghost predicate EveryIntentIsKnown()
      reads this`waiting, store, store.taxis.Values, store.fares.Values
    {
      && (forall t :: t in waiting ==> t in store.terminals && t != "")
      && forall b :: b in store.View().taxis && store.View().taxis[b].pendingTerminal.Some? ==>
           store.View().taxis[b].pendingTerminal.value in waiting
    }

    static lemma {:induction false} PendingIntents(s: Spec.State, waiting: map<TerminalId, seq<Badge>>, n: nat)
      requires n <= |s.order| && forall b :: b in s.order ==> b in s.taxis
      requires forall b :: b in s.taxis && s.taxis[b].pendingTerminal.Some? ==> s.taxis[b].pendingTerminal.value in waiting
      ensures forall p :: p in PendingUpTo(s, n) ==> p.1 in waiting
    {
      if n > 0 {
        PendingIntents(s, waiting, n - 1);
      }
    }

    method PendingReturns() returns (pending: seq<Pending>)
      requires OrderListsTaxis(store.View())
      ensures forall b :: b in store.View().order ==> b in store.View().taxis
      ensures pending == PendingUpTo(store.View(), |store.View().order|)
    {
      ghost var s := store.View();
      pending := [];
      for i := 0 to |store.order|
        invariant pending == PendingUpTo(s, i)
      {
        var b := store.order[i];
        assert b in s.taxis;
        var taxi := store.taxis[b];
        assert taxi.View() == s.taxis[b];
        if taxi.status == ReturnExempt && Truthy(taxi.pendingTerminal) {
          pending := pending + [(b, taxi.pendingTerminal.value)];
        }
      }
    }

    method QueueArrivals(pending: seq<Pending>)
      requires forall p :: p in pending ==> p.1 in waiting
      modifies this`waiting
      ensures View() == old(View()).(waiting := waiting) && waiting.Keys == old(waiting).Keys
      ensures forall t :: t in waiting ==>
                waiting[t] == old(waiting)[t] + Newcomers(pending, |pending|, store.View(), t)
    {
      hide Newcomers;
      ghost var after := store.View();
      NoArrivals(pending, after);
      for i := 0 to |pending|
        invariant store.View() == after && waiting.Keys == old(waiting).Keys
        invariant forall t :: t in waiting ==> waiting[t] == old(waiting)[t] + Newcomers(pending, i, after, t)
      {
        var (b, t) := pending[i];
        assert pending[i] in pending;
        assert b in store.taxis ==> after.taxis[b] == store.taxis[b].View();
        ghost var before := waiting;
        if b in store.taxis && store.taxis[b].status == Called {
          waiting := waiting[t := waiting[t] + [b]];
        }
        NextArrival(old(waiting), before, waiting, pending, i, after);
      }
    }

    static lemma NoArrivals(pending: seq<Pending>, after: Spec.State)
      ensures forall t :: Newcomers(pending, 0, after, t) == []
    {
    }

    static lemma NextArrival(first: map<TerminalId, seq<Badge>>, before: map<TerminalId, seq<Badge>>,
                             now: map<TerminalId, seq<Badge>>, pending: seq<Pending>, i: nat, after: Spec.State)
      requires i < |pending| && before.Keys == first.Keys && pending[i].1 in first
      requires forall t :: t in before ==> before[t] == first[t] + Newcomers(pending, i, after, t)
      requires var (b, t) := pending[i];
               now == if b in after.taxis && after.taxis[b].status == Called then before[t := before[t] + [b]] else before
      ensures now.Keys == first.Keys
      ensures forall t :: t in now ==> now[t] == first[t] + Newcomers(pending, i + 1, after, t)
    {
      forall t | t in now ensures now[t] == first[t] + Newcomers(pending, i + 1, after, t) {
        assert before[t] == first[t] + Newcomers(pending, i, after, t);
      }
    }

    /** One entry of this minute's promotion checks. */
    method RetryCheck(b: Badge)
      requires InDay(View())
      modifies this`retries, this`checks, this`finished, this`stats
      ensures View() == RetryStep(old(View()), b)
    {
      assert b in store.taxis ==> store.View().taxis[b] == store.taxis[b].View();
      if b !in store.taxis || store.taxis[b].status != ReturnExempt || !Truthy(store.taxis[b].pendingTerminal) {
        return;
      }
      var count := if b in retries then retries[b] else 0;
      if count < MAX_RETURN_RETRIES {
        RetryLater(b, count);
      } else {
        RecordNoReturn(b, if b in lastDestination then lastDestination[b] else "unknown", NeverFreedUp);
      }
    }

    method RetryLater(b: Badge, count: nat)
      requires minute < |checks|
      modifies this`retries, this`checks
      ensures retries == old(retries)[b := count + 1]
      ensures checks == File(old(checks), RetryMinute(minute, |old(checks)|), b)
    {
      retries := retries[b := count + 1];
      checks := File(checks, RetryMinute(minute, |checks|), b);
    }

    method EndShift(b: Badge)
      requires store.Valid() && EndShiftStep(View(), b).Ok?
      modifies this`finished, store, store.taxis.Values
      ensures store.Valid() && SameObjects()
      ensures Ok(View()) == EndShiftStep(old(View()), b)
    {
      assert b in store.taxis ==> store.View().taxis[b] == store.taxis[b].View();
      if b in store.taxis && store.taxis[b].status == InFeederPark {
        GoHome(b);
      }
    }

    method TakeSnapshot()
      requires OrderListsTaxis(store.View())
      modifies this`stats
      ensures View() == Engine.TakeSnapshot(old(View()))
    {
      hide OrderListsTaxis, Spec.Occupancy, ActiveDrivers;
      var occupancy := RankOccupancies();
      var active := ActiveTaxis();
      AddShot(Snapshot(minute, |store.queue|, active, occupancy, stats.completed));
    }

    method AddShot(shot: Snapshot)
      modifies this`stats
      ensures View() == old(View()).(stats := old(stats).(snapshots := old(stats).snapshots + [shot]))
    {
      stats := stats.(snapshots := stats.snapshots + [shot]);
    }

    method RankOccupancies() returns (occupancy: map<TerminalId, nat>)
      requires OrderListsTaxis(store.View())
      ensures occupancy == map t | t in waiting :: Spec.Occupancy(store.View(), t)
    {
      forall t ensures store.TerminalOccupancy(t) == Spec.Occupancy(store.View(), t) {
        store.OccupancyCounts(t);
      }
      occupancy := map t | t in waiting :: store.TerminalOccupancy(t);
    }

    method ActiveTaxis() returns (n: nat)
      ensures n == ActiveDrivers(store.View())
    {
      var active := set b | b in store.taxis && store.taxis[b].status != Offline;
      assert active == set b | b in store.View().taxis && store.View().taxis[b].status != Offline;
      n := |active|;
    }

    method BeginMinute(m: nat)
      requires store.Valid()
      modifies this`minute, store
      ensures store.Valid() && SameObjects()
      ensures View() == Tick(old(View()), m, ClockAt(plan, m))
      ensures store.now == plan.dayStart + m as real
    {
      store.SetTime(ClockAt(plan, m));
      minute := m;
    }

    // ---- the phases of a minute: each does exactly its fold ----

    method StartShifts()
      requires store.Valid() && Runnable(View()) && minute < |starts| && JoinFrom(View(), starts[minute], 0).Ok?
      modifies store, store.taxis.Values
      ensures store.Valid() && SameObjects()
      ensures Ok(View()) == JoinFrom(old(View()), starts[minute], 0)
    {
      hide Runnable, JoinStep;
      var list := starts[minute];
      for i := 0 to |list|
        invariant store.Valid() && SameObjects() && Runnable(View())
        invariant JoinFrom(View(), list, i) == JoinFrom(old(View()), list, 0)
      {
        JoinContinues(View(), list[i]);
        StartShift(list[i]);
      }
    }

    method ServePassengers()
      requires store.Valid() && Runnable(View()) && minute < |demandBuckets|
      requires ServeFrom(oracle, World(View(), draws), demandBuckets[minute], 0).Ok?
      modifies this`waiting, this`stats, this`lastDestination, this`fareEnds, this`draws, store, store.taxis.Values
      ensures store.Valid() && store.taxis == old(store.taxis) && store.FaresOnlyAdded()
      ensures Ok(World(View(), draws)) == ServeFrom(oracle, old(World(View(), draws)), demandBuckets[minute], 0)
    {
      hide Runnable, DemandStep;
      var list := demandBuckets[minute];
      for i := 0 to |list|
        invariant store.Valid() && store.taxis == old(store.taxis) && store.FaresOnlyAdded() && Runnable(View())
        invariant ServeFrom(oracle, World(View(), draws), list, i) ==
                  ServeFrom(oracle, old(World(View(), draws)), list, 0)
      {
        ServePassenger(list[i]);
      }
    }

    method ServePassenger(t: TerminalId)
      requires store.Valid() && Runnable(View()) && ServeEvent(oracle, World(View(), draws), t).Ok?
      modifies this`waiting, this`stats, this`lastDestination, this`fareEnds, this`draws, store, store.taxis.Values
      ensures store.Valid() && store.taxis == old(store.taxis) && store.FaresOnlyAdded() && Runnable(View())
      ensures Ok(World(View(), draws)) == ServeEvent(oracle, old(World(View(), draws)), t)
    {
      hide DemandStep, Lifecycle.Valid, GoodStore;
      GoodIsValid(store.View());
      store.LifecycleMakesLookupsSafe();
      DemandContinues(View(), t, oracle.fare(draws), oracle.leg(draws));
      ServeDemand(t, oracle.fare(draws), oracle.leg(draws));
      CountDraw();
    }

    method CountDraw()
      modifies this`draws
      ensures draws == old(draws) + 1 && View() == old(View())
    {
      draws := draws + 1;
    }

    method FinishFares()
      requires Filed() && store.Valid() && Runnable(View())
      requires FinishFrom(plan, oracle, World(View(), draws), fareEnds[minute], 0).Ok?
      modifies this`waiting, this`stats, this`checks, this`finished, this`draws
      modifies store, store.taxis.Values, store.fares.Values
      ensures store.Valid() && SameObjects()
      ensures Ok(World(View(), draws)) == FinishFrom(plan, oracle, old(World(View(), draws)), fareEnds[minute], 0)
    {
      hide GoodStore, CompleteStep;
      var list := fareEnds[minute];
      for i := 0 to |list|
        invariant store.Valid() && SameObjects() && Runnable(View())
        invariant FinishFrom(plan, oracle, World(View(), draws), list, i) ==
                  FinishFrom(plan, oracle, old(World(View(), draws)), list, 0)
      {
        FinishOne(list[i]);
      }
    }

    method FinishOne(e: FareEnd)
      requires Filed() && store.Valid() && Runnable(View()) && FinishEvent(plan, oracle, World(View(), draws), e).Ok?
      modifies this`waiting, this`stats, this`checks, this`finished, this`draws
      modifies store, store.taxis.Values, store.fares.Values
      ensures store.Valid() && SameObjects() && Runnable(View())
      ensures Ok(World(View(), draws)) == FinishEvent(plan, oracle, old(World(View(), draws)), e)
    {
      hide CompleteStep, DrawAt, Lifecycle.Valid, GoodStore, OrderListsTaxis, StartBuckets, EndBuckets, DemandBuckets, ShiftEnds;
      GoodIsValid(store.View());
      store.LifecycleMakesLookupsSafe();
      CompleteContinues(View(), e, shiftEnd[e.badge], plan.central, DrawAt(oracle, draws));
      FinishFare(e, shiftEnd[e.badge], DrawAt(oracle, draws));
      CountDraw();
    }

    /** The list of checks may grow while it is walked: a retry in the last minute lands in it. */
    method WalkChecks()
      requires Runnable(View())
      modifies this`retries, this`checks, this`finished, this`stats
      ensures View() == WalkFrom(old(View()), 0)
    {
      hide GoodStore, RetryStep;
      var i := 0;
      while i < |checks[minute]|
        invariant Runnable(View()) && WalkFrom(View(), i) == WalkFrom(old(View()), 0)
        decreases RetriesLeft(store.order, retries), |checks[minute]| - i
      {
        var b := checks[minute][i];
        RetryContinues(View(), b);
        GoodIsValid(View().store);
        WalkMakesProgress(View(), b);
        RetryCheck(b);
        i := i + 1;
      }
    }

    method PromoteReturns()
      requires store.Valid() && Runnable(View())
      modifies this`waiting, this`retries, this`checks, this`finished, this`stats, store, store.taxis.Values
      ensures store.Valid() && SameObjects()
      ensures View() == PromotePhase(old(View()))
    {
      hide SweepStep, WalkFrom;
      if checks[minute] != [] {
        SweepContinues(View());
        SweepReturns();
        WalkChecks();
      }
    }

    method EndShifts()
      requires store.Valid() && Runnable(View()) && minute < |ends| && EndFrom(View(), ends[minute], 0).Ok?
      modifies this`finished, store, store.taxis.Values
      ensures store.Valid() && SameObjects()
      ensures Ok(View()) == EndFrom(old(View()), ends[minute], 0)
    {
      hide Runnable, EndShiftStep;
      var list := ends[minute];
      for i := 0 to |list|
        invariant store.Valid() && SameObjects() && Runnable(View())
        invariant EndFrom(View(), list, i) == EndFrom(old(View()), list, 0)
      {
        EndShiftContinues(View(), list[i]);
        EndShift(list[i]);
      }
    }

    // ---- minutes and the day ----

    method RunFirstHalf(m: nat)
      requires Filed() && store.Valid() && RunnableDay(plan, View()) && m < plan.totalBuckets
      requires FirstHalf(plan, oracle, World(View(), draws), m).Ok?
      modifies this, store, store.taxis.Values, store.fares.Values
      ensures store.Valid() && store.taxis == old(store.taxis) && store.FaresOnlyAdded()
      ensures Ok(World(View(), draws)) == FirstHalf(plan, oracle, old(World(View(), draws)), m)
    {
      hide Runnable, JoinFrom, ServeFrom, FinishFrom, Tick, Filled, StartFilings, EndFilings, DemandFilings, ShiftEnds;
      TickContinues(View(), m, ClockAt(plan, m));
      BeginMinute(m);
      StartShifts();
      ServePassengers();
      FinishFares();
    }

    method RunSecondHalf()
      requires Filed() && store.Valid() && RunnableDay(plan, View()) && SecondHalf(plan, View()).Ok?
      modifies this`waiting, this`retries, this`checks, this`finished, this`stats, store, store.taxis.Values
      ensures store.Valid() && SameObjects()
      ensures Ok(View()) == SecondHalf(plan, old(View()))
    {
      hide PromotePhase, EndFrom, Engine.TakeSnapshot;
      PromoteReturns();
      EndShifts();
      if minute % plan.snapshotInterval == 0 || minute == plan.totalBuckets - 1 {
        TakeSnapshot();
      }
    }

    method RunMinute(m: nat)
      requires Filed() && store.Valid() && RunnableDay(plan, View()) && m < plan.totalBuckets
      requires MinuteOf(plan, oracle, World(View(), draws), m).Ok?
      modifies this, store, store.taxis.Values, store.fares.Values
      ensures store.Valid() && store.taxis == old(store.taxis) && store.FaresOnlyAdded()
      ensures Ok(World(View(), draws)) == MinuteOf(plan, oracle, old(World(View(), draws)), m)
      ensures minute == m && store.now == plan.dayStart + m as real
    {
      hide RunnableDay, FirstHalf, SecondHalf;
      RunFirstHalf(m);
      RunSecondHalf();
    }

    /** All minutes of the day. */
    method RunMinutes()
      requires Filed() && store.Valid() && RunnableDay(plan, View())
      requires DayFrom(plan, oracle, World(View(), draws), 0).Ok?
      modifies this, store, store.taxis.Values, store.fares.Values
      ensures store.Valid() && Ok(World(View(), draws)) == DayFrom(plan, oracle, old(World(View(), draws)), 0)
    {
      hide RunnableDay, MinuteOf;
      for m := 0 to plan.totalBuckets
        invariant store.Valid() && store.taxis == old(store.taxis) && store.FaresOnlyAdded()
        invariant RunnableDay(plan, View())
        invariant DayFrom(plan, oracle, World(View(), draws), m) ==
                  DayFrom(plan, oracle, old(World(View(), draws)), 0)
      {
        RunMinute(m);
      }
    }

    /** The whole day, from empty books to the final count. */
    method Run()
      requires GoodPlan(plan) && GoodOracle(oracle, plan) && Filed() && store.Valid()
      requires View() == InitialSim(plan) && draws == 0
      modifies this, store, store.taxis.Values, store.fares.Values
      ensures store.Valid() && Ok(World(View(), draws)) == DayOf(plan, oracle)
      ensures minute == plan.totalBuckets - 1 && store.now == plan.dayStart + (plan.totalBuckets - 1) as real
      ensures |finalStatus| == |plan.drivers|
      ensures forall st :: finalStatus[st] == |WithStatus(store.View(), st, |store.View().order|)|
      ensures finalStatus[OnFare] == finalStatus[InFeederPark] == 0
    {
      hide GoodPlan, GoodOracle, DayFrom, RunnableDay, DayDone, InitialSim;
      InitialIsRunnable(plan);
      DayEndsWell(plan, oracle);
      RunMinutes();
      CountsOfADoneDay(View(), CastOf(plan));
      OneTaxiPerDriver(plan);
      CountStatuses();
    }

    method CountStatuses()
      requires OrderListsTaxis(store.View())
      modifies this`finalStatus
      ensures View() == old(View()) && |finalStatus| == |store.order|
      ensures forall st :: finalStatus[st] == |WithStatus(store.View(), st, |store.View().order|)|
    {
      var counts := StatusCounts();
      ghost var s := store.View();
      finalStatus := counts;
      assert store.View() == s;
    }

    method StatusCounts() returns (counts: multiset<Status>)
      requires OrderListsTaxis(store.View())
      ensures |counts| == |store.order|
      ensures forall st :: counts[st] == |WithStatus(store.View(), st, |store.View().order|)|
    {
      hide WithStatus;
      ghost var s := store.View();
      counts := multiset{};
      NobodyCounted(s);
      for i := 0 to |store.order|
        invariant |counts| == i
        invariant forall st :: counts[st] == |WithStatus(s, st, i)|
      {
        var b := store.order[i];
        assert b in s.taxis && s.taxis[b] == store.taxis[b].View();
        CountOneMore(s, i, counts);
        counts := counts + multiset{store.taxis[b].status};
      }
    }
  }

  /** Everything before the first minute. */
  method Prepare(plan: Plan, oracle: Oracle) returns (sim: Simulation)
    requires GoodPlan(plan)
    ensures fresh(sim) && fresh(sim.store) && fresh(sim.store.taxis.Values) && fresh(sim.store.fares.Values)
    ensures sim.plan == plan && sim.oracle == oracle && sim.Filed() && sim.store.Valid()
    ensures sim.View() == InitialSim(plan) && sim.draws == 0
  {
    hide GoodPlan, InitialStore, InitialSim;
    var store := SetUpStore(plan);
    var starts, ends, shiftEnd := FileShifts(plan);
    var demandBuckets := FileDemand(plan);
    sim := new Simulation(plan, oracle, store, starts, ends, shiftEnd, demandBuckets);
  }

  /** A simulation from set-up to summary.  It ends in the day that the plan and the draws determine,
      and so in the same day whenever it is repeated with the same draws; and that day ends well. */
  method RunSimulation(plan: Plan, oracle: Oracle) returns (sim: Simulation)
    requires GoodPlan(plan) && GoodOracle(oracle, plan)
    ensures fresh(sim) && sim.plan == plan && sim.oracle == oracle
    ensures Ok(World(sim.View(), sim.draws)) == DayOf(plan, oracle)
    ensures sim.minute == plan.totalBuckets - 1 && sim.store.now == plan.dayStart + (plan.totalBuckets - 1) as real
    ensures DayDone(sim.View(), CastOf(plan)) && ShotsTaken(plan, sim.stats, plan.totalBuckets)
    ensures TallyLaw(sim.stats) <==> sim.stats.notReturnedByReason[NeverFreedUp] == 0
    ensures |sim.finalStatus| == |plan.drivers|
    ensures sim.finalStatus[OnFare] == sim.finalStatus[InFeederPark] == 0
  {
    hide GoodPlan, GoodOracle, DayOf, DayDone, ShotsTaken, InitialSim;
    sim := Prepare(plan, oracle);
    DayEndsWell(plan, oracle);
    sim.Run();
  }
}
