/** The inputs of a simulated day, and how shifts and demand are filed into minute buckets. */
module PlanModule {
  import opened Domain
  import opened Lists
  import opened StoreSpec
  import opened Lifecycle
  import opened Buckets
  import opened Engine
  import opened EngineInvariant

  datatype TerminalSetup = TerminalSetup(id: TerminalId, name: string, capacity: int)
  datatype Driver = Driver(badge: Badge, shiftStart: nat, shiftEnd: nat)
  datatype Demand = Demand(readyMinute: nat, terminalId: TerminalId)

  datatype Plan = Plan(
    dayStart: real,
    totalBuckets: nat,
    terminals: seq<TerminalSetup>,
    drivers: seq<Driver>,
    demand: seq<Demand>,
    central: set<string>,
    snapshotInterval: nat)

  /** All random draws of a run, each kind indexed by the number of events that drew before. */
  datatype Oracle = Oracle(
    fare: nat -> SimulatedFare,
    leg: nat -> real,
    declines: nat -> bool,
    eta: nat -> real,
    shuffle: nat -> seq<TerminalId>)

  function TerminalMap(setups: seq<TerminalSetup>): map<TerminalId, TerminalState> {
    if setups == [] then map[]
    else
      var last := setups[|setups| - 1];
      TerminalMap(setups[..|setups| - 1])[last.id := TerminalState(last.name, last.capacity)]
  }

  ghost predicate GoodPlan(plan: Plan) {
    && plan.totalBuckets >= 1 && plan.snapshotInterval >= 1
    && (forall i, j :: 0 <= i < j < |plan.terminals| ==> plan.terminals[i].id != plan.terminals[j].id)
    && (forall i :: 0 <= i < |plan.terminals| ==> plan.terminals[i].id != "")
    && (forall i, j :: 0 <= i < j < |plan.drivers| ==> plan.drivers[i].badge != plan.drivers[j].badge)
    && (forall i :: 0 <= i < |plan.drivers| ==> plan.drivers[i].shiftStart <= plan.drivers[i].shiftEnd)
    && (forall i :: 0 <= i < |plan.demand| ==> plan.demand[i].terminalId in TerminalMap(plan.terminals))
  }

  ghost predicate GoodOracle(oracle: Oracle, plan: Plan) {
    && (forall k :: LabelAgrees(oracle.fare(k)))
    && forall k, t :: t in oracle.shuffle(k) ==> t in TerminalMap(plan.terminals)
  }

  lemma {:induction false} TerminalMapEntries(setups: seq<TerminalSetup>)
    requires forall i, j :: 0 <= i < j < |setups| ==> setups[i].id != setups[j].id
    ensures forall i :: 0 <= i < |setups| ==>
              setups[i].id in TerminalMap(setups)
              && TerminalMap(setups)[setups[i].id] == TerminalState(setups[i].name, setups[i].capacity)
    ensures forall t :: t in TerminalMap(setups) ==> exists i :: 0 <= i < |setups| && setups[i].id == t
  {
    if setups != [] {
      var n := |setups| - 1;
      TerminalMapEntries(setups[..n]);
      forall i | 0 <= i < n
        ensures setups[i].id in TerminalMap(setups[..n]) && setups[i].id != setups[n].id
        ensures TerminalMap(setups[..n])[setups[i].id] == TerminalState(setups[i].name, setups[i].capacity)
      {
        assert setups[..n][i] == setups[i];
      }
      forall t | t in TerminalMap(setups) ensures exists i :: 0 <= i < |setups| && setups[i].id == t {
        if t != setups[n].id {
          var i :| 0 <= i < n && setups[..n][i].id == t;
          assert setups[i].id == t;
        }
      }
    }
  }

  function CastOf(plan: Plan): Cast {
    Cast(set d | d in plan.drivers :: d.badge, TerminalMap(plan.terminals), |plan.demand|)
  }

  /** Badges are distinct, so there are as many taxis as drivers. */
  lemma OneTaxiPerDriver(plan: Plan)
    requires GoodPlan(plan)
    ensures |CastOf(plan).drivers| == |plan.drivers|
  {
    var badges := seq(|plan.drivers|, i requires 0 <= i < |plan.drivers| => plan.drivers[i].badge);
    DistinctCardinality(badges);
    forall d | d in plan.drivers ensures d.badge in Elements(badges) {
      var i :| 0 <= i < |plan.drivers| && plan.drivers[i] == d;
      assert badges[i] == d.badge;
    }
    assert Elements(badges) == CastOf(plan).drivers;
  }

  function LastMinute(plan: Plan): nat
    requires plan.totalBuckets >= 1
  {
    plan.totalBuckets - 1
  }

  /** The bucket a shift or demand minute is filed in: late ones go into the last bucket. */
  function Clamp(plan: Plan, minute: nat): nat
    requires plan.totalBuckets >= 1
  {
    Min(minute, LastMinute(plan))
  }

  lemma LateGoesLast(plan: Plan, minute: nat)
    requires plan.totalBuckets >= 1
    ensures Clamp(plan, minute) == if minute < plan.totalBuckets then minute else plan.totalBuckets - 1
  {
  }

  // ---- filing the shifts and the demand ----

  function StartFilings(plan: Plan): seq<Filing<Badge>>
    requires plan.totalBuckets >= 1
  {
    seq(|plan.drivers|, i requires 0 <= i < |plan.drivers| =>
          Filing(Clamp(plan, plan.drivers[i].shiftStart), plan.drivers[i].badge))
  }

  function EndFilings(plan: Plan): seq<Filing<Badge>>
    requires plan.totalBuckets >= 1
  {
    seq(|plan.drivers|, i requires 0 <= i < |plan.drivers| =>
          Filing(Clamp(plan, plan.drivers[i].shiftEnd), plan.drivers[i].badge))
  }

  function DemandFilings(plan: Plan): seq<Filing<TerminalId>>
    requires plan.totalBuckets >= 1
  {
    seq(|plan.demand|, i requires 0 <= i < |plan.demand| =>
          Filing(Clamp(plan, plan.demand[i].readyMinute), plan.demand[i].terminalId))
  }

  function StartBuckets(plan: Plan): (buckets: seq<seq<Badge>>)
    requires plan.totalBuckets >= 1
    ensures |buckets| == plan.totalBuckets
  {
    Filled(StartFilings(plan), plan.totalBuckets)
  }

  function EndBuckets(plan: Plan): (buckets: seq<seq<Badge>>)
    requires plan.totalBuckets >= 1
    ensures |buckets| == plan.totalBuckets
  {
    Filled(EndFilings(plan), plan.totalBuckets)
  }

  function DemandBuckets(plan: Plan): (buckets: seq<seq<TerminalId>>)
    requires plan.totalBuckets >= 1
    ensures |buckets| == plan.totalBuckets
  {
    Filled(DemandFilings(plan), plan.totalBuckets)
  }

  /** The end of each driver's shift, as planned. */
  function ShiftEnds(drivers: seq<Driver>): map<Badge, nat> {
    if drivers == [] then map[]
    else
      var last := drivers[|drivers| - 1];
      ShiftEnds(drivers[..|drivers| - 1])[last.badge := last.shiftEnd]
  }

  /** Every driver's start and end are filed once, in their own minute or the last one; every driver
      has the planned shift end. */
  method FileShifts(plan: Plan) returns (starts: seq<seq<Badge>>, ends: seq<seq<Badge>>, shiftEnd: map<Badge, nat>)
    requires GoodPlan(plan)
    ensures starts == StartBuckets(plan) && ends == EndBuckets(plan) && shiftEnd == ShiftEnds(plan.drivers)
  {
    var none: seq<Badge> := [];
    starts := seq(plan.totalBuckets, _ => none);
    ends := seq(plan.totalBuckets, _ => none);
    shiftEnd := map[];
    for n := 0 to |plan.drivers|
      invariant starts == Filled(StartFilings(plan)[..n], plan.totalBuckets)
      invariant ends == Filled(EndFilings(plan)[..n], plan.totalBuckets)
      invariant shiftEnd == ShiftEnds(plan.drivers[..n])
    {
      var d := plan.drivers[n];
      FilledNext(StartFilings(plan)[..n], StartFilings(plan)[n], plan.totalBuckets);
      FilledNext(EndFilings(plan)[..n], EndFilings(plan)[n], plan.totalBuckets);
      assert StartFilings(plan)[..n + 1] == StartFilings(plan)[..n] + [StartFilings(plan)[n]];
      assert EndFilings(plan)[..n + 1] == EndFilings(plan)[..n] + [EndFilings(plan)[n]];
      assert plan.drivers[..n + 1][..n] == plan.drivers[..n];
      starts := File(starts, Clamp(plan, d.shiftStart), d.badge);
      ends := File(ends, Clamp(plan, d.shiftEnd), d.badge);
      shiftEnd := shiftEnd[d.badge := d.shiftEnd];
    }
    assert StartFilings(plan)[..|plan.drivers|] == StartFilings(plan);
    assert EndFilings(plan)[..|plan.drivers|] == EndFilings(plan);
    assert plan.drivers[..|plan.drivers|] == plan.drivers;
  }

  /** Every demand event is filed once, in the minute it is ready or the last one. */
  method FileDemand(plan: Plan) returns (buckets: seq<seq<TerminalId>>)
    requires GoodPlan(plan)
    ensures buckets == DemandBuckets(plan)
  {
    var none: seq<TerminalId> := [];
    buckets := seq(plan.totalBuckets, _ => none);
    for n := 0 to |plan.demand|
      invariant buckets == Filled(DemandFilings(plan)[..n], plan.totalBuckets)
    {
      var ev := plan.demand[n];
      FilledNext(DemandFilings(plan)[..n], DemandFilings(plan)[n], plan.totalBuckets);
      assert DemandFilings(plan)[..n + 1] == DemandFilings(plan)[..n] + [DemandFilings(plan)[n]];
      buckets := File(buckets, Clamp(plan, ev.readyMinute), ev.terminalId);
    }
    assert DemandFilings(plan)[..|plan.demand|] == DemandFilings(plan);
  }

  // ---- what is filed where ----

  lemma {:induction false} ShiftEndsEntries(drivers: seq<Driver>)
    requires forall i, j :: 0 <= i < j < |drivers| ==> drivers[i].badge != drivers[j].badge
    ensures forall i :: 0 <= i < |drivers| ==>
              drivers[i].badge in ShiftEnds(drivers) && ShiftEnds(drivers)[drivers[i].badge] == drivers[i].shiftEnd
    ensures forall b :: b in ShiftEnds(drivers) ==> exists i :: 0 <= i < |drivers| && drivers[i].badge == b
  {
    if drivers != [] {
      var n := |drivers| - 1;
      ShiftEndsEntries(drivers[..n]);
      forall b | b in ShiftEnds(drivers) ensures exists i :: 0 <= i < |drivers| && drivers[i].badge == b {
        if b != drivers[n].badge {
          var i :| 0 <= i < n && drivers[..n][i].badge == b;
          assert drivers[i].badge == b;
        }
      }
    }
  }

  /** A driver is filed in the buckets of the planned start and end, and those are in order. */
  lemma DriverIsFiled(plan: Plan, i: nat)
    requires GoodPlan(plan) && i < |plan.drivers|
    ensures var d := plan.drivers[i];
            && d.badge in StartBuckets(plan)[Clamp(plan, d.shiftStart)]
            && d.badge in EndBuckets(plan)[Clamp(plan, d.shiftEnd)]
            && d.badge in ShiftEnds(plan.drivers) && ShiftEnds(plan.drivers)[d.badge] == d.shiftEnd
            && Clamp(plan, d.shiftStart) <= Clamp(plan, d.shiftEnd)
  {
    var d := plan.drivers[i];
    ShiftEndsEntries(plan.drivers);
    assert StartFilings(plan)[i] == Filing(Clamp(plan, d.shiftStart), d.badge);
    assert EndFilings(plan)[i] == Filing(Clamp(plan, d.shiftEnd), d.badge);
    ItemsInMembers(StartFilings(plan), Clamp(plan, d.shiftStart), d.badge);
    ItemsInMembers(EndFilings(plan), Clamp(plan, d.shiftEnd), d.badge);
  }

  /** Whoever is filed to start in a bucket is a driver whose shift starts there. */
  lemma StarterIsPlanned(plan: Plan, k: nat, b: Badge) returns (i: nat)
    requires GoodPlan(plan) && k < plan.totalBuckets && b in StartBuckets(plan)[k]
    ensures i < |plan.drivers| && plan.drivers[i].badge == b && Clamp(plan, plan.drivers[i].shiftStart) == k
  {
    ItemsInMembers(StartFilings(plan), k, b);
    i :| 0 <= i < |StartFilings(plan)| && StartFilings(plan)[i] == Filing(k, b);
  }

  lemma DemandIsPlanned(plan: Plan, k: nat, t: TerminalId) returns (i: nat)
    requires GoodPlan(plan) && k < plan.totalBuckets && t in DemandBuckets(plan)[k]
    ensures i < |plan.demand| && plan.demand[i].terminalId == t && Clamp(plan, plan.demand[i].readyMinute) == k
  {
    ItemsInMembers(DemandFilings(plan), k, t);
    i :| 0 <= i < |DemandFilings(plan)| && DemandFilings(plan)[i] == Filing(k, t);
  }

  /** Taken together, the buckets hold each driver's start and end, and each demand event, exactly as
      often as planned. */
  lemma EverythingIsFiledOnce(plan: Plan)
    requires GoodPlan(plan)
    ensures Agenda(StartBuckets(plan), 0) == multiset(Items(StartFilings(plan)))
    ensures Agenda(EndBuckets(plan), 0) == multiset(Items(EndFilings(plan)))
    ensures Agenda(DemandBuckets(plan), 0) == multiset(Items(DemandFilings(plan)))
    ensures |Agenda(DemandBuckets(plan), 0)| == |plan.demand|
  {
    FilledHoldsAll(StartFilings(plan), plan.totalBuckets);
    FilledHoldsAll(EndFilings(plan), plan.totalBuckets);
    FilledHoldsAll(DemandFilings(plan), plan.totalBuckets);
  }

  /** One filing for each shift start, shift end and demand event, in plan order: in its own minute, or
      in the last one if it comes too late. */
  lemma FilingsArePlanned(plan: Plan, i: nat)
    requires plan.totalBuckets >= 1
    ensures |StartFilings(plan)| == |EndFilings(plan)| == |plan.drivers| && |DemandFilings(plan)| == |plan.demand|
    ensures i < |plan.drivers| ==>
              var d, last := plan.drivers[i], plan.totalBuckets - 1;
              && StartFilings(plan)[i].item == EndFilings(plan)[i].item == d.badge
              && StartFilings(plan)[i].bucket == (if d.shiftStart < plan.totalBuckets then d.shiftStart else last)
              && EndFilings(plan)[i].bucket == (if d.shiftEnd < plan.totalBuckets then d.shiftEnd else last)
    ensures i < |plan.demand| ==>
              var ev, last := plan.demand[i], plan.totalBuckets - 1;
              && DemandFilings(plan)[i].item == ev.terminalId
              && DemandFilings(plan)[i].bucket == (if ev.readyMinute < plan.totalBuckets then ev.readyMinute else last)
  {
    hide Clamp;
    if i < |plan.drivers| {
      LateGoesLast(plan, plan.drivers[i].shiftStart);
      LateGoesLast(plan, plan.drivers[i].shiftEnd);
    }
    if i < |plan.demand| {
      LateGoesLast(plan, plan.demand[i].readyMinute);
    }
  }

  // ---- the store before the first minute ----

  /** One rank agent for each terminal. */
  function AgentMap(setups: seq<TerminalSetup>): map<AgentId, Option<TerminalId>> {
    if setups == [] then map[]
    else
      var last := setups[|setups| - 1].id;
      AgentMap(setups[..|setups| - 1])[AgentOf(last) := Some(last)]
  }

  function DriverName(b: Badge): string {
    "Driver " + b
  }

  /** One offline taxi for each driver. */
  function TaxiMap(drivers: seq<Driver>): map<Badge, TaxiState> {
    if drivers == [] then map[]
    else
      var last := drivers[|drivers| - 1].badge;
      TaxiMap(drivers[..|drivers| - 1])[last := NEW_TAXI.(driverName := DriverName(last))]
  }

  function BadgeList(drivers: seq<Driver>): seq<Badge> {
    seq(|drivers|, i requires 0 <= i < |drivers| => drivers[i].badge)
  }

  function InitialStore(plan: Plan): State {
    EMPTY.(now := plan.dayStart, terminals := TerminalMap(plan.terminals), rankAgents := AgentMap(plan.terminals),
           taxis := TaxiMap(plan.drivers), order := BadgeList(plan.drivers))
  }

  lemma {:induction false} AgentMapEntries(setups: seq<TerminalSetup>)
    ensures forall i :: 0 <= i < |setups| ==> AgentOf(setups[i].id) in AgentMap(setups)
    ensures forall a :: a in AgentMap(setups) ==> exists i :: 0 <= i < |setups| && AgentOf(setups[i].id) == a
  {
    if setups != [] {
      var n := |setups| - 1;
      AgentMapEntries(setups[..n]);
      forall a | a in AgentMap(setups) ensures exists i :: 0 <= i < |setups| && AgentOf(setups[i].id) == a {
        if a != AgentOf(setups[n].id) {
          var i :| 0 <= i < n && AgentOf(setups[..n][i].id) == a;
          assert AgentOf(setups[i].id) == a;
        }
      }
    }
  }

  lemma {:induction false} TaxiMapEntries(drivers: seq<Driver>)
    ensures forall i :: 0 <= i < |drivers| ==> drivers[i].badge in TaxiMap(drivers)
    ensures forall b :: b in TaxiMap(drivers) ==>
              && TaxiMap(drivers)[b] == NEW_TAXI.(driverName := DriverName(b))
              && exists i :: 0 <= i < |drivers| && drivers[i].badge == b
  {
    if drivers != [] {
      var n := |drivers| - 1;
      TaxiMapEntries(drivers[..n]);
      forall b | b in TaxiMap(drivers) ensures exists i :: 0 <= i < |drivers| && drivers[i].badge == b {
        if b != drivers[n].badge {
          var i :| 0 <= i < n && drivers[..n][i].badge == b;
          assert drivers[i].badge == b;
        }
      }
    }
  }

  lemma {:induction false} AgentServes(setups: seq<TerminalSetup>, i: nat)
    requires i < |setups|
    ensures AgentOf(setups[i].id) in AgentMap(setups) && AgentMap(setups)[AgentOf(setups[i].id)] == Some(setups[i].id)
  {
    var n := |setups| - 1;
    if i < n {
      AgentServes(setups[..n], i);
      assert setups[..n][i] == setups[i];
      assert AgentOf(setups[i].id)[4..] == setups[i].id && AgentOf(setups[n].id)[4..] == setups[n].id;
    }
  }

  /** What set-up takes from the plan: when the day starts, each terminal with its capacity and its own
      agent, and the drivers in order; and nothing else. */
  lemma InitialStoreShowsPlan(plan: Plan, i: nat)
    requires GoodPlan(plan)
    ensures var s := InitialStore(plan);
            && s.now == plan.dayStart && s.traffic == Normal && s.queue == [] && s.fares == map[] && s.dispatchEvents == []
            && |s.order| == |plan.drivers|
            && (i < |plan.drivers| ==>
                  var b := plan.drivers[i].badge;
                  s.order[i] == b && b in s.taxis && s.taxis[b].driverName == "Driver " + b && s.taxis[b].status == Offline)
            && (i < |plan.terminals| ==>
                  var setup := plan.terminals[i];
                  && setup.id in s.terminals && s.terminals[setup.id].capacity == setup.capacity
                  && "SIM-" + setup.id in s.rankAgents && s.rankAgents["SIM-" + setup.id] == Some(setup.id))
  {
    hide AgentMap, TerminalMap, TaxiMap;
    TerminalMapEntries(plan.terminals);
    TaxiMapEntries(plan.drivers);
    if i < |plan.terminals| {
      AgentServes(plan.terminals, i);
    }
  }

  lemma BadgesListDrivers(plan: Plan)
    requires GoodPlan(plan)
    ensures Distinct(BadgeList(plan.drivers))
    ensures forall b :: b in BadgeList(plan.drivers) <==> b in TaxiMap(plan.drivers)
    ensures TaxiMap(plan.drivers).Keys == CastOf(plan).drivers
  {
    hide TaxiMap;
    TaxiMapEntries(plan.drivers);
    var badges := BadgeList(plan.drivers);
    forall b ensures b in badges <==> b in TaxiMap(plan.drivers) {
      if b in TaxiMap(plan.drivers) {
        var i :| 0 <= i < |plan.drivers| && plan.drivers[i].badge == b;
        assert badges[i] == b;
      }
    }
    forall b ensures b in TaxiMap(plan.drivers) <==> b in CastOf(plan).drivers {
      if b in CastOf(plan).drivers {
        var d :| d in plan.drivers && d.badge == b;
      }
    }
  }

  /** Set-up leaves a valid store: the plan's terminals, one agent each, and every driver offline. */
  lemma InitialStoreIsSetUp(plan: Plan)
    requires GoodPlan(plan)
    ensures var s := InitialStore(plan);
            && Valid(s) && s.taxis.Keys == CastOf(plan).drivers
            && (forall t :: t in s.terminals ==> AgentOf(t) in s.rankAgents && t != "")
            && forall b :: b in s.taxis ==> s.taxis[b].status == Offline && s.taxis[b].pendingTerminal.None?
  {
    hide AgentMap, TerminalMap, TaxiMap, BadgeList;
    TerminalMapEntries(plan.terminals);
    AgentMapEntries(plan.terminals);
    TaxiMapEntries(plan.drivers);
    BadgesListDrivers(plan);
  }
}
