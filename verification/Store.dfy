/** The in-memory store (app/store.py) and the service functions that mutate it in place.  Every
    method does exactly the step of StoreSpec that its contract names, on the objects themselves. */
module StoreModule {
  import opened Domain
  import opened Lists
  import opened Destinations
  import Spec = StoreSpec
  import opened Lifecycle
  import opened Promotion
  import opened Throughput
  import opened Screen

  class Taxi {
    const driverName: string
    var status: Status
    var joinedAt: Option<real>
    var terminalId: Option<TerminalId>
    var calledAt: Option<real>
    var selfCheckedIn: bool
    var currentFare: Option<FareId>
    var exemptionType: Option<FareClass>
    var exemptionDestination: Option<string>
    var returnDeadline: Option<real>
    var lastReturnOnTime: Option<bool>
    var pendingTerminal: Option<TerminalId>
    var expectedArrival: Option<real>

    constructor (name: string)
      ensures View() == Spec.NEW_TAXI.(driverName := name)
    {
      driverName := name;
      status := Offline;
      joinedAt, terminalId, calledAt, selfCheckedIn := None, None, None, false;
      currentFare, exemptionType, exemptionDestination := None, None, None;
      returnDeadline, lastReturnOnTime := None, None;
      pendingTerminal, expectedArrival := None, None;
    }

    ghost function View(): TaxiState
      reads this
    {
      TaxiState(driverName, status, joinedAt, terminalId, calledAt, selfCheckedIn, currentFare, exemptionType,
                exemptionDestination, returnDeadline, lastReturnOnTime, pendingTerminal, expectedArrival)
    }

    method BeCalledTo(t: TerminalId, now: real)
      modifies this
      ensures View() == old(View()).(status := Called, terminalId := Some(t), calledAt := Some(now),
                                     selfCheckedIn := false, joinedAt := None)
    {
      status := Called;
      terminalId := Some(t);
      calledAt := Some(now);
      selfCheckedIn := false;
      joinedAt := None;
    }

    /** The end of a fare: back to the queue, or off with a return deadline. */
    method EndFare(fare: FareState, deadline: real, now: real)
      modifies this
      ensures View() == Spec.EndFare(old(View()), fare, deadline, now)
    {
      currentFare := None;
      terminalId := None;
      if fare.classification == Standard {
        status := InFeederPark;
        joinedAt := Some(now);
        exemptionType, exemptionDestination, returnDeadline := None, None, None;
      } else {
        status := ReturnExempt;
        exemptionType := Some(fare.classification);
        exemptionDestination := Some(fare.destination);
        returnDeadline := Some(deadline);
      }
    }

    /** `_add_taxi_to_terminal` */
    method AddToTerminal(t: TerminalId, now: real)
      modifies this
      ensures View() == Spec.Seat(old(View()), t, now)
    {
      var onTime := returnDeadline.None? || now <= returnDeadline.value;
      status := Called;
      terminalId := Some(t);
      calledAt := Some(now);
      selfCheckedIn := true;
      lastReturnOnTime := Some(onTime);
      exemptionType, exemptionDestination, returnDeadline := None, None, None;
      pendingTerminal, expectedArrival := None, None;
    }
  }

  class Fare {
    const badge: Badge
    const terminalId: TerminalId
    const destination: string
    const classification: FareClass
    const roundTrip: Option<real>
    const recordedBy: AgentId
    const recordedAt: real
    var completedAt: Option<real>

    constructor (f: FareState)
      ensures View() == f
    {
      badge, terminalId, destination := f.badge, f.terminalId, f.destination;
      classification, roundTrip := f.classification, f.roundTrip;
      recordedBy, recordedAt, completedAt := f.recordedBy, f.recordedAt, f.completedAt;
    }

    function View(): FareState
      reads this
    {
      FareState(badge, terminalId, destination, classification, roundTrip, recordedBy, recordedAt, completedAt)
    }
  }

  class Store {
    var taxis: map<Badge, Taxi>
    var order: seq<Badge>
    var terminals: map<TerminalId, TerminalState>
    var rankAgents: map<AgentId, Option<TerminalId>>
    var queue: seq<Badge>
    var fares: map<FareId, Fare>
    var nextFareId: FareId
    var dispatchEvents: seq<DispatchEvent>
    var traffic: Traffic
    var now: real

    constructor ()
      ensures Valid() && View() == Spec.EMPTY
      ensures fresh(taxis.Values) && fresh(fares.Values)
    {
      taxis, order, terminals, rankAgents := map[], [], map[], map[];
      queue, fares, nextFareId, dispatchEvents := [], map[], 0, [];
      traffic, now := Normal, 0.0;
      new;
      assert View() == Spec.EMPTY;
    }

    ghost function View(): Spec.State
      reads this, taxis.Values, fares.Values
    {
      Spec.State(map b | b in taxis :: taxis[b].View(), order, terminals, rankAgents, queue,
                 map id | id in fares :: fares[id].View(), nextFareId, dispatchEvents, traffic, now)
    }

    /** Different keys hold different objects.  The lifecycle invariant is about the view, and is
        kept because every method does a step of StoreSpec. */
    ghost predicate Valid()
      reads this
    {
      && (forall b, c :: b in taxis && c in taxis && b != c ==> taxis[b] != taxis[c])
      && (forall i, j :: i in fares && j in fares && i != j ==> fares[i] != fares[j])
    }

    /** What the code takes for granted: queued badges and held fares can be looked up, and the next
        fare id is unused. */
    ghost predicate LookupsSafe()
      reads this, taxis.Values
    {
      && (forall b :: b in queue ==> b in taxis)
      && (forall b :: b in taxis && taxis[b].currentFare.Some? ==> taxis[b].currentFare.value in fares)
      && nextFareId !in fares
    }

    /** The lifecycle invariant guarantees it. */
    lemma LifecycleMakesLookupsSafe()
      requires Lifecycle.Valid(View())
      ensures LookupsSafe()
    {
      var s := View();
      forall b | b in taxis && taxis[b].currentFare.Some? ensures taxis[b].currentFare.value in fares {
        assert s.taxis[b] == taxis[b].View() && HoldsOwnFare(s, b);
        assert taxis[b].currentFare.value in s.fares;
      }
      forall b | b in queue ensures b in taxis {
        assert b in s.taxis;
      }
      assert nextFareId !in s.fares;
    }

    /** Writing to the taxi of one badge changes the view at that badge and nowhere else. */
    twostate lemma TaxiRewritten(b: Badge)
      requires b in taxis && taxis == old(taxis) && Valid()
      requires forall c :: c in taxis && c != b ==> unchanged(taxis[c])
      ensures View().taxis == old(View()).taxis[b := taxis[b].View()]
    {
    }

    twostate lemma FareRewritten(id: FareId)
      requires id in fares && fares == old(fares) && Valid()
      requires forall i :: i in fares && i != id ==> unchanged(fares[i])
      ensures View().fares == old(View()).fares[id := fares[id].View()]
    {
    }

    twostate lemma FareAdded(id: FareId, new fare: Fare)
      requires id !in old(fares) && fares == old(fares)[id := fare]
      requires forall i :: i in old(fares) ==> unchanged(fares[i])
      ensures View().fares == old(View()).fares[id := fare.View()]
    {
    }

    twostate lemma FaresUntouched()
      requires fares == old(fares) && forall id :: id in fares ==> unchanged(fares[id])
      ensures View().fares == old(View()).fares
    {
    }

    twostate lemma TaxisUntouched()
      requires taxis == old(taxis) && forall b :: b in taxis ==> unchanged(taxis[b])
      ensures View().taxis == old(View()).taxis
    {
    }

    twostate lemma TaxiForgotten(b: Badge)
      requires taxis == old(taxis) - {b} && forall c :: c in taxis ==> unchanged(taxis[c])
      ensures View().taxis == old(View()).taxis - {b}
    {
    }

    /** Fares are only ever added: every fare object is an old one under its old id, or a new one. */
    twostate predicate FaresOnlyAdded()
      reads this
    {
      forall id :: id in fares ==> (id in old(fares) && fares[id] == old(fares)[id]) || fresh(fares[id])
    }

    /** A call either does its step or raises and leaves the store as it was. */
    static ghost predicate Did<T>(r: Result<T>, expected: Result<Spec.State>, before: Spec.State, after: Spec.State) {
      match expected
      case Ok(s) => r.Ok? && after == s
      case Err(e) => r == Err(e) && after == before
    }

    // ---- lookups ----

    /** The counting comprehension of `terminal_occupancy`, over the first `n` taxis. */
    function CountOnRank(t: TerminalId, n: nat): nat
      requires n <= |order| && forall b :: b in order ==> b in taxis
      reads this, taxis.Values
    {
      if n == 0 then 0
      else
        CountOnRank(t, n - 1) +
        var x := taxis[order[n - 1]];
        if x.terminalId == Some(t) && x.status == Called then 1 else 0
    }

    function TerminalOccupancy(t: TerminalId): nat
      requires forall b :: b in order ==> b in taxis
      reads this, taxis.Values
    {
      CountOnRank(t, |order|)
    }

    lemma {:induction false} CountsTheView(t: TerminalId, n: nat)
      requires n <= |order| && forall b :: b in order ==> b in taxis
      ensures CountOnRank(t, n) == RankCount(View(), t, n)
    {
      if n > 0 {
        CountsTheView(t, n - 1);
      }
    }

    /** Counting taxis one by one gives the number of slot holders. */
    lemma OccupancyCounts(t: TerminalId)
      requires OrderListsTaxis(View())
      ensures forall b :: b in order ==> b in taxis
      ensures TerminalOccupancy(t) == Spec.Occupancy(View(), t)
    {
      assert forall b :: b in order ==> b in View().taxis;
      CountsTheView(t, |order|);
      RankCountIsOccupancy(View(), t);
    }

    /** `terminal_has_capacity` */
    method HasFreeSlot(t: TerminalId) returns (free: bool)
      requires OrderListsTaxis(View()) && t in terminals
      ensures free == Spec.HasRoom(View(), t)
    {
      OccupancyCounts(t);
      free := TerminalOccupancy(t) < terminals[t].capacity;
    }

    // ---- administration ----

    method AddTaxi(b: Badge, name: string) returns (r: Result<()>)
      requires Valid()
      modifies this
      ensures Valid() && fresh(taxis.Values - old(taxis.Values)) && fares == old(fares)
      ensures Did(r, Spec.AddTaxi(old(View()), b, name), old(View()), View())
    {
      if b in taxis {
        return Err(Conflict);
      }
      var taxi := new Taxi(name);
      taxis := taxis[b := taxi];
      order := order + [b];
      FaresUntouched();
      assert View().taxis == old(View()).taxis[b := taxi.View()];
      return Ok(());
    }

    method RemoveTaxi(b: Badge) returns (r: Result<()>)
      requires Valid()
      modifies this
      ensures Valid() && taxis.Values <= old(taxis.Values) && fares == old(fares)
      ensures Did(r, Spec.RemoveTaxi(old(View()), b), old(View()), View())
    {
      if b !in taxis {
        return Err(NotFound);
      }
      Withdraw(b);
      taxis := taxis - {b};
      order := RemoveFirst(order, b);
      TaxiForgotten(b);
      FaresUntouched();
      return Ok(());
    }

    /** Off the queue, if queued at all. */
    method Withdraw(b: Badge)
      modifies this`queue
      ensures queue == RemoveFirst(old(queue), b)
    {
      if b in queue {
        queue := RemoveFirst(queue, b);
      } else {
        RemoveFirstAbsent(queue, b);
      }
    }

    method AddTerminal(t: TerminalId, name: string, capacity: Option<int>) returns (r: Result<()>)
      requires Valid()
      modifies this
      ensures Valid() && taxis == old(taxis) && fares == old(fares)
      ensures Did(r, Spec.AddTerminal(old(View()), t, name, capacity), old(View()), View())
    {
      if t in terminals {
        return Err(Conflict);
      }
      var slots := if capacity.Some? then capacity.value else DEFAULT_TERMINAL_CAPACITY;
      terminals := terminals[t := TerminalState(name, slots)];
      TaxisUntouched();
      FaresUntouched();
      return Ok(());
    }

    method RemoveTerminal(t: TerminalId) returns (r: Result<()>)
      requires Valid()
      modifies this
      ensures Valid() && taxis == old(taxis) && fares == old(fares)
      ensures Did(r, Spec.RemoveTerminal(old(View()), t), old(View()), View())
    {
      if t !in terminals {
        return Err(NotFound);
      }
      terminals := terminals - {t};
      return Ok(());
    }

    method AddRankAgent(a: AgentId, home: Option<TerminalId>) returns (r: Result<()>)
      requires Valid()
      modifies this
      ensures Valid() && taxis == old(taxis) && fares == old(fares)
      ensures Did(r, Spec.AddRankAgent(old(View()), a, home), old(View()), View())
    {
      if a in rankAgents {
        return Err(Conflict);
      }
      if home.Some? && home.value !in terminals {
        return Err(NotFound);
      }
      rankAgents := rankAgents[a := home];
      TaxisUntouched();
      FaresUntouched();
      return Ok(());
    }

    method SetTrafficLevel(level: Traffic)
      requires Valid()
      modifies this
      ensures Valid() && taxis == old(taxis) && fares == old(fares)
      ensures View() == old(View()).(traffic := level)
    {
      traffic := level;
    }

    method SetTime(time: real)
      requires Valid()
      modifies this
      ensures Valid() && taxis == old(taxis) && fares == old(fares)
      ensures View() == old(View()).(now := time)
    {
      now := time;
    }

    // ---- the feeder park ----

    method JoinFeederPark(b: Badge) returns (r: Result<()>)
      requires Valid()
      modifies this, taxis.Values
      ensures Valid() && taxis == old(taxis) && fares == old(fares)
      ensures Did(r, Spec.JoinFeederPark(old(View()), b), old(View()), View())
    {
      if b !in taxis {
        return Err(NotFound);
      }
      var taxi := taxis[b];
      if taxi.status != Offline {
        return Err(Conflict);
      }
      taxi.status := InFeederPark;
      taxi.joinedAt := Some(now);
      queue := queue + [b];
      TaxiRewritten(b);
      FaresUntouched();
      return Ok(());
    }

    method LeaveFeederPark(b: Badge) returns (r: Result<()>)
      requires Valid()
      modifies this, taxis.Values
      ensures Valid() && taxis == old(taxis) && fares == old(fares)
      ensures Did(r, Spec.LeaveFeederPark(old(View()), b), old(View()), View())
    {
      if b !in taxis {
        return Err(NotFound);
      }
      var taxi := taxis[b];
      if taxi.status != InFeederPark {
        return Err(Conflict);
      }
      Withdraw(b);
      taxi.status := Offline;
      taxi.joinedAt := None;
      TaxiRewritten(b);
      FaresUntouched();
      return Ok(());
    }

    /** Pops the front of the queue; the result is the badge called. */
    method CallNextTaxi(t: TerminalId) returns (r: Result<Badge>)
      requires Valid() && LookupsSafe()
      modifies this, taxis.Values
      ensures Valid() && taxis == old(taxis) && fares == old(fares)
      ensures Did(r, Spec.CallNextTaxi(old(View()), t), old(View()), View())
      ensures r.Ok? ==> old(queue) != [] && r.value == old(queue)[0]
      ensures LookupsSafe()
    {
      if t !in terminals {
        return Err(NotFound);
      }
      if queue == [] {
        return Err(Conflict);
      }
      var b := queue[0];
      queue := queue[1..];
      var taxi := taxis[b];
      taxi.BeCalledTo(t, now);
      dispatchEvents := dispatchEvents + [DispatchEvent(t, now)];
      TaxiRewritten(b);
      FaresUntouched();
      return Ok(b);
    }

    /** One row per queue entry whose taxi is known. */
    method FeederParkSnapshot() returns (rows: seq<Row>)
      ensures rows == ScreenRows(View())
      ensures Lifecycle.Valid(View()) ==> IsSnapshot(View(), rows)
    {
      ghost var s := View();
      var interval := CallInterval(Times(dispatchEvents), now);
      rows := [];
      for index := 0 to |queue|
        invariant rows == RowsUpTo(s, interval, index)
      {
        var b := queue[index];
        assert b in taxis ==> s.taxis[b] == taxis[b].View();
        if b in taxis {
          rows := rows + [MakeRow(b, taxis[b].driverName, index + 1, interval)];
        }
      }
      if Lifecycle.Valid(s) {
        ScreenIsSnapshot(s);
      }
    }

    /** The badges on the display board: the front of the queue, as far as it is due soon. */
    method DueSoonBadgeNumbers() returns (badges: seq<Badge>)
      ensures badges == DueSoonOf(ScreenRows(View()))
      ensures Lifecycle.Valid(View()) ==>
                badges <= queue
                && forall i :: 0 <= i < |queue| ==>
                     View().queue[i] in View().taxis && (i < |badges| <==> RowAt(View(), i).dueSoon)
    {
      var rows := FeederParkSnapshot();
      badges := DueSoonOf(rows);
      if Lifecycle.Valid(View()) {
        DueSoonBadgesArePrefix(View(), rows);
      }
    }

    // ---- fares ----

    method RecordFare(b: Badge, destination: string, agent: AgentId, override: Option<FareClass>,
                      roundTripOverride: Option<real>) returns (r: Result<FareId>)
      requires Valid() && LookupsSafe()
      modifies this, taxis.Values
      ensures Valid() && taxis == old(taxis) && FaresOnlyAdded()
      ensures Did(r, Spec.RecordFare(old(View()), b, destination, agent, override, roundTripOverride),
                  old(View()), View())
      ensures r.Ok? ==> r.value == old(nextFareId)
    {
      hide ClassifyDestination;
      if b !in taxis || agent !in rankAgents {
        return Err(NotFound);
      }
      var taxi := taxis[b];
      if taxi.status != Called || !Truthy(taxi.terminalId) {
        return Err(Conflict);
      }
      if taxi.terminalId.value !in terminals {
        return Err(NotFound);
      }
      var (class_, roundTrip) := ClassifyDestination(destination, override, roundTripOverride);
      var id := StartFare(b, FareState(b, taxi.terminalId.value, destination, class_, roundTrip, agent, now, None));
      return Ok(id);
    }

    /** The fare is kept under a new id, and the taxi is on it. */
    method StartFare(b: Badge, f: FareState) returns (id: FareId)
      requires Valid() && LookupsSafe() && b in taxis
      modifies this`fares, this`nextFareId, taxis.Values
      ensures Valid() && FaresOnlyAdded() && id == old(nextFareId)
      ensures var s := old(View());
              View() == s.(taxis := s.taxis[b := s.taxis[b].(currentFare := Some(id), status := OnFare)],
                           fares := s.fares[id := f], nextFareId := id + 1)
    {
      id := nextFareId;
      var fare := new Fare(f);
      fares := fares[id := fare];
      nextFareId := nextFareId + 1;
      taxis[b].currentFare := Some(id);
      taxis[b].status := OnFare;
      TaxiRewritten(b);
      FareAdded(id, fare);
    }

    method CompleteFare(b: Badge) returns (r: Result<()>)
      requires Valid() && LookupsSafe()
      modifies this`queue, taxis.Values, fares.Values
      ensures Valid() && taxis == old(taxis) && fares == old(fares)
      ensures Did(r, Spec.CompleteFare(old(View()), b), old(View()), View())
    {
      hide Spec.ReturnDeadlineMinutes, Spec.EndFare;
      if b !in taxis {
        return Err(NotFound);
      }
      var taxi := taxis[b];
      if taxi.status != OnFare || taxi.currentFare.None? {
        return Err(Conflict);
      }
      var fare := fares[taxi.currentFare.value];
      assert View().fares[taxi.currentFare.value] == fare.View();
      var minutes := if fare.classification == Standard then 0.0
                     else Spec.ReturnDeadlineMinutes(traffic, fare.classification, fare.roundTrip);
      CloseFare(b, taxi.currentFare.value, now + minutes);
      return Ok(());
    }

    /** The fare is stamped, and its taxi goes to the end of the queue or off with a deadline. */
    method CloseFare(b: Badge, id: FareId, deadline: real)
      requires Valid() && b in taxis && id in fares
      modifies this`queue, taxis[b], fares[id]
      ensures Valid() && taxis == old(taxis) && fares == old(fares)
      ensures var s := old(View());
              var f := s.fares[id].(completedAt := Some(s.now));
              View() == s.(taxis := s.taxis[b := Spec.EndFare(s.taxis[b], f, deadline, s.now)],
                           fares := s.fares[id := f],
                           queue := if f.classification == Standard then s.queue + [b] else s.queue)
    {
      var fare := fares[id];
      fare.completedAt := Some(now);
      taxis[b].EndFare(fare.View(), deadline, now);
      if fare.classification == Standard {
        queue := queue + [b];
      }
      TaxiRewritten(b);
      FareRewritten(id);
      assert fare.View() == old(View()).fares[id].(completedAt := Some(now));
    }

    method ReturnToTerminal(b: Badge, t: TerminalId, eta: real) returns (r: Result<()>)
      requires Valid() && OrderListsTaxis(View())
      modifies this, taxis.Values
      ensures Valid() && taxis == old(taxis) && fares == old(fares)
      ensures Did(r, Spec.ReturnToTerminal(old(View()), b, t, eta), old(View()), View())
    {
      hide OrderListsTaxis, Spec.HasRoom, Spec.Seat;
      if b !in taxis {
        return Err(NotFound);
      }
      var taxi := taxis[b];
      if taxi.status != ReturnExempt {
        return Err(Conflict);
      }
      if t !in terminals {
        return Err(NotFound);
      }
      var free := HasFreeSlot(t);
      if !free {
        return Err(Conflict);
      }
      AcceptReturn(b, t, eta);
      return Ok(());
    }

    /** Straight onto the rank if the taxi is close, else a pending return. */
    method AcceptReturn(b: Badge, t: TerminalId, eta: real)
      requires Valid() && b in taxis
      modifies taxis[b]
      ensures var s := old(View());
              View() == s.(taxis := s.taxis[b :=
                if eta <= TERMINAL_ADD_LEAD_MINUTES then Spec.Seat(s.taxis[b], t, s.now)
                else s.taxis[b].(pendingTerminal := Some(t), expectedArrival := Some(s.now + eta))])
    {
      var taxi := taxis[b];
      if eta <= TERMINAL_ADD_LEAD_MINUTES {
        taxi.AddToTerminal(t, now);
      } else {
        taxi.pendingTerminal := Some(t);
        taxi.expectedArrival := Some(now + eta);
      }
      TaxiRewritten(b);
      FaresUntouched();
    }

    /** One pass over all taxis, recounting occupancy for each due one as the ranks fill up.  The
        result is the closed form: at every terminal the first due taxis, as many as fit. */
    method PromoteDueReturns()
      requires Valid() && Lifecycle.Valid(View())
      modifies this, taxis.Values
      ensures Valid() && taxis == old(taxis) && fares == old(fares)
      ensures View() == Spec.PromoteDueReturns(old(View()))
    {
      ghost var before := View();
      PromotedUpToEnds(before);
      for i := 0 to |order|
        invariant taxis == old(taxis) && fares == old(fares) && order == before.order
        invariant Valid() && View() == PromotedUpTo(before, i)
      {
        PromoteOne(order[i], before, i);
      }
    }

    /** The body of the promotion loop, for the `i`-th taxi of the dictionary. */
    method PromoteOne(b: Badge, ghost before: Spec.State, ghost i: nat)
      requires Valid() && Lifecycle.Valid(before)
      requires i < |before.order| && before.order[i] == b && View() == PromotedUpTo(before, i)
      modifies taxis.Values
      ensures View() == PromotedUpTo(before, i + 1)
    {
      hide PromotedUpTo, Spec.PromotedTaxi, Spec.DueAt, TaxisCoherent, QueueListsParked, FaresHeld;
      PromotedUpToKeepsOrder(before, i);
      PromotedUpToNext(before, i);
      DueOrLeftAlone(before, b);
      ghost var midway := View();
      var taxi := taxis[b];
      assert taxi.View() == midway.taxis[b];
      var due := taxi.status == ReturnExempt && Truthy(taxi.pendingTerminal) && taxi.expectedArrival.Some?
                 && now >= taxi.expectedArrival.value - TERMINAL_ADD_LEAD_MINUTES;
      if due {
        PromoteDue(taxi, b, before, i);
      }
      assert taxi.View() == Spec.PromotedTaxi(before, b);
      TaxiRewritten(b);
      FaresUntouched();
      assert View() == midway.(taxis := midway.taxis[b := taxi.View()]);
    }

    /** A taxi whose return has come due: cleared, seated, or left pending while the rank is full. */
    method PromoteDue(taxi: Taxi, b: Badge, ghost before: Spec.State, ghost i: nat)
      requires Lifecycle.Valid(before) && OrderListsTaxis(View())
      requires i < |before.order| && before.order[i] == b && View() == PromotedUpTo(before, i)
      requires taxi.View() == before.taxis[b] && taxi.pendingTerminal.Some?
      requires Spec.DueAt(before, b, taxi.pendingTerminal.value)
      modifies taxi
      ensures taxi.View() == Spec.PromotedTaxi(before, b)
    {
      hide PromotedUpTo, Spec.PromotedTaxi, Spec.DueAt, Spec.HasRoom, TaxisCoherent, QueueListsParked, FaresHeld;
      var t := taxi.pendingTerminal.value;
      PromotedUpToKeepsOrder(before, i);
      DueTaxiMidway(before, i, t);
      if t !in terminals {
        taxi.pendingTerminal := None;
        taxi.expectedArrival := None;
      } else {
        var free := HasFreeSlot(t);
        if free {
          taxi.AddToTerminal(t, now);
        }
      }
    }
  }
}
