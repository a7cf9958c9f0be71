/** Every engine event keeps the engine invariant, and no service call it makes raises anything the
    engine does not handle. */
module EngineSteps {
  import opened Domain
  import opened Lists
  import opened StoreSpec
  import opened Lifecycle
  import opened Promotion
  import opened Capacity
  import opened Buckets
  import opened Engine
  import opened EngineInvariant

  // ---- events that touch neither ranks nor fares ----

  predicate Quiet(x: TaxiState) {
    x.status != Called && x.status != OnFare
  }

  /** Taxi `b` changes between statuses that hold no rank slot and no fare. */
  ghost predicate QuietChange(s: State, s': State, b: Badge) {
    && b in s.taxis && b in s'.taxis && Quiet(s.taxis[b]) && Quiet(s'.taxis[b])
    && s'.taxis == s.taxis[b := s'.taxis[b]]
    && s'.terminals == s.terminals && s'.now == s.now && s'.fares == s.fares
  }

  lemma QuietKeepsSets(s: State, s': State, b: Badge)
    requires QuietChange(s, s', b)
    ensures OnFareSet(s') == OnFareSet(s)
    ensures OnExemptFareSet(s') == OnExemptFareSet(s)
    ensures forall t :: Occupants(s', t) == Occupants(s, t)
  {
    assert forall c :: c in s.taxis && c != b ==> CarriesExemptFare(s', c) == CarriesExemptFare(s, c);
  }

  lemma QuietKeepsRanks(sim: Sim, sim': Sim, b: Badge)
    requires QuietChange(sim.store, sim'.store, b) && sim'.waiting == sim.waiting
    requires ShadowAgrees(sim) && RanksHold(sim.store)
    ensures ShadowAgrees(sim') && RanksHold(sim'.store)
  {
    var s, s' := sim.store, sim'.store;
    QuietKeepsSets(s, s', b);
    forall t | t in sim'.waiting ensures Indexes(s', sim'.waiting[t], t) {
      IndexUnaffected(s, s', sim.waiting[t], t);
    }
    forall t | t in s'.terminals ensures Occupancy(s', t) <= Slots(s'.terminals[t]) {
      assert Occupants(s', t) == Occupants(s, t);
    }
  }

  /** A quiet change keeps everything but, perhaps, the accounts of idle drivers. */
  lemma QuietKeepsInv(sim: Sim, sim': Sim, ahead: Ahead, ahead': Ahead, cast: Cast, b: Badge)
    requires Inv(sim, ahead, cast) && QuietChange(sim.store, sim'.store, b) && Valid(sim'.store)
    requires sim'.store.rankAgents == sim.store.rankAgents
    requires sim' == sim.(store := sim'.store, finished := sim'.finished)
    requires ahead' == ahead.(starts := ahead'.starts, ends := ahead'.ends)
    requires EveryoneAccounted(sim', ahead')
    ensures Inv(sim', ahead', cast)
  {
    QuietKeepsSets(sim.store, sim'.store, b);
    QuietKeepsRanks(sim, sim', b);
  }

  lemma JoinKeepsAccounts(sim: Sim, sim': Sim, ahead: Ahead, b: Badge)
    requires EveryoneAccounted(sim, ahead) && b in ahead.ends && JoinStep(sim, b) == Ok(sim')
    requires b in sim.store.taxis
    ensures EveryoneAccounted(sim', ahead.(starts := ahead.starts - multiset{b}))
  {
    var ahead' := ahead.(starts := ahead.starts - multiset{b});
    forall c | c in sim'.store.taxis ensures Accounted(sim', ahead', c) {
      assert Accounted(sim, ahead, c);
    }
  }

  lemma SkippedJoinKeepsInv(sim: Sim, ahead: Ahead, cast: Cast, starts: multiset<Badge>)
    requires Inv(sim, ahead, cast) && EveryoneAccounted(sim, ahead.(starts := starts))
    ensures Inv(sim, ahead.(starts := starts), cast)
  {
  }

  /** A shift starts: the driver joins, or the join conflicts and is skipped. */
  lemma JoinKeepsInv(sim: Sim, ahead: Ahead, cast: Cast, b: Badge)
    requires Inv(sim, ahead, cast) && b in cast.drivers && b in ahead.ends
    ensures JoinStep(sim, b).Ok?
    ensures Inv(JoinStep(sim, b).value, ahead.(starts := ahead.starts - multiset{b}), cast)
  {
    var sim', ahead' := JoinStep(sim, b).value, ahead.(starts := ahead.starts - multiset{b});
    JoinKeepsAccounts(sim, sim', ahead, b);
    if JoinFeederPark(sim.store, b).Ok? {
      JoinKeepsValid(sim.store, b);
      QuietKeepsInv(sim, sim', ahead, ahead', cast, b);
    } else {
      SkippedJoinKeepsInv(sim, ahead, cast, ahead'.starts);
    }
  }

  lemma EndShiftKeepsAccounts(sim: Sim, sim': Sim, ahead: Ahead, b: Badge)
    requires EveryoneAccounted(sim, ahead) && EndShiftStep(sim, b) == Ok(sim')
    ensures EveryoneAccounted(sim', ahead.(ends := ahead.ends - multiset{b}))
  {
    var ahead' := ahead.(ends := ahead.ends - multiset{b});
    forall c | c in sim'.store.taxis ensures Accounted(sim', ahead', c) {
      assert Accounted(sim, ahead, c);
    }
  }

  lemma SkippedEndKeepsInv(sim: Sim, ahead: Ahead, cast: Cast, ends: multiset<Badge>)
    requires Inv(sim, ahead, cast) && EveryoneAccounted(sim, ahead.(ends := ends))
    ensures Inv(sim, ahead.(ends := ends), cast)
  {
  }

  /** A shift ends: a driver waiting in the park goes home. */
  lemma EndShiftKeepsInv(sim: Sim, ahead: Ahead, cast: Cast, b: Badge)
    requires Inv(sim, ahead, cast)
    ensures EndShiftStep(sim, b).Ok?
    ensures Inv(EndShiftStep(sim, b).value, ahead.(ends := ahead.ends - multiset{b}), cast)
  {
    var sim', ahead' := EndShiftStep(sim, b).value, ahead.(ends := ahead.ends - multiset{b});
    EndShiftKeepsAccounts(sim, sim', ahead, b);
    if b in sim.store.taxis && sim.store.taxis[b].status == InFeederPark {
      LeaveKeepsValid(sim.store, b);
      QuietKeepsInv(sim, sim', ahead, ahead', cast, b);
    } else {
      SkippedEndKeepsInv(sim, ahead, cast, ahead'.ends);
    }
  }

  /** Giving up on a driver already counted as returned leaves the exempt outcomes alone. */
  lemma NeverFreedUpKeepsBooks(sim: Sim, ahead: Ahead, cast: Cast, b: Badge, destination: string)
    requires BooksBalance(sim, ahead, cast)
    ensures BooksBalance(GiveUp(sim, b, destination, NeverFreedUp), ahead, cast)
  {
  }

  lemma DroppedCheckKeepsAccounts(sim: Sim, sim': Sim, ahead: Ahead, b: Badge)
    requires EveryoneAccounted(sim, ahead) && b in ahead.checks
    requires sim'.store == sim.store && sim'.waiting == sim.waiting && sim.finished <= sim'.finished
    requires b in sim'.finished || !StillPending(sim.store, b)
    requires forall t :: t in sim.waiting ==> t != ""
    ensures EveryoneAccounted(sim', ahead.(checks := ahead.checks - multiset{b}))
  {
    forall c | c in sim'.store.taxis ensures Accounted(sim', ahead.(checks := ahead.checks - multiset{b}), c) {
      assert Accounted(sim, ahead, c);
    }
  }

  lemma RefiledCheckKeepsInv(sim: Sim, ahead: Ahead, cast: Cast, b: Badge)
    requires Inv(sim, ahead, cast) && Refiled(sim, b) != multiset{}
    ensures Inv(RetryStep(sim, b), ahead, cast)
  {
    hide Valid, Indexes, RanksHold, OnFareSet, OnExemptFareSet;
    var sim' := RetryStep(sim, b);
    forall c | c in sim'.store.taxis ensures Accounted(sim', ahead, c) {
      assert Accounted(sim, ahead, c);
    }
  }

  lemma DroppedCheckKeepsInv(sim: Sim, ahead: Ahead, cast: Cast, b: Badge)
    requires Inv(sim, ahead, cast) && b in ahead.checks && Refiled(sim, b) == multiset{}
    ensures Inv(RetryStep(sim, b), ahead.(checks := ahead.checks - multiset{b}), cast)
  {
    hide Valid, Indexes, RanksHold, OnFareSet, OnExemptFareSet, EveryoneAccounted;
    DroppedCheckKeepsAccounts(sim, RetryStep(sim, b), ahead, b);
    NeverFreedUpKeepsBooks(sim, ahead, cast, b, if b in sim.lastDestination then sim.lastDestination[b] else "unknown");
  }

  /** A promotion check is processed: dropped, filed again, or given up. */
  lemma RetryKeepsInv(sim: Sim, ahead: Ahead, cast: Cast, b: Badge)
    requires Inv(sim, ahead, cast) && b in ahead.checks
    ensures Inv(RetryStep(sim, b), ahead.(checks := ahead.checks - multiset{b} + Refiled(sim, b)), cast)
  {
    hide Inv, RetryStep;
    if Refiled(sim, b) == multiset{b} {
      RefiledCheckKeepsInv(sim, ahead, cast, b);
      assert ahead.checks - multiset{b} + Refiled(sim, b) == ahead.checks;
    } else {
      DroppedCheckKeepsInv(sim, ahead, cast, b);
      assert ahead.checks - multiset{b} + Refiled(sim, b) == ahead.checks - multiset{b};
    }
  }

  /** What a promotion check files again. */
  function Refiled(sim: Sim, b: Badge): multiset<Badge> {
    if StillPending(sim.store, b) && RetryCount(sim.retries, b) < MAX_RETURN_RETRIES then multiset{b} else multiset{}
  }

  lemma {:induction false} RetriesElsewhere(order: seq<Badge>, retries: map<Badge, nat>, b: Badge, n: nat)
    requires b !in order
    ensures RetriesLeft(order, retries[b := n]) == RetriesLeft(order, retries)
  {
    if order != [] {
      RetriesElsewhere(order[1..], retries, b, n);
    }
  }

  /** A retry uses one up. */
  lemma {:induction false} RetryUsesOne(order: seq<Badge>, retries: map<Badge, nat>, b: Badge)
    requires Distinct(order) && b in order && RetryCount(retries, b) < MAX_RETURN_RETRIES
    ensures RetriesLeft(order, retries[b := RetryCount(retries, b) + 1]) == RetriesLeft(order, retries) - 1
  {
    if order[0] == b {
      assert b !in order[1..];
      RetriesElsewhere(order[1..], retries, b, RetryCount(retries, b) + 1);
    } else {
      RetryUsesOne(order[1..], retries, b);
    }
  }

  /** Either the retries left go down, or the list of checks does not grow: the walk ends, even
      through a list that it lengthens itself. */
  lemma WalkMakesProgress(sim: Sim, b: Badge)
    requires InDay(sim) && OrderListsTaxis(sim.store)
    ensures var sim' := RetryStep(sim, b);
            && sim'.store == sim.store && sim'.minute == sim.minute && sim'.fareEnds == sim.fareEnds
            && if Refiled(sim, b) == multiset{}
               then sim'.retries == sim.retries && sim'.checks == sim.checks
               else RetriesLeft(sim.store.order, sim'.retries) < RetriesLeft(sim.store.order, sim.retries)
                    && sim'.checks == File(sim.checks, RetryMinute(sim.minute, |sim.checks|), b)
  {
    hide RetriesLeft;
    if Refiled(sim, b) != multiset{} {
      RetryUsesOne(sim.store.order, sim.retries, b);
    }
  }

  lemma ClockKeepsIndex(s: State, now: real, line: seq<Badge>, t: TerminalId)
    requires TaxisCoherent(s) && Indexes(s, line, t) && s.now <= now
    ensures Indexes(s.(now := now), line, t)
  {
    var s' := s.(now := now);
    assert Occupants(s', t) == Occupants(s, t);
    assert forall b :: b in Occupants(s, t) ==> Coherent(s.taxis[b]) && CalledTime(s', b) == CalledTime(s, b);
    IndexUnaffected(s, s', line, t);
  }

  lemma ClockKeepsStore(s: State, now: real)
    requires Valid(s) && RanksHold(s)
    ensures var s' := s.(now := now);
            && TaxisCoherent(s) && Valid(s') && RanksHold(s')
            && OnFareSet(s') == OnFareSet(s) && OnExemptFareSet(s') == OnExemptFareSet(s)
  {
    hide OrderListsTaxis, QueueListsParked, FaresHeld;
    var s' := s.(now := now);
    ValidIgnoresTheRest(s, s');
    assert OnFareSet(s') == OnFareSet(s);
    assert OnExemptFareSet(s') == OnExemptFareSet(s);
    assert forall t :: Occupants(s', t) == Occupants(s, t);
  }

  /** Time passes. */
  lemma TickKeepsInv(sim: Sim, ahead: Ahead, cast: Cast, m: nat, now: real)
    requires Inv(sim, ahead, cast) && m < |sim.checks| && sim.store.now <= now
    ensures Inv(Tick(sim, m, now), ahead, cast)
  {
    hide Valid, Indexes, RanksHold, OnFareSet, OnExemptFareSet;
    var sim' := Tick(sim, m, now);
    var s, s' := sim.store, sim'.store;
    ClockKeepsStore(s, now);
    forall t | t in sim'.waiting ensures Indexes(s', sim'.waiting[t], t) {
      ClockKeepsIndex(s, now, sim.waiting[t], t);
    }
    forall c | c in s'.taxis ensures Accounted(sim', ahead, c) {
      assert Accounted(sim, ahead, c);
    }
  }

  /** A snapshot only ever shows ranks within capacity. */
  lemma SnapshotKeepsInv(sim: Sim, ahead: Ahead, cast: Cast)
    requires Inv(sim, ahead, cast)
    ensures Inv(TakeSnapshot(sim), ahead, cast)
  {
    hide Valid, Indexes, OnFareSet, OnExemptFareSet, Occupants;
    var sim' := TakeSnapshot(sim);
    forall c | c in sim'.store.taxis ensures Accounted(sim', ahead, c) {
      assert Accounted(sim, ahead, c);
    }
  }

  // ---- the promotion sweep ----

  lemma PromotionMovesOnlySeated(s: State, b: Badge)
    requires Valid(s) && b in s.taxis && (forall t :: s.taxis[b].pendingTerminal == Some(t) ==> t in s.terminals)
    ensures var x' := PromoteDueReturns(s).taxis[b];
            || x' == s.taxis[b]
            || (s.taxis[b].status == ReturnExempt && s.taxis[b].pendingTerminal.Some?
                && b in SeatedList(s, s.taxis[b].pendingTerminal.value)
                && x' == Seat(s.taxis[b], s.taxis[b].pendingTerminal.value, s.now))
  {
  }

  lemma SeatedAreSeated(s: State, t: TerminalId, b: Badge)
    requires Valid(s) && b in SeatedList(s, t) && t in s.terminals
    ensures b in s.taxis && s.taxis[b].status == ReturnExempt
    ensures PromoteDueReturns(s).taxis[b] == Seat(s.taxis[b], t, s.now)
  {
    DueUpToMembers(s, t, |s.order|);
    assert b in DueList(s, t);
  }

  /** Whoever is on a rank keeps the time of the call; whoever is seated is called now. */
  lemma PromotionStampsSeated(s: State, t: TerminalId)
    requires Valid(s) && t in s.terminals
    ensures forall c :: c in Occupants(s, t) ==> CalledTime(PromoteDueReturns(s), c) == CalledTime(s, c)
    ensures forall c :: c in SeatedList(s, t) ==> CalledTime(PromoteDueReturns(s), c) == s.now
  {
    hide Valid;
    var s' := PromoteDueReturns(s);
    forall c | c in Occupants(s, t) ensures CalledTime(s', c) == CalledTime(s, c) {
      assert s'.taxis[c] == PromotedTaxi(s, c);
    }
    forall c | c in SeatedList(s, t) ensures CalledTime(s', c) == s.now {
      SeatedAreSeated(s, t, c);
    }
  }

  lemma SweepKeepsIndex(sim: Sim, cast: Cast, t: TerminalId)
    requires AsSetUp(sim, cast) && ShadowAgrees(sim) && t in sim.waiting
    ensures Indexes(SweepStep(sim).store, SweepStep(sim).waiting[t], t)
  {
    hide QueueListsParked, TaxisCoherent, FaresHeld, PromoteDueReturns;
    var s, s' := sim.store, SweepStep(sim).store;
    PromotedUpToEnds(s);
    OccupantsMidway(s, t, |s.order|);
    SeatedUpToMembers(s, t, |s.order|);
    PromotionStampsSeated(s, t);
    IndexExtended(s, s', sim.waiting[t], t, SeatedList(s, t));
  }

  lemma PromotionKeepsFares(s: State)
    requires Valid(s)
    ensures OnFareSet(PromoteDueReturns(s)) == OnFareSet(s)
    ensures OnExemptFareSet(PromoteDueReturns(s)) == OnExemptFareSet(s)
  {
    var s' := PromoteDueReturns(s);
    forall b | b in s.taxis
      ensures s'.taxis[b].status == OnFare <==> s.taxis[b].status == OnFare
      ensures CarriesExemptFare(s', b) <==> CarriesExemptFare(s, b)
    {
      assert s'.taxis[b] == PromotedTaxi(s, b);
    }
  }

  lemma SweepKeepsShadow(sim: Sim, ahead: Ahead, cast: Cast)
    requires AsSetUp(sim, cast) && ShadowAgrees(sim) && EveryoneAccounted(sim, ahead)
    ensures ShadowAgrees(SweepStep(sim))
  {
    var sim' := SweepStep(sim);
    forall t | t in sim'.waiting ensures Indexes(sim'.store, sim'.waiting[t], t) {
      SweepKeepsIndex(sim, cast, t);
    }
    forall b | b in sim'.store.taxis && sim'.store.taxis[b].status == Called
      ensures sim'.store.taxis[b].terminalId.Some? && sim'.store.taxis[b].terminalId.value in sim'.waiting
    {
      assert Accounted(sim, ahead, b);
      PromotionMovesOnlySeated(sim.store, b);
    }
  }

  lemma SweepKeepsAccounts(sim: Sim, ahead: Ahead, cast: Cast)
    requires AsSetUp(sim, cast) && EveryoneAccounted(sim, ahead)
    ensures EveryoneAccounted(SweepStep(sim), ahead)
  {
    var sim' := SweepStep(sim);
    forall b | b in sim'.store.taxis ensures Accounted(sim', ahead, b) {
      assert Accounted(sim, ahead, b);
      PromotionMovesOnlySeated(sim.store, b);
    }
  }

  lemma PromotionKeepsHold(s: State)
    requires Valid(s) && RanksHold(s)
    ensures RanksHold(PromoteDueReturns(s))
  {
    forall t | t in s.terminals ensures Occupancy(PromoteDueReturns(s), t) <= Slots(s.terminals[t]) {
      PromotionFillsSlots(s, t);
    }
  }

  lemma SweepKeepsSetUp(sim: Sim, cast: Cast)
    requires AsSetUp(sim, cast)
    ensures AsSetUp(SweepStep(sim), cast)
  {
    PromotionKeepsValid(sim.store);
  }

  /** The sweep: whoever is newly seated is queued for demand behind those already waiting. */
  lemma SweepKeepsInv(sim: Sim, ahead: Ahead, cast: Cast)
    requires Inv(sim, ahead, cast)
    ensures Inv(SweepStep(sim), ahead, cast)
  {
    SweepKeepsSetUp(sim, cast);
    SweepKeepsShadow(sim, ahead, cast);
    SweepKeepsAccounts(sim, ahead, cast);
    PromotionKeepsHold(sim.store);
    PromotionKeepsFares(sim.store);
  }

  // ---- demand ----

  /** The taxi that answers demand at `t`: the longest waiting one, else the front of the park. */
  function Caller(sim: Sim, t: TerminalId): Option<Badge> {
    if Deque(sim, t) != [] then Some(Deque(sim, t)[0])
    else if sim.store.queue != [] then Some(sim.store.queue[0])
    else None
  }

  /** Central dispatch never checks capacity.  In the engine it happens only when nobody waits at the
      terminal, so the called taxi is alone on the rank: it fits there exactly if the rank has a slot
      at all, and no other rank changes. */
  lemma CentralDispatchFits(sim: Sim, ahead: Ahead, cast: Cast, t: TerminalId)
    requires Inv(sim, ahead, cast) && t in cast.terminals && Deque(sim, t) == []
    requires CallNextTaxi(sim.store, t).Ok?
    ensures Occupancy(sim.store, t) == 0
    ensures Occupancy(CallNextTaxi(sim.store, t).value, t) == 1
    ensures RanksHold(CallNextTaxi(sim.store, t).value) <==> cast.terminals[t].capacity >= 1
  {
    hide Valid, Occupancy, CallNextTaxi;
    var s := sim.store;
    EmptyDequeEmptyRank(sim, cast, t);
    forall r ensures Occupancy(CallNextTaxi(s, t).value, r) == Occupancy(s, r) + if r == t then 1 else 0 {
      CallTakesOneSlot(s, t, r);
    }
    CallKeepsTerminals(s, t);
  }

  lemma EmptyDequeEmptyRank(sim: Sim, cast: Cast, t: TerminalId)
    requires AsSetUp(sim, cast) && ShadowAgrees(sim) && t in cast.terminals && Deque(sim, t) == []
    ensures Occupancy(sim.store, t) == 0
  {
    hide Valid, Occupants;
    assert Indexes(sim.store, sim.waiting[t], t) && Elements(sim.waiting[t]) == {};
  }

  lemma CallKeepsTerminals(s: State, t: TerminalId)
    requires CallNextTaxi(s, t).Ok?
    ensures CallNextTaxi(s, t).value.terminals == s.terminals
  {
  }

  /** What serving a passenger comes to, whichever way the taxi was found. */
  ghost predicate Served(sim: Sim, sim': Sim, t: TerminalId, b: Badge, fare: SimulatedFare, leg: real)
    requires InDay(sim)
  {
    var s, s', line := sim.store, sim'.store, Deque(sim, t);
    && b in s.taxis && b in s'.taxis && s'.taxis == s.taxis[b := s'.taxis[b]]
    && (if line != [] then b == line[0] && b in Occupants(s, t) else s.taxis[b].status == InFeederPark)
    && s'.taxis[b].status == OnFare && s'.taxis[b].pendingTerminal.None?
    && s'.taxis[b].currentFare == Some(s.nextFareId) && s.nextFareId in s'.fares
    && s'.fares == s.fares[s.nextFareId := s'.fares[s.nextFareId]]
    && s'.fares[s.nextFareId].classification == fare.classification
    && s'.fares[s.nextFareId].destination == fare.destination
    && s'.fares[s.nextFareId].terminalId == t && s'.fares[s.nextFareId].recordedBy == AgentOf(t)
    && Valid(s') && s'.terminals == s.terminals && s'.rankAgents == s.rankAgents && s'.now == s.now
    && sim' == sim.(store := s',
                    waiting := if line == [] then sim.waiting else sim.waiting[t := line[1..]],
                    stats := sim.stats.(faresByClass := sim.stats.faresByClass + multiset{fare.classification}),
                    lastDestination := sim.lastDestination[b := fare.destination],
                    fareEnds := File(sim.fareEnds, FareEndMinute(sim.minute, |sim.fareEnds|, leg), FareEnd(b, fare)))
  }

  lemma RecordingServes(s: State, t: TerminalId, b: Badge, fare: SimulatedFare)
    requires Valid(s) && b in Occupants(s, t) && t in s.terminals && t != "" && AgentOf(t) in s.rankAgents
    requires LabelAgrees(fare)
    ensures var r := RecordFare(s, b, fare.destination, AgentOf(t), None, None);
            && r.Ok? && Valid(r.value)
            && r.value.taxis == s.taxis[b := s.taxis[b].(currentFare := Some(s.nextFareId), status := OnFare)]
            && s.nextFareId in r.value.fares
            && r.value.fares == s.fares[s.nextFareId := r.value.fares[s.nextFareId]]
            && r.value.fares[s.nextFareId].classification == fare.classification
            && r.value.fares[s.nextFareId].destination == fare.destination
            && r.value.fares[s.nextFareId].terminalId == t && r.value.fares[s.nextFareId].recordedBy == AgentOf(t)
            && r.value.terminals == s.terminals && r.value.rankAgents == s.rankAgents && r.value.now == s.now
  {
    RecordKeepsValid(s, b, fare.destination, AgentOf(t), None, None);
  }

  lemma WaitingTaxiServes(sim: Sim, cast: Cast, t: TerminalId, fare: SimulatedFare, leg: real)
    requires AsSetUp(sim, cast) && ShadowAgrees(sim) && t in cast.terminals && LabelAgrees(fare)
    requires Deque(sim, t) != []
    ensures DemandStep(sim, t, fare, leg).Ok?
    ensures Served(sim, DemandStep(sim, t, fare, leg).value, t, Deque(sim, t)[0], fare, leg)
  {
    var s, b := sim.store, Deque(sim, t)[0];
    assert Indexes(s, sim.waiting[t], t);
    assert b in Elements(sim.waiting[t]);
    assert Coherent(s.taxis[b]);
    RecordingServes(s, t, b, fare);
  }

  lemma CalledTaxiServes(sim: Sim, cast: Cast, t: TerminalId, fare: SimulatedFare, leg: real)
    requires AsSetUp(sim, cast) && t in cast.terminals && LabelAgrees(fare)
    requires Deque(sim, t) == [] && sim.store.queue != []
    ensures DemandStep(sim, t, fare, leg).Ok?
    ensures Served(sim, DemandStep(sim, t, fare, leg).value, t, sim.store.queue[0], fare, leg)
  {
    hide RecordFare, LabelAgrees, OrderListsTaxis, FaresHeld;
    var s, b := sim.store, sim.store.queue[0];
    assert b in s.queue;
    assert Coherent(s.taxis[b]);
    CallNextKeepsValid(s, t);
    RecordingServes(CallNextTaxi(s, t).value, t, b, fare);
  }

  /** With anyone to call, the passenger is served. */
  lemma DemandIsServed(sim: Sim, cast: Cast, t: TerminalId, b: Badge, fare: SimulatedFare, leg: real)
    requires AsSetUp(sim, cast) && ShadowAgrees(sim) && t in cast.terminals && LabelAgrees(fare)
    requires Caller(sim, t) == Some(b)
    ensures DemandStep(sim, t, fare, leg).Ok?
    ensures Served(sim, DemandStep(sim, t, fare, leg).value, t, b, fare, leg)
  {
    if Deque(sim, t) != [] {
      WaitingTaxiServes(sim, cast, t, fare, leg);
    } else {
      CalledTaxiServes(sim, cast, t, fare, leg);
    }
  }

  lemma ServedKeepsIndex(sim: Sim, sim': Sim, cast: Cast, t: TerminalId, b: Badge, fare: SimulatedFare, leg: real,
                         r: TerminalId)
    requires AsSetUp(sim, cast) && ShadowAgrees(sim) && t in cast.terminals && r in sim.waiting
    requires Served(sim, sim', t, b, fare, leg)
    ensures Indexes(sim'.store, sim'.waiting[r], r) && Occupants(sim'.store, r) <= Occupants(sim.store, r)
  {
    hide Valid, FareEndMinute, File;
    var s, s', line := sim.store, sim'.store, Deque(sim, t);
    OneTaxiOnRank(s, s', b, r);
    assert Indexes(s, sim.waiting[r], r);
    if r == t && line != [] {
      IndexPopped(s, s', line, t);
    } else {
      assert b !in Occupants(s, r);
      IndexUnaffected(s, s', sim.waiting[r], r);
    }
  }

  lemma ServedKeepsShadow(sim: Sim, sim': Sim, cast: Cast, t: TerminalId, b: Badge, fare: SimulatedFare, leg: real)
    requires AsSetUp(sim, cast) && ShadowAgrees(sim) && RanksHold(sim.store) && t in cast.terminals
    requires Served(sim, sim', t, b, fare, leg)
    ensures ShadowAgrees(sim') && RanksHold(sim'.store)
  {
    hide Valid, Indexes, Occupants;
    var s, s' := sim.store, sim'.store;
    forall r | r in sim'.waiting
      ensures Indexes(s', sim'.waiting[r], r) && Occupancy(s', r) <= Slots(s'.terminals[r])
    {
      ServedKeepsIndex(sim, sim', cast, t, b, fare, leg, r);
      FewerOccupants(s, s', r);
    }
  }

  lemma FewerOccupants(s: State, s': State, t: TerminalId)
    requires Occupants(s', t) <= Occupants(s, t)
    ensures Occupancy(s', t) <= Occupancy(s, t)
  {
    assert Occupants(s, t) == Occupants(s', t) + (Occupants(s, t) - Occupants(s', t));
  }

  lemma ServedKeepsFares(sim: Sim, sim': Sim, t: TerminalId, b: Badge, fare: SimulatedFare, leg: real)
    requires InDay(sim) && Valid(sim.store) && Served(sim, sim', t, b, fare, leg)
    ensures b !in OnFareSet(sim.store) && OnFareSet(sim'.store) == OnFareSet(sim.store) + {b}
    ensures OnExemptFareSet(sim'.store) ==
            OnExemptFareSet(sim.store) + if fare.classification != Standard then {b} else {}
    ensures b !in OnExemptFareSet(sim.store)
  {
    var s, s' := sim.store, sim'.store;
    OneTaxiRewritten(s, s', b);
    forall c | c in s.taxis && c != b ensures CarriesExemptFare(s', c) <==> CarriesExemptFare(s, c) {
      assert HoldsOwnFare(s, c);
    }
  }

  lemma OneMore(xs: set<Badge>, b: Badge)
    requires b !in xs
    ensures multiset(xs + {b}) == multiset(xs) + multiset{b} && |xs + {b}| == |xs| + 1
  {
  }

  lemma CountOne<T>(counter: multiset<T>, x: T, y: T)
    ensures |counter + multiset{x}| == |counter| + 1
    ensures (counter + multiset{x})[y] == counter[y] + if x == y then 1 else 0
  {
  }

  lemma OneLess<T>(counter: multiset<T>, x: T)
    requires x in counter
    ensures |counter - multiset{x}| == |counter| - 1
  {
  }

  function ServedAhead(ahead: Ahead, t: TerminalId, b: Badge): Ahead {
    ahead.(demand := ahead.demand - multiset{t}, fareEnds := ahead.fareEnds + multiset{b})
  }

  lemma ServingBalances(sim: Sim, sim': Sim, ahead: Ahead, cast: Cast, t: TerminalId, b: Badge, c: FareClass)
    requires FaresScheduled(sim, ahead) && BooksBalance(sim, ahead, cast) && t in ahead.demand
    requires sim'.stats == sim.stats.(faresByClass := sim.stats.faresByClass + multiset{c})
    requires b !in OnFareSet(sim.store) && b !in OnExemptFareSet(sim.store)
    requires OnFareSet(sim'.store) == OnFareSet(sim.store) + {b}
    requires OnExemptFareSet(sim'.store) == OnExemptFareSet(sim.store) + if c != Standard then {b} else {}
    ensures FaresScheduled(sim', ServedAhead(ahead, t, b)) && BooksBalance(sim', ServedAhead(ahead, t, b), cast)
  {
    hide OnFareSet, OnExemptFareSet;
    OneMore(OnFareSet(sim.store), b);
    OneMore(OnExemptFareSet(sim.store), b);
    CountOne(sim.stats.faresByClass, c, Standard);
    OneLess(ahead.demand, t);
  }

  lemma ServedKeepsBooks(sim: Sim, sim': Sim, ahead: Ahead, cast: Cast, t: TerminalId, b: Badge,
                         fare: SimulatedFare, leg: real)
    requires InDay(sim) && Valid(sim.store) && Served(sim, sim', t, b, fare, leg)
    requires FaresScheduled(sim, ahead) && BooksBalance(sim, ahead, cast) && t in ahead.demand
    ensures FaresScheduled(sim', ServedAhead(ahead, t, b)) && BooksBalance(sim', ServedAhead(ahead, t, b), cast)
  {
    ServedKeepsFares(sim, sim', t, b, fare, leg);
    ServingBalances(sim, sim', ahead, cast, t, b, fare.classification);
  }

  lemma ServedKeepsAccounts(sim: Sim, sim': Sim, ahead: Ahead, t: TerminalId, b: Badge,
                            fare: SimulatedFare, leg: real)
    requires InDay(sim) && Served(sim, sim', t, b, fare, leg) && EveryoneAccounted(sim, ahead)
    requires t in sim.waiting
    ensures EveryoneAccounted(sim', ServedAhead(ahead, t, b))
  {
    forall c | c in sim'.store.taxis ensures Accounted(sim', ServedAhead(ahead, t, b), c) {
      assert Accounted(sim, ahead, c);
    }
  }

  /** A passenger is served by the longest waiting taxi, else by the front of the park. */
  lemma ServedDemandKeepsInv(sim: Sim, ahead: Ahead, cast: Cast, t: TerminalId, fare: SimulatedFare, leg: real)
    requires Inv(sim, ahead, cast) && t in ahead.demand && t in cast.terminals && LabelAgrees(fare)
    requires Caller(sim, t).Some?
    ensures DemandStep(sim, t, fare, leg).Ok?
    ensures Served(sim, DemandStep(sim, t, fare, leg).value, t, Caller(sim, t).value, fare, leg)
    ensures Inv(DemandStep(sim, t, fare, leg).value, ServedAhead(ahead, t, Caller(sim, t).value), cast)
  {
    var b := Caller(sim, t).value;
    DemandIsServed(sim, cast, t, b, fare, leg);
    var sim' := DemandStep(sim, t, fare, leg).value;
    ServedKeepsShadow(sim, sim', cast, t, b, fare, leg);
    ServedKeepsBooks(sim, sim', ahead, cast, t, b, fare, leg);
    ServedKeepsAccounts(sim, sim', ahead, t, b, fare, leg);
    ServedKeepsRest(sim, sim', ahead, cast, t, b, fare, leg);
  }

  lemma ServedKeepsRest(sim: Sim, sim': Sim, ahead: Ahead, cast: Cast, t: TerminalId, b: Badge,
                        fare: SimulatedFare, leg: real)
    requires AsSetUp(sim, cast) && Served(sim, sim', t, b, fare, leg) && t in cast.terminals
    requires SnapshotsFit(sim, cast) && RetriesBounded(sim, ahead)
    ensures AsSetUp(sim', cast) && SnapshotsFit(sim', cast) && RetriesBounded(sim', ServedAhead(ahead, t, b))
  {
  }

  lemma UnmetKeepsAccounts(sim: Sim, ahead: Ahead, t: TerminalId)
    requires EveryoneAccounted(sim, ahead)
    ensures EveryoneAccounted(Unmet(sim), ahead.(demand := ahead.demand - multiset{t}))
  {
    forall c | c in sim.store.taxis ensures Accounted(Unmet(sim), ahead.(demand := ahead.demand - multiset{t}), c) {
      assert Accounted(sim, ahead, c);
    }
  }

  function Unmet(sim: Sim): Sim {
    sim.(stats := sim.stats.(unmet := sim.stats.unmet + 1))
  }

  /** Nobody waits at the terminal and the park is empty: the demand is counted as unmet. */
  lemma UnmetDemandKeepsInv(sim: Sim, ahead: Ahead, cast: Cast, t: TerminalId, fare: SimulatedFare, leg: real)
    requires Inv(sim, ahead, cast) && t in ahead.demand && t in cast.terminals
    requires Caller(sim, t).None?
    ensures DemandStep(sim, t, fare, leg) == Ok(Unmet(sim))
    ensures Inv(Unmet(sim), ahead.(demand := ahead.demand - multiset{t}), cast)
  {
    hide Valid, Indexes, RanksHold, OnFareSet, OnExemptFareSet, EveryoneAccounted;
    UnmetKeepsAccounts(sim, ahead, t);
  }
}
