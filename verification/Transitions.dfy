/** What a service call does, in terms a driver or an agent could check: when it succeeds and what it
    raises, what becomes of the taxi it is about, and what no call ever touches. */
module Transitions {
  import opened Domain
  import opened Lists
  import opened StoreSpec
  import opened Lifecycle
  import opened Destinations

  // ---- the life of a taxi ----

  /** A taxi changes status only along the edges of this diagram, each with its own call. */
  lemma StatusDiagram(s: State, op: Op, b: Badge)
    requires Valid(s) && b in s.taxis && b in After(s, op).taxis
    ensures var from, to := s.taxis[b].status, After(s, op).taxis[b].status;
            || to == from
            || (from == Offline && to == InFeederPark && op == Join(b))
            || (from == InFeederPark && to == Offline && op == Leave(b))
            || (from == InFeederPark && to == Called && op.CallNext? && s.queue != [] && s.queue[0] == b)
            || (from == Called && to == OnFare && op.Record? && op.badge == b)
            || (from == OnFare && to in {InFeederPark, ReturnExempt} && op == Complete(b))
            || (from == ReturnExempt && to == Called && ((op.Return? && op.badge == b) || op.Promote?))
  {
    hide FaresHeld, OrderListsTaxis, SeatedList, HasRoom, ReturnDeadlineMinutes;
    if !Concerns(s, op, b) {
      OthersUntouched(s, op, b);
    } else if op.Promote? {
      assert After(s, op).taxis[b] == PromotedTaxi(s, b);
    }
    assert op.CallNext? && s.queue != [] ==> s.queue[0] in s.queue;
  }

  /** Each field of a taxi changes only with the moves it belongs to, and the name never.  `intends`
      says that the call was about where the taxi means to return. */
  predicate FieldsFollow(x: TaxiState, y: TaxiState, intends: bool) {
    && y.driverName == x.driverName
    && (y.joinedAt != x.joinedAt ==> y.status != x.status && InFeederPark in {x.status, y.status})
    && (y.terminalId != x.terminalId ==> y.status == Called || x.status == OnFare)
    && (y.calledAt != x.calledAt || y.selfCheckedIn != x.selfCheckedIn ==> x.status != Called && y.status == Called)
    && (y.currentFare != x.currentFare ==> y.status != x.status && OnFare in {x.status, y.status})
    && (y.exemptionType != x.exemptionType || y.exemptionDestination != x.exemptionDestination ==>
          y.status != x.status && ReturnExempt in {x.status, y.status})
    && (y.returnDeadline != x.returnDeadline ==> y.status != x.status && ReturnExempt in {x.status, y.status})
    && (y.lastReturnOnTime != x.lastReturnOnTime ==> x.status == ReturnExempt && y.status == Called)
    && (y.pendingTerminal != x.pendingTerminal || y.expectedArrival != x.expectedArrival ==>
          x.status == ReturnExempt && intends)
  }

  predicate AboutReturns(op: Op) {
    op.Return? || op.Promote?
  }

  lemma PromotionFollows(s: State, b: Badge)
    requires b in s.taxis
    ensures FieldsFollow(s.taxis[b], PromoteDueReturns(s).taxis[b], true)
  {
    hide SeatedList;
    assert PromoteDueReturns(s).taxis[b] == PromotedTaxi(s, b);
  }

  lemma ReturnFollows(s: State, b: Badge, t: TerminalId, eta: real)
    requires b in s.taxis
    ensures var s' := After(s, Return(b, t, eta));
            b in s'.taxis && FieldsFollow(s.taxis[b], s'.taxis[b], true)
  {
    hide HasRoom;
  }

  lemma CompletionFollows(s: State, b: Badge)
    requires b in s.taxis && Coherent(s.taxis[b])
    ensures var s' := After(s, Complete(b));
            b in s'.taxis && FieldsFollow(s.taxis[b], s'.taxis[b], false)
  {
    hide ReturnDeadlineMinutes;
  }

  lemma OtherMoveFollows(s: State, op: Op, b: Badge)
    requires Valid(s) && b in s.taxis && b in After(s, op).taxis && Concerns(s, op, b)
    requires !op.Promote? && !op.Return? && !op.Complete?
    ensures FieldsFollow(s.taxis[b], After(s, op).taxis[b], false)
  {
    hide FaresHeld, OrderListsTaxis, ClassifyDestination;
    assert Coherent(s.taxis[b]);
    assert op.CallNext? ==> b in s.queue;
  }

  lemma MoveFollows(s: State, op: Op, b: Badge)
    requires Valid(s) && b in s.taxis && b in After(s, op).taxis && Concerns(s, op, b) && !op.Promote?
    ensures FieldsFollow(s.taxis[b], After(s, op).taxis[b], AboutReturns(op))
  {
    hide After;
    assert Coherent(s.taxis[b]);
    if op.Return? {
      ReturnFollows(s, op.badge, op.terminal, op.eta);
    } else if op.Complete? {
      CompletionFollows(s, op.badge);
    } else {
      OtherMoveFollows(s, op, b);
    }
  }

  lemma FieldsFollowStatus(s: State, op: Op, b: Badge)
    requires Valid(s) && b in s.taxis && b in After(s, op).taxis
    ensures FieldsFollow(s.taxis[b], After(s, op).taxis[b], AboutReturns(op))
    ensures op.Return? && op.badge != b ==> After(s, op).taxis[b] == s.taxis[b]
  {
    hide Valid, FieldsFollow, PromoteDueReturns, HasRoom, ReturnDeadlineMinutes;
    if !Concerns(s, op, b) {
      OthersUntouched(s, op, b);
      NothingFollows(s.taxis[b], AboutReturns(op));
    } else if op.Promote? {
      PromotionFollows(s, b);
    } else {
      MoveFollows(s, op, b);
    }
  }

  lemma NothingFollows(x: TaxiState, intends: bool)
    ensures FieldsFollow(x, x, intends)
  {
  }

  /** Each part of the store changes only with the calls it belongs to. */
  lemma PartsFollowCalls(s: State, op: Op)
    ensures var s' := After(s, op);
            && (s'.order != s.order || s'.taxis.Keys != s.taxis.Keys ==> op.NewTaxi? || op.DropTaxi?)
            && (s'.terminals != s.terminals ==> op.NewTerminal? || op.DropTerminal?)
            && (s'.rankAgents != s.rankAgents ==> op.NewAgent?)
            && (s'.queue != s.queue ==> op.DropTaxi? || op.Join? || op.Leave? || op.CallNext? || op.Complete?)
            && (s'.fares.Keys != s.fares.Keys || s'.nextFareId != s.nextFareId ==> op.Record?)
            && (s'.fares != s.fares ==> op.Record? || op.Complete?)
            && (s'.dispatchEvents != s.dispatchEvents ==> op.CallNext?)
            && (s'.traffic != s.traffic ==> op.SetTraffic?)
            && (s'.now != s.now ==> op.SetClock?)
  {
    hide HasRoom, ReturnDeadlineMinutes, PromotedTaxi;
  }

  // ---- administration ----

  /** A new taxi is blank; removing it again leaves no trace. */
  lemma NewTaxiEffect(s: State, b: Badge, name: string)
    requires Valid(s)
    ensures AddTaxi(s, b, name).Ok? <==> b !in s.taxis
    ensures AddTaxi(s, b, name).Err? ==> AddTaxi(s, b, name) == Err(Conflict)
    ensures AddTaxi(s, b, name).Ok? ==>
              var s' := AddTaxi(s, b, name).value;
              && b in s'.taxis && Coherent(s'.taxis[b]) && s'.taxis[b].status == Offline
              && s'.taxis[b].driverName == name && s'.taxis[b].lastReturnOnTime.None? && s'.taxis[b].calledAt.None?
              && !s'.taxis[b].selfCheckedIn && s'.order == s.order + [b] && RemoveTaxi(s', b) == Ok(s)
  {
    if b !in s.taxis {
      assert b !in s.order && b !in s.queue;
      LastIsRemoved(s.order, b);
      RemoveFirstAbsent(s.queue, b);
      assert s.taxis[b := AddTaxi(s, b, name).value.taxis[b]] - {b} == s.taxis;
    }
  }

  lemma LastIsRemoved<T>(xs: seq<T>, x: T)
    requires x !in xs
    ensures RemoveFirst(xs + [x], x) == xs
  {
    RemoveFirstCuts(xs + [x], x);
    var i := IndexOf(xs + [x], x);
    assert (xs + [x])[i] == x && i == |xs|;
    assert (xs + [x])[..i] == xs;
  }

  /** Removing a taxi takes its badge away everywhere, and the rest keeps its order. */
  lemma DropTaxiEffect(s: State, b: Badge)
    requires Valid(s)
    ensures RemoveTaxi(s, b).Ok? <==> b in s.taxis
    ensures RemoveTaxi(s, b).Err? ==> RemoveTaxi(s, b) == Err(NotFound)
    ensures RemoveTaxi(s, b).Ok? ==>
              var s' := RemoveTaxi(s, b).value;
              && b !in s'.taxis && b !in s'.order && b !in s'.queue && s'.taxis.Keys == s.taxis.Keys - {b}
              && (forall before, after :: s.order == before + [b] + after ==> s'.order == before + after)
              && (forall before, after :: s.queue == before + [b] + after ==> s'.queue == before + after)
              && (b !in s.queue ==> s'.queue == s.queue)
  {
    if b in s.taxis {
      RemoveFirstKeepsDistinct(s.order, b);
      RemoveFirstKeepsDistinct(s.queue, b);
      OnlyOneIsCut(s.order, b);
      OnlyOneIsCut(s.queue, b);
      RemoveFirstAbsentIf(s.queue, b);
    }
  }

  lemma RemoveFirstAbsentIf<T>(xs: seq<T>, x: T)
    ensures x !in xs ==> RemoveFirst(xs, x) == xs
  {
    if x !in xs {
      RemoveFirstAbsent(xs, x);
    }
  }

  lemma OnlyOneIsCut<T>(xs: seq<T>, x: T)
    requires Distinct(xs)
    ensures forall before, after :: xs == before + [x] + after ==> RemoveFirst(xs, x) == before + after
  {
    forall before, after | xs == before + [x] + after ensures RemoveFirst(xs, x) == before + after {
      assert xs[|before|] == x;
      IndexIsUnique(xs, x, |before|);
      RemoveFirstCuts(xs, x);
      assert xs[..|before|] == before && xs[|before| + 1..] == after;
    }
  }

  /** A terminal holds 15 taxis unless told otherwise; removing it again leaves no trace. */
  lemma TerminalEffect(s: State, t: TerminalId, name: string, capacity: Option<int>)
    ensures AddTerminal(s, t, name, capacity).Ok? <==> t !in s.terminals
    ensures AddTerminal(s, t, name, capacity).Err? ==> AddTerminal(s, t, name, capacity) == Err(Conflict)
    ensures AddTerminal(s, t, name, capacity).Ok? ==>
              var s' := AddTerminal(s, t, name, capacity).value;
              && t in s'.terminals && s'.terminals[t].name == name
              && (capacity.None? ==> s'.terminals[t].capacity == 15)
              && (capacity.Some? ==> s'.terminals[t].capacity == capacity.value)
              && RemoveTerminal(s', t) == Ok(s)
    ensures t !in s.terminals ==> RemoveTerminal(s, t) == Err(NotFound)
  {
    if t !in s.terminals {
      assert AddTerminal(s, t, name, capacity).value.terminals - {t} == s.terminals;
    }
  }

  lemma AgentEffect(s: State, a: AgentId, home: Option<TerminalId>)
    ensures AddRankAgent(s, a, home).Ok? <==> a !in s.rankAgents && (home.Some? ==> home.value in s.terminals)
    ensures AddRankAgent(s, a, home).Err? ==>
              AddRankAgent(s, a, home) == Err(if a in s.rankAgents then Conflict else NotFound)
    ensures AddRankAgent(s, a, home).Ok? ==>
              var s' := AddRankAgent(s, a, home).value;
              a in s'.rankAgents && s'.rankAgents[a] == home && s'.rankAgents - {a} == s.rankAgents
  {
  }

  /** Traffic level and clock are set to what is asked, whatever they were, and nothing else changes. */
  lemma SettingsEffect(s: State, level: Traffic, time: real)
    ensures After(After(s, SetTraffic(level)), SetClock(time)) == s.(traffic := level, now := time)
    ensures After(After(s, SetClock(time)), SetTraffic(level)) == s.(traffic := level, now := time)
  {
  }

  // ---- the feeder park ----

  /** Whoever joins stands last, stamped with the time; leaving at once undoes it. */
  lemma JoinEffect(s: State, b: Badge)
    requires Valid(s)
    ensures JoinFeederPark(s, b).Ok? <==> b in s.taxis && s.taxis[b].status == Offline
    ensures JoinFeederPark(s, b).Err? ==> JoinFeederPark(s, b) == Err(if b in s.taxis then Conflict else NotFound)
    ensures JoinFeederPark(s, b).Ok? ==>
              var s' := JoinFeederPark(s, b).value;
              && b in s'.taxis && s'.taxis[b].status == InFeederPark && s'.taxis[b].joinedAt == Some(s.now)
              && s'.queue == s.queue + [b] && LeaveFeederPark(s', b) == Ok(s)
  {
    if b in s.taxis && s.taxis[b].status == Offline {
      assert b !in s.queue && Coherent(s.taxis[b]);
      LastIsRemoved(s.queue, b);
      var s' := JoinFeederPark(s, b).value;
      assert s'.taxis[b := s'.taxis[b].(status := Offline, joinedAt := None)] == s.taxis;
    }
  }

  /** Whoever leaves, from wherever in the queue, is gone from it, and the others keep their order. */
  lemma LeaveEffect(s: State, b: Badge)
    requires Valid(s)
    ensures LeaveFeederPark(s, b).Ok? <==> b in s.taxis && s.taxis[b].status == InFeederPark
    ensures LeaveFeederPark(s, b).Err? ==> LeaveFeederPark(s, b) == Err(if b in s.taxis then Conflict else NotFound)
    ensures LeaveFeederPark(s, b).Ok? ==>
              var s' := LeaveFeederPark(s, b).value;
              && b in s'.taxis && s'.taxis[b].status == Offline
              && b in s.queue && b !in s'.queue
              && forall before, after :: s.queue == before + [b] + after ==> s'.queue == before + after
  {
    if b in s.taxis && s.taxis[b].status == InFeederPark {
      assert b in s.queue;
      OnlyOneIsCut(s.queue, b);
      RemoveFirstKeepsDistinct(s.queue, b);
    }
  }

  /** The front of the queue is called, whoever it is; no capacity is asked for. */
  lemma CallEffect(s: State, t: TerminalId)
    requires Valid(s)
    ensures CallNextTaxi(s, t).Ok? <==> t in s.terminals && s.queue != []
    ensures CallNextTaxi(s, t).Err? ==> CallNextTaxi(s, t) == Err(if t in s.terminals then Conflict else NotFound)
    ensures CallNextTaxi(s, t).Ok? ==>
              var s', b := CallNextTaxi(s, t).value, s.queue[0];
              && b in s.taxis && b in s'.taxis && [b] + s'.queue == s.queue
              && s'.taxis[b].status == Called && s'.taxis[b].terminalId == Some(t)
              && s'.taxis[b].calledAt == Some(s.now) && !s'.taxis[b].selfCheckedIn
              && s'.dispatchEvents == s.dispatchEvents + [DispatchEvent(t, s.now)]
  {
    assert s.queue != [] ==> s.queue[0] in s.queue;
  }

  // ---- fares ----

  /** What the rank agent must know and the taxi must be for a fare to be recorded. */
  lemma RecordRaises(s: State, b: Badge, destination: string, agent: AgentId, override: Option<FareClass>,
                     roundTrip: Option<real>)
    requires Valid(s)
    ensures var r := RecordFare(s, b, destination, agent, override, roundTrip);
            if b !in s.taxis || agent !in s.rankAgents then r == Err(NotFound)
            else if s.taxis[b].status != Called || s.taxis[b].terminalId == Some("") then r == Err(Conflict)
            else r.Ok? <==> s.taxis[b].terminalId.value in s.terminals
    ensures var r := RecordFare(s, b, destination, agent, override, roundTrip);
            b in s.taxis && s.taxis[b].status == Called && r.Err? && r.error == NotFound ==>
              agent !in s.rankAgents || s.taxis[b].terminalId.value !in s.terminals
  {
    hide ClassifyDestination, OrderListsTaxis, QueueListsParked, FaresHeld;
    assert b in s.taxis ==> Coherent(s.taxis[b]);
  }

  /** The new fare says who drives where from which rank, who recorded it and when; a class given by the
      agent stands, with the agent's estimate. */
  lemma RecordEffect(s: State, b: Badge, destination: string, agent: AgentId, override: Option<FareClass>,
                     roundTrip: Option<real>)
    requires Valid(s) && RecordFare(s, b, destination, agent, override, roundTrip).Ok?
    ensures var s', id := RecordFare(s, b, destination, agent, override, roundTrip).value, s.nextFareId;
            && b in s.taxis && b in s'.taxis && s'.taxis[b].status == OnFare && s'.taxis[b].currentFare == Some(id)
            && s'.nextFareId > id && id !in s.fares && id in s'.fares && s'.fares - {id} == s.fares
            && var f := s'.fares[id];
            && f.badge == b && s.taxis[b].terminalId == Some(f.terminalId) && f.destination == destination
            && f.recordedBy == agent && f.recordedAt == s.now && f.completedAt.None?
            && (override.Some? ==> f.classification == override.value && f.roundTrip == roundTrip)
            && (override.None? ==>
                  (f.classification, f.roundTrip) == ClassifyDestination(destination, None, None))
  {
    hide FindDestination, Lower, Strip, OrderListsTaxis, QueueListsParked, TaxisCoherent;
    var s', id := RecordFare(s, b, destination, agent, override, roundTrip).value, s.nextFareId;
    assert s'.fares - {id} == s.fares;
  }

  /** A known place is recorded with its own class and estimate, however it is written and whatever
      estimate the agent enters beside it. */
  lemma KnownPlaceIsRecorded(s: State, b: Badge, before: string, word: string, after: string, i: nat, agent: AgentId,
                             roundTrip: Option<real>)
    requires Valid(s) && RecordFare(s, b, before + word + after, agent, None, roundTrip).Ok?
    requires i < |KNOWN_DESTINATIONS| && Blanks(before) && Blanks(after)
    requires SameLetters(word, KNOWN_DESTINATIONS[i].key)
    ensures var f := RecordFare(s, b, before + word + after, agent, None, roundTrip).value.fares[s.nextFareId];
            && f.classification == KNOWN_DESTINATIONS[i].info.classification
            && f.roundTrip == Some(KNOWN_DESTINATIONS[i].info.typicalRoundTrip)
  {
    hide RecordFare, Valid, ClassifyDestination, KNOWN_DESTINATIONS, Blanks, SameLetters;
    RecordEffect(s, b, before + word + after, agent, None, roundTrip);
    KnownPlaceAnyCase(before, word, after, i);
  }

  /** The end of a fare closes it; a standard one sends the taxi to the back of the queue. */
  lemma CompleteEffect(s: State, b: Badge)
    requires Valid(s)
    ensures CompleteFare(s, b).Ok? <==> b in s.taxis && s.taxis[b].status == OnFare
    ensures CompleteFare(s, b).Err? ==> CompleteFare(s, b) == Err(if b in s.taxis then Conflict else NotFound)
    ensures CompleteFare(s, b).Ok? ==>
              var s', id := CompleteFare(s, b).value, s.taxis[b].currentFare;
              && id.Some? && id.value in s.fares && id.value in s'.fares && b in s'.taxis
              && s'.fares[id.value].completedAt == Some(s.now)
              && (forall i :: i in s.fares && i != id.value ==> i in s'.fares && s'.fares[i] == s.fares[i])
              && (s.fares[id.value].classification == Standard ==>
                    && s'.taxis[b].status == InFeederPark && s'.taxis[b].joinedAt == Some(s.now)
                    && s'.queue == s.queue + [b])
              && (s.fares[id.value].classification != Standard ==>
                    s'.taxis[b].status == ReturnExempt && s'.queue == s.queue)
  {
    hide ReturnDeadlineMinutes, OrderListsTaxis, QueueListsParked;
    if b in s.taxis && s.taxis[b].status == OnFare {
      assert Coherent(s.taxis[b]) && HoldsOwnFare(s, b);
    }
  }

  // ---- returns ----

  /** A return is accepted from an exempt taxi at an open terminal with a free slot. */
  lemma ReturnRaises(s: State, b: Badge, t: TerminalId, eta: real)
    ensures var r := ReturnToTerminal(s, b, t, eta);
            if b !in s.taxis then r == Err(NotFound)
            else if s.taxis[b].status != ReturnExempt then r == Err(Conflict)
            else if t !in s.terminals then r == Err(NotFound)
            else if |set c | c in s.taxis && s.taxis[c].status == Called && s.taxis[c].terminalId == Some(t)|
                    >= s.terminals[t].capacity then r == Err(Conflict)
            else r.Ok?
  {
    assert Occupants(s, t) == set c | c in s.taxis && s.taxis[c].status == Called && s.taxis[c].terminalId == Some(t);
  }

  /** Within five minutes the taxi is on the rank at once, and on time if the deadline has not passed;
      from further out it is only expected. */
  lemma ReturnEffect(s: State, b: Badge, t: TerminalId, eta: real)
    requires Valid(s) && ReturnToTerminal(s, b, t, eta).Ok?
    ensures var x, y := s.taxis[b], ReturnToTerminal(s, b, t, eta).value.taxis[b];
            && x.returnDeadline.Some?
            && (eta <= 5.0 ==>
                  && y.status == Called && y.terminalId == Some(t) && y.calledAt == Some(s.now) && y.selfCheckedIn
                  && y.lastReturnOnTime == Some(s.now <= x.returnDeadline.value) && y.pendingTerminal.None?)
            && (eta > 5.0 ==>
                  && y.status == ReturnExempt && y.pendingTerminal == Some(t)
                  && y.expectedArrival == Some(s.now + eta) && y.returnDeadline == x.returnDeadline)
  {
    hide HasRoom, OrderListsTaxis, QueueListsParked, FaresHeld;
    assert Coherent(s.taxis[b]);
  }

  /** An expected taxi is due from five minutes before its arrival. */
  lemma DueFromFiveMinutesBefore(s: State, b: Badge, t: TerminalId)
    requires b in s.taxis && s.taxis[b].status == ReturnExempt && s.taxis[b].expectedArrival.Some?
    requires s.taxis[b].pendingTerminal == Some(t) && t != ""
    ensures DueAt(s, b, t) <==> s.taxis[b].expectedArrival.value <= s.now + 5.0
  {
  }
}
