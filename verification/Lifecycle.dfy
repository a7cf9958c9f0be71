/** The invariant every service call keeps: statuses, optional fields, the queue, the store order
    and the fares agree with each other. */
module Lifecycle {
  import opened Domain
  import opened Lists
  import opened StoreSpec

  /** Each optional field of a taxi is set exactly in the statuses it belongs to. */
  predicate Coherent(x: TaxiState) {
    && (x.joinedAt.Some? <==> x.status == InFeederPark)
    && (x.terminalId.Some? <==> x.status == Called || x.status == OnFare)
    && (x.status == Called || x.status == OnFare ==> x.calledAt.Some?)
    && (x.currentFare.Some? <==> x.status == OnFare)
    && (x.exemptionType.Some? <==> x.status == ReturnExempt)
    && (x.exemptionDestination.Some? <==> x.status == ReturnExempt)
    && (x.returnDeadline.Some? <==> x.status == ReturnExempt)
    && x.exemptionType != Some(Standard)
    && (x.pendingTerminal.Some? <==> x.expectedArrival.Some?)
    && (x.pendingTerminal.Some? ==> x.status == ReturnExempt)
  }

  ghost predicate OrderListsTaxis(s: State) {
    && Distinct(s.order)
    && forall b :: b in s.order <==> b in s.taxis
  }

  ghost predicate QueueListsParked(s: State) {
    && Distinct(s.queue)
    && forall b :: b in s.queue <==> b in s.taxis && s.taxis[b].status == InFeederPark
  }

  ghost predicate TaxisCoherent(s: State) {
    forall b :: b in s.taxis ==> Coherent(s.taxis[b])
  }

  /** A taxi on a fare holds an open fare that bears its own badge. */
  predicate HoldsOwnFare(s: State, b: Badge)
    requires b in s.taxis
  {
    s.taxis[b].currentFare.Some? ==>
      && s.taxis[b].currentFare.value in s.fares
      && s.fares[s.taxis[b].currentFare.value].badge == b
      && s.fares[s.taxis[b].currentFare.value].completedAt.None?
  }

  ghost predicate FaresHeld(s: State) {
    && (forall id :: id in s.fares ==> id < s.nextFareId)
    && forall b :: b in s.taxis ==> HoldsOwnFare(s, b)
  }

  ghost predicate Valid(s: State) {
    OrderListsTaxis(s) && QueueListsParked(s) && TaxisCoherent(s) && FaresHeld(s)
  }

  lemma AddTaxiKeepsValid(s: State, b: Badge, name: string)
    requires Valid(s) && AddTaxi(s, b, name).Ok?
    ensures Valid(AddTaxi(s, b, name).value)
  {
  }

  lemma RemoveTaxiKeepsValid(s: State, b: Badge)
    requires Valid(s) && RemoveTaxi(s, b).Ok?
    ensures Valid(RemoveTaxi(s, b).value)
  {
    RemoveFirstKeepsDistinct(s.order, b);
    RemoveFirstKeepsDistinct(s.queue, b);
    var s' := RemoveTaxi(s, b).value;
    forall c | c in s'.taxis ensures HoldsOwnFare(s', c) {
      assert HoldsOwnFare(s, c);
    }
  }

  lemma JoinKeepsValid(s: State, b: Badge)
    requires Valid(s) && JoinFeederPark(s, b).Ok?
    ensures Valid(JoinFeederPark(s, b).value)
  {
  }

  lemma LeaveKeepsValid(s: State, b: Badge)
    requires Valid(s) && LeaveFeederPark(s, b).Ok?
    ensures Valid(LeaveFeederPark(s, b).value)
  {
    hide RemoveFirst;
    RemoveFirstKeepsDistinct(s.queue, b);
  }

  lemma CallNextKeepsValid(s: State, t: TerminalId)
    requires Valid(s)
    ensures CallNextTaxi(s, t) != Err(KeyError)
    ensures CallNextTaxi(s, t).Ok? ==> Valid(CallNextTaxi(s, t).value)
  {
    if s.queue != [] {
      assert s.queue[0] in s.queue;
      assert s.queue == [s.queue[0]] + s.queue[1..];
    }
  }

  lemma RecordKeepsValid(s: State, b: Badge, destination: string, agent: AgentId,
                         override: Option<FareClass>, roundTrip: Option<real>)
    requires Valid(s) && RecordFare(s, b, destination, agent, override, roundTrip).Ok?
    ensures Valid(RecordFare(s, b, destination, agent, override, roundTrip).value)
  {
    var s' := RecordFare(s, b, destination, agent, override, roundTrip).value;
    assert s.taxis[b].status == Called;
    forall c | c in s'.taxis ensures HoldsOwnFare(s', c) {
      assert HoldsOwnFare(s, c);
    }
  }

  lemma CompleteKeepsFaresHeld(s: State, b: Badge)
    requires FaresHeld(s) && TaxisCoherent(s) && b in s.taxis && s.taxis[b].status == OnFare
    ensures HoldsOwnFare(s, b) && CompleteFare(s, b).Ok? && FaresHeld(CompleteFare(s, b).value)
  {
    hide ReturnDeadlineMinutes;
    assert HoldsOwnFare(s, b) && Coherent(s.taxis[b]);
    var s' := CompleteFare(s, b).value;
    forall c | c in s'.taxis ensures HoldsOwnFare(s', c) {
      assert HoldsOwnFare(s, c);
    }
  }

  lemma CompletedTaxi(s: State, b: Badge)
    requires TaxisCoherent(s) && CompleteFare(s, b).Ok?
    ensures var s' := CompleteFare(s, b).value;
            && s'.order == s.order && b in s'.taxis && s'.taxis == s.taxis[b := s'.taxis[b]] && Coherent(s'.taxis[b])
            && s'.queue == s.queue + if s'.taxis[b].status == InFeederPark then [b] else []
  {
    hide ReturnDeadlineMinutes;
    assert Coherent(s.taxis[b]);
  }

  lemma CompleteKeepsValid(s: State, b: Badge)
    requires Valid(s)
    ensures CompleteFare(s, b) != Err(KeyError)
    ensures CompleteFare(s, b).Ok? ==> Valid(CompleteFare(s, b).value)
  {
    if b in s.taxis && s.taxis[b].status == OnFare {
      CompleteKeepsFaresHeld(s, b);
      CompletedTaxi(s, b);
    }
  }

  lemma ReturnedTaxi(s: State, b: Badge, t: TerminalId, eta: real)
    requires ReturnToTerminal(s, b, t, eta).Ok? && Coherent(s.taxis[b])
    ensures var s' := ReturnToTerminal(s, b, t, eta).value;
            && b in s'.taxis && s' == s.(taxis := s.taxis[b := s'.taxis[b]]) && Coherent(s'.taxis[b])
            && s'.taxis[b].status != InFeederPark && s'.taxis[b].currentFare == s.taxis[b].currentFare
  {
    hide HasRoom;
  }

  lemma ReturnKeepsValid(s: State, b: Badge, t: TerminalId, eta: real)
    requires Valid(s) && ReturnToTerminal(s, b, t, eta).Ok?
    ensures Valid(ReturnToTerminal(s, b, t, eta).value)
  {
    var s' := ReturnToTerminal(s, b, t, eta).value;
    assert Coherent(s.taxis[b]);
    ReturnedTaxi(s, b, t, eta);
    forall c | c in s'.taxis ensures HoldsOwnFare(s', c) {
      assert HoldsOwnFare(s, c);
    }
  }

  /** Validity does not depend on terminals, agents, traffic, the clock or dispatch history. */
  lemma ValidIgnoresTheRest(s: State, s': State)
    requires Valid(s) && s'.taxis == s.taxis && s'.order == s.order && s'.queue == s.queue
    requires s'.fares == s.fares && s'.nextFareId == s.nextFareId
    ensures Valid(s')
  {
    forall b | b in s'.taxis ensures HoldsOwnFare(s', b) {
      assert HoldsOwnFare(s, b);
    }
  }

  lemma PromotionKeepsValid(s: State)
    requires Valid(s)
    ensures Valid(PromoteDueReturns(s))
  {
    var s' := PromoteDueReturns(s);
    forall b | b in s.taxis
      ensures Coherent(s'.taxis[b]) && HoldsOwnFare(s', b)
      ensures s'.taxis[b].status == InFeederPark <==> s.taxis[b].status == InFeederPark
    {
      assert HoldsOwnFare(s, b) && s'.taxis[b] == PromotedTaxi(s, b);
    }
  }

  /** Every call keeps the lifecycle invariant, and no call ever fails an internal lookup. */
  lemma StepKeepsValid(s: State, op: Op)
    requires Valid(s)
    ensures Valid(After(s, op))
    ensures Apply(s, op) != Err(KeyError)
  {
    hide Valid, HasRoom, PromoteDueReturns, ReturnDeadlineMinutes;
    match op
    case CallNext(t) => CallNextKeepsValid(s, t);
    case Complete(b) => CompleteKeepsValid(s, b);
    case Promote => PromotionKeepsValid(s);
    case NewTaxi(b, name) => if b !in s.taxis { AddTaxiKeepsValid(s, b, name); }
    case DropTaxi(b) => if b in s.taxis { RemoveTaxiKeepsValid(s, b); }
    case Join(b) => if JoinFeederPark(s, b).Ok? { JoinKeepsValid(s, b); }
    case Leave(b) => if LeaveFeederPark(s, b).Ok? { LeaveKeepsValid(s, b); }
    case Record(b, d, a, o, r) => if RecordFare(s, b, d, a, o, r).Ok? { RecordKeepsValid(s, b, d, a, o, r); }
    case Return(b, t, eta) => if ReturnToTerminal(s, b, t, eta).Ok? { ReturnKeepsValid(s, b, t, eta); }
    case _ => ValidIgnoresTheRest(s, After(s, op));
  }

  lemma {:induction false} RunKeepsValid(s: State, ops: seq<Op>)
    requires Valid(s)
    ensures Valid(Run(s, ops))
    decreases |ops|
  {
    if ops != [] {
      StepKeepsValid(s, ops[0]);
      RunKeepsValid(After(s, ops[0]), ops[1..]);
    }
  }

  /** From an empty store, any sequence of calls whatever leads to a valid store. */
  lemma ReachableIsValid(ops: seq<Op>)
    ensures Valid(Run(EMPTY, ops))
  {
    RunKeepsValid(EMPTY, ops);
  }

  /** The taxis a call is about: the badge it names, the front of the queue, or anyone at all. */
  predicate Concerns(s: State, op: Op, b: Badge) {
    match op
    case CallNext(_) => s.queue != [] && s.queue[0] == b
    case Promote => true
    case NewTerminal(_, _, _) | DropTerminal(_) | NewAgent(_, _) | SetTraffic(_) | SetClock(_) => false
    case _ => op.badge == b
  }

  lemma OthersUntouched(s: State, op: Op, b: Badge)
    requires !Concerns(s, op, b)
    ensures b in After(s, op).taxis <==> b in s.taxis
    ensures b in s.taxis ==> After(s, op).taxis[b] == s.taxis[b]
  {
    hide HasRoom, PromoteDueReturns, ReturnDeadlineMinutes;
  }

  // ---- counting a rank taxi by taxi ----

  function RankCount(s: State, t: TerminalId, n: nat): nat
    requires n <= |s.order| && forall b :: b in s.order ==> b in s.taxis
  {
    if n == 0 then 0 else RankCount(s, t, n - 1) + if OnRank(s.taxis[s.order[n - 1]], t) then 1 else 0
  }

  ghost function RankUpTo(s: State, t: TerminalId, n: nat): set<Badge>
    requires n <= |s.order|
  {
    set b | b in s.order[..n] && b in Occupants(s, t)
  }

  lemma RankUpToNext(s: State, t: TerminalId, n: nat)
    requires OrderListsTaxis(s) && n < |s.order|
    ensures |RankUpTo(s, t, n + 1)| == |RankUpTo(s, t, n)| + if OnRank(s.taxis[s.order[n]], t) then 1 else 0
  {
    var b := s.order[n];
    assert s.order[..n + 1] == s.order[..n] + [b];
    assert b !in RankUpTo(s, t, n);
    if OnRank(s.taxis[b], t) {
      assert RankUpTo(s, t, n + 1) == RankUpTo(s, t, n) + {b};
    } else {
      assert RankUpTo(s, t, n + 1) == RankUpTo(s, t, n);
    }
  }

  lemma {:induction false} RankCountOfPrefix(s: State, t: TerminalId, n: nat)
    requires OrderListsTaxis(s) && n <= |s.order|
    ensures RankCount(s, t, n) == |RankUpTo(s, t, n)|
  {
    if n == 0 {
      assert RankUpTo(s, t, n) == {};
    } else {
      RankCountOfPrefix(s, t, n - 1);
      RankUpToNext(s, t, n - 1);
    }
  }

  lemma RankCountIsOccupancy(s: State, t: TerminalId)
    requires OrderListsTaxis(s)
    ensures RankCount(s, t, |s.order|) == Occupancy(s, t)
  {
    RankCountOfPrefix(s, t, |s.order|);
    assert s.order[..|s.order|] == s.order;
    assert RankUpTo(s, t, |s.order|) == Occupants(s, t);
  }

  // ---- fares ----

  /** Distinct taxis on a fare hold distinct fares. */
  lemma FaresNotShared(s: State, b: Badge, c: Badge)
    requires Valid(s) && b in s.taxis && c in s.taxis && b != c
    requires s.taxis[b].status == OnFare && s.taxis[c].status == OnFare
    ensures s.taxis[b].currentFare.value != s.taxis[c].currentFare.value
  {
    assert HoldsOwnFare(s, b) && HoldsOwnFare(s, c);
  }

  /** A fare once recorded never disappears, and its record never changes except that an open
      fare may be completed; a completed one is final. */
  predicate FareFollows(before: FareState, after: FareState) {
    && after == before.(completedAt := after.completedAt)
    && (before.completedAt.Some? ==> after == before)
  }

  lemma StepCompletesOnce(s: State, op: Op, id: FareId)
    requires Valid(s) && id in s.fares
    ensures id in After(s, op).fares && FareFollows(s.fares[id], After(s, op).fares[id])
  {
    if op.Complete? && op.badge in s.taxis {
      assert HoldsOwnFare(s, op.badge);
    }
  }

  lemma {:induction false} FareCompletedOnce(s: State, ops: seq<Op>, id: FareId)
    requires Valid(s) && id in s.fares
    ensures id in Run(s, ops).fares && FareFollows(s.fares[id], Run(s, ops).fares[id])
    decreases |ops|
  {
    if ops != [] {
      StepKeepsValid(s, ops[0]);
      StepCompletesOnce(s, ops[0], id);
      FareCompletedOnce(After(s, ops[0]), ops[1..], id);
    }
  }

  /** An open fare is held by the taxi whose badge it bears. */
  predicate Carried(s: State, id: FareId)
    requires id in s.fares
  {
    s.fares[id].completedAt.None? ==>
      s.fares[id].badge in s.taxis && s.taxis[s.fares[id].badge].currentFare == Some(id)
  }

  ghost predicate OpenFaresCarried(s: State) {
    forall id :: id in s.fares ==> Carried(s, id)
  }

  /** No call of the run removes a taxi while it is on a fare. */
  predicate NeverDropsOnFare(s: State, ops: seq<Op>)
    decreases |ops|
  {
    ops != [] ==> !DropsOnFare(s, ops[0]) && NeverDropsOnFare(After(s, ops[0]), ops[1..])
  }

  predicate DropsOnFare(s: State, op: Op) {
    op.DropTaxi? && op.badge in s.taxis && s.taxis[op.badge].status == OnFare
  }

  /** Only its completion, or its removal, touches a taxi on a fare. */
  lemma FareKeepsTaxi(s: State, op: Op, b: Badge)
    requires Valid(s) && b in s.taxis && s.taxis[b].status == OnFare && !DropsOnFare(s, op)
    requires !op.Complete? || op.badge != b
    ensures b in After(s, op).taxis && After(s, op).taxis[b] == s.taxis[b]
  {
    hide FaresHeld, OrderListsTaxis, HoldsOwnFare, SeatedList, HasRoom, ReturnDeadlineMinutes;
    if !Concerns(s, op, b) {
      OthersUntouched(s, op, b);
    } else if op.Promote? {
      assert After(s, op).taxis[b] == PromotedTaxi(s, b);
    } else {
      assert op.CallNext? ==> b in s.queue;
    }
  }

  lemma NewFareIsCarried(s: State, op: Op, id: FareId)
    requires id !in s.fares && id in After(s, op).fares
    ensures Carried(After(s, op), id)
  {
    hide HasRoom, ReturnDeadlineMinutes;
  }

  lemma OpenFareStaysCarried(s: State, op: Op, id: FareId)
    requires Valid(s) && !DropsOnFare(s, op) && id in s.fares && Carried(s, id) && id in After(s, op).fares
    ensures Carried(After(s, op), id)
  {
    hide After, HoldsOwnFare, OrderListsTaxis, QueueListsParked, DropsOnFare;
    StepCompletesOnce(s, op, id);
    var b := s.fares[id].badge;
    if After(s, op).fares[id].completedAt.None? {
      assert Coherent(s.taxis[b]);
      if op.Complete? && op.badge == b {
        CompletionCloses(s, b);
      } else {
        FareKeepsTaxi(s, op, b);
      }
    }
  }

  lemma CompletionCloses(s: State, b: Badge)
    requires Valid(s) && b in s.taxis && s.taxis[b].currentFare.Some?
    ensures var id := s.taxis[b].currentFare.value;
            id in After(s, Complete(b)).fares && After(s, Complete(b)).fares[id].completedAt.Some?
  {
    assert HoldsOwnFare(s, b) && Coherent(s.taxis[b]);
  }

  lemma StepKeepsFaresCarried(s: State, op: Op)
    requires Valid(s) && OpenFaresCarried(s) && !DropsOnFare(s, op)
    ensures OpenFaresCarried(After(s, op))
  {
    hide After, Valid, DropsOnFare, Carried;
    forall id | id in After(s, op).fares ensures Carried(After(s, op), id) {
      if id in s.fares {
        OpenFareStaysCarried(s, op, id);
      } else {
        NewFareIsCarried(s, op, id);
      }
    }
  }

  /** In runs that never remove a taxi mid-fare, open fares and taxis on a fare correspond one to
      one: each taxi on a fare holds an open fare with its badge, and each open fare is held. */
  lemma {:induction false} FareBijection(s: State, ops: seq<Op>)
    requires Valid(s) && OpenFaresCarried(s) && NeverDropsOnFare(s, ops)
    ensures Valid(Run(s, ops)) && OpenFaresCarried(Run(s, ops))
    decreases |ops|
  {
    if ops != [] {
      StepKeepsValid(s, ops[0]);
      StepKeepsFaresCarried(s, ops[0]);
      FareBijection(After(s, ops[0]), ops[1..]);
    }
  }
}
