/** Rank capacity over whole runs of the store: first for the taxis that checked themselves in, then
    for everyone on a rank, central dispatch included, which ignores capacity. */
module Capacity {
  import opened Domain
  import opened Lists
  import opened StoreSpec
  import opened Lifecycle
  import opened Promotion

  /** The taxis on the rank of `t` that checked themselves in. */
  function SelfSeated(s: State, t: TerminalId): set<Badge> {
    set b | b in s.taxis && OnRank(s.taxis[b], t) && s.taxis[b].selfCheckedIn
  }

  ghost predicate RanksRespected(s: State) {
    forall t :: t in s.terminals ==> |SelfSeated(s, t)| <= s.terminals[t].capacity
  }

  /** The check an administrator would need before (re)opening a terminal: its capacity covers the
      taxis that already sit on a rank of that name. */
  predicate OpensLargeEnough(s: State, op: Op) {
    op.NewTerminal? && op.terminal !in s.terminals ==>
      |SelfSeated(s, op.terminal)| <= if op.capacity.Some? then op.capacity.value else DEFAULT_TERMINAL_CAPACITY
  }

  lemma SubsetCardinality<T>(a: set<T>, b: set<T>)
    requires a <= b
    ensures |a| <= |b|
  {
    assert b == a + (b - a);
  }

  lemma ReturnAddsAtMost(s: State, b: Badge, t: TerminalId, eta: real, r: TerminalId)
    requires Valid(s) && ReturnToTerminal(s, b, t, eta).Ok?
    ensures var s' := ReturnToTerminal(s, b, t, eta).value;
            && HasRoom(s, t) && s'.terminals == s.terminals
            && Occupants(s', r) <= Occupants(s, r) + (if r == t then {b} else {})
            && SelfSeated(s', r) <= SelfSeated(s, r) + (if r == t then {b} else {})
  {
    hide Valid;
    var s' := ReturnToTerminal(s, b, t, eta).value;
    assert s'.taxis == s.taxis[b := s'.taxis[b]] && (OnRank(s'.taxis[b], r) ==> r == t);
  }

  /** Accepting a return fills at most one slot, and only a free one. */
  lemma ReturnFillsFreeSlot(s: State, b: Badge, t: TerminalId, eta: real, r: TerminalId)
    requires Valid(s) && ReturnToTerminal(s, b, t, eta).Ok?
    ensures var s' := ReturnToTerminal(s, b, t, eta).value;
            && Occupants(s', r) <= Occupants(s, r) + (if r == t then {b} else {})
            && SelfSeated(s', r) <= SelfSeated(s, r) + (if r == t then {b} else {})
            && (r in s.terminals ==> Occupancy(s', r) <= Max(Occupancy(s, r), s.terminals[r].capacity))
  {
    var s' := ReturnToTerminal(s, b, t, eta).value;
    ReturnAddsAtMost(s, b, t, eta, r);
    SubsetCardinality(Occupants(s', r), Occupants(s, r) + (if r == t then {b} else {}));
  }

  lemma ReturnKeepsRank(s: State, b: Badge, t: TerminalId, eta: real, r: TerminalId)
    requires Valid(s) && ReturnToTerminal(s, b, t, eta).Ok? && r in s.terminals
    requires |SelfSeated(s, r)| <= s.terminals[r].capacity
    ensures |SelfSeated(ReturnToTerminal(s, b, t, eta).value, r)| <= s.terminals[r].capacity
  {
    var s' := ReturnToTerminal(s, b, t, eta).value;
    ReturnFillsFreeSlot(s, b, t, eta, r);
    SubsetCardinality(SelfSeated(s, r), Occupants(s, r));
    SubsetCardinality(SelfSeated(s', r), SelfSeated(s, r) + (if r == t then {b} else {}));
  }

  lemma PromotionKeepsRank(s: State, t: TerminalId)
    requires Valid(s) && t in s.terminals && |SelfSeated(s, t)| <= s.terminals[t].capacity
    ensures |SelfSeated(PromoteDueReturns(s), t)| <= s.terminals[t].capacity
  {
    var s', seated := PromoteDueReturns(s), SeatedList(s, t);
    SeatedUpToMembers(s, t, |s.order|);
    DistinctCardinality(seated);
    forall b | b in SelfSeated(s', t) ensures b in SelfSeated(s, t) + Elements(seated) {
      assert s'.taxis[b] == PromotedTaxi(s, b);
    }
    SubsetCardinality(SelfSeated(s', t), SelfSeated(s, t) + Elements(seated));
    SubsetCardinality(SelfSeated(s, t), Occupants(s, t));
  }

  lemma PromotionSeatsOnlyAtOpenTerminals(s: State, t: TerminalId)
    requires Valid(s) && t !in s.terminals
    ensures SelfSeated(PromoteDueReturns(s), t) <= SelfSeated(s, t)
  {
    var s' := PromoteDueReturns(s);
    forall b | b in SelfSeated(s', t) ensures b in SelfSeated(s, t) {
      assert s'.taxis[b] == PromotedTaxi(s, b);
    }
  }

  lemma OtherCallsSeatNobody(s: State, op: Op, t: TerminalId)
    requires Valid(s) && !op.Return? && !op.Promote?
    ensures SelfSeated(After(s, op), t) <= SelfSeated(s, t)
  {
  }

  lemma OtherCallsOpenNothing(s: State, op: Op, t: TerminalId)
    requires !op.NewTerminal? && t in After(s, op).terminals
    ensures t in s.terminals && After(s, op).terminals[t] == s.terminals[t]
  {
  }

  lemma OtherCallKeepsRank(s: State, op: Op, t: TerminalId)
    requires Valid(s) && RanksRespected(s) && !op.NewTerminal? && t in After(s, op).terminals
    ensures |SelfSeated(After(s, op), t)| <= After(s, op).terminals[t].capacity
  {
    hide Valid, SelfSeated, ReturnToTerminal, PromoteDueReturns;
    OtherCallsOpenNothing(s, op, t);
    if op.Promote? {
      PromotionKeepsRank(s, t);
    } else if op.Return? {
      if Apply(s, op).Ok? {
        ReturnKeepsRank(s, op.badge, op.terminal, op.eta, t);
      }
    } else {
      OtherCallsSeatNobody(s, op, t);
      SubsetCardinality(SelfSeated(After(s, op), t), SelfSeated(s, t));
    }
  }

  lemma OpeningKeepsRanks(s: State, op: Op)
    requires RanksRespected(s) && op.NewTerminal?
    ensures RanksRespected(After(s, op)) <==> OpensLargeEnough(s, op)
  {
    var s' := After(s, op);
    assert forall t :: SelfSeated(s', t) == SelfSeated(s, t);
    assert op.terminal in s'.terminals;
  }

  /** One call keeps every rank within capacity exactly when it does not open a terminal that is
      smaller than the rank already there. */
  lemma StepKeepsRanks(s: State, op: Op)
    requires Valid(s) && RanksRespected(s)
    ensures RanksRespected(After(s, op)) <==> OpensLargeEnough(s, op)
  {
    hide Valid, SelfSeated, After;
    if op.NewTerminal? {
      OpeningKeepsRanks(s, op);
    } else {
      forall t | t in After(s, op).terminals
        ensures |SelfSeated(After(s, op), t)| <= After(s, op).terminals[t].capacity
      {
        OtherCallKeepsRank(s, op, t);
      }
    }
  }

  ghost predicate AlwaysRespected(s: State, ops: seq<Op>)
    decreases |ops|
  {
    RanksRespected(s) && (ops != [] ==> AlwaysRespected(After(s, ops[0]), ops[1..]))
  }

  predicate AlwaysOpensLargeEnough(s: State, ops: seq<Op>)
    decreases |ops|
  {
    ops != [] ==> OpensLargeEnough(s, ops[0]) && AlwaysOpensLargeEnough(After(s, ops[0]), ops[1..])
  }

  /** Over any run: self-checked-in taxis never exceed capacity at any point, if and only if no
      call opens a terminal smaller than the rank already there. */
  lemma {:induction false} RunKeepsRanks(s: State, ops: seq<Op>)
    requires Valid(s) && RanksRespected(s)
    ensures AlwaysRespected(s, ops) <==> AlwaysOpensLargeEnough(s, ops)
    decreases |ops|
  {
    if ops != [] {
      StepKeepsValid(s, ops[0]);
      StepKeepsRanks(s, ops[0]);
      if OpensLargeEnough(s, ops[0]) {
        RunKeepsRanks(After(s, ops[0]), ops[1..]);
      }
    }
  }

  /** Runs whose terminals have non-negative capacity and are removed only when nobody
      self-checked-in sits there. */
  predicate CarefulCall(s: State, op: Op) {
    && (op.NewTerminal? && op.capacity.Some? ==> op.capacity.value >= 0)
    && (op.DropTerminal? ==> SelfSeated(s, op.terminal) == {})
  }

  predicate CarefulAdministration(s: State, ops: seq<Op>)
    decreases |ops|
  {
    ops != [] ==> CarefulCall(s, ops[0]) && CarefulAdministration(After(s, ops[0]), ops[1..])
  }

  ghost predicate ClosedRanksEmpty(s: State) {
    forall t :: t !in s.terminals ==> SelfSeated(s, t) == {}
  }

  lemma OnlyRemovalCloses(s: State, op: Op, t: TerminalId)
    requires t !in After(s, op).terminals
    ensures t !in s.terminals || (op.DropTerminal? && op.terminal == t)
  {
  }

  lemma ClosedTerminalSeatsNobody(s: State, op: Op, t: TerminalId)
    requires Valid(s) && t !in s.terminals
    ensures SelfSeated(After(s, op), t) <= SelfSeated(s, t)
  {
    if op.Promote? {
      PromotionSeatsOnlyAtOpenTerminals(s, t);
    } else if op.Return? {
      if Apply(s, op).Ok? {
        var s' := ReturnToTerminal(s, op.badge, op.terminal, op.eta).value;
        assert s'.taxis == s.taxis[op.badge := s'.taxis[op.badge]] && op.terminal != t;
      }
    } else {
      OtherCallsSeatNobody(s, op, t);
    }
  }

  lemma StepKeepsClosedRankEmpty(s: State, op: Op, t: TerminalId)
    requires Valid(s) && CarefulCall(s, op) && t !in After(s, op).terminals
    requires t !in s.terminals ==> SelfSeated(s, t) == {}
    ensures SelfSeated(After(s, op), t) == {}
  {
    OnlyRemovalCloses(s, op, t);
    if t !in s.terminals {
      ClosedTerminalSeatsNobody(s, op, t);
    } else {
      OtherCallsSeatNobody(s, op, t);
    }
  }

  /** Careful administration is enough: capacity is then respected at every point of the run. */
  lemma {:induction false} CarefulRunsRespectCapacity(s: State, ops: seq<Op>)
    requires Valid(s) && RanksRespected(s) && ClosedRanksEmpty(s) && CarefulAdministration(s, ops)
    ensures AlwaysRespected(s, ops)
    decreases |ops|
  {
    if ops != [] {
      StepKeepsValid(s, ops[0]);
      StepKeepsRanks(s, ops[0]);
      forall t | t !in After(s, ops[0]).terminals ensures SelfSeated(After(s, ops[0]), t) == {} {
        StepKeepsClosedRankEmpty(s, ops[0], t);
      }
      CarefulRunsRespectCapacity(After(s, ops[0]), ops[1..]);
    }
  }

  lemma CarefulFromEmpty(ops: seq<Op>)
    requires CarefulAdministration(EMPTY, ops)
    ensures AlwaysRespected(EMPTY, ops)
  {
    CarefulRunsRespectCapacity(EMPTY, ops);
  }

  // ---- a run that exceeds the bound ----

  const RANK_AGENT: AgentId := "G"

  const NEARBY := "somewhere near"

  function LocalFare(b: Badge): Op {
    Record(b, NEARBY, RANK_AGENT, Some(Local), None)
  }

  /** From the park to the rank of `t`, off on a local fare, and straight back onto the rank. */
  function Trip(b: Badge, t: TerminalId): seq<Op> {
    [Join(b), CallNext(t), LocalFare(b), Complete(b), Return(b, t, 0.0)]
  }

  predicate ReadyForTrip(s: State, b: Badge, t: TerminalId) {
    && b in s.taxis && s.taxis[b].status == Offline && s.queue == []
    && t != "" && RANK_AGENT in s.rankAgents && HasRoom(s, t)
  }

  /** From `s` to `s'` no taxi but `b` has changed, and no terminal or rank agent. */
  predicate OnlyMoves(s: State, s': State, b: Badge) {
    && b in s.taxis && b in s'.taxis && s'.taxis == s.taxis[b := s'.taxis[b]]
    && s'.terminals == s.terminals && s'.rankAgents == s.rankAgents
  }

  lemma OnlyMovesTwice(s: State, s1: State, s2: State, b: Badge)
    requires OnlyMoves(s, s1, b) && OnlyMoves(s1, s2, b)
    ensures OnlyMoves(s, s2, b)
  {
  }

  lemma RoomKept(s: State, s': State, b: Badge, t: TerminalId)
    requires OnlyMoves(s, s', b) && HasRoom(s, t) && s.taxis[b].status != Called && s'.taxis[b].status != Called
    ensures HasRoom(s', t)
  {
    assert Occupants(s', t) == Occupants(s, t);
  }

  lemma JoinMoves(s: State, b: Badge)
    requires b in s.taxis && s.taxis[b].status == Offline && s.queue == []
    ensures OnlyMoves(s, After(s, Join(b)), b) && After(s, Join(b)).queue == [b]
  {
  }

  lemma CallMoves(s: State, b: Badge, t: TerminalId)
    requires s.queue == [b] && b in s.taxis && t in s.terminals
    ensures OnlyMoves(s, After(s, CallNext(t)), b) && After(s, CallNext(t)).queue == []
    ensures OnRank(After(s, CallNext(t)).taxis[b], t)
  {
  }

  predicate OnLocalFare(s: State, b: Badge) {
    && b in s.taxis && s.taxis[b].status == OnFare && s.taxis[b].currentFare.Some?
    && s.taxis[b].currentFare.value in s.fares && s.fares[s.taxis[b].currentFare.value].classification == Local
  }

  lemma RecordMoves(s: State, b: Badge, t: TerminalId)
    requires b in s.taxis && OnRank(s.taxis[b], t) && t != "" && t in s.terminals && RANK_AGENT in s.rankAgents
    ensures OnlyMoves(s, After(s, LocalFare(b)), b) && After(s, LocalFare(b)).queue == s.queue
    ensures OnLocalFare(After(s, LocalFare(b)), b)
  {
  }

  lemma CompleteMoves(s: State, b: Badge)
    requires OnLocalFare(s, b)
    ensures OnlyMoves(s, After(s, Complete(b)), b) && After(s, Complete(b)).queue == s.queue
    ensures After(s, Complete(b)).taxis[b].status == ReturnExempt
  {
  }

  lemma ReturnMoves(s: State, b: Badge, t: TerminalId)
    requires b in s.taxis && s.taxis[b].status == ReturnExempt && HasRoom(s, t)
    ensures var s' := After(s, Return(b, t, 0.0));
            && OnlyMoves(s, s', b) && s'.queue == s.queue
            && OnRank(s'.taxis[b], t) && s'.taxis[b].selfCheckedIn
  {
  }

  lemma TripSteps(s: State, b: Badge, t: TerminalId)
    ensures Run(s, Trip(b, t)) ==
            After(After(After(After(After(s, Join(b)), CallNext(t)), LocalFare(b)), Complete(b)), Return(b, t, 0.0))
  {
    hide After;
    var r4 := [Return(b, t, 0.0)];
    var r3 := [Complete(b)] + r4;
    var r2 := [LocalFare(b)] + r3;
    var r1 := [CallNext(t)] + r2;
    assert Trip(b, t) == [Join(b)] + r1;
    var s1 := After(s, Join(b));
    var s2 := After(s1, CallNext(t));
    var s3 := After(s2, LocalFare(b));
    RunFirst(s, Join(b), r1);
    RunFirst(s1, CallNext(t), r2);
    RunFirst(s2, LocalFare(b), r3);
    RunFirst(s3, Complete(b), r4);
    RunLast(After(s3, Complete(b)), [], Return(b, t, 0.0));
    assert [] + r4 == r4;
  }

  /** A trip ends with the taxi self-checked-in at the terminal, and changes no other taxi. */
  lemma TripSeats(s: State, b: Badge, t: TerminalId)
    requires ReadyForTrip(s, b, t)
    ensures var s' := Run(s, Trip(b, t));
            OnlyMoves(s, s', b) && OnRank(s'.taxis[b], t) && s'.taxis[b].selfCheckedIn && s'.queue == []
  {
    hide After, Run, Trip;
    TripSteps(s, b, t);
    var s1 := After(s, Join(b));
    JoinMoves(s, b);
    var s2 := After(s1, CallNext(t));
    CallMoves(s1, b, t);
    OnlyMovesTwice(s, s1, s2, b);
    var s3 := After(s2, LocalFare(b));
    RecordMoves(s2, b, t);
    OnlyMovesTwice(s, s2, s3, b);
    var s4 := After(s3, Complete(b));
    CompleteMoves(s3, b);
    OnlyMovesTwice(s, s3, s4, b);
    RoomKept(s, s4, b, t);
    ReturnMoves(s4, b, t);
    OnlyMovesTwice(s, s4, After(s4, Return(b, t, 0.0)), b);
  }

  const TWO_SLOTS: seq<Op> :=
    [NewTerminal("T", "T", Some(2)), NewAgent(RANK_AGENT, None), NewTaxi("A", ""), NewTaxi("B", "")]

  const REOPENING: seq<Op> := [DropTerminal("T"), NewTerminal("T", "T", Some(1))]

  lemma TwoSlotsOpen() returns (s: State)
    ensures s == Run(EMPTY, TWO_SLOTS) && ReadyForTrip(s, "A", "T")
    ensures s.taxis.Keys == {"A", "B"} && s.taxis["B"].status == Offline
    ensures s.terminals == map["T" := TerminalState("T", 2)] && Occupants(s, "T") == {}
  {
    var s1 := After(EMPTY, NewTerminal("T", "T", Some(2)));
    var s2 := After(s1, NewAgent(RANK_AGENT, None));
    var s3 := After(s2, NewTaxi("A", ""));
    s := After(s3, NewTaxi("B", ""));
    assert s == Run(EMPTY, TWO_SLOTS) by {
      var r3 := [NewTaxi("B", "")];
      var r2 := [NewTaxi("A", "")] + r3;
      var r1 := [NewAgent(RANK_AGENT, None)] + r2;
      assert TWO_SLOTS == [NewTerminal("T", "T", Some(2))] + r1;
      RunFirst(EMPTY, NewTerminal("T", "T", Some(2)), r1);
      RunFirst(s1, NewAgent(RANK_AGENT, None), r2);
      RunFirst(s2, NewTaxi("A", ""), r3);
      RunLast(s3, [], NewTaxi("B", ""));
      assert [] + r3 == r3;
    }
    assert s.taxis.Keys == {"A", "B"};
  }

  /** The two trips, one after the other, fill both slots. */
  lemma TwoCheckIn(s: State)
    requires ReadyForTrip(s, "A", "T") && s.taxis.Keys == {"A", "B"} && s.taxis["B"].status == Offline
    requires s.terminals == map["T" := TerminalState("T", 2)] && Occupants(s, "T") == {}
    ensures var s' := Run(Run(s, Trip("A", "T")), Trip("B", "T"));
            SelfSeated(s', "T") == {"A", "B"} && s'.terminals == s.terminals
  {
    hide Run, Trip;
    var s1 := Run(s, Trip("A", "T"));
    TripSeats(s, "A", "T");
    assert Occupants(s1, "T") == SelfSeated(s1, "T") == {"A"};
    TripSeats(s1, "B", "T");
  }

  lemma ReopenedRank(s: State)
    requires SelfSeated(s, "T") == {"A", "B"} && s.terminals == map["T" := TerminalState("T", 2)]
    ensures RanksRespected(s)
    ensures Apply(s, DropTerminal("T")).Ok?
    ensures var s' := After(s, DropTerminal("T"));
            var smaller := NewTerminal("T", "T", Some(1));
            && Apply(s', smaller).Ok? && !OpensLargeEnough(s', smaller) && !RanksRespected(After(s', smaller))
  {
    var s3 := After(s, DropTerminal("T"));
    var s4 := After(s3, NewTerminal("T", "T", Some(1)));
    assert SelfSeated(s3, "T") == SelfSeated(s, "T");
    assert SelfSeated(s4, "T") == {"A", "B"};
    assert "T" in s4.terminals;
  }

  /** Two taxis check in at a terminal with two slots, which is then removed and opened again with
      one.  All capacities are positive, every call succeeds, and the rank holds more than it may. */
  lemma ReopenedTooSmall()
    ensures var s := Run(EMPTY, TWO_SLOTS + Trip("A", "T") + Trip("B", "T"));
            && RanksRespected(s) && Apply(s, REOPENING[0]).Ok? && Apply(After(s, REOPENING[0]), REOPENING[1]).Ok?
            && !RanksRespected(Run(s, REOPENING))
            && !OpensLargeEnough(After(s, REOPENING[0]), REOPENING[1])
  {
    hide Run, Trip, After, Apply, RanksRespected, OpensLargeEnough, ReadyForTrip;
    var s0 := TwoSlotsOpen();
    TwoCheckIn(s0);
    RunJoin(EMPTY, TWO_SLOTS, Trip("A", "T"));
    RunJoin(EMPTY, TWO_SLOTS + Trip("A", "T"), Trip("B", "T"));
    var s2 := Run(Run(s0, Trip("A", "T")), Trip("B", "T"));
    ReopenedRank(s2);
    assert REOPENING == [REOPENING[0]] + [REOPENING[1]];
    RunFirst(s2, REOPENING[0], [REOPENING[1]]);
    RunLast(After(s2, REOPENING[0]), [], REOPENING[1]);
    assert [] + [REOPENING[1]] == [REOPENING[1]];
    assert Run(After(s2, REOPENING[0]), []) == After(s2, REOPENING[0]) by { RunNothing(After(s2, REOPENING[0])); }
  }

  // ---- all taxis on a rank ----

  /** The calls that can put more taxis on a rank than it holds: calling one forward to a full rank,
      and opening a terminal smaller than the rank already there. */
  predicate Overfills(s: State, op: Op) {
    || (op.CallNext? && Apply(s, op).Ok? && !HasRoom(s, op.terminal))
    || (op.NewTerminal? && op.terminal !in s.terminals
        && Occupancy(s, op.terminal) > if op.capacity.Some? then op.capacity.value else DEFAULT_TERMINAL_CAPACITY)
  }

  /** A taxi called forward takes one more slot at that terminal and none elsewhere. */
  lemma CallTakesOneSlot(s: State, t: TerminalId, r: TerminalId)
    requires Valid(s) && CallNextTaxi(s, t).Ok?
    ensures Occupancy(CallNextTaxi(s, t).value, r) == Occupancy(s, r) + if r == t then 1 else 0
  {
    hide FaresHeld, OrderListsTaxis, TaxisCoherent;
    var s', b := CallNextTaxi(s, t).value, s.queue[0];
    assert b in s.queue && b !in Occupants(s, r);
    assert s'.taxis == s.taxis[b := s'.taxis[b]] && (OnRank(s'.taxis[b], r) <==> r == t);
    if r == t {
      assert Occupants(s', r) == Occupants(s, r) + {b};
    } else {
      assert Occupants(s', r) == Occupants(s, r);
    }
  }

  lemma CallKeepsFit(s: State, t: TerminalId)
    requires Valid(s) && RanksFit(s) && CallNextTaxi(s, t).Ok?
    ensures RanksFit(CallNextTaxi(s, t).value) <==> HasRoom(s, t)
  {
    var s' := CallNextTaxi(s, t).value;
    CallTakesOneSlot(s, t, t);
    forall r | r in s'.terminals && HasRoom(s, t) ensures Occupancy(s', r) <= s'.terminals[r].capacity {
      CallTakesOneSlot(s, t, r);
    }
  }

  lemma OtherCallsAddNobody(s: State, op: Op, t: TerminalId)
    requires Valid(s) && !op.CallNext? && !op.Return? && !op.Promote?
    ensures Occupants(After(s, op), t) <= Occupants(s, t)
  {
  }

  lemma ReturnKeepsFit(s: State, b: Badge, t: TerminalId, eta: real)
    requires Valid(s) && RanksFit(s) && ReturnToTerminal(s, b, t, eta).Ok?
    ensures RanksFit(ReturnToTerminal(s, b, t, eta).value)
  {
    var s' := ReturnToTerminal(s, b, t, eta).value;
    forall r | r in s'.terminals ensures Occupancy(s', r) <= s'.terminals[r].capacity {
      ReturnFillsFreeSlot(s, b, t, eta, r);
    }
  }

  lemma PromotionKeepsFit(s: State)
    requires Valid(s) && RanksFit(s)
    ensures RanksFit(PromoteDueReturns(s))
  {
    forall t | t in s.terminals ensures Occupancy(PromoteDueReturns(s), t) <= s.terminals[t].capacity {
      PromotionFillsSlots(s, t);
    }
  }

  lemma OtherCallsKeepFit(s: State, op: Op)
    requires Valid(s) && RanksFit(s) && !op.CallNext? && !op.NewTerminal? && !op.Return? && !op.Promote?
    ensures RanksFit(After(s, op))
  {
    var s' := After(s, op);
    forall t | t in s'.terminals ensures Occupancy(s', t) <= s'.terminals[t].capacity {
      OtherCallsOpenNothing(s, op, t);
      OtherCallsAddNobody(s, op, t);
      SubsetCardinality(Occupants(s', t), Occupants(s, t));
    }
  }

  lemma OpeningKeepsFit(s: State, op: Op)
    requires RanksFit(s) && op.NewTerminal?
    ensures RanksFit(After(s, op)) <==> !Overfills(s, op)
  {
    var s' := After(s, op);
    assert forall t :: Occupants(s', t) == Occupants(s, t);
    assert op.terminal in s'.terminals;
  }

  /** The promise that a terminal holds at most its capacity survives a call exactly when the call is
      neither of the two that overfill. */
  lemma StepKeepsFit(s: State, op: Op)
    requires Valid(s) && RanksFit(s)
    ensures RanksFit(After(s, op)) <==> !Overfills(s, op)
  {
    if op.CallNext? {
      if Apply(s, op).Ok? {
        CallKeepsFit(s, op.terminal);
      }
    } else if op.NewTerminal? {
      OpeningKeepsFit(s, op);
    } else if op.Promote? {
      PromotionKeepsFit(s);
    } else if op.Return? {
      if Apply(s, op).Ok? {
        ReturnKeepsFit(s, op.badge, op.terminal, op.eta);
      }
    } else {
      OtherCallsKeepFit(s, op);
    }
  }

  ghost predicate AlwaysFit(s: State, ops: seq<Op>)
    decreases |ops|
  {
    RanksFit(s) && (ops != [] ==> AlwaysFit(After(s, ops[0]), ops[1..]))
  }

  predicate NeverOverfills(s: State, ops: seq<Op>)
    decreases |ops|
  {
    ops != [] ==> !Overfills(s, ops[0]) && NeverOverfills(After(s, ops[0]), ops[1..])
  }

  /** Over any run: no rank ever holds more taxis than its capacity, if and only if no taxi is ever
      called forward to a full rank and no terminal is opened smaller than its rank. */
  lemma {:induction false} RunKeepsFit(s: State, ops: seq<Op>)
    requires Valid(s) && RanksFit(s)
    ensures AlwaysFit(s, ops) <==> NeverOverfills(s, ops)
    decreases |ops|
  {
    if ops != [] {
      StepKeepsValid(s, ops[0]);
      StepKeepsFit(s, ops[0]);
      if !Overfills(s, ops[0]) {
        RunKeepsFit(After(s, ops[0]), ops[1..]);
      }
    }
  }

  const SLOT := NewTerminal("T", "T", Some(1))
  const TWO_TAXIS: seq<Op> := [SLOT, NewTaxi("A", ""), NewTaxi("B", ""), Join("A"), Join("B"), CallNext("T")]

  /** The store after the two taxis have joined. */
  function BothParked(): State {
    var taxi := NEW_TAXI.(status := InFeederPark, joinedAt := Some(0.0));
    EMPTY.(taxis := map["A" := taxi, "B" := taxi], order := ["A", "B"], queue := ["A", "B"],
           terminals := map["T" := TerminalState("T", 1)])
  }

  lemma TaxisParked()
    ensures Run(EMPTY, TWO_TAXIS) == After(BothParked(), CallNext("T"))
  {
    var s1 := After(EMPTY, SLOT);
    var s2 := After(s1, NewTaxi("A", ""));
    var s3 := After(s2, NewTaxi("B", ""));
    var s4 := After(s3, Join("A"));
    var s5 := After(s4, Join("B"));
    assert s5.taxis == BothParked().taxis;
    assert s5 == BothParked();
    var r5 := [CallNext("T")];
    var r4 := [Join("B")] + r5;
    var r3 := [Join("A")] + r4;
    var r2 := [NewTaxi("B", "")] + r3;
    var r1 := [NewTaxi("A", "")] + r2;
    assert TWO_TAXIS == [SLOT] + r1;
    RunFirst(EMPTY, SLOT, r1);
    RunFirst(s1, NewTaxi("A", ""), r2);
    RunFirst(s2, NewTaxi("B", ""), r3);
    RunFirst(s3, Join("A"), r4);
    RunFirst(s4, Join("B"), r5);
    RunFirst(s5, CallNext("T"), []);
    assert r5 == [CallNext("T")] + [];
  }

  lemma BothParkedIsValid()
    ensures Valid(BothParked()) && Occupants(BothParked(), "T") == {}
    ensures CallNextTaxi(BothParked(), "T").Ok?
    ensures CallNextTaxi(BothParked(), "T").value.terminals == map["T" := TerminalState("T", 1)]
    ensures CallNextTaxi(BothParked(), "T").value.queue == ["B"]
  {
  }

  /** Two taxis called forward, from an empty store, to a rank with one slot: the second call
      succeeds, and overfills the rank. */
  lemma CentralDispatchOverfills()
    ensures var s := Run(EMPTY, TWO_TAXIS);
            && RanksFit(s) && s.terminals == map["T" := TerminalState("T", 1)]
            && Apply(s, CallNext("T")).Ok? && Occupancy(After(s, CallNext("T")), "T") == 2
            && !RanksFit(After(s, CallNext("T")))
  {
    hide BothParked;
    var s0 := BothParked();
    BothParkedIsValid();
    TaxisParked();
    CallNextKeepsValid(s0, "T");
    CallTakesOneSlot(s0, "T", "T");
    CallTakesOneSlot(CallNextTaxi(s0, "T").value, "T", "T");
  }
}
