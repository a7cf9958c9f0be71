/** The return deadline of an exempt taxi, from the completion of its fare to its check-in. */
module Deadlines {
  import opened Domain
  import opened StoreSpec
  import opened Lifecycle
  import opened Destinations

  /** Traffic, in percent of free roads. */
  function Percent(level: Traffic): real {
    match level
    case Normal => 100.0
    case Moderate => 115.0
    case Heavy => 135.0
  }

  /** What the allowance extends: an hour for a local fare and an hour and a half for the others, or the
      estimate if that is longer. */
  function BaseMinutes(c: FareClass, estimate: Option<real>): real {
    var floor := if c == Local then 60.0 else 90.0;
    if estimate.Some? && estimate.value > floor then estimate.value else floor
  }

  function ExtendedMinutes(c: FareClass, estimate: Option<real>, level: Traffic): real {
    BaseMinutes(c, estimate) * Percent(level) / 100.0
  }

  lemma AllowanceInPercent(c: FareClass, level: Traffic, estimate: Option<real>)
    requires c != Standard
    ensures ReturnDeadlineMinutes(level, c, estimate) == ExtendedMinutes(c, estimate, level)
  {
  }

  /** For every place of the table the floor is the longer one: its own estimate never extends the
      deadline, only an agent's estimate can. */
  lemma KnownPlacesGetTheFloor(i: nat)
    requires i < |KNOWN_DESTINATIONS|
    ensures var info := KNOWN_DESTINATIONS[i].info;
            && info.classification != Standard
            && BaseMinutes(info.classification, Some(info.typicalRoundTrip)) == BaseMinutes(info.classification, None)
  {
    hide KNOWN_DESTINATIONS;
    EstimatesWithinFloors(i);
  }

  /** The deadline allowance never undercuts the floor, grows with the estimate, and strictly with
      traffic. */
  lemma AllowanceBounds(c: FareClass, level: Traffic, heavier: Traffic, estimate: Option<real>, longer: real)
    requires c != Standard
    requires TrafficMultiplier(level) <= TrafficMultiplier(heavier)
    requires estimate.Some? ==> estimate.value <= longer
    ensures ReturnDeadlineMinutes(level, c, estimate) >= ReturnTimeFloorMinutes(c)
    ensures ReturnDeadlineMinutes(level, c, estimate) <= ReturnDeadlineMinutes(heavier, c, Some(longer))
    ensures ReturnDeadlineMinutes(Normal, c, estimate) < ReturnDeadlineMinutes(Moderate, c, estimate)
    ensures ReturnDeadlineMinutes(Moderate, c, estimate) < ReturnDeadlineMinutes(Heavy, c, estimate)
  {
    var floor := ReturnTimeFloorMinutes(c);
    var short := MaxReal(floor, if estimate.Some? then estimate.value else 0.0);
    var long := MaxReal(floor, longer);
    assert floor <= short <= long;
    assert floor <= short * 1.0 <= short * TrafficMultiplier(level);
    assert short * TrafficMultiplier(level) <= long * TrafficMultiplier(heavier);
  }

  predicate Exempt(s: State, b: Badge) {
    b in s.taxis && s.taxis[b].status == ReturnExempt
  }

  /** `b` is exempt now and after each call of the run. */
  predicate ExemptThroughout(s: State, ops: seq<Op>, b: Badge)
    decreases |ops|
  {
    Exempt(s, b) && (ops != [] ==> ExemptThroughout(After(s, ops[0]), ops[1..], b))
  }

  /** The exemption a taxi holds: what for, where to, and until when. */
  predicate SameExemption(x: TaxiState, y: TaxiState) {
    x.exemptionType == y.exemptionType && x.exemptionDestination == y.exemptionDestination
    && x.returnDeadline == y.returnDeadline
  }

  lemma StepKeepsDeadline(s: State, op: Op, b: Badge)
    requires Valid(s) && Exempt(s, b) && Exempt(After(s, op), b)
    ensures SameExemption(After(s, op).taxis[b], s.taxis[b])
  {
    hide FaresHeld, OrderListsTaxis, SeatedList, HasRoom, ReturnDeadlineMinutes;
    if !Concerns(s, op, b) {
      OthersUntouched(s, op, b);
    } else if op.Promote? {
      assert After(s, op).taxis[b] == PromotedTaxi(s, b);
    }
  }

  lemma {:induction false} DeadlineFixed(s: State, ops: seq<Op>, b: Badge)
    requires Valid(s) && ExemptThroughout(s, ops, b)
    ensures Valid(Run(s, ops)) && Exempt(Run(s, ops), b)
    ensures SameExemption(Run(s, ops).taxis[b], s.taxis[b])
    decreases |ops|
  {
    if ops != [] {
      StepKeepsValid(s, ops[0]);
      StepKeepsDeadline(s, ops[0], b);
      DeadlineFixed(After(s, ops[0]), ops[1..], b);
    }
  }

  /** A taxi leaves the exempt status onto a rank only by being seated there. */
  lemma SeatingJudgesDeadline(s: State, op: Op, b: Badge)
    requires Valid(s) && Exempt(s, b) && b in After(s, op).taxis && After(s, op).taxis[b].status == Called
    ensures After(s, op).taxis[b].lastReturnOnTime == Some(s.now <= s.taxis[b].returnDeadline.value)
  {
    hide FaresHeld, OrderListsTaxis, SeatedList, HasRoom, ReturnDeadlineMinutes;
    if !Concerns(s, op, b) {
      OthersUntouched(s, op, b);
    } else if op.Promote? {
      assert After(s, op).taxis[b] == PromotedTaxi(s, b);
    }
  }

  /** The exemption that completing fare `f` in state `s` gives: for the fare's class and destination,
      until the completion time plus the larger of floor and estimate, extended by the traffic of that
      moment. */
  predicate ExemptFor(x: TaxiState, f: FareState, s: State) {
    && f.classification != Standard
    && x.exemptionType == Some(f.classification) && x.exemptionDestination == Some(f.destination)
    && x.returnDeadline == Some(s.now + ExtendedMinutes(f.classification, f.roundTrip, s.traffic))
  }

  lemma CompletionSetsDeadline(s: State, b: Badge)
    requires CompleteFare(s, b).Ok? && Exempt(After(s, Complete(b)), b)
    ensures b in s.taxis && s.taxis[b].currentFare.Some? && s.taxis[b].currentFare.value in s.fares
    ensures ExemptFor(After(s, Complete(b)).taxis[b], s.fares[s.taxis[b].currentFare.value], s)
  {
    hide ReturnDeadlineMinutes, ExtendedMinutes;
    var f := s.fares[s.taxis[b].currentFare.value];
    AllowanceInPercent(f.classification, s.traffic, f.roundTrip);
  }

  lemma DeadlineAboveFloor(x: TaxiState, f: FareState, s: State)
    requires ExemptFor(x, f, s)
    ensures x.returnDeadline.value >= s.now + BaseMinutes(f.classification, None)
  {
    var base := BaseMinutes(f.classification, f.roundTrip);
    assert base >= BaseMinutes(f.classification, None) >= 60.0;
    assert base * Percent(s.traffic) / 100.0 >= base;
  }

  /** The deadline over the trace.  Let taxi `b` complete an exempt fare in state `s`, and stay
      exempt through any run.  Then it still holds the exemption of that fare, with a deadline that is
      never less than the floor away from the completion; when a further call seats it, it is
      recorded on time exactly when the clock is within that deadline. */
  lemma DeadlineOverTrace(s: State, b: Badge, ops: seq<Op>, op: Op)
    requires Valid(s) && CompleteFare(s, b).Ok?
    requires ExemptThroughout(After(s, Complete(b)), ops, b)
    ensures s.taxis[b].currentFare.Some? && s.taxis[b].currentFare.value in s.fares
    ensures var f, s2 := s.fares[s.taxis[b].currentFare.value], Run(After(s, Complete(b)), ops);
            && Exempt(s2, b) && ExemptFor(s2.taxis[b], f, s)
            && var deadline := s2.taxis[b].returnDeadline.value;
            && deadline >= s.now + BaseMinutes(f.classification, None)
            && (b in After(s2, op).taxis && After(s2, op).taxis[b].status == Called ==>
                  After(s2, op).taxis[b].lastReturnOnTime == Some(s2.now <= deadline))
  {
    hide Valid, After, CompleteFare, ReturnDeadlineMinutes, BaseMinutes, ExtendedMinutes;
    var s1 := After(s, Complete(b));
    StepKeepsValid(s, Complete(b));
    assert Exempt(s1, b);
    CompletionSetsDeadline(s, b);
    DeadlineFixed(s1, ops, b);
    var s2 := Run(s1, ops);
    DeadlineAboveFloor(s2.taxis[b], s.fares[s.taxis[b].currentFare.value], s);
    if b in After(s2, op).taxis && After(s2, op).taxis[b].status == Called {
      SeatingJudgesDeadline(s2, op, b);
    }
  }

  // ---- the same, for every exempt taxi of every reachable store ----

  lemma PromotionExemptsNobody(s: State, b: Badge)
    ensures Exempt(PromoteDueReturns(s), b) ==> Exempt(s, b)
  {
  }

  lemma OnlyCompletionExempts(s: State, op: Op, b: Badge)
    requires Valid(s) && !Exempt(s, b) && Exempt(After(s, op), b)
    ensures op == Complete(b) && CompleteFare(s, b).Ok?
  {
    hide Valid, PromoteDueReturns, HasRoom, ReturnDeadlineMinutes;
    PromotionExemptsNobody(s, b);
  }

  lemma {:induction false} ExemptOneMore(s: State, ops: seq<Op>, op: Op, b: Badge)
    requires ExemptThroughout(s, ops, b) && Exempt(After(Run(s, ops), op), b)
    ensures ExemptThroughout(s, ops + [op], b)
    decreases |ops|
  {
    if ops == [] {
      assert ops + [op] == [op];
      assert ExemptThroughout(After(s, op), [], b);
    } else {
      ExemptOneMore(After(s, ops[0]), ops[1..], op, b);
      assert (ops + [op])[1..] == ops[1..] + [op];
    }
  }

  /** The completion behind an exemption: the call of the run, and the calls since, during all of
      which the taxi has been exempt. */
  ghost predicate Explains(s0: State, ops: seq<Op>, b: Badge, k: nat) {
    && k < |ops| && ops[k] == Complete(b)
    && var s := Run(s0, ops[..k]);
    && CompleteFare(s, b).Ok?
    && ExemptThroughout(After(s, Complete(b)), ops[k + 1..], b)
    && Run(s0, ops) == Run(After(s, Complete(b)), ops[k + 1..])
  }

  lemma ExplainsOneMore(s0: State, ops: seq<Op>, op: Op, b: Badge, k: nat)
    requires Explains(s0, ops, b, k) && Exempt(Run(s0, ops + [op]), b)
    ensures Explains(s0, ops + [op], b, k)
  {
    hide After, CompleteFare, Exempt;
    var s1 := After(Run(s0, ops[..k]), Complete(b));
    RunLast(s0, ops, op);
    RunLast(s1, ops[k + 1..], op);
    ExemptOneMore(s1, ops[k + 1..], op, b);
    assert (ops + [op])[..k] == ops[..k];
    assert (ops + [op])[k + 1..] == ops[k + 1..] + [op];
  }

  lemma LastExplains(s0: State, ops: seq<Op>, b: Badge)
    requires Valid(Run(s0, ops)) && CompleteFare(Run(s0, ops), b).Ok? && Exempt(Run(s0, ops + [Complete(b)]), b)
    ensures Explains(s0, ops + [Complete(b)], b, |ops|)
  {
    hide After, CompleteFare, Exempt;
    RunLast(s0, ops, Complete(b));
    assert (ops + [Complete(b)])[..|ops|] == ops;
    assert (ops + [Complete(b)])[|ops| + 1..] == [];
  }

  lemma {:induction false} ExemptionIsExplained(ops: seq<Op>, b: Badge) returns (k: nat)
    requires Exempt(Run(EMPTY, ops), b)
    ensures Explains(EMPTY, ops, b, k)
    decreases |ops|
  {
    var n := |ops| - 1;
    var before, op := ops[..n], ops[n];
    assert ops == before + [op];
    RunLast(EMPTY, before, op);
    ReachableIsValid(before);
    if Exempt(Run(EMPTY, before), b) {
      k := ExemptionIsExplained(before, b);
      ExplainsOneMore(EMPTY, before, op, b, k);
    } else {
      OnlyCompletionExempts(Run(EMPTY, before), op, b);
      k := n;
      LastExplains(EMPTY, before, b);
    }
  }

  /** Every exempt taxi of every reachable store got its exemption when it completed an exempt fare in
      the run, and its deadline is the time of that completion plus the allowance at the traffic
      level of that moment. */
  lemma ReachableDeadline(ops: seq<Op>, b: Badge) returns (k: nat)
    requires Exempt(Run(EMPTY, ops), b)
    ensures Explains(EMPTY, ops, b, k)
    ensures var s, x := Run(EMPTY, ops[..k]), Run(EMPTY, ops).taxis[b];
            && s.taxis[b].currentFare.Some? && s.taxis[b].currentFare.value in s.fares
            && ExemptFor(x, s.fares[s.taxis[b].currentFare.value], s)
  {
    hide Valid, Run, After, CompleteFare, ExemptFor;
    k := ExemptionIsExplained(ops, b);
    ReachableIsValid(ops[..k]);
    DeadlineOverTrace(Run(EMPTY, ops[..k]), b, ops[k + 1..], Promote);
  }
}
