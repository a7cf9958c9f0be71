/** The order of events in time, under a clock that never goes back. */
module Timeline {
  import opened Domain
  import opened StoreSpec
  import opened Lifecycle
  import opened Fairness

  predicate Past(moment: Option<real>, now: real) {
    moment.Some? ==> moment.value <= now
  }

  predicate TaxiTimesPast(x: TaxiState, now: real) {
    Past(x.joinedAt, now) && Past(x.calledAt, now)
  }

  /** A fare is recorded, then completed, and both by now. */
  predicate FareInOrder(f: FareState, now: real) {
    f.recordedAt <= now && (f.completedAt.Some? ==> f.recordedAt <= f.completedAt.value <= now)
  }

  /** A taxi on a fare was called to its terminal before the fare was recorded there. */
  predicate CalledBeforeFare(s: State, b: Badge)
    requires b in s.taxis && HoldsOwnFare(s, b)
  {
    var x := s.taxis[b];
    x.currentFare.Some? ==>
      var f := s.fares[x.currentFare.value];
      x.calledAt.Some? && x.calledAt.value <= f.recordedAt && x.terminalId == Some(f.terminalId)
  }

  ghost predicate InOrder(s: State)
    requires Valid(s)
  {
    && (forall b :: b in s.taxis ==> TaxiTimesPast(s.taxis[b], s.now))
    && (forall id :: id in s.fares ==> FareInOrder(s.fares[id], s.now))
    && forall b :: b in s.taxis ==> HoldsOwnFare(s, b) && CalledBeforeFare(s, b)
  }

  /** A moment after a call is the moment before it, or now, or absent. */
  predicate Stamped(before: Option<real>, after: Option<real>, now: real) {
    after.None? || after == Some(now) || after == before
  }

  lemma StepStampsTaxi(s: State, op: Op, b: Badge)
    requires b in After(s, op).taxis
    ensures var before := if b in s.taxis then s.taxis[b] else NEW_TAXI;
            && Stamped(before.joinedAt, After(s, op).taxis[b].joinedAt, s.now)
            && Stamped(before.calledAt, After(s, op).taxis[b].calledAt, s.now)
  {
    hide HasRoom, SeatedList, ReturnDeadlineMinutes;
    if !Concerns(s, op, b) {
      OthersUntouched(s, op, b);
    } else if op.Promote? {
      assert After(s, op).taxis[b] == PromotedTaxi(s, b);
    }
  }

  lemma StepKeepsTaxiTimes(s: State, op: Op, b: Badge)
    requires Valid(s) && InOrder(s) && ClockForward(s, op) && b in After(s, op).taxis
    ensures TaxiTimesPast(After(s, op).taxis[b], After(s, op).now)
  {
    hide Valid, After;
    assert b in s.taxis ==> TaxiTimesPast(s.taxis[b], s.now);
    NowAfter(s, op);
    StepStampsTaxi(s, op, b);
  }

  lemma StepStampsFare(s: State, op: Op, id: FareId)
    requires Valid(s) && id in After(s, op).fares
    ensures var f := After(s, op).fares[id];
            if id in s.fares
            then f.recordedAt == s.fares[id].recordedAt && Stamped(s.fares[id].completedAt, f.completedAt, s.now)
            else f.recordedAt == s.now && f.completedAt.None?
  {
    hide OrderListsTaxis, QueueListsParked, TaxisCoherent, HoldsOwnFare, HasRoom, ReturnDeadlineMinutes;
  }

  lemma StepKeepsFareTimes(s: State, op: Op, id: FareId)
    requires Valid(s) && InOrder(s) && ClockForward(s, op) && id in After(s, op).fares
    ensures FareInOrder(After(s, op).fares[id], After(s, op).now)
  {
    hide Valid, After;
    assert id in s.fares ==> FareInOrder(s.fares[id], s.now);
    NowAfter(s, op);
    StepStampsFare(s, op, id);
  }

  /** Nothing but its completion touches a taxi on a fare. */
  lemma FareHolderUntouched(s: State, op: Op, b: Badge)
    requires Valid(s) && b in After(s, op).taxis && After(s, op).taxis[b].currentFare.Some?
    requires !op.Record? || op.badge != b
    ensures b in s.taxis && After(s, op).taxis[b] == s.taxis[b]
  {
    hide FaresHeld, OrderListsTaxis, HoldsOwnFare, SeatedList, HasRoom, ReturnDeadlineMinutes;
    if !Concerns(s, op, b) {
      OthersUntouched(s, op, b);
    } else if op.Promote? {
      assert After(s, op).taxis[b] == PromotedTaxi(s, b);
    } else if b in s.taxis {
      assert Coherent(s.taxis[b]);
      assert op.CallNext? ==> b in s.queue;
    }
  }

  lemma RecordKeepsCalls(s: State, op: Op)
    requires Valid(s) && InOrder(s) && Valid(After(s, op))
    requires op.Record? && op.badge in After(s, op).taxis
    ensures HoldsOwnFare(After(s, op), op.badge) && CalledBeforeFare(After(s, op), op.badge)
  {
    hide OrderListsTaxis, QueueListsParked;
    assert HoldsOwnFare(After(s, op), op.badge);
    assert CalledBeforeFare(s, op.badge) && Coherent(s.taxis[op.badge]) && TaxiTimesPast(s.taxis[op.badge], s.now);
  }

  lemma StepKeepsCalls(s: State, op: Op, b: Badge)
    requires Valid(s) && InOrder(s) && Valid(After(s, op)) && b in After(s, op).taxis
    ensures HoldsOwnFare(After(s, op), b) && CalledBeforeFare(After(s, op), b)
  {
    hide After, OrderListsTaxis, QueueListsParked, TaxisCoherent;
    assert HoldsOwnFare(After(s, op), b);
    if op.Record? && op.badge == b {
      RecordKeepsCalls(s, op);
    } else if After(s, op).taxis[b].currentFare.Some? {
      FareHolderUntouched(s, op, b);
      assert HoldsOwnFare(s, b) && CalledBeforeFare(s, b);
      StepCompletesOnce(s, op, s.taxis[b].currentFare.value);
    }
  }

  lemma StepKeepsOrder(s: State, op: Op)
    requires Valid(s) && InOrder(s) && ClockForward(s, op)
    ensures Valid(After(s, op)) && InOrder(After(s, op))
  {
    hide After, Apply;
    var s' := After(s, op);
    StepKeepsValid(s, op);
    forall b | b in s'.taxis
      ensures TaxiTimesPast(s'.taxis[b], s'.now) && HoldsOwnFare(s', b) && CalledBeforeFare(s', b)
    {
      StepKeepsTaxiTimes(s, op, b);
      StepKeepsCalls(s, op, b);
    }
    forall id | id in s'.fares ensures FareInOrder(s'.fares[id], s'.now) {
      StepKeepsFareTimes(s, op, id);
    }
  }

  /** Over any run with a monotone clock: called, then recorded at that same terminal, then
      completed, never in the future. */
  lemma {:induction false} RunKeepsOrder(s: State, ops: seq<Op>)
    requires Valid(s) && InOrder(s) && ClockMonotone(s, ops)
    ensures Valid(Run(s, ops)) && InOrder(Run(s, ops))
    decreases |ops|
  {
    if ops != [] {
      StepKeepsOrder(s, ops[0]);
      RunKeepsOrder(After(s, ops[0]), ops[1..]);
    }
  }

  lemma OrderedFromEmpty(ops: seq<Op>)
    requires ClockMonotone(EMPTY, ops)
    ensures Valid(Run(EMPTY, ops)) && InOrder(Run(EMPTY, ops))
  {
    RunKeepsOrder(EMPTY, ops);
  }

  /** Whoever steps onto a rank is stamped with the time, and marked as self-checked-in exactly when
      it was not central dispatch that brought them. */
  lemma ArrivalIsMarked(s: State, op: Op, b: Badge)
    requires Valid(s) && b in After(s, op).taxis && After(s, op).taxis[b].status == Called
    requires b !in s.taxis || s.taxis[b].status != Called
    ensures After(s, op).taxis[b].calledAt == Some(s.now)
    ensures After(s, op).taxis[b].selfCheckedIn <==> !op.CallNext?
    ensures op.CallNext? || op.Return? || op.Promote?
    ensures op.CallNext? <==> b in s.queue
  {
    hide FaresHeld, OrderListsTaxis, HoldsOwnFare, SeatedList, HasRoom, ReturnDeadlineMinutes;
    if !Concerns(s, op, b) {
      OthersUntouched(s, op, b);
    } else if op.Promote? {
      assert After(s, op).taxis[b] == PromotedTaxi(s, b);
    }
    assert op.CallNext? ==> b in s.queue;
  }
}
