/** First come, first served: how positions in the feeder park queue evolve over runs. */
module Fairness {
  import opened Domain
  import opened Lists
  import opened StoreSpec
  import opened Lifecycle

  /** One-based position, or None when not queued. */
  function QueuePosition(s: State, b: Badge): Option<nat> {
    if b in s.queue then Some(IndexOf(s.queue, b) + 1) else None
  }

  /** Position p is the p-th place, counted from one, and the first the badge has. */
  lemma PositionCountsFromOne(s: State, b: Badge, p: nat)
    ensures QueuePosition(s, b) == Some(p) <==> 1 <= p <= |s.queue| && s.queue[p - 1] == b && b !in s.queue[..p - 1]
    ensures QueuePosition(s, b).None? <==> b !in s.queue
  {
    if 1 <= p <= |s.queue| && s.queue[p - 1] == b && b !in s.queue[..p - 1] {
      var i := IndexOf(s.queue, b);
      assert forall k :: 0 <= k < p - 1 ==> s.queue[..p - 1][k] == s.queue[k];
      assert forall k :: 0 <= k < i ==> s.queue[..i][k] == s.queue[k];
    }
  }

  predicate Ahead(s: State, c: Badge, b: Badge) {
    c in s.queue && b in s.queue && IndexOf(s.queue, c) < IndexOf(s.queue, b)
  }

  /** The call takes the taxi at the front of the queue. */
  predicate Dispatches(s: State, op: Op) {
    op.CallNext? && Apply(s, op).Ok?
  }

  /** The call takes a taxi ahead of `b` out of the queue other than by dispatching it. */
  predicate WithdrawsAhead(s: State, op: Op, b: Badge) {
    (op.Leave? || op.DropTaxi?) && Apply(s, op).Ok? && Ahead(s, op.badge, b)
  }

  predicate StaysQueued(s: State, ops: seq<Op>, b: Badge)
    decreases |ops|
  {
    b in s.queue && (ops != [] ==> StaysQueued(After(s, ops[0]), ops[1..], b))
  }

  function Dispatched(s: State, ops: seq<Op>): nat
    decreases |ops|
  {
    if ops == [] then 0
    else (if Dispatches(s, ops[0]) then 1 else 0) + Dispatched(After(s, ops[0]), ops[1..])
  }

  function WithdrawnAhead(s: State, ops: seq<Op>, b: Badge): nat
    decreases |ops|
  {
    if ops == [] then 0
    else (if WithdrawsAhead(s, ops[0], b) then 1 else 0) + WithdrawnAhead(After(s, ops[0]), ops[1..], b)
  }

  lemma IndexAfterCut<T>(xs: seq<T>, i: nat, j: nat)
    requires Distinct(xs) && i < |xs| && j < |xs| && i != j
    ensures xs[j] in xs[..i] + xs[i + 1..]
    ensures IndexOf(xs[..i] + xs[i + 1..], xs[j]) == if i < j then j - 1 else j
  {
    CutKeepsDistinct(xs, i);
    var ys, k := xs[..i] + xs[i + 1..], if i < j then j - 1 else j;
    assert ys[k] == xs[j];
    IndexIsUnique(ys, xs[j], k);
  }

  lemma IndexAfterRemove<T>(xs: seq<T>, x: T, y: T)
    requires Distinct(xs) && x in xs && y in xs && x != y
    ensures y in RemoveFirst(xs, x)
    ensures IndexOf(RemoveFirst(xs, x), y) ==
            IndexOf(xs, y) - if IndexOf(xs, x) < IndexOf(xs, y) then 1 else 0
  {
    RemoveFirstCuts(xs, x);
    IndexAfterCut(xs, IndexOf(xs, x), IndexOf(xs, y));
  }

  lemma {:induction false} IndexAfterAppend<T>(xs: seq<T>, x: T, y: T)
    requires y in xs
    ensures IndexOf(xs + [x], y) == IndexOf(xs, y)
  {
    if xs[0] != y {
      assert (xs + [x])[1..] == xs[1..] + [x];
      IndexAfterAppend(xs[1..], x, y);
    }
  }

  lemma DispatchMovesUp(s: State, t: TerminalId, b: Badge)
    requires Valid(s) && CallNextTaxi(s, t).Ok? && b in s.queue && b in CallNextTaxi(s, t).value.queue
    ensures IndexOf(CallNextTaxi(s, t).value.queue, b) == IndexOf(s.queue, b) - 1
  {
    TailIndex(s.queue, b);
  }

  lemma TailIndex<T>(xs: seq<T>, y: T)
    requires Distinct(xs) && xs != [] && y in xs[1..]
    ensures IndexOf(xs, y) == IndexOf(xs[1..], y) + 1
  {
    var k := IndexOf(xs[1..], y);
    assert xs[k + 1] == y;
    IndexIsUnique(xs, y, k + 1);
  }

  /** A withdrawal is the removal of one badge from the queue, if it is there. */
  lemma WithdrawalQueue(s: State, op: Op)
    requires (op.Leave? || op.DropTaxi?) && Apply(s, op).Ok?
    ensures After(s, op).queue == RemoveFirst(s.queue, op.badge)
  {
  }

  lemma IndexAfterRemoveAny<T>(xs: seq<T>, x: T, y: T)
    requires Distinct(xs) && y in xs && y in RemoveFirst(xs, x)
    ensures x != y
    ensures IndexOf(RemoveFirst(xs, x), y) ==
            IndexOf(xs, y) - if x in xs && IndexOf(xs, x) < IndexOf(xs, y) then 1 else 0
  {
    RemoveFirstKeepsDistinct(xs, x);
    if x in xs {
      IndexAfterRemove(xs, x, y);
    } else {
      RemoveFirstAbsent(xs, x);
    }
  }

  lemma WithdrawalMovesUp(s: State, op: Op, b: Badge)
    requires Valid(s) && (op.Leave? || op.DropTaxi?) && Apply(s, op).Ok?
    requires b in s.queue && b in After(s, op).queue
    ensures op.badge != b
    ensures IndexOf(After(s, op).queue, b) == IndexOf(s.queue, b) - (if WithdrawsAhead(s, op, b) then 1 else 0)
  {
    WithdrawalQueue(s, op);
    IndexAfterRemoveAny(s.queue, op.badge, b);
  }

  lemma OtherCallsAppend(s: State, op: Op)
    requires !op.CallNext? && !op.Leave? && !op.DropTaxi?
    ensures After(s, op).queue == s.queue
            || ((op.Join? || op.Complete?) && After(s, op).queue == s.queue + [op.badge])
  {
  }

  /** One call moves a taxi that stays queued up by one place if it dispatches the front taxi or
      withdraws a taxi ahead, and not at all otherwise. */
  lemma StepMovesUp(s: State, op: Op, b: Badge)
    requires Valid(s) && b in s.queue && b in After(s, op).queue
    ensures IndexOf(After(s, op).queue, b) ==
            IndexOf(s.queue, b) - (if Dispatches(s, op) || WithdrawsAhead(s, op, b) then 1 else 0)
  {
    if Apply(s, op).Ok? {
      if op.CallNext? {
        DispatchMovesUp(s, op.terminal, b);
      } else if op.Leave? || op.DropTaxi? {
        WithdrawalMovesUp(s, op, b);
      } else {
        OtherCallsAppend(s, op);
        if After(s, op).queue != s.queue {
          IndexAfterAppend(s.queue, op.badge, b);
        }
      }
    }
  }

  /** Over any run during which `b` stays queued, its position drops by exactly the number of
      dispatches plus the withdrawals of taxis ahead of it. */
  lemma {:induction false} PositionLaw(s: State, ops: seq<Op>, b: Badge)
    requires Valid(s) && StaysQueued(s, ops, b)
    ensures b in Run(s, ops).queue
    ensures QueuePosition(Run(s, ops), b).value ==
            QueuePosition(s, b).value - Dispatched(s, ops) - WithdrawnAhead(s, ops, b)
    decreases |ops|
  {
    if ops != [] {
      StepKeepsValid(s, ops[0]);
      StepMovesUp(s, ops[0], b);
      PositionLaw(After(s, ops[0]), ops[1..], b);
    }
  }

  /** Bounded wait: a taxi at position p cannot still be waiting after p dispatches. */
  lemma CalledWithinPosition(s: State, ops: seq<Op>, b: Badge)
    requires Valid(s) && b in s.queue && Dispatched(s, ops) >= QueuePosition(s, b).value
    ensures !StaysQueued(s, ops, b)
  {
    if StaysQueued(s, ops, b) {
      PositionLaw(s, ops, b);
    }
  }

  /** No overtaking: while both stay queued, the one ahead stays ahead. */
  lemma {:induction false} NoOvertaking(s: State, ops: seq<Op>, b: Badge, c: Badge)
    requires Valid(s) && StaysQueued(s, ops, b) && StaysQueued(s, ops, c) && Ahead(s, b, c)
    ensures Ahead(Run(s, ops), b, c)
    decreases |ops|
  {
    if ops != [] {
      var s' := After(s, ops[0]);
      StepKeepsValid(s, ops[0]);
      StepMovesUp(s, ops[0], b);
      StepMovesUp(s, ops[0], c);
      if WithdrawsAhead(s, ops[0], c) {
        WithdrawalMovesUp(s, ops[0], b);
      }
      NoOvertaking(s', ops[1..], b, c);
    }
  }

  // ---- join times, under a clock that never goes back ----

  predicate ClockForward(s: State, op: Op) {
    op.SetClock? ==> s.now <= op.time
  }

  lemma NowAfter(s: State, op: Op)
    ensures After(s, op).now == if op.SetClock? then op.time else s.now
  {
    hide HasRoom, ReturnDeadlineMinutes;
  }

  predicate ClockMonotone(s: State, ops: seq<Op>)
    decreases |ops|
  {
    ops != [] ==> ClockForward(s, ops[0]) && ClockMonotone(After(s, ops[0]), ops[1..])
  }

  function JoinTime(s: State, b: Badge): real {
    if b in s.taxis && s.taxis[b].joinedAt.Some? then s.taxis[b].joinedAt.value else s.now
  }

  ghost predicate JoinTimesOrdered(s: State) {
    && (forall b :: b in s.queue ==> JoinTime(s, b) <= s.now)
    && forall i, j :: 0 <= i < j < |s.queue| ==> JoinTime(s, s.queue[i]) <= JoinTime(s, s.queue[j])
  }

  /** Removing one entry, or none, from a queue in order leaves it in order. */
  lemma RemovalKeepsJoinTimes(s: State, s': State)
    requires JoinTimesOrdered(s) && s.now <= s'.now
    requires forall b :: b in s.queue && b in s'.queue ==> JoinTime(s', b) == JoinTime(s, b)
    requires s'.queue == s.queue || exists i :: 0 <= i < |s.queue| && s'.queue == s.queue[..i] + s.queue[i + 1..]
    ensures JoinTimesOrdered(s')
  {
  }

  lemma DispatchKeepsJoinTimes(s: State, t: TerminalId)
    requires Valid(s) && JoinTimesOrdered(s) && CallNextTaxi(s, t).Ok?
    ensures JoinTimesOrdered(CallNextTaxi(s, t).value)
  {
    var s' := CallNextTaxi(s, t).value;
    assert s'.queue == s.queue[..0] + s.queue[0 + 1..];
    RemovalKeepsJoinTimes(s, s');
  }

  lemma CutKeepsJoinTimes(s: State, s': State, b: Badge)
    requires JoinTimesOrdered(s) && s.now <= s'.now && s'.queue == RemoveFirst(s.queue, b)
    requires forall c :: c in s.queue && c in s'.queue ==> JoinTime(s', c) == JoinTime(s, c)
    ensures JoinTimesOrdered(s')
  {
    if b in s.queue {
      RemoveFirstCuts(s.queue, b);
    } else {
      RemoveFirstAbsent(s.queue, b);
    }
    RemovalKeepsJoinTimes(s, s');
  }

  lemma WithdrawalKeepsJoinTimes(s: State, op: Op)
    requires Valid(s) && JoinTimesOrdered(s) && (op.DropTaxi? || op.Leave?) && Apply(s, op).Ok?
    ensures JoinTimesOrdered(After(s, op))
  {
    var s' := After(s, op);
    WithdrawalQueue(s, op);
    RemoveFirstKeepsDistinct(s.queue, op.badge);
    CutKeepsJoinTimes(s, s', op.badge);
  }

  lemma AppendKeepsJoinTimes(s: State, s': State, b: Badge)
    requires JoinTimesOrdered(s) && s'.now == s.now && s'.queue == s.queue + [b] && JoinTime(s', b) == s.now
    requires forall c :: c in s.queue ==> JoinTime(s', c) == JoinTime(s, c)
    ensures JoinTimesOrdered(s')
  {
  }

  lemma PromotionKeepsJoinTimes(s: State)
    requires Valid(s) && JoinTimesOrdered(s)
    ensures JoinTimesOrdered(PromoteDueReturns(s))
  {
    var s' := PromoteDueReturns(s);
    assert forall b :: b in s.taxis ==> s'.taxis[b] == PromotedTaxi(s, b);
    RemovalKeepsJoinTimes(s, s');
  }

  lemma ArrivalKeepsJoinTimes(s: State, op: Op)
    requires Valid(s) && JoinTimesOrdered(s) && (op.Join? || op.Complete?)
    ensures JoinTimesOrdered(After(s, op))
  {
    hide OrderListsTaxis, FaresHeld, JoinTimesOrdered, ReturnDeadlineMinutes;
    var s' := After(s, op);
    if s'.queue != s.queue {
      AppendKeepsJoinTimes(s, s', op.badge);
    } else {
      RemovalKeepsJoinTimes(s, s');
    }
  }

  lemma OtherCallsKeepJoinTimes(s: State, op: Op)
    requires Valid(s) && JoinTimesOrdered(s) && ClockForward(s, op)
    requires !op.CallNext? && !op.DropTaxi? && !op.Leave? && !op.Promote? && !op.Join? && !op.Complete?
    ensures JoinTimesOrdered(After(s, op))
  {
    RemovalKeepsJoinTimes(s, After(s, op));
  }

  lemma StepKeepsJoinTimes(s: State, op: Op)
    requires Valid(s) && JoinTimesOrdered(s) && ClockForward(s, op)
    ensures JoinTimesOrdered(After(s, op))
  {
    if op.CallNext? {
      if CallNextTaxi(s, op.terminal).Ok? {
        DispatchKeepsJoinTimes(s, op.terminal);
      }
    } else if op.DropTaxi? || op.Leave? {
      if Apply(s, op).Ok? {
        WithdrawalKeepsJoinTimes(s, op);
      }
    } else if op.Promote? {
      PromotionKeepsJoinTimes(s);
    } else if op.Join? || op.Complete? {
      ArrivalKeepsJoinTimes(s, op);
    } else {
      OtherCallsKeepJoinTimes(s, op);
    }
  }

  /** Whoever joined earlier stands ahead, at every point of a run with a monotone clock. */
  lemma {:induction false} RunKeepsJoinTimes(s: State, ops: seq<Op>)
    requires Valid(s) && JoinTimesOrdered(s) && ClockMonotone(s, ops)
    ensures JoinTimesOrdered(Run(s, ops))
    decreases |ops|
  {
    if ops != [] {
      StepKeepsValid(s, ops[0]);
      StepKeepsJoinTimes(s, ops[0]);
      RunKeepsJoinTimes(After(s, ops[0]), ops[1..]);
    }
  }
}
