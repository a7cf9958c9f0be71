/** The estimate of how fast taxis are being called forward (app/services/throughput.py). */
module Throughput {
  import opened Domain
  import opened StoreSpec
  import opened Fairness

  function Times(events: seq<DispatchEvent>): seq<real> {
    seq(|events|, i requires 0 <= i < |events| => events[i].at)
  }

  /** The comprehension keeping the times not before `start`. */
  function NotBefore(times: seq<real>, start: real): seq<real> {
    if times == [] then []
    else (if times[0] >= start then [times[0]] else []) + NotBefore(times[1..], start)
  }

  function Insert(x: real, xs: seq<real>): seq<real> {
    if xs == [] || x <= xs[0] then [x] + xs else [xs[0]] + Insert(x, xs[1..])
  }

  function Sorted(xs: seq<real>): (ys: seq<real>)
    ensures |ys| == |xs|
  {
    if xs == [] then [] else InsertLength(xs[0], Sorted(xs[1..])); Insert(xs[0], Sorted(xs[1..]))
  }

  function Span(xs: seq<real>): real {
    if xs == [] then 0.0 else xs[|xs| - 1] - xs[0]
  }

  /** The interval measured from `n` calls spread over `span` minutes: the mean gap, clamped from
      below; the default when there are too few calls or no spread. */
  function MeasuredInterval(n: nat, span: real): real {
    if n < MIN_EVENTS_FOR_ESTIMATE || span <= 0.0 then DEFAULT_CALL_INTERVAL_MINUTES
    else MaxReal(span / (n - 1) as real, MIN_CALL_INTERVAL_MINUTES)
  }

  function CallInterval(times: seq<real>, now: real): real {
    var recent := NotBefore(times, now - THROUGHPUT_WINDOW_MINUTES);
    MeasuredInterval(|recent|, Span(Sorted(recent)))
  }

  function CurrentCallInterval(s: State): real {
    CallInterval(Times(s.dispatchEvents), s.now)
  }

  ghost predicate Ascending(xs: seq<real>) {
    forall i, j :: 0 <= i < j < |xs| ==> xs[i] <= xs[j]
  }

  lemma {:induction false} InsertLength(x: real, xs: seq<real>)
    ensures |Insert(x, xs)| == |xs| + 1
  {
    if xs != [] && xs[0] < x {
      InsertLength(x, xs[1..]);
    }
  }

  lemma {:induction false} InsertPermutes(x: real, xs: seq<real>)
    ensures multiset(Insert(x, xs)) == multiset(xs) + multiset{x}
  {
    if xs != [] && xs[0] < x {
      InsertPermutes(x, xs[1..]);
      assert xs == [xs[0]] + xs[1..];
    }
  }

  lemma {:induction false} InsertKeepsOrder(x: real, xs: seq<real>)
    requires Ascending(xs)
    ensures Ascending(Insert(x, xs))
    ensures forall y :: y in Insert(x, xs) ==> y == x || y in xs
  {
    if xs != [] && xs[0] < x {
      InsertKeepsOrder(x, xs[1..]);
      var rest := Insert(x, xs[1..]);
      forall i | 0 <= i < |rest| ensures xs[0] <= rest[i] {
        assert rest[i] in rest;
        if rest[i] != x {
          var j :| 0 <= j < |xs[1..]| && xs[1..][j] == rest[i];
          assert xs[j + 1] == rest[i];
        }
      }
    }
  }

  lemma {:induction false} SortedSorts(xs: seq<real>)
    ensures Ascending(Sorted(xs)) && multiset(Sorted(xs)) == multiset(xs)
  {
    if xs != [] {
      SortedSorts(xs[1..]);
      InsertKeepsOrder(xs[0], Sorted(xs[1..]));
      InsertPermutes(xs[0], Sorted(xs[1..]));
      assert xs == [xs[0]] + xs[1..];
    }
  }

  lemma {:induction false} SortedIsIdentity(xs: seq<real>)
    requires Ascending(xs)
    ensures Sorted(xs) == xs
  {
    if xs != [] {
      SortedIsIdentity(xs[1..]);
      assert xs == [xs[0]] + xs[1..];
    }
  }

  lemma {:induction false} NotBeforeMembers(times: seq<real>, start: real)
    ensures forall x :: x in NotBefore(times, start) <==> x in times && start <= x
  {
    if times != [] {
      NotBeforeMembers(times[1..], start);
      assert times == [times[0]] + times[1..];
    }
  }

  lemma {:induction false} NotBeforeCounts(times: seq<real>, start: real, x: real)
    ensures multiset(NotBefore(times, start))[x] == if start <= x then multiset(times)[x] else 0
  {
    if times != [] {
      NotBeforeCounts(times[1..], start, x);
      assert times == [times[0]] + times[1..];
      assert NotBefore(times, start) ==
             (if times[0] >= start then [times[0]] else []) + NotBefore(times[1..], start);
    }
  }

  /** There is one way to sort. */
  lemma {:induction false} SortingIsUnique(xs: seq<real>, ys: seq<real>)
    requires Ascending(xs) && Ascending(ys) && multiset(xs) == multiset(ys)
    ensures xs == ys
  {
    hide Ascending;
    SameLength(xs, ys);
    if xs != [] {
      HeadIsLeast(xs, ys[0]);
      HeadIsLeast(ys, xs[0]);
      WithoutHead(xs);
      WithoutHead(ys);
      SortingIsUnique(xs[1..], ys[1..]);
      SameHeadAndTail(xs, ys);
    }
  }

  lemma SameLength(xs: seq<real>, ys: seq<real>)
    requires multiset(xs) == multiset(ys)
    ensures |xs| == |ys|
  {
    assert |multiset(xs)| == |xs|;
  }

  lemma SameHeadAndTail(xs: seq<real>, ys: seq<real>)
    requires xs != [] && ys != [] && xs[0] == ys[0] && xs[1..] == ys[1..]
    ensures xs == ys
  {
    assert xs == [xs[0]] + xs[1..];
  }

  lemma HeadIsLeast(xs: seq<real>, y: real)
    requires Ascending(xs) && xs != []
    ensures y in multiset(xs) ==> xs[0] <= y
    ensures xs[0] in multiset(xs)
  {
    assert y in multiset(xs) ==> y in xs;
  }

  lemma WithoutHead(xs: seq<real>)
    requires Ascending(xs) && xs != []
    ensures multiset(xs[1..]) == multiset(xs) - multiset{xs[0]} && Ascending(xs[1..])
  {
    assert xs == [xs[0]] + xs[1..];
  }

  lemma RecentInOrder(times: seq<real>, now: real, stamps: seq<real>)
    requires Ascending(stamps)
    requires forall x :: multiset(stamps)[x] == if now - 30.0 <= x then multiset(times)[x] else 0
    ensures CallInterval(times, now) == MeasuredInterval(|stamps|, Span(stamps))
  {
    hide Ascending, MeasuredInterval, NotBefore, Span;
    var recent := NotBefore(times, now - THROUGHPUT_WINDOW_MINUTES);
    forall x ensures multiset(recent)[x] == multiset(stamps)[x] {
      NotBeforeCounts(times, now - THROUGHPUT_WINDOW_MINUTES, x);
    }
    SortedSorts(recent);
    SortingIsUnique(Sorted(recent), stamps);
  }

  /** The interval in full.  Let `stamps` be the calls of the last half hour (and of the future, if
      any), in order: with fewer than three, or all at the same moment, the interval is three
      minutes; otherwise it is their mean gap, but at least a quarter of a minute. */
  lemma IntervalExactly(times: seq<real>, now: real, stamps: seq<real>)
    requires Ascending(stamps)
    requires forall x :: multiset(stamps)[x] == if now - 30.0 <= x then multiset(times)[x] else 0
    ensures |stamps| < 3 ==> CallInterval(times, now) == 3.0
    ensures |stamps| >= 3 ==>
              var spread := stamps[|stamps| - 1] - stamps[0];
              if spread == 0.0 then CallInterval(times, now) == 3.0
              else if spread / (|stamps| - 1) as real < 0.25 then CallInterval(times, now) == 0.25
              else CallInterval(times, now) == spread / (|stamps| - 1) as real
  {
    hide CallInterval, NotBefore;
    RecentInOrder(times, now, stamps);
    assert |stamps| >= 3 ==> stamps[0] <= stamps[|stamps| - 1];
  }

  /** In an ascending history the recent events are a suffix. */
  lemma {:induction false} RecentIsSuffix(times: seq<real>, start: real) returns (k: nat)
    requires Ascending(times)
    ensures k <= |times| && NotBefore(times, start) == times[k..]
  {
    if times == [] {
      k := 0;
    } else {
      var tail := RecentIsSuffix(times[1..], start);
      if times[0] >= start {
        NotBeforeMembers(times[1..], start);
        forall i | 1 <= i < |times| ensures times[i] >= start { assert times[0] <= times[i]; }
        AllRecent(times, start);
        k := 0;
      } else {
        k := tail + 1;
      }
    }
  }

  lemma {:induction false} AllRecent(times: seq<real>, start: real)
    requires forall i :: 0 <= i < |times| ==> times[i] >= start
    ensures NotBefore(times, start) == times
  {
    if times != [] {
      AllRecent(times[1..], start);
      assert times == [times[0]] + times[1..];
    }
  }

  function SumOfGaps(xs: seq<real>): real {
    if |xs| < 2 then 0.0 else xs[1] - xs[0] + SumOfGaps(xs[1..])
  }

  lemma {:induction false} GapsTelescope(xs: seq<real>)
    ensures SumOfGaps(xs) == Span(xs)
  {
    if |xs| >= 2 {
      GapsTelescope(xs[1..]);
    }
  }

  /** With an ascending history, the measured interval is the mean of the gaps between consecutive
      recent calls, which are the last ones recorded; sorting changes nothing. */
  lemma IntervalIsMeanGap(times: seq<real>, now: real) returns (k: nat)
    requires Ascending(times)
    ensures k <= |times| && NotBefore(times, now - THROUGHPUT_WINDOW_MINUTES) == times[k..]
    ensures CallInterval(times, now) == MeasuredInterval(|times| - k, SumOfGaps(times[k..]))
  {
    hide MeasuredInterval;
    k := RecentIsSuffix(times, now - THROUGHPUT_WINDOW_MINUTES);
    SortedIsIdentity(times[k..]);
    GapsTelescope(times[k..]);
  }

  lemma MeasuredIntervalBounds(n: nat, span: real)
    ensures MeasuredInterval(n, span) >= MIN_CALL_INTERVAL_MINUTES
    ensures span <= THROUGHPUT_WINDOW_MINUTES ==> MeasuredInterval(n, span) <= 15.0
  {
    if n >= MIN_EVENTS_FOR_ESTIMATE && span <= THROUGHPUT_WINDOW_MINUTES {
      DivideBound(span, (n - 1) as real);
    }
  }

  lemma RecentSpan(times: seq<real>, now: real)
    requires forall i :: 0 <= i < |times| ==> times[i] <= now
    ensures Span(Sorted(NotBefore(times, now - THROUGHPUT_WINDOW_MINUTES))) <= THROUGHPUT_WINDOW_MINUTES
  {
    var recent := NotBefore(times, now - THROUGHPUT_WINDOW_MINUTES);
    var stamps := Sorted(recent);
    SortedSorts(recent);
    NotBeforeMembers(times, now - THROUGHPUT_WINDOW_MINUTES);
    if stamps != [] {
      assert stamps[0] in multiset(stamps) && stamps[|stamps| - 1] in multiset(stamps);
      assert stamps[0] in recent && stamps[|stamps| - 1] in recent;
    }
  }

  /** Whatever the history, the interval is at least 0.25 minutes; and at most 15 whenever no
      recorded call lies in the future. */
  lemma IntervalBounds(times: seq<real>, now: real)
    ensures CallInterval(times, now) >= MIN_CALL_INTERVAL_MINUTES
    ensures (forall i :: 0 <= i < |times| ==> times[i] <= now) ==> CallInterval(times, now) <= 15.0
  {
    var recent := NotBefore(times, now - THROUGHPUT_WINDOW_MINUTES);
    MeasuredIntervalBounds(|recent|, Span(Sorted(recent)));
    if forall i :: 0 <= i < |times| ==> times[i] <= now {
      RecentSpan(times, now);
    }
  }

  lemma DivideBound(span: real, n: real)
    requires span <= 30.0 && n >= 2.0
    ensures span / n <= 15.0
  {
    assert span <= 15.0 * n;
    assert (span / n) * n == span;
    if span / n > 15.0 {
      assert (span / n) * n > 15.0 * n;
    }
  }

  ghost predicate NoneAfter(times: seq<real>, latest: real) {
    forall i :: 0 <= i < |times| ==> times[i] <= latest
  }

  /** Two calls half an hour ago and one at `latest` are all recent, and spread over the whole time. */
  lemma WideHistory(latest: real, now: real)
    requires now < latest
    ensures NoneAfter([now - THROUGHPUT_WINDOW_MINUTES, now - THROUGHPUT_WINDOW_MINUTES, latest], latest)
    ensures CallInterval([now - THROUGHPUT_WINDOW_MINUTES, now - THROUGHPUT_WINDOW_MINUTES, latest], now) ==
            (latest - now + THROUGHPUT_WINDOW_MINUTES) / 2.0
  {
    var start := now - THROUGHPUT_WINDOW_MINUTES;
    AllRecent([start, start, latest], start);
    SortedIsIdentity([start, start, latest]);
  }

  /** The 15-minute bound holds for every history whose latest call is no later than `latest` if and
      only if `latest` is not in the future. */
  lemma BoundHoldsIff(latest: real, now: real)
    ensures (forall times: seq<real> :: NoneAfter(times, latest) ==> CallInterval(times, now) <= 15.0) <==> latest <= now
  {
    hide CallInterval;
    if latest <= now {
      forall times: seq<real> | NoneAfter(times, latest) ensures CallInterval(times, now) <= 15.0 {
        IntervalBounds(times, now);
      }
    } else {
      WideHistory(latest, now);
    }
  }

  // ---- histories of monotone runs ----

  ghost predicate HistoryOrdered(s: State) {
    && Ascending(Times(s.dispatchEvents))
    && forall i :: 0 <= i < |s.dispatchEvents| ==> s.dispatchEvents[i].at <= s.now
  }

  lemma StepKeepsHistory(s: State, op: Op)
    requires HistoryOrdered(s) && ClockForward(s, op)
    ensures HistoryOrdered(After(s, op))
  {
    hide After;
    var s' := After(s, op);
    NowAfter(s, op);
    StepExtendsHistory(s, op);
    var old_, new_ := Times(s.dispatchEvents), Times(s'.dispatchEvents);
    assert forall i :: 0 <= i < |old_| ==> new_[i] == old_[i] <= s.now;
  }

  lemma StepExtendsHistory(s: State, op: Op)
    ensures After(s, op).dispatchEvents ==
              if op.CallNext? && Apply(s, op).Ok? then s.dispatchEvents + [DispatchEvent(op.terminal, s.now)]
              else s.dispatchEvents
  {
    hide HasRoom, ReturnDeadlineMinutes;
  }

  /** In every state of a run with a monotone clock, the interval lies between 0.25 and 15. */
  lemma {:induction false} MonotoneRunInterval(s: State, ops: seq<Op>)
    requires HistoryOrdered(s) && ClockMonotone(s, ops)
    ensures HistoryOrdered(Run(s, ops))
    ensures MIN_CALL_INTERVAL_MINUTES <= CurrentCallInterval(Run(s, ops)) <= 15.0
    decreases |ops|
  {
    if ops != [] {
      StepKeepsHistory(s, ops[0]);
      MonotoneRunInterval(After(s, ops[0]), ops[1..]);
    } else {
      IntervalBounds(Times(s.dispatchEvents), s.now);
    }
  }

  // ---- a run whose clock goes back ----

  const CALLS_AND_CLOCK: seq<Op> := [CallNext("T"), CallNext("T"), SetClock(100.0), CallNext("T"), SetClock(0.0)]

  const THREE_PARKED: seq<Op> :=
    [NewTerminal("T", "T", None), NewTaxi("A", ""), NewTaxi("B", ""), NewTaxi("C", ""), Join("A"), Join("B"), Join("C")]

  ghost predicate Waiting(s: State, queue: seq<Badge>, events: seq<DispatchEvent>, now: real) {
    && "T" in s.terminals && s.queue == queue && s.dispatchEvents == events && s.now == now
    && forall b :: b in queue ==> b in s.taxis
  }

  lemma CallIsRecorded(s: State, queue: seq<Badge>, events: seq<DispatchEvent>, now: real)
    requires Waiting(s, queue, events, now) && queue != []
    ensures Waiting(After(s, CallNext("T")), queue[1..], events + [DispatchEvent("T", now)], now)
  {
  }

  ghost predicate SameElse(s: State, s': State) {
    s'.terminals == s.terminals && s'.dispatchEvents == s.dispatchEvents && s'.now == s.now
  }

  lemma TaxiArrives(s: State, b: Badge)
    requires b !in s.taxis
    ensures var s' := After(s, NewTaxi(b, ""));
            s'.taxis == s.taxis[b := NEW_TAXI] && s'.queue == s.queue && SameElse(s, s')
  {
  }

  lemma TaxiParks(s: State, b: Badge)
    requires b in s.taxis && s.taxis[b].status == Offline
    ensures var s' := After(s, Join(b));
            && s'.taxis.Keys == s.taxis.Keys && (forall c :: c in s.taxis && c != b ==> s'.taxis[c] == s.taxis[c])
            && s'.queue == s.queue + [b] && SameElse(s, s')
  {
  }

  lemma TerminalOpens()
    ensures var s := After(EMPTY, NewTerminal("T", "T", None));
            "T" in s.terminals && s.taxis == map[] && s.queue == [] && s.dispatchEvents == [] && s.now == 0.0
  {
  }

  lemma ThreeWait()
    ensures Waiting(Run(EMPTY, THREE_PARKED), ["A", "B", "C"], [], 0.0)
  {
    hide After;
    var s1 := After(EMPTY, NewTerminal("T", "T", None));
    TerminalOpens();
    var s2 := After(s1, NewTaxi("A", ""));
    TaxiArrives(s1, "A");
    var s3 := After(s2, NewTaxi("B", ""));
    TaxiArrives(s2, "B");
    var s4 := After(s3, NewTaxi("C", ""));
    TaxiArrives(s3, "C");
    var s5 := After(s4, Join("A"));
    TaxiParks(s4, "A");
    var s6 := After(s5, Join("B"));
    TaxiParks(s5, "B");
    TaxiParks(s6, "C");
    assert Run(EMPTY, THREE_PARKED) == After(s6, Join("C")) by {
      var r6 := [Join("C")];
      var r5 := [Join("B")] + r6;
      var r4 := [Join("A")] + r5;
      var r3 := [NewTaxi("C", "")] + r4;
      var r2 := [NewTaxi("B", "")] + r3;
      var r1 := [NewTaxi("A", "")] + r2;
      assert THREE_PARKED == [NewTerminal("T", "T", None)] + r1;
      RunFirst(EMPTY, NewTerminal("T", "T", None), r1);
      RunFirst(s1, NewTaxi("A", ""), r2);
      RunFirst(s2, NewTaxi("B", ""), r3);
      RunFirst(s3, NewTaxi("C", ""), r4);
      RunFirst(s4, Join("A"), r5);
      RunFirst(s5, Join("B"), r6);
      RunLast(s6, [], Join("C"));
      assert [] + r6 == r6;
    }
  }

  /** Two calls, a third 100 minutes later, and then the clock is set back to the time of the first:
      all three count as recent, and the interval is 50 minutes. */
  lemma ClockSetBackBreaksBound()
    ensures CurrentCallInterval(Run(EMPTY, THREE_PARKED + CALLS_AND_CLOCK)) == 50.0
  {
    hide After, Waiting, CurrentCallInterval;
    ThreeWait();
    var s := CallsAreRecorded(Run(EMPTY, THREE_PARKED));
    RunJoin(EMPTY, THREE_PARKED, CALLS_AND_CLOCK);
    LateCallWidens(s);
  }

  lemma ClockIsSet(s: State, time: real)
    ensures After(s, SetClock(time)) == s.(now := time)
  {
  }

  lemma CallsAreRecorded(s: State) returns (s': State)
    requires Waiting(s, ["A", "B", "C"], [], 0.0)
    ensures s' == Run(s, CALLS_AND_CLOCK)
    ensures s'.now == 0.0
    ensures s'.dispatchEvents == [DispatchEvent("T", 0.0), DispatchEvent("T", 0.0), DispatchEvent("T", 100.0)]
  {
    hide After;
    var s1 := After(s, CallNext("T"));
    CallIsRecorded(s, ["A", "B", "C"], [], 0.0);
    assert ["A", "B", "C"][1..] == ["B", "C"];
    var s2 := After(s1, CallNext("T"));
    CallIsRecorded(s1, ["B", "C"], [DispatchEvent("T", 0.0)], 0.0);
    assert ["B", "C"][1..] == ["C"];
    var s3 := After(s2, SetClock(100.0));
    ClockIsSet(s2, 100.0);
    var s4 := After(s3, CallNext("T"));
    CallIsRecorded(s3, ["C"], [DispatchEvent("T", 0.0), DispatchEvent("T", 0.0)], 100.0);
    s' := After(s4, SetClock(0.0));
    ClockIsSet(s4, 0.0);
    assert s' == Run(s, CALLS_AND_CLOCK) by {
      var r4 := [SetClock(0.0)];
      var r3 := [CallNext("T")] + r4;
      var r2 := [SetClock(100.0)] + r3;
      var r1 := [CallNext("T")] + r2;
      assert CALLS_AND_CLOCK == [CallNext("T")] + r1;
      RunFirst(s, CallNext("T"), r1);
      RunFirst(s1, CallNext("T"), r2);
      RunFirst(s2, SetClock(100.0), r3);
      RunFirst(s3, CallNext("T"), r4);
      RunLast(s4, [], SetClock(0.0));
      assert [] + r4 == r4;
    }
  }

  lemma LateCallWidens(s: State)
    requires s.now == 0.0
    requires s.dispatchEvents == [DispatchEvent("T", 0.0), DispatchEvent("T", 0.0), DispatchEvent("T", 100.0)]
    ensures CurrentCallInterval(s) == 50.0
  {
    var times: seq<real> := [0.0, 0.0, 100.0];
    assert Times(s.dispatchEvents) == times;
    AllRecent(times, -30.0);
    SortedIsIdentity(times);
  }
}
