/** Wait estimates and the feeder park information screen (app/services/queue_service.py). */
module Screen {
  import opened Domain
  import opened Lists
  import opened StoreSpec
  import opened Lifecycle
  import opened Fairness
  import opened Throughput

  datatype Row = Row(badge: Badge, driverName: string, position: nat, wait: real, dueSoon: bool)

  function WaitAt(position: real, interval: real): real {
    RoundTenth(position * interval)
  }

  function EstimateWait(s: State, b: Badge): Option<real> {
    match QueuePosition(s, b)
    case None => None
    case Some(position) => Some(WaitAt(position as real, CurrentCallInterval(s)))
  }

  function MakeRow(b: Badge, driverName: string, position: nat, interval: real): Row {
    var wait := WaitAt(position as real, interval);
    Row(b, driverName, position, wait, wait <= SCREEN_LOOKAHEAD_MINUTES)
  }

  /** The row for queue entry `i`, when that badge is a known taxi. */
  function RowAt(s: State, i: nat): Row
    requires i < |s.queue| && s.queue[i] in s.taxis
  {
    MakeRow(s.queue[i], s.taxis[s.queue[i]].driverName, i + 1, CurrentCallInterval(s))
  }

  function DueSoonOf(rows: seq<Row>): seq<Badge> {
    if rows == [] then [] else (if rows[0].dueSoon then [rows[0].badge] else []) + DueSoonOf(rows[1..])
  }

  /** The screen's rows for the first `n` queue entries: unknown taxis are skipped, and leave a gap in
      the positions. */
  function RowsUpTo(s: State, interval: real, n: nat): seq<Row>
    requires n <= |s.queue|
  {
    if n == 0 then []
    else
      var b := s.queue[n - 1];
      RowsUpTo(s, interval, n - 1) + if b in s.taxis then [MakeRow(b, s.taxis[b].driverName, n, interval)] else []
  }

  function ScreenRows(s: State): seq<Row> {
    RowsUpTo(s, CurrentCallInterval(s), |s.queue|)
  }

  /** The screen is what it should be: one row per queue entry, in order. */
  ghost predicate IsSnapshot(s: State, rows: seq<Row>) {
    && |rows| == |s.queue|
    && forall i :: 0 <= i < |rows| ==> s.queue[i] in s.taxis && rows[i] == RowAt(s, i)
  }

  lemma {:induction false} OneRowEach(s: State, n: nat)
    requires n <= |s.queue| && forall b :: b in s.queue ==> b in s.taxis
    ensures var rows := RowsUpTo(s, CurrentCallInterval(s), n);
            |rows| == n && forall i :: 0 <= i < n ==> rows[i] == RowAt(s, i)
  {
    if n > 0 {
      OneRowEach(s, n - 1);
      assert s.queue[n - 1] in s.queue;
    }
  }

  /** In every valid store, nothing is skipped. */
  lemma ScreenIsSnapshot(s: State)
    requires Valid(s)
    ensures IsSnapshot(s, ScreenRows(s))
  {
    OneRowEach(s, |s.queue|);
    assert forall i :: 0 <= i < |s.queue| ==> s.queue[i] in s.queue;
  }

  /** Each row shows its badge's own queue position and wait estimate. */
  lemma RowsAgreeWithEstimates(s: State, rows: seq<Row>, i: nat)
    requires Valid(s) && IsSnapshot(s, rows) && i < |rows|
    ensures QueuePosition(s, rows[i].badge) == Some(rows[i].position)
    ensures EstimateWait(s, rows[i].badge) == Some(rows[i].wait)
  {
    IndexIsUnique(s.queue, s.queue[i], i);
  }

  /** A taxi's row shows its place in the queue and, to a tenth of a minute, that many call intervals;
      it is due soon when that is at most five minutes. */
  lemma RowShows(s: State, i: nat, tenths: int)
    requires i < |s.queue| && s.queue[i] in s.taxis
    requires Rounds(10.0 * ((i + 1) as real * CurrentCallInterval(s)), tenths)
    ensures var row := RowAt(s, i);
            && row.badge == s.queue[i] && row.driverName == s.taxis[s.queue[i]].driverName && row.position == i + 1
            && 10.0 * row.wait == tenths as real && (row.dueSoon <==> tenths <= 50)
  {
    hide Rounds, RoundTenth, CurrentCallInterval;
    RoundsToTenths((i + 1) as real * CurrentCallInterval(s), tenths);
  }

  lemma WaitGrows(p: real, q: real, interval: real)
    requires p <= q && 0.0 <= interval
    ensures WaitAt(p, interval) <= WaitAt(q, interval)
  {
    ScaleMonotone(p, q, interval);
    RoundTenthMonotone(p * interval, q * interval);
  }

  lemma ScaleMonotone(a: real, b: real, factor: real)
    requires a <= b && 0.0 <= factor
    ensures a * factor <= b * factor
  {
  }

  /** Rounding does not reorder waits: further back never shows a shorter one. */
  lemma WaitsAscend(s: State, rows: seq<Row>, i: nat, j: nat)
    requires IsSnapshot(s, rows) && i <= j < |rows|
    ensures rows[i].wait <= rows[j].wait
    ensures rows[j].dueSoon ==> rows[i].dueSoon
  {
    IntervalBounds(Times(s.dispatchEvents), s.now);
    WaitGrows((i + 1) as real, (j + 1) as real, CurrentCallInterval(s));
  }

  lemma {:induction false} DueSoonIsPrefix(rows: seq<Row>) returns (k: nat)
    requires forall i, j :: 0 <= i < j < |rows| && rows[j].dueSoon ==> rows[i].dueSoon
    ensures k <= |rows| && |DueSoonOf(rows)| == k
    ensures forall i :: 0 <= i < k ==> rows[i].dueSoon && DueSoonOf(rows)[i] == rows[i].badge
    ensures forall i :: k <= i < |rows| ==> !rows[i].dueSoon
  {
    if rows == [] {
      k := 0;
    } else {
      k := DueSoonIsPrefix(rows[1..]);
      if rows[0].dueSoon {
        k := k + 1;
      }
      forall i | k <= i < |rows| ensures !rows[i].dueSoon {
        if i > 0 {
          assert rows[i] == rows[1..][i - 1];
        }
      }
    }
  }

  /** The badges shown as due soon are a prefix of the queue. */
  lemma DueSoonBadgesArePrefix(s: State, rows: seq<Row>)
    requires IsSnapshot(s, rows)
    ensures DueSoonOf(rows) <= s.queue
    ensures forall i :: 0 <= i < |rows| ==> (i < |DueSoonOf(rows)| <==> rows[i].dueSoon)
  {
    forall i, j | 0 <= i < j < |rows| && rows[j].dueSoon ensures rows[i].dueSoon {
      WaitsAscend(s, rows, i, j);
    }
    var k := DueSoonIsPrefix(rows);
    assert DueSoonOf(rows) == s.queue[..k];
  }
}
