/** Per-minute flight arrival rates (app/simulation/flights.py): shaping the operating window does
    not change its average. */
module FlightRates {
  predicate InWindow(m: int, first: int, end: int) {
    first <= m < end
  }

  function HourOf(m: int): real {
    m as real / 60.0
  }

  /** The window minutes below `n`, ascending. */
  function WindowMinutes(n: nat, first: int, end: int): seq<nat> {
    if n == 0 then []
    else WindowMinutes(n - 1, first, end) + if InWindow(n - 1, first, end) then [n - 1] else []
  }

  /** `sum(values[m] for m in minutes)` */
  function SumAt(values: seq<real>, minutes: seq<nat>): real
    requires forall i :: 0 <= i < |minutes| ==> minutes[i] < |values|
  {
    if minutes == [] then 0.0
    else SumAt(values, minutes[..|minutes| - 1]) + values[minutes[|minutes| - 1]]
  }

  lemma {:induction false} WindowMinutesBelow(n: nat, first: int, end: int)
    ensures forall i :: 0 <= i < |WindowMinutes(n, first, end)| ==>
              WindowMinutes(n, first, end)[i] < n && InWindow(WindowMinutes(n, first, end)[i], first, end)
  {
    if n > 0 {
      WindowMinutesBelow(n - 1, first, end);
    }
  }

  /** All the minutes of the window, each once, in ascending order. */
  lemma {:induction false} WindowMinutesAre(n: nat, first: int, end: int, m: nat)
    ensures m in WindowMinutes(n, first, end) <==> m < n && first <= m < end
    ensures forall i, j :: 0 <= i < j < |WindowMinutes(n, first, end)| ==>
              WindowMinutes(n, first, end)[i] < WindowMinutes(n, first, end)[j]
  {
    if n > 0 {
      WindowMinutesAre(n - 1, first, end, m);
      WindowMinutesBelow(n - 1, first, end);
    }
  }

  /** What the second loop makes of a raw shape value. */
  function ScaleTo(peak: real, mean: real): real -> real
    requires mean > 0.0
  {
    x => peak * (x / mean)
  }

  ghost predicate Additive(scale: real -> real) {
    scale(0.0) == 0.0 && forall x, y, z :: z == x + y ==> scale(z) == scale(x) + scale(y)
  }

  lemma DistributeScale(peak: real, mean: real, x: real, y: real)
    requires mean > 0.0
    ensures peak * ((x + y) / mean) == peak * (x / mean) + peak * (y / mean)
  {
    assert (x + y) / mean == x / mean + y / mean;
  }

  lemma ScalesSums(peak: real, mean: real, x: real, y: real, z: real)
    requires mean > 0.0 && z == x + y
    ensures ScaleTo(peak, mean)(z) == ScaleTo(peak, mean)(x) + ScaleTo(peak, mean)(y)
  {
    DistributeScale(peak, mean, x, y);
  }

  lemma ScalesZero(peak: real, mean: real)
    requires mean > 0.0
    ensures ScaleTo(peak, mean)(0.0) == 0.0
  {
  }

  lemma ScalingIsAdditive(peak: real, mean: real)
    requires mean > 0.0
    ensures Additive(ScaleTo(peak, mean))
  {
    ScalesZero(peak, mean);
    forall x, y, z | z == x + y
      ensures ScaleTo(peak, mean)(z) == ScaleTo(peak, mean)(x) + ScaleTo(peak, mean)(y)
    {
      ScalesSums(peak, mean, x, y, z);
    }
  }

  /** Scaling every value scales the sum. */
  lemma {:induction false} SumScales(raw: seq<real>, rate: seq<real>, minutes: seq<nat>, scale: real -> real)
    requires |rate| == |raw| && Additive(scale)
    requires forall i :: 0 <= i < |minutes| ==> minutes[i] < |raw| && rate[minutes[i]] == scale(raw[minutes[i]])
    ensures SumAt(rate, minutes) == scale(SumAt(raw, minutes))
  {
    if minutes != [] {
      var rest, m := minutes[..|minutes| - 1], minutes[|minutes| - 1];
      SumScales(raw, rate, rest, scale);
      assert scale(SumAt(raw, rest) + raw[m]) == scale(SumAt(raw, rest)) + scale(raw[m]);
    }
  }

  /** `x` added up `n` times. */
  function Copies(x: real, n: nat): real {
    if n == 0 then 0.0 else Copies(x, n - 1) + x
  }

  lemma {:induction false} CopiesScale(x: real, n: nat, scale: real -> real)
    requires Additive(scale)
    ensures scale(Copies(x, n)) == Copies(scale(x), n)
  {
    if n > 0 {
      CopiesScale(x, n - 1, scale);
      assert scale(Copies(x, n - 1) + x) == scale(Copies(x, n - 1)) + scale(x);
    }
  }

  lemma OneMoreTime(x: real, n: real)
    ensures x * n + x == x * (n + 1.0)
  {
  }

  /** That is, `n` times `x`. */
  lemma {:induction false} CopiesMultiply(x: real, n: nat)
    ensures Copies(x, n) == x * n as real
  {
    if n > 0 {
      CopiesMultiply(x, n - 1);
      OneMoreTime(x, (n - 1) as real);
    }
  }

  lemma {:induction false} SumPositive(values: seq<real>, minutes: seq<nat>)
    requires forall i :: 0 <= i < |minutes| ==> minutes[i] < |values| && values[minutes[i]] > 0.0
    ensures minutes != [] ==> SumAt(values, minutes) > 0.0
  {
    if minutes != [] {
      SumPositive(values, minutes[..|minutes| - 1]);
    }
  }

  /** Two rates stand in the same ratio as two shape values. */
  predicate SameRatio(rate1: real, rate2: real, shape1: real, shape2: real) {
    rate1 * shape2 == rate2 * shape1
  }

  /** The mean of the window, or 1 when it is empty. */
  function MeanOf(raw: seq<real>, minutes: seq<nat>): (mean: real)
    requires forall i :: 0 <= i < |minutes| ==> minutes[i] < |raw| && raw[minutes[i]] > 0.0
    ensures mean > 0.0 && SumAt(raw, minutes) == Copies(mean, |minutes|)
  {
    SumPositive(raw, minutes);
    if minutes != [] then
      MeanAddsUp(SumAt(raw, minutes), |minutes|);
      SumAt(raw, minutes) / |minutes| as real
    else 1.0
  }

  lemma MeanAddsUp(total: real, n: nat)
    requires total > 0.0 && n > 0
    ensures total / n as real > 0.0 && Copies(total / n as real, n) == total
  {
    CopiesMultiply(total / n as real, n);
    MeanTimesCount(total, n as real);
  }

  lemma MeanTimesCount(total: real, n: real)
    requires total > 0.0 && n > 0.0
    ensures total / n > 0.0 && total == (total / n) * n
  {
  }

  method RawShape(dayMinutes: nat, first: int, end: int, shape: real -> real)
    returns (raw: seq<real>, windowMinutes: seq<nat>)
    ensures |raw| == dayMinutes && windowMinutes == WindowMinutes(dayMinutes, first, end)
    ensures forall m :: 0 <= m < dayMinutes ==>
              raw[m] == if InWindow(m, first, end) then shape(HourOf(m)) else 0.0
  {
    raw := seq(dayMinutes, _ => 0.0);
    windowMinutes := [];
    for m := 0 to dayMinutes
      invariant |raw| == dayMinutes && windowMinutes == WindowMinutes(m, first, end)
      invariant forall k :: 0 <= k < dayMinutes ==>
                  raw[k] == if k < m && InWindow(k, first, end) then shape(HourOf(k)) else 0.0
    {
      if InWindow(m, first, end) {
        var hour := HourOf(m);
        raw := raw[m := shape(hour)];
        windowMinutes := windowMinutes + [m];
      }
    }
  }

  /** Each window minute has its scaled shape value, each other minute the overnight rate. */
  ghost predicate RatesFollow(rate: seq<real>, raw: seq<real>, first: int, end: int, scale: real -> real, overnight: real) {
    && |rate| == |raw|
    && forall m :: 0 <= m < |raw| ==> rate[m] == if InWindow(m, first, end) then scale(raw[m]) else overnight
  }

  method ShapedRates(raw: seq<real>, first: int, end: int, scale: real -> real, overnight: real)
    returns (rate: seq<real>)
    ensures RatesFollow(rate, raw, first, end, scale, overnight)
  {
    rate := seq(|raw|, _ => 0.0);
    for m := 0 to |raw|
      invariant |rate| == |raw|
      invariant forall k :: 0 <= k < m ==> rate[k] == if InWindow(k, first, end) then scale(raw[k]) else overnight
    {
      rate := rate[m := if InWindow(m, first, end) then scale(raw[m]) else overnight];
    }
  }

  /** Rates in the window stand in the ratios of the shape at their hours of the day. */
  ghost predicate InProportion(rate: seq<real>, first: int, end: int, shape: real -> real) {
    forall m, k :: 0 <= m < |rate| && first <= m < end && 0 <= k < |rate| && first <= k < end ==>
                     SameRatio(rate[m], rate[k], shape(m as real / 60.0), shape(k as real / 60.0))
  }

  /** The rates in the window add up to `perMinute` for each of its minutes. */
  ghost predicate AveragesTo(rate: seq<real>, first: int, end: int, perMinute: real) {
    var window := WindowMinutes(|rate|, first, end);
    && (forall i :: 0 <= i < |window| ==> window[i] < |rate|)
    && SumAt(rate, window) == Copies(perMinute, |window|)
  }

  lemma ScaledPair(peak: real, mean: real, x: real, y: real)
    requires mean > 0.0
    ensures SameRatio(peak * (x / mean), peak * (y / mean), x, y)
  {
    SwapFactors(peak, x / mean, y);
    SwapFactors(peak, y / mean, x);
    assert (x / mean) * y == (y / mean) * x;
  }

  lemma SwapFactors(x: real, y: real, z: real)
    ensures (x * y) * z == x * (y * z)
  {
  }

  lemma RatesInProportion(rate: seq<real>, raw: seq<real>, first: int, end: int, peak: real, mean: real,
                          overnight: real, shape: real -> real)
    requires mean > 0.0 && RatesFollow(rate, raw, first, end, ScaleTo(peak, mean), overnight)
    requires forall m :: 0 <= m < |raw| && InWindow(m, first, end) ==> raw[m] == shape(HourOf(m))
    ensures InProportion(rate, first, end, shape)
  {
    forall m, k | 0 <= m < |rate| && first <= m < end && 0 <= k < |rate| && first <= k < end
      ensures SameRatio(rate[m], rate[k], shape(m as real / 60.0), shape(k as real / 60.0))
    {
      assert raw[m] == shape(HourOf(m)) && raw[k] == shape(HourOf(k));
      ScaledPair(peak, mean, raw[m], raw[k]);
    }
  }

  lemma RatesAverageOut(rate: seq<real>, raw: seq<real>, first: int, end: int, scale: real -> real, overnight: real,
                        mean: real)
    requires RatesFollow(rate, raw, first, end, scale, overnight) && Additive(scale)
    requires AveragesTo(raw, first, end, mean)
    ensures AveragesTo(rate, first, end, scale(mean))
  {
    var window := WindowMinutes(|raw|, first, end);
    WindowMinutesBelow(|raw|, first, end);
    SumScales(raw, rate, window, scale);
    CopiesScale(mean, |window|, scale);
  }

  lemma MeanScalesToPeak(peak: real, mean: real)
    requires mean > 0.0
    ensures ScaleTo(peak, mean)(mean) == peak
  {
    assert mean / mean == 1.0;
  }

  /** The rates in the window are in the proportions of the shape and average to the peak rate: they
      add up to it as often as the window has minutes.  Every other minute has exactly the overnight
      rate. */
  method BuildRatePerMinute(dayMinutes: nat, startHour: int, endHour: int, peakFlightsPerHour: real,
                            overnightFlightsPerHour: real, shape: real -> real) returns (rate: seq<real>)
    requires forall hour :: shape(hour) > 0.0
    ensures |rate| == dayMinutes
    ensures forall m :: 0 <= m < dayMinutes && !(startHour * 60 <= m < endHour * 60) ==>
              rate[m] == overnightFlightsPerHour / 60.0
    ensures InProportion(rate, startHour * 60, endHour * 60, shape)
    ensures AveragesTo(rate, startHour * 60, endHour * 60, peakFlightsPerHour / 60.0)
  {
    var windowStart, windowEnd := startHour * 60, endHour * 60;
    var raw, windowMinutes := RawShape(dayMinutes, windowStart, windowEnd, shape);
    WindowMinutesBelow(dayMinutes, windowStart, windowEnd);
    var meanRaw := MeanOf(raw, windowMinutes);
    var peakPerMinute, overnightPerMinute := peakFlightsPerHour / 60.0, overnightFlightsPerHour / 60.0;
    var scale := ScaleTo(peakPerMinute, meanRaw);
    rate := ShapedRates(raw, windowStart, windowEnd, scale, overnightPerMinute);
    RatesInProportion(rate, raw, windowStart, windowEnd, peakPerMinute, meanRaw, overnightPerMinute, shape);
    ScalingIsAdditive(peakPerMinute, meanRaw);
    MeanScalesToPeak(peakPerMinute, meanRaw);
    RatesAverageOut(rate, raw, windowStart, windowEnd, scale, overnightPerMinute, meanRaw);
  }
}
