/** Windowed aggregation over a material's curves, as the table's
    recent-consumption and recent-ROI cells compute it
    (app/components/VideoAdTable.tsx). The clock reading `Date.now()` is the
    parameter `now`; timestamps are integer milliseconds and values exact reals. */
module CurveWindow {
  import opened Wrappers
  import opened SeqUtil

  /** One `[timestamp, value]` pair of a curve. */
  datatype Sample = Sample(timestamp: int, value: real)

  /** `timestamp >= startTime && timestamp <= now` with
      `startTime = now - minutes * 60 * 1000`: inclusive at both ends. */
  predicate InWindow(s: Sample, minutes: int, now: int) {
    now - minutes * 60000 <= s.timestamp <= now
  }

  /** `curve.filter(...)`: the samples inside the window, in curve order. */
  function RecentData(curve: seq<Sample>, minutes: int, now: int): seq<Sample> {
    Filter(s => InWindow(s, minutes, now), curve)
  }

  /** `reduce((sum, [_, value]) => sum + value, 0)`: the values added from
      left to right, starting at 0. */
  function Total(samples: seq<Sample>): real {
    if samples == [] then 0.0
    else Total(samples[..|samples| - 1]) + samples[|samples| - 1].value
  }

  /** The recent-consumption cell's number: the total of the samples in the
      window, or `None` (the cell's `-`) when no sample is in it. */
  function RecentConsumption(curve: seq<Sample>, minutes: int, now: int): Option<real> {
    var recent := RecentData(curve, minutes, now);
    if |recent| == 0 then None else Some(Total(recent))
  }

  /** The recent-ROI cell's number: the mean of the samples in the window,
      or `None` (the cell's `-`) when no sample is in it. */
  function RecentROI(curve: seq<Sample>, minutes: int, now: int): Option<real> {
    var recent := RecentData(curve, minutes, now);
    if |recent| == 0 then None else Some(Total(recent) / (|recent| as real))
  }

  // ----- an independent reference: every sample contributes if inside -----

  /** The sum over the whole curve where a sample counts its value when it is
      in the window and 0 otherwise. */
  function WindowSum(curve: seq<Sample>, minutes: int, now: int): real {
    if curve == [] then 0.0
    else (if InWindow(curve[0], minutes, now) then curve[0].value else 0.0)
         + WindowSum(curve[1..], minutes, now)
  }

  /** How many samples of the curve are in the window. */
  function WindowCount(curve: seq<Sample>, minutes: int, now: int): nat {
    if curve == [] then 0
    else (if InWindow(curve[0], minutes, now) then 1 else 0) + WindowCount(curve[1..], minutes, now)
  }

  // ----- facts -----

  /** The left fold can also be read from the front. */
  lemma {:induction false} TotalCons(x: Sample, s: seq<Sample>)
    ensures Total([x] + s) == x.value + Total(s)
    decreases |s|
  {
    if s != [] {
      var xs := [x] + s;
      assert xs[..|xs| - 1] == [x] + s[..|s| - 1];
      TotalCons(x, s[..|s| - 1]);
    } else {
      assert [x] + s == [x];
      assert [x][..0] == [];
    }
  }

  /** Total and count of the filtered samples are the reference sum and count. */
  lemma {:induction false} RecentDataMatchesReference(curve: seq<Sample>, minutes: int, now: int)
    ensures Total(RecentData(curve, minutes, now)) == WindowSum(curve, minutes, now)
    ensures |RecentData(curve, minutes, now)| == WindowCount(curve, minutes, now)
  {
    if curve != [] {
      RecentDataMatchesReference(curve[1..], minutes, now);
      var rest := RecentData(curve[1..], minutes, now);
      if InWindow(curve[0], minutes, now) {
        assert RecentData(curve, minutes, now) == [curve[0]] + rest;
        TotalCons(curve[0], rest);
      } else {
        assert RecentData(curve, minutes, now) == rest;
      }
    }
  }

  /** The window holds no sample exactly when the reference count is 0. */
  lemma EmptyWindowIffNoSample(curve: seq<Sample>, minutes: int, now: int)
    ensures |RecentData(curve, minutes, now)| == 0
            <==> forall i :: 0 <= i < |curve| ==> !InWindow(curve[i], minutes, now)
  {
    var recent := RecentData(curve, minutes, now);
    if |recent| != 0 {
      assert recent[0] in curve;
    }
  }

  /** Recent consumption is "no data" exactly when no sample lies in
      `[now - minutes * 60000, now]`; otherwise it is the sum of exactly the
      values of the samples inside, whatever they are (so a window of zeros
      gives 0, not "no data"). */
  lemma RecentConsumptionIsWindowSum(curve: seq<Sample>, minutes: int, now: int)
    ensures RecentConsumption(curve, minutes, now).None?
            <==> forall i :: 0 <= i < |curve| ==> !InWindow(curve[i], minutes, now)
    ensures RecentConsumption(curve, minutes, now).Some?
            ==> RecentConsumption(curve, minutes, now).value == WindowSum(curve, minutes, now)
  {
    EmptyWindowIffNoSample(curve, minutes, now);
    RecentDataMatchesReference(curve, minutes, now);
  }

  /** Recent ROI is "no data" exactly when no sample is in the window;
      otherwise it is the arithmetic mean of the samples inside. */
  lemma RecentROIIsWindowMean(curve: seq<Sample>, minutes: int, now: int)
    ensures RecentROI(curve, minutes, now).None?
            <==> forall i :: 0 <= i < |curve| ==> !InWindow(curve[i], minutes, now)
    ensures RecentROI(curve, minutes, now).Some?
            ==> WindowCount(curve, minutes, now) > 0
                && RecentROI(curve, minutes, now).value
                   == WindowSum(curve, minutes, now) / (WindowCount(curve, minutes, now) as real)
  {
    EmptyWindowIffNoSample(curve, minutes, now);
    RecentDataMatchesReference(curve, minutes, now);
  }

  /** Replacing a sample outside the window by another sample outside the
      window changes neither aggregate. */
  lemma OutsideSampleIrrelevant(curve: seq<Sample>, i: nat, x: Sample, minutes: int, now: int)
    requires i < |curve|
    requires !InWindow(curve[i], minutes, now) && !InWindow(x, minutes, now)
    ensures RecentConsumption(curve[i := x], minutes, now) == RecentConsumption(curve, minutes, now)
    ensures RecentROI(curve[i := x], minutes, now) == RecentROI(curve, minutes, now)
  {
    var p := (s: Sample) => InWindow(s, minutes, now);
    assert curve == curve[..i] + [curve[i]] + curve[i + 1..];
    assert curve[i := x] == curve[..i] + [x] + curve[i + 1..];
    FilterConcat(p, curve[..i] + [curve[i]], curve[i + 1..]);
    FilterConcat(p, curve[..i], [curve[i]]);
    FilterConcat(p, curve[..i] + [x], curve[i + 1..]);
    FilterConcat(p, curve[..i], [x]);
    assert Filter(p, [x]) == [] && Filter(p, [curve[i]]) == [];
  }

  /** Adding a sample outside the window anywhere in the curve changes
      neither aggregate. */
  lemma OutsideSampleInsertIrrelevant(curve: seq<Sample>, i: nat, x: Sample, minutes: int, now: int)
    requires i <= |curve| && !InWindow(x, minutes, now)
    ensures RecentConsumption(curve[..i] + [x] + curve[i..], minutes, now) == RecentConsumption(curve, minutes, now)
    ensures RecentROI(curve[..i] + [x] + curve[i..], minutes, now) == RecentROI(curve, minutes, now)
  {
    var p := (s: Sample) => InWindow(s, minutes, now);
    assert curve == curve[..i] + curve[i..];
    FilterConcat(p, curve[..i] + [x], curve[i..]);
    FilterConcat(p, curve[..i], [x]);
    FilterConcat(p, curve[..i], curve[i..]);
    assert Filter(p, [x]) == [];
    assert Filter(p, curve[..i]) + [] == Filter(p, curve[..i]);
  }

  /** With a window of 0 minutes the range is `[now, now]`: a sample stamped
      exactly `now` still counts. */
  lemma ZeroMinuteWindowKeepsNow(curve: seq<Sample>, now: int)
    ensures RecentConsumption(curve, 0, now).Some?
            <==> exists i :: 0 <= i < |curve| && curve[i].timestamp == now
  {
    RecentConsumptionIsWindowSum(curve, 0, now);
    if exists i :: 0 <= i < |curve| && curve[i].timestamp == now {
      var i :| 0 <= i < |curve| && curve[i].timestamp == now;
      assert InWindow(curve[i], 0, now);
    }
  }

  /** `n` copies of `x` added up. */
  function Times(n: nat, x: real): real {
    if n == 0 then 0.0 else Times(n - 1, x) + x
  }

  lemma {:induction false} TimesIsProduct(n: nat, x: real)
    ensures Times(n, x) == (n as real) * x
  {
    if n > 0 {
      TimesIsProduct(n - 1, x);
      assert (n as real) * x == ((n - 1) as real) * x + x;
    }
  }

  /** Bounds on every in-window value bound their sum: between `count` times
      the lower and `count` times the upper bound. */
  lemma {:induction false} WindowSumBounds(curve: seq<Sample>, minutes: int, now: int, lo: real, hi: real)
    requires forall i :: 0 <= i < |curve| && InWindow(curve[i], minutes, now) ==> lo <= curve[i].value <= hi
    ensures Times(WindowCount(curve, minutes, now), lo) <= WindowSum(curve, minutes, now)
            <= Times(WindowCount(curve, minutes, now), hi)
  {
    if curve != [] {
      var tail := curve[1..];
      forall i | 0 <= i < |tail| && InWindow(tail[i], minutes, now) ensures lo <= tail[i].value <= hi {
        assert tail[i] == curve[i + 1];
      }
      WindowSumBounds(tail, minutes, now, lo, hi);
    }
  }

  /** Bounds on the in-window values bound their mean. */
  lemma WindowMeanBounded(curve: seq<Sample>, minutes: int, now: int, lo: real, hi: real)
    requires forall i :: 0 <= i < |curve| && InWindow(curve[i], minutes, now) ==> lo <= curve[i].value <= hi
    requires WindowCount(curve, minutes, now) > 0
    ensures lo <= WindowSum(curve, minutes, now) / (WindowCount(curve, minutes, now) as real) <= hi
  {
    WindowSumBounds(curve, minutes, now, lo, hi);
    MeanBetween(WindowSum(curve, minutes, now), WindowCount(curve, minutes, now), lo, hi);
  }

  /** A sum between `n` copies of `lo` and `n` copies of `hi` has its mean
      between `lo` and `hi`. */
  lemma MeanBetween(sum: real, n: nat, lo: real, hi: real)
    requires n > 0 && Times(n, lo) <= sum <= Times(n, hi)
    ensures lo <= sum / (n as real) <= hi
  {
    DivMonotone(Times(n, lo), sum, n as real);
    DivMonotone(sum, Times(n, hi), n as real);
    TimesQuotient(n, lo);
    TimesQuotient(n, hi);
  }

  /** Dividing by a positive number keeps the order. */
  lemma DivMonotone(a: real, b: real, k: real)
    requires k > 0.0 && a <= b
    ensures a / k <= b / k
  {
    assert b / k - a / k == (b - a) / k;
  }

  /** `n` copies of `x` shared among `n` give `x`. */
  lemma TimesQuotient(n: nat, x: real)
    requires n > 0
    ensures Times(n, x) / (n as real) == x
  {
    TimesIsProduct(n, x);
  }

  /** The recent ROI lies between the smallest and largest in-window values:
      bounds on the samples inside carry over to the mean. */
  lemma RecentROIBounded(curve: seq<Sample>, minutes: int, now: int, lo: real, hi: real)
    requires forall i :: 0 <= i < |curve| && InWindow(curve[i], minutes, now) ==> lo <= curve[i].value <= hi
    ensures RecentROI(curve, minutes, now).Some? ==> lo <= RecentROI(curve, minutes, now).value <= hi
  {
    RecentROIIsWindowMean(curve, minutes, now);
    if RecentROI(curve, minutes, now).Some? {
      WindowMeanBounded(curve, minutes, now, lo, hi);
    }
  }
}
