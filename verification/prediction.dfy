/** How `getPredictionData` cuts a daily series: `series.slice(1, 9).reverse()`
    for the actual points shown and `series.slice(2).reverse().map(p => p.y)` for
    the values the forecast trains on. */
module Prediction {
  import opened Records
  import opened TimeSeries

  function Min(a: int, b: int): int {
    if a <= b then a else b
  }

  /** `s.slice(lo, hi)` for non-negative bounds: both clamp to the length, and a
      begin at or past the end gives nothing. */
  function Slice<T>(s: seq<T>, lo: nat, hi: nat): (r: seq<T>)
    ensures |r| == if Min(hi, |s|) > Min(lo, |s|) then Min(hi, |s|) - Min(lo, |s|) else 0
    ensures forall k :: 0 <= k < |r| ==> r[k] == s[lo + k]
  {
    var b := Min(lo, |s|);
    var e := Min(hi, |s|);
    if e > b then s[b..e] else []
  }

  /** `s.reverse()`. */
  function Reverse<T>(s: seq<T>): (r: seq<T>)
    ensures |r| == |s|
    ensures forall k :: 0 <= k < |s| ==> r[k] == s[|s| - 1 - k]
  {
    seq(|s|, k requires 0 <= k < |s| => s[|s| - 1 - k])
  }

  /** `series.slice(1, 9).reverse()`: up to eight points, oldest first. */
  function ActualSeries(series: seq<Point>): seq<Point> {
    Reverse(Slice(series, 1, 9))
  }

  /** `series.slice(2).reverse().map(p => p.y)`. */
  function TrainingSeries(series: seq<Point>): seq<real> {
    Values(Reverse(Slice(series, 2, |series|)))
  }

  /** The number of points `ActualSeries` keeps from a series of `n` points. */
  function ActualCount(n: nat): nat {
    if n >= 9 then 8 else if n >= 1 then n - 1 else 0
  }

  /** The number of points `ActualSeries` keeps from a daily series ending `today`. */
  function ActualLength(today: Day): nat {
    ActualCount(BucketCount(today))
  }

  /** `ActualSeries` keeps points `1..m` of a series, the last of them first. */
  lemma {:induction false} ActualIndices<T>(b: seq<T>)
    ensures |Reverse(Slice(b, 1, 9))| == ActualCount(|b|)
    ensures forall k :: 0 <= k < ActualCount(|b|) ==> Reverse(Slice(b, 1, 9))[k] == b[ActualCount(|b|) - k]
  {
    var m := ActualCount(|b|);
    var a := Reverse(Slice(b, 1, 9));
    var sl := Slice(b, 1, 9);
    assert |sl| == m;
    forall k | 0 <= k < m
      ensures a[k] == b[m - k]
    {
      assert a[k] == sl[m - 1 - k];
    }
  }

  /** The actual points of a daily series are consecutive days, oldest first,
      ending today, each with its day's bucket: tomorrow's bucket is dropped and
      at most eight days are kept. */
  lemma {:induction false} ActualSeriesShape(txs: seq<Transaction>, cal: Calendar, w: Transaction -> real)
    ensures |ActualSeries(Buckets(txs, cal, w))| == ActualLength(cal.today)
    ensures forall k :: 0 <= k < ActualLength(cal.today) ==>
              ActualSeries(Buckets(txs, cal, w))[k].x == cal.today + 1 - ActualLength(cal.today) + k
    ensures forall k :: 0 <= k < ActualLength(cal.today) ==>
              ActualSeries(Buckets(txs, cal, w))[k].y == DayTotal(txs, cal, ActualSeries(Buckets(txs, cal, w))[k].x, w)
  {
    ActualIndices(Buckets(txs, cal, w));
  }

  /** Once a week has passed since the epoch, the actual points are exactly the
      eight days ending today. */
  lemma {:induction false} ActualSeriesWeek(txs: seq<Transaction>, cal: Calendar, w: Transaction -> real)
    requires cal.today >= EpochDay + 7
    ensures |ActualSeries(Buckets(txs, cal, w))| == 8
    ensures forall k :: 0 <= k < 8 ==>
              ActualSeries(Buckets(txs, cal, w))[k] == Point(cal.today - 7 + k, DayTotal(txs, cal, cal.today - 7 + k, w))
  {
    ActualSeriesShape(txs, cal, w);
    var a := ActualSeries(Buckets(txs, cal, w));
    assert ActualLength(cal.today) == 8;
    forall k | 0 <= k < 8
      ensures a[k] == Point(cal.today - 7 + k, DayTotal(txs, cal, cal.today - 7 + k, w))
    {
      assert a[k].x == cal.today - 7 + k;
    }
  }

  /** The number of values `TrainingSeries` keeps: one per day from the epoch to yesterday. */
  function TrainingLength(today: Day): nat {
    if BucketCount(today) >= 2 then BucketCount(today) - 2 else 0
  }

  /** The training values of a daily series are its buckets from the epoch day up
      to yesterday, oldest first: today's partial day and tomorrow are left out. */
  lemma {:induction false} TrainingSeriesShape(txs: seq<Transaction>, cal: Calendar, w: Transaction -> real)
    ensures |TrainingSeries(Buckets(txs, cal, w))| == TrainingLength(cal.today)
    ensures cal.today >= EpochDay ==> TrainingLength(cal.today) == cal.today - EpochDay
    ensures forall k :: 0 <= k < TrainingLength(cal.today) ==>
              TrainingSeries(Buckets(txs, cal, w))[k] == DayTotal(txs, cal, EpochDay + k, w)
  {
    var b := Buckets(txs, cal, w);
    var n := |b|;
    var sl := Slice(b, 2, n);
    var rv := Reverse(sl);
    var t := TrainingSeries(b);
    var m := TrainingLength(cal.today);
    assert |sl| == m;
    forall k | 0 <= k < m
      ensures t[k] == DayTotal(txs, cal, EpochDay + k, w)
    {
      assert t[k] == rv[k].y;
      assert rv[k] == sl[m - 1 - k];
      assert sl[m - 1 - k] == b[n - 1 - k];
    }
  }
}
