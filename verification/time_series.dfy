/** The daily series behind every chart: `dataTimeSeries`, `dataTimeSeriesFilter`
    and `dataCategoryTimeSeries`. Each walks `i` from -1 up to `days - 1`, with
    `days = (today − 2023-07-09) + 1`, and emits one point for day `today − i`, so a
    series runs newest first from tomorrow down to the epoch day. */
module TimeSeries {
  import opened Records
  import opened Sums
  import opened Aggregation

  /** The number of loop iterations, `(today − epoch) + 2`, or none when that is negative. */
  function BucketCount(today: Day): nat {
    if today - EpochDay + 2 >= 0 then today - EpochDay + 2 else 0
  }

  /** The bucket of day `d`: `w` summed over the completed transactions created that day. */
  function DayTotal(txs: seq<Transaction>, cal: Calendar, d: Day, w: Transaction -> real): real {
    Sum(Filter(txs, CompletedOn(cal, d)), w)
  }

  /** `w` summed over the completed transactions created in `[lo, hi]`. */
  function RangeTotal(txs: seq<Transaction>, cal: Calendar, lo: Day, hi: Day, w: Transaction -> real): real {
    Sum(Filter(txs, CompletedBetween(cal, lo, hi)), w)
  }

  /** The daily series for weight `w`, described day by day: newest first, one
      point per day from tomorrow down to the epoch, each the day's bucket. */
  function Buckets(txs: seq<Transaction>, cal: Calendar, w: Transaction -> real): (r: seq<Point>)
    ensures |r| == BucketCount(cal.today)
    ensures |r| > 0 ==> r[0].x == cal.today + 1 && r[|r| - 1].x == EpochDay
    ensures forall k :: 0 <= k < |r| ==> r[k].x == cal.today + 1 - k
    ensures forall k :: 0 <= k < |r| ==> r[k].y == DayTotal(txs, cal, r[k].x, w)
  {
    seq(BucketCount(cal.today), k requires 0 <= k =>
      var d := cal.today + 1 - k;
      Point(d, DayTotal(txs, cal, d, w)))
  }

  /** Emitting the bucket of day `today − i` extends the first `i + 1` points of the series by one. */
  lemma {:induction false} NextBucket(txs: seq<Transaction>, cal: Calendar, w: Transaction -> real,
                                      data: seq<Point>, i: int, total: real)
    requires 0 <= i + 1 < BucketCount(cal.today)
    requires data == Buckets(txs, cal, w)[..i + 1]
    requires total == DayTotal(txs, cal, cal.today - i, w)
    ensures data + [Point(cal.today - i, total)] == Buckets(txs, cal, w)[..i + 2]
  {
  }

  /** `dataTimeSeries(args)`: the transaction-level field summed per day. */
  method DataTimeSeries(txs: seq<Transaction>, cal: Calendar, field: TxField) returns (data: seq<Point>)
    ensures data == Buckets(txs, cal, TxWeight(field))
  {
    ghost var spec := Buckets(txs, cal, TxWeight(field));
    data := [];
    var days := cal.today - EpochDay + 1;
    var i := -1;
    while i < days
      invariant 0 <= i + 1 <= BucketCount(cal.today)
      invariant i < days || i + 1 == BucketCount(cal.today)
      invariant data == spec[..i + 1]
    {
      var filtered := Filter(txs, CompletedOn(cal, cal.today - i));
      var total := Sum(filtered, TxWeight(field));
      NextBucket(txs, cal, TxWeight(field), data, i, total);
      data := data + [Point(cal.today - i, total)];
      i := i + 1;
    }
  }

  /** Adding the per-name totals of a bucket one name at a time gives the bucket
      of the category-filtered weight. */
  lemma {:induction false} FilteredBucket(filtered: seq<Transaction>, field: ItemField, names: seq<string>)
    ensures Sum(NameSelectors(names), RowSums(filtered, SelectedItemTotal(field)))
         == Sum(filtered, NamesWeight(field, names))
  {
    SumSwap(NameSelectors(names), filtered, SelectedItemTotal(field));
  }

  /** `dataTimeSeriesFilter(field, categories)`: per day, for each listed name in
      turn, the item field over the items of that category. */
  method DataTimeSeriesFilter(txs: seq<Transaction>, cal: Calendar, field: ItemField, names: seq<string>)
    returns (data: seq<Point>)
    ensures data == Buckets(txs, cal, NamesWeight(field, names))
  {
    ghost var spec := Buckets(txs, cal, NamesWeight(field, names));
    ghost var sels := NameSelectors(names);
    data := [];
    var days := cal.today - EpochDay + 1;
    var i := -1;
    while i < days
      invariant 0 <= i + 1 <= BucketCount(cal.today)
      invariant i < days || i + 1 == BucketCount(cal.today)
      invariant data == spec[..i + 1]
    {
      var filtered := Filter(txs, CompletedOn(cal, cal.today - i));
      var total := 0.0;
      var j := 0;
      while j < |names|
        invariant 0 <= j <= |names|
        invariant total == Sum(sels[..j], RowSums(filtered, SelectedItemTotal(field)))
      {
        assert sels[..j + 1][..j] == sels[..j];
        total := total + SelectedTotal(filtered, field, ByName(names[j]));
        j := j + 1;
      }
      assert sels[..|names|] == sels;
      FilteredBucket(filtered, field, names);
      NextBucket(txs, cal, NamesWeight(field, names), data, i, total);
      data := data + [Point(cal.today - i, total)];
      i := i + 1;
    }
  }

  /** `dataCategoryTimeSeries(args)`: per day, the quantity sold of one category. */
  method DataCategoryTimeSeries(txs: seq<Transaction>, cal: Calendar, name: string) returns (data: seq<Point>)
    ensures data == Buckets(txs, cal, NamesWeight(Qty, [name]))
  {
    ghost var spec := Buckets(txs, cal, NamesWeight(Qty, [name]));
    data := [];
    var days := cal.today - EpochDay + 1;
    var i := -1;
    while i < days
      invariant 0 <= i + 1 <= BucketCount(cal.today)
      invariant i < days || i + 1 == BucketCount(cal.today)
      invariant data == spec[..i + 1]
    {
      var filtered := Filter(txs, CompletedOn(cal, cal.today - i));
      var total := SelectedTotal(filtered, Qty, ByName(name));
      FilteredBucket(filtered, Qty, [name]);
      NextBucket(txs, cal, NamesWeight(Qty, [name]), data, i, total);
      data := data + [Point(cal.today - i, total)];
      i := i + 1;
    }
  }

  /** A day on which no completed transaction was created has a zero bucket. */
  lemma {:induction false} EmptyDayIsZero(txs: seq<Transaction>, cal: Calendar, d: Day, w: Transaction -> real)
    requires forall t :: t in txs && Completed(t) ==> CreatedDay(cal, t) != d
    ensures DayTotal(txs, cal, d, w) == 0.0
  {
    FilterSubset(txs, CompletedOn(cal, d));
  }

  lemma {:induction false} RangeEmpty(txs: seq<Transaction>, cal: Calendar, lo: Day, hi: Day, w: Transaction -> real)
    requires lo > hi
    ensures RangeTotal(txs, cal, lo, hi, w) == 0.0
  {
  }

  /** A range splits into its first day and the rest. */
  lemma {:induction false} RangeStep(txs: seq<Transaction>, cal: Calendar, lo: Day, hi: Day, w: Transaction -> real)
    requires lo <= hi
    ensures RangeTotal(txs, cal, lo, hi, w) == DayTotal(txs, cal, lo, w) + RangeTotal(txs, cal, lo + 1, hi, w)
  {
    FilterSplit(txs, CompletedBetween(cal, lo, hi), CompletedOn(cal, lo), CompletedBetween(cal, lo + 1, hi), w);
  }

  /** The points of a series for one day each, from `top` downwards. */
  predicate CountsDown(b: seq<Point>, txs: seq<Transaction>, cal: Calendar, w: Transaction -> real, top: Day) {
    forall k :: 0 <= k < |b| ==> b[k] == Point(top - k, DayTotal(txs, cal, top - k, w))
  }

  /** The first `m` points of a series account for the `m` newest days. */
  lemma {:induction false} BucketsPrefix(b: seq<Point>, txs: seq<Transaction>, cal: Calendar, w: Transaction -> real,
                                         top: Day, m: nat)
    requires CountsDown(b, txs, cal, w, top)
    requires m <= |b|
    ensures Sum(b[..m], PointValue) == RangeTotal(txs, cal, top + 1 - m, top, w)
    decreases m
  {
    var lo := top + 1 - m;
    if m == 0 {
      RangeEmpty(txs, cal, lo, top, w);
    } else {
      var day := DayTotal(txs, cal, lo, w);
      var rest := RangeTotal(txs, cal, lo + 1, top, w);
      assert Sum(b[..m - 1], PointValue) == rest by {
        BucketsPrefix(b, txs, cal, w, top, m - 1);
        assert top + 1 - (m - 1) == lo + 1;
      }
      assert Sum(b[..m], PointValue) == rest + day by {
        SumPrefix(b, m, PointValue);
      }
      assert RangeTotal(txs, cal, lo, top, w) == day + rest by {
        RangeStep(txs, cal, lo, top, w);
      }
    }
  }

  /** Conservation: the points of a series add up to the weight of every
      completed transaction dated from the epoch to tomorrow. */
  lemma {:induction false} BucketsConserve(txs: seq<Transaction>, cal: Calendar, w: Transaction -> real)
    ensures Sum(Buckets(txs, cal, w), PointValue) == RangeTotal(txs, cal, EpochDay, cal.today + 1, w)
  {
    var b := Buckets(txs, cal, w);
    BucketsPrefix(b, txs, cal, w, cal.today + 1, |b|);
    assert b[..|b|] == b;
    if |b| == 0 {
      RangeEmpty(txs, cal, EpochDay, cal.today + 1, w);
    }
  }

  /** When every completed transaction is dated between the epoch and tomorrow,
      the series adds up to the weight of all completed transactions. */
  lemma {:induction false} BucketsConserveAll(txs: seq<Transaction>, cal: Calendar, w: Transaction -> real)
    requires forall i :: 0 <= i < |txs| && Completed(txs[i]) ==> EpochDay <= CreatedDay(cal, txs[i]) <= cal.today + 1
    ensures Sum(Buckets(txs, cal, w), PointValue) == Sum(Filter(txs, Completed), w)
  {
    BucketsConserve(txs, cal, w);
    var inRange := CompletedBetween(cal, EpochDay, cal.today + 1);
    SumFilter(txs, inRange, w);
    SumFilter(txs, Completed, w);
    SumPointwise(txs, Mask(inRange, w), txs, Mask(Completed, w));
  }

  /** Filtering by a list naming every category exactly once gives the same
      series as summing the field over all order items. */
  lemma {:induction false} FullNameListConserves(txs: seq<Transaction>, cal: Calendar, field: ItemField, names: seq<string>)
    requires forall i, j :: 0 <= i < j < |names| ==> names[i] != names[j]
    requires forall t, oi :: t in txs && oi in t.orderItems ==> oi.inventory.category.name in names
    ensures Buckets(txs, cal, NamesWeight(field, names)) == Buckets(txs, cal, AllItemsWeight(field))
  {
    var sels := NameSelectors(names);
    forall t | t in txs
      ensures NamesWeight(field, names)(t) == AllItemsWeight(field)(t)
    {
      forall i | 0 <= i < |t.orderItems|
        ensures SelectedOnce(sels, t.orderItems[i])
      {
        var oi := t.orderItems[i];
        assert oi in t.orderItems;
        var k :| 0 <= k < |names| && names[k] == oi.inventory.category.name;
        assert Selects(sels[k], oi);
      }
      PartitionWeight(field, sels, t);
    }
    forall d
      ensures DayTotal(txs, cal, d, NamesWeight(field, names)) == DayTotal(txs, cal, d, AllItemsWeight(field))
    {
      var f := Filter(txs, CompletedOn(cal, d));
      FilterSubset(txs, CompletedOn(cal, d));
      SumPointwise(f, NamesWeight(field, names), f, AllItemsWeight(field));
    }
  }
}
