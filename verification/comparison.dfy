/** The period comparison behind the dashboard cards (`getCardData`) and the
    per-category quantities (`getCategoryData`): a requested window of days, the
    window of equal length just before it, the quantity sold per category, and
    the best-selling category. */
module Comparison {
  import opened Records
  import opened Sums
  import opened Aggregation

  /** `diffDays`: the number of days in `[start, end]`. */
  function DiffDays(start: Day, end: Day): int {
    end - start + 1
  }

  /** `transactionsFiltered`: the completed transactions created in `[start, end]`. */
  function CurrentPeriod(txs: seq<Transaction>, cal: Calendar, start: Day, end: Day): seq<Transaction> {
    Filter(txs, CompletedBetween(cal, start, end))
  }

  /** `transactionsFilteredBefore`: the completed transactions created in the
      window shifted back by `diffDays`. */
  function PriorPeriod(txs: seq<Transaction>, cal: Calendar, start: Day, end: Day): seq<Transaction> {
    var diff := DiffDays(start, end);
    Filter(txs, CompletedBetween(cal, start - diff, end - diff))
  }

  /** No transaction belongs to both periods: their creation days lie in disjoint windows. */
  lemma {:induction false} PeriodsDisjoint(txs: seq<Transaction>, cal: Calendar, start: Day, end: Day)
    ensures forall i, j :: 0 <= i < |CurrentPeriod(txs, cal, start, end)| && 0 <= j < |PriorPeriod(txs, cal, start, end)|
              ==> CurrentPeriod(txs, cal, start, end)[i] != PriorPeriod(txs, cal, start, end)[j]
  {
    var cur := CurrentPeriod(txs, cal, start, end);
    var pri := PriorPeriod(txs, cal, start, end);
    forall i, j | 0 <= i < |cur| && 0 <= j < |pri|
      ensures cur[i] != pri[j]
    {
      assert CreatedDay(cal, cur[i]) >= start;
      assert CreatedDay(cal, pri[j]) <= end - DiffDays(start, end);
    }
  }

  /** A transaction falls in the doubled window exactly when it falls in one of its two halves. */
  lemma {:induction false} WindowSplits(cal: Calendar, start: Day, end: Day, t: Transaction)
    requires start <= end
    ensures CompletedBetween(cal, start - DiffDays(start, end), end)(t)
        <==> CompletedBetween(cal, start, end)(t) || CompletedBetween(cal, start - DiffDays(start, end), end - DiffDays(start, end))(t)
    ensures !(CompletedBetween(cal, start, end)(t) && CompletedBetween(cal, start - DiffDays(start, end), end - DiffDays(start, end))(t))
  {
  }

  /** The two periods together are the completed transactions of the doubled window. */
  lemma {:induction false} PeriodsAddUp(txs: seq<Transaction>, cal: Calendar, start: Day, end: Day, w: Transaction -> real)
    requires start <= end
    ensures |CurrentPeriod(txs, cal, start, end)| + |PriorPeriod(txs, cal, start, end)|
         == |Filter(txs, CompletedBetween(cal, start - DiffDays(start, end), end))|
    ensures Sum(CurrentPeriod(txs, cal, start, end), w) + Sum(PriorPeriod(txs, cal, start, end), w)
         == Sum(Filter(txs, CompletedBetween(cal, start - DiffDays(start, end), end)), w)
  {
    var diff := DiffDays(start, end);
    var both := CompletedBetween(cal, start - diff, end);
    var cur := CompletedBetween(cal, start, end);
    var pri := CompletedBetween(cal, start - diff, end - diff);
    forall t | t in txs
      ensures (both(t) <==> cur(t) || pri(t)) && !(cur(t) && pri(t))
    {
      WindowSplits(cal, start, end, t);
    }
    FilterSplit(txs, both, cur, pri, w);
  }

  /** For a well-ordered request both periods hold only completed transactions
      of their own window; the prior window is as long as the current one and
      ends the day before it starts; the two periods share no transaction
      and together they are exactly the completed transactions of the doubled
      window, so their counts and totals add up. */
  lemma {:induction false} PeriodsAdjacent(txs: seq<Transaction>, cal: Calendar, start: Day, end: Day, w: Transaction -> real)
    requires start <= end
    ensures forall i :: 0 <= i < |CurrentPeriod(txs, cal, start, end)| ==>
              Completed(CurrentPeriod(txs, cal, start, end)[i])
              && start <= CreatedDay(cal, CurrentPeriod(txs, cal, start, end)[i]) <= end
    ensures forall j :: 0 <= j < |PriorPeriod(txs, cal, start, end)| ==>
              Completed(PriorPeriod(txs, cal, start, end)[j])
              && start - DiffDays(start, end) <= CreatedDay(cal, PriorPeriod(txs, cal, start, end)[j]) <= start - 1
    ensures (end - DiffDays(start, end)) - (start - DiffDays(start, end)) == end - start
    ensures end - DiffDays(start, end) == start - 1
    ensures forall i, j :: 0 <= i < |CurrentPeriod(txs, cal, start, end)| && 0 <= j < |PriorPeriod(txs, cal, start, end)|
              ==> CurrentPeriod(txs, cal, start, end)[i] != PriorPeriod(txs, cal, start, end)[j]
    ensures |CurrentPeriod(txs, cal, start, end)| + |PriorPeriod(txs, cal, start, end)|
         == |Filter(txs, CompletedBetween(cal, start - DiffDays(start, end), end))|
    ensures Sum(CurrentPeriod(txs, cal, start, end), w) + Sum(PriorPeriod(txs, cal, start, end), w)
         == Sum(Filter(txs, CompletedBetween(cal, start - DiffDays(start, end), end)), w)
  {
    PeriodsDisjoint(txs, cal, start, end);
    PeriodsAddUp(txs, cal, start, end, w);
  }

  /** A category with the quantity sold in a period: `{...categories[i], qty: qtyTotal}`. */
  datatype CategoryQty = CategoryQty(category: Category, qty: real)

  function QtyValue(c: CategoryQty): real {
    c.qty
  }

  /** The quantity of category `id` in a period: the nested `forEach` adding `orderItem.qty`. */
  function CategoryQtyIn(period: seq<Transaction>, id: int): real {
    SelectedTotal(period, Qty, ById(id))
  }

  /** The loop over `categories` that attaches to each its quantity in the period, in order. */
  method CategoryQuantities(period: seq<Transaction>, cats: seq<Category>) returns (r: seq<CategoryQty>)
    ensures |r| == |cats|
    ensures forall i :: 0 <= i < |cats| ==> r[i] == CategoryQty(cats[i], CategoryQtyIn(period, cats[i].id))
  {
    r := [];
    var i := 0;
    while i < |cats|
      invariant 0 <= i <= |cats|
      invariant |r| == i
      invariant forall k :: 0 <= k < i ==> r[k] == CategoryQty(cats[k], CategoryQtyIn(period, cats[k].id))
    {
      var qtyTotal := SelectedTotal(period, Qty, ById(cats[i].id));
      r := r + [CategoryQty(cats[i], qtyTotal)];
      i := i + 1;
    }
  }

  /** Category ids are distinct and every sold item belongs to one of the categories. */
  predicate CoversItems(period: seq<Transaction>, cats: seq<Category>) {
    && (forall i, j :: 0 <= i < j < |cats| ==> cats[i].id != cats[j].id)
    && (forall t, oi :: t in period && oi in t.orderItems ==>
          exists k :: 0 <= k < |cats| && cats[k].id == oi.inventory.category.id)
  }

  /** When the categories partition the sold items, the per-category quantities
      add up to every unit sold in the period. */
  lemma {:induction false} CategoryQuantitiesConserve(period: seq<Transaction>, cats: seq<Category>, r: seq<CategoryQty>)
    requires |r| == |cats|
    requires forall i :: 0 <= i < |cats| ==> r[i].qty == CategoryQtyIn(period, cats[i].id)
    requires CoversItems(period, cats)
    ensures Sum(r, QtyValue) == Sum(period, AllItemsWeight(Qty))
  {
    var sels := IdSelectors(cats);
    var g := SelectedItemTotal(Qty);
    SumPointwise(r, QtyValue, sels, RowSums(period, g));
    SumSwap(sels, period, g);
    forall t | t in period
      ensures SelectorsWeight(Qty, sels)(t) == AllItemsWeight(Qty)(t)
    {
      forall i | 0 <= i < |t.orderItems|
        ensures SelectedOnce(sels, t.orderItems[i])
      {
        var oi := t.orderItems[i];
        assert oi in t.orderItems;
        var k :| 0 <= k < |cats| && cats[k].id == oi.inventory.category.id;
        assert Selects(sels[k], oi);
      }
      PartitionWeight(Qty, sels, t);
    }
    SumPointwise(period, ColumnSums(sels, g), period, AllItemsWeight(Qty));
  }

  /** Sorted by quantity, largest first. */
  predicate SortedDesc(s: seq<CategoryQty>) {
    forall i, j :: 0 <= i < j < |s| ==> s[i].qty >= s[j].qty
  }

  /** A head of at least the quantity of a descending sequence's first element keeps it descending. */
  lemma {:induction false} ConsSorted(h: CategoryQty, rest: seq<CategoryQty>)
    requires SortedDesc(rest)
    requires |rest| > 0 ==> rest[0].qty <= h.qty
    ensures SortedDesc([h] + rest)
  {
    var r := [h] + rest;
    forall i, j | 0 <= i < j < |r|
      ensures r[i].qty >= r[j].qty
    {
      if i == 0 {
        assert r[j] == rest[j - 1];
      } else {
        assert r[i] == rest[i - 1] && r[j] == rest[j - 1];
      }
    }
  }

  /** Inserting `x` into a descending sequence after every element with at least its quantity. */
  function InsertDesc(x: CategoryQty, s: seq<CategoryQty>): (r: seq<CategoryQty>)
    requires SortedDesc(s)
    ensures SortedDesc(r)
    ensures multiset(r) == multiset(s) + multiset{x}
    ensures |s| > 0 ==> r[0] == (if x.qty > s[0].qty then x else s[0])
    decreases |s|
  {
    if |s| == 0 then [x]
    else if x.qty > s[0].qty then
      ConsSorted(x, s);
      [x] + s
    else
      var rest := InsertDesc(x, s[1..]);
      assert s == [s[0]] + s[1..];
      assert multiset([s[0]] + rest) == multiset{s[0]} + multiset(rest);
      ConsSorted(s[0], rest);
      [s[0]] + rest
  }

  /** `categories.sort((a, b) => b.qty - a.qty)`: a stable sort by descending
      quantity, as an insertion sort, which any stable sort agrees with. */
  function SortByQtyDesc(s: seq<CategoryQty>): (r: seq<CategoryQty>)
    ensures SortedDesc(r)
    ensures multiset(r) == multiset(s)
    decreases |s|
  {
    if |s| == 0 then []
    else
      assert s == s[..|s| - 1] + [s[|s| - 1]];
      InsertDesc(s[|s| - 1], SortByQtyDesc(s[..|s| - 1]))
  }

  /** The position of the first category of largest quantity. */
  function FirstMaxIndex(s: seq<CategoryQty>): (k: nat)
    requires |s| > 0
    ensures k < |s|
    ensures forall j :: 0 <= j < |s| ==> s[j].qty <= s[k].qty
    ensures forall j :: 0 <= j < k ==> s[j].qty < s[k].qty
    decreases |s|
  {
    if |s| == 1 then 0
    else
      var k := FirstMaxIndex(s[..|s| - 1]);
      if s[|s| - 1].qty > s[k].qty then |s| - 1 else k
  }

  /** The head of the stable descending sort is the first category of largest
      quantity: ties go to the category listed first. */
  lemma {:induction false} SortedHeadIsFirstMax(s: seq<CategoryQty>)
    requires |s| > 0
    ensures |SortByQtyDesc(s)| == |s|
    ensures SortByQtyDesc(s)[0] == s[FirstMaxIndex(s)]
    decreases |s|
  {
    assert |multiset(SortByQtyDesc(s))| == |multiset(s)|;
    if |s| > 1 {
      var s' := s[..|s| - 1];
      SortedHeadIsFirstMax(s');
    }
  }
}
