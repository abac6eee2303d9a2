/** What a transaction contributes to a total: a transaction-level field, or an
    order-item field restricted to the items of some categories; and which
    transactions a date filter keeps. */
module Aggregation {
  import opened Records
  import opened Sums

  /** A completed transaction whose creation day lies in `[lo, hi]`: the
      `status === 'completed'` test combined with the day comparisons. */
  function CompletedBetween(cal: Calendar, lo: Day, hi: Day): Transaction -> bool {
    t => Completed(t) && lo <= CreatedDay(cal, t) <= hi
  }

  /** A completed transaction created on day `d` (the bucket filter's `isSame`). */
  function CompletedOn(cal: Calendar, d: Day): Transaction -> bool {
    CompletedBetween(cal, d, d)
  }

  /** The transaction-level field as a weight (`curr[args]`). */
  function TxWeight(field: TxField): Transaction -> real {
    t => TxValue(t, field)
  }

  /** The order-item field as a weight (`orderItem[field]`). */
  function ItemWeight(field: ItemField): OrderItem -> real {
    oi => ItemValue(oi, field)
  }

  /** Which order items a category filter keeps: by the linked category's name
      (the income/profit and forecast series) or by its id (the per-category quantities). */
  datatype Selector = ByName(name: string) | ById(id: int)

  predicate Selects(sel: Selector, oi: OrderItem) {
    match sel
    case ByName(n) => oi.inventory.category.name == n
    case ById(i) => oi.inventory.category.id == i
  }

  /** What one order item adds under one selector: its field when the selector keeps it, else nothing. */
  function ItemContribution(field: ItemField): (Selector, OrderItem) -> real {
    (sel, oi) => if Selects(sel, oi) then ItemValue(oi, field) else 0.0
  }

  /** The field summed over those of a transaction's order items that the selector keeps. */
  function SelectedItemTotal(field: ItemField): (Selector, Transaction) -> real {
    (sel: Selector, t: Transaction) => RowSums(t.orderItems, ItemContribution(field))(sel)
  }

  /** The nested `forEach` over transactions and their order items, adding the field of every kept item. */
  function SelectedTotal(txs: seq<Transaction>, field: ItemField, sel: Selector): real {
    RowSums(txs, SelectedItemTotal(field))(sel)
  }

  function NameSelectors(names: seq<string>): seq<Selector> {
    seq(|names|, j requires 0 <= j < |names| => ByName(names[j]))
  }

  function IdSelectors(cats: seq<Category>): seq<Selector> {
    seq(|cats|, i requires 0 <= i < |cats| => ById(cats[i].id))
  }

  /** What one transaction contributes to a category-filtered total: for every
      entry of the selector list in turn, the field over the items that entry
      keeps. An item kept by two entries therefore counts twice. */
  function SelectorsWeight(field: ItemField, sels: seq<Selector>): Transaction -> real {
    ColumnSums(sels, SelectedItemTotal(field))
  }

  /** The category-filtered weight for a list of category names. */
  function NamesWeight(field: ItemField, names: seq<string>): Transaction -> real {
    SelectorsWeight(field, NameSelectors(names))
  }

  /** The field summed over all of a transaction's order items, whatever their category. */
  function AllItemsWeight(field: ItemField): Transaction -> real {
    (t: Transaction) => Sum(t.orderItems, ItemWeight(field))
  }

  /** Exactly one entry of `sels` keeps `oi`. */
  predicate SelectedOnce(sels: seq<Selector>, oi: OrderItem) {
    exists k :: 0 <= k < |sels| && Selects(sels[k], oi) &&
      forall j :: 0 <= j < |sels| && Selects(sels[j], oi) ==> j == k
  }

  /** Filtering by a list that keeps every order item exactly once loses and
      duplicates nothing: the filtered weight of a transaction is the field
      summed over all its items. */
  lemma {:induction false} PartitionWeight(field: ItemField, sels: seq<Selector>, t: Transaction)
    requires forall i :: 0 <= i < |t.orderItems| ==> SelectedOnce(sels, t.orderItems[i])
    ensures SelectorsWeight(field, sels)(t) == AllItemsWeight(field)(t)
  {
    var items := t.orderItems;
    var g := ItemContribution(field);
    SumPointwise(sels, Column(SelectedItemTotal(field), t), sels, RowSums(items, g));
    SumSwap(sels, items, g);
    forall i | 0 <= i < |items|
      ensures ColumnSums(sels, g)(items[i]) == ItemWeight(field)(items[i])
    {
      var oi := items[i];
      var k :| 0 <= k < |sels| && Selects(sels[k], oi) &&
        forall j :: 0 <= j < |sels| && Selects(sels[j], oi) ==> j == k;
      SumSingleHit(sels, Column(g, oi), k);
    }
    SumPointwise(items, ColumnSums(sels, g), items, ItemWeight(field));
  }

  /** A category name listed twice is counted twice. */
  lemma {:induction false} DuplicateNameCountsTwice(field: ItemField, name: string, t: Transaction)
    ensures NamesWeight(field, [name, name])(t) == 2.0 * NamesWeight(field, [name])(t)
  {
    var g := SelectedItemTotal(field);
    var two := NameSelectors([name, name]);
    var one := NameSelectors([name]);
    assert two == one + one;
    SumAppend(one, one, Column(g, t));
  }

  /** Appending names to the filter list adds their weights. */
  lemma {:induction false} NamesWeightAppend(field: ItemField, a: seq<string>, b: seq<string>, t: Transaction)
    ensures NamesWeight(field, a + b)(t) == NamesWeight(field, a)(t) + NamesWeight(field, b)(t)
  {
    assert NameSelectors(a + b) == NameSelectors(a) + NameSelectors(b);
    SumAppend(NameSelectors(a), NameSelectors(b), Column(SelectedItemTotal(field), t));
  }
}
