/** The records the dashboard analytics read: a read-only snapshot of
    transactions with their nested order items, inventory and category,
    the injected calendar, and the `{x, y}` points every series is made of.
 */
module Records {

  /** A calendar day, counted in days since 1970-01-01. */
  type Day = int

  /** A full-precision creation timestamp, as stored with a transaction. */
  type Timestamp = int

  /** 2023-07-09, the first day of every daily series. */
  const EpochDay: Day := 19547

  datatype Category = Category(id: int, name: string)

  datatype Inventory = Inventory(id: int, name: string, category: Category)

  datatype OrderItem = OrderItem(
    id: int,
    qty: real,
    discount: real,
    total: real,
    profit: real,
    inventory: Inventory)

  datatype Transaction = Transaction(
    id: int,
    status: string,
    createdAt: Timestamp,
    total: real,
    totalProfit: real,
    orderItems: seq<OrderItem>)

  /** The ambient state the handlers read: the current day and the
      truncation of a timestamp to its calendar day. */
  datatype Calendar = Calendar(today: Day, dayOf: Timestamp -> Day)

  /** One point `{x: day, y: value}` of a series. */
  datatype Point = Point(x: Day, y: real)

  /** The transaction-level fields a series can sum (`'total'`, `'total_profit'`). */
  datatype TxField = Total | TotalProfit

  /** The order-item fields a series can sum (`'qty'`, `'total'`, `'profit'`). */
  datatype ItemField = Qty | ItemTotal | Profit

  /** Why a handler fails after the data has been fetched. */
  datatype Error =
    | ReadOfUndefined(property: string)   // a TypeError: reading a property of `undefined`
    | InvalidArrayLength(length: int)     // a RangeError: `new Array(length)` with a negative length

  datatype Result<T> = Success(value: T) | Failure(error: Error)

  predicate Completed(t: Transaction) {
    t.status == "completed"
  }

  function CreatedDay(cal: Calendar, t: Transaction): Day {
    cal.dayOf(t.createdAt)
  }

  function TxValue(t: Transaction, field: TxField): real {
    match field
    case Total => t.total
    case TotalProfit => t.totalProfit
  }

  function ItemValue(oi: OrderItem, field: ItemField): real {
    match field
    case Qty => oi.qty
    case ItemTotal => oi.total
    case Profit => oi.profit
  }

  function PointValue(p: Point): real {
    p.y
  }

  /** The values of a series, dropping the days (`.map((item) => item.y)`). */
  function Values(pts: seq<Point>): seq<real> {
    seq(|pts|, i requires 0 <= i < |pts| => pts[i].y)
  }
}
