/** The sales transaction table that every KPI is computed from. */
module Sales {

  /** A calendar day. Ordering is lexicographic on (year, month, day). */
  datatype Date = Date(year: int, month: int, day: int)

  /** A calendar month, the bucket of the monthly KPIs. */
  datatype Month = Month(year: int, month: int)

  /** One sales transaction. Money is in integer cents, so sums are exact. */
  datatype Record = Record(
    date: Date,
    productId: int,
    customerId: int,
    salesAmount: int,
    quantity: int,
    region: string,
    channel: string,
    cost: int)

  /** `a` is on or before `b`: the comparison of `df['date'].dt.date` with a chosen day. */
  predicate DateLe(a: Date, b: Date)
  {
    a.year < b.year
    || (a.year == b.year && a.month < b.month)
    || (a.year == b.year && a.month == b.month && a.day <= b.day)
  }

  // Column selectors, used as the `key` and `val` arguments of the aggregations.

  function Amount(r: Record): int { r.salesAmount }
  function Cost(r: Record): int { r.cost }
  function Quantity(r: Record): int { r.quantity }
  /** The derived `profit` column, `sales_amount - cost`. */
  function Profit(r: Record): int { r.salesAmount - r.cost }
  function RegionOf(r: Record): string { r.region }
  function ChannelOf(r: Record): string { r.channel }
  function ProductOf(r: Record): int { r.productId }
  function CustomerOf(r: Record): int { r.customerId }
  function MonthOf(r: Record): Month { Month(r.date.year, r.date.month) }

  /** The earliest date in a non-empty table (`df['date'].min()`). */
  function MinDate(rows: seq<Record>): (d: Date)
    requires |rows| > 0
    ensures exists i :: 0 <= i < |rows| && rows[i].date == d
    ensures forall i :: 0 <= i < |rows| ==> DateLe(d, rows[i].date)
  {
    if |rows| == 1 then rows[0].date
    else
      var m := MinDate(rows[..|rows| - 1]);
      assert forall i :: 0 <= i < |rows| - 1 ==> rows[..|rows| - 1][i] == rows[i];
      if DateLe(m, rows[|rows| - 1].date) then m else rows[|rows| - 1].date
  }

  /** The latest date in a non-empty table (`df['date'].max()`). */
  function MaxDate(rows: seq<Record>): (d: Date)
    requires |rows| > 0
    ensures exists i :: 0 <= i < |rows| && rows[i].date == d
    ensures forall i :: 0 <= i < |rows| ==> DateLe(rows[i].date, d)
  {
    if |rows| == 1 then rows[0].date
    else
      var m := MaxDate(rows[..|rows| - 1]);
      assert forall i :: 0 <= i < |rows| - 1 ==> rows[..|rows| - 1][i] == rows[i];
      if DateLe(rows[|rows| - 1].date, m) then m else rows[|rows| - 1].date
  }
}
