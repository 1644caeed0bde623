/**
 * The computational slice of the interactive dashboard: the sidebar row
 * filter, the headline KPIs recomputed over the filtered rows, and the
 * (date, region, channel) summary table with per-group profit.
 */
module Dashboard {
  import opened Base
  import opened Sales
  import opened Aggregate

  // ---------------------------------------------------------------------
  // The row filter
  // ---------------------------------------------------------------------

  /** The sidebar selections: regions, channels and an inclusive date range. */
  datatype Selection = Selection(regions: set<string>, channels: set<string>, firstDay: Date, lastDay: Date)

  /** The boolean mask of the filter, for one row. */
  predicate Matches(r: Record, sel: Selection)
  {
    && r.region in sel.regions
    && r.channel in sel.channels
    && DateLe(sel.firstDay, r.date)
    && DateLe(r.date, sel.lastDay)
  }

  /** `filtered_df`: the rows matching the selection, in table order. */
  function FilterRows(rows: seq<Record>, sel: Selection): seq<Record>
  {
    Filter(rows, r => Matches(r, sel))
  }

  /**
   * A row is kept exactly when it is in the table and matches all four
   * conditions, and the kept rows are a subsequence of the table: nothing is
   * added, altered or reordered, and every matching position is kept.
   */
  lemma FilterRowsKeepsExactlyMatches(rows: seq<Record>, sel: Selection)
    ensures forall r :: r in FilterRows(rows, sel) <==> r in rows && Matches(r, sel)
    ensures IsSubsequence(FilterRows(rows, sel), rows)
    ensures SelectsExactly(FilterRows(rows, sel), rows, r => Matches(r, sel))
  {
    forall r ensures r in FilterRows(rows, sel) <==> r in rows && Matches(r, sel) {
      FilterMembership(rows, r => Matches(r, sel), r);
    }
    FilterIsSubsequence(rows, r => Matches(r, sel));
  }

  /**
   * The initial sidebar state: every region and every channel that occurs,
   * and the range from the earliest to the latest date.
   */
  function DefaultSelection(rows: seq<Record>): Selection
    requires rows != []
  {
    Selection(KeySet(rows, RegionOf), KeySet(rows, ChannelOf), MinDate(rows), MaxDate(rows))
  }

  /** With the default selections the filter keeps the whole table. */
  lemma DefaultSelectionKeepsAll(rows: seq<Record>)
    requires rows != []
    ensures FilterRows(rows, DefaultSelection(rows)) == rows
  {
    var sel := DefaultSelection(rows);
    forall i | 0 <= i < |rows| ensures Matches(rows[i], sel) {
      KeySetHas(rows, RegionOf, i);
      KeySetHas(rows, ChannelOf, i);
    }
    FilterKeepsAll(rows, r => Matches(r, sel));
  }

  // ---------------------------------------------------------------------
  // Headline KPIs over the filtered rows
  // ---------------------------------------------------------------------

  /** `filtered_kpis`. */
  datatype FilteredKpis = FilteredKpis(
    totalRevenue: int,
    totalProfit: int,
    profitMargin: real,
    averageOrderValue: real,
    uniqueCustomers: nat)

  /**
   * The headline KPIs with their division guards: the margin is 0 unless
   * revenue is positive, and the average order value is 0 for no rows.
   */
  function ComputeFilteredKpis(filtered: seq<Record>): (k: FilteredKpis)
    ensures k.totalRevenue == Total(filtered, Amount)
    ensures k.totalProfit == Total(filtered, Amount) - Total(filtered, Cost)
    ensures k.totalRevenue > 0 ==> k.profitMargin * (k.totalRevenue as real) == k.totalProfit as real * 100.0
    ensures k.totalRevenue <= 0 ==> k.profitMargin == 0.0
    ensures filtered == [] ==> k.averageOrderValue == 0.0
    ensures filtered != [] ==> k.averageOrderValue * (|filtered| as real) == k.totalRevenue as real
    ensures k.uniqueCustomers == |KeySet(filtered, CustomerOf)| <= |filtered|
  {
    TotalDiff(filtered, Profit, Amount, Cost);
    KeySetBound(filtered, CustomerOf);
    var revenue := Total(filtered, Amount);
    var profit := Total(filtered, Profit);
    FilteredKpis(
      revenue,
      profit,
      Percent(profit, revenue),
      MeanOrZero(revenue, |filtered|),
      |KeySet(filtered, CustomerOf)|)
  }

  /** `part / whole * 100` when `whole` is positive, else 0. */
  function Percent(part: int, whole: int): (p: real)
    ensures whole > 0 ==> p * (whole as real) == part as real * 100.0
    ensures whole <= 0 ==> p == 0.0
  {
    if whole > 0 then part as real / whole as real * 100.0 else 0.0
  }

  /** `sum / count`, or 0 when there is nothing to average. */
  function MeanOrZero(sum: int, count: nat): (m: real)
    ensures count > 0 ==> m * (count as real) == sum as real
    ensures count == 0 ==> m == 0.0
  {
    if count > 0 then sum as real / count as real else 0.0
  }

  // ---------------------------------------------------------------------
  // The (date, region, channel) summary table
  // ---------------------------------------------------------------------

  /** The group key of the summary table. */
  datatype Slot = Slot(date: Date, region: string, channel: string)

  function SlotOf(r: Record): Slot { Slot(r.date, r.region, r.channel) }

  /** One line of `agg_data`. */
  datatype AggRow = AggRow(
    slot: Slot,
    salesAmount: int,
    cost: int,
    quantity: int,
    profit: int,
    profitMargin: Option<real>)

  /**
   * `agg_data`: group by (date, region, channel), sum `sales_amount`,
   * `cost` and `quantity`, then add `profit` and `profit_margin`; a group
   * whose sales sum is 0 has no defined margin.
   */
  function AggData(rows: seq<Record>): seq<AggRow>
  {
    var ks := KeysInOrder(rows, SlotOf);
    seq(|ks|, i requires 0 <= i < |ks| => AggLine(rows, ks[i]))
  }

  /** The line of `agg_data` for one (date, region, channel). */
  function AggLine(rows: seq<Record>, slot: Slot): AggRow
  {
    var group := RowsWithKey(rows, SlotOf, slot);
    var sales := Total(group, Amount);
    var cost := Total(group, Cost);
    AggRow(slot, sales, cost, Total(group, Quantity), sales - cost, MarginOf(sales - cost, sales))
  }

  /** The summary table's index. */
  function SlotsOf(agg: seq<AggRow>): seq<Slot>
  {
    seq(|agg|, i requires 0 <= i < |agg| => agg[i].slot)
  }

  /** A column of the summary table, as a grouped aggregate. */
  function SalesColumn(agg: seq<AggRow>): seq<Group<Slot>>
  {
    seq(|agg|, i requires 0 <= i < |agg| => Group(agg[i].slot, agg[i].salesAmount))
  }

  function ProfitColumn(agg: seq<AggRow>): seq<Group<Slot>>
  {
    seq(|agg|, i requires 0 <= i < |agg| => Group(agg[i].slot, agg[i].profit))
  }

  /** The summary table has exactly one line per (date, region, channel) occurring in the rows. */
  lemma AggDataOneLinePerSlot(rows: seq<Record>)
    ensures Distinct(SlotsOf(AggData(rows)))
    ensures forall s :: s in SlotsOf(AggData(rows)) <==> s in KeySet(rows, SlotOf)
  {
    assert SlotsOf(AggData(rows)) == KeysInOrder(rows, SlotOf);
  }

  /**
   * Each line's profit is the sum of its rows' profits, and the sales and
   * profit columns add up to the totals of the headline KPIs.
   */
  lemma AggDataSplitsTotals(rows: seq<Record>)
    ensures forall a :: a in AggData(rows) ==>
      && a.salesAmount == Total(RowsWithKey(rows, SlotOf, a.slot), Amount)
      && a.cost == Total(RowsWithKey(rows, SlotOf, a.slot), Cost)
      && a.quantity == Total(RowsWithKey(rows, SlotOf, a.slot), Quantity)
      && a.profit == a.salesAmount - a.cost
    ensures forall a :: a in AggData(rows) ==> a.profit == Total(RowsWithKey(rows, SlotOf, a.slot), Profit)
    ensures SumTotals(SalesColumn(AggData(rows))) == ComputeFilteredKpis(rows).totalRevenue
    ensures SumTotals(ProfitColumn(AggData(rows))) == ComputeFilteredKpis(rows).totalProfit
  {
    AggDataLineSums(rows);
    AggDataProfitPerLine(rows);
    AggDataSalesSum(rows);
    AggDataProfitSum(rows);
  }

  /**
   * Each line holds the sums of `sales_amount`, `cost` and `quantity` over
   * the rows of its (date, region, channel), and its profit is its own
   * sales minus its own cost.
   */
  lemma AggDataLineSums(rows: seq<Record>)
    ensures forall i :: 0 <= i < |AggData(rows)| ==>
      var a := AggData(rows)[i];
      && a.salesAmount == Total(RowsWithKey(rows, SlotOf, a.slot), Amount)
      && a.cost == Total(RowsWithKey(rows, SlotOf, a.slot), Cost)
      && a.quantity == Total(RowsWithKey(rows, SlotOf, a.slot), Quantity)
      && a.profit == a.salesAmount - a.cost
  {
    var agg := AggData(rows);
    var ks := KeysInOrder(rows, SlotOf);
    forall i | 0 <= i < |agg|
      ensures agg[i].salesAmount == Total(RowsWithKey(rows, SlotOf, agg[i].slot), Amount)
      ensures agg[i].cost == Total(RowsWithKey(rows, SlotOf, agg[i].slot), Cost)
      ensures agg[i].quantity == Total(RowsWithKey(rows, SlotOf, agg[i].slot), Quantity)
      ensures agg[i].profit == agg[i].salesAmount - agg[i].cost
    {
      assert agg[i] == AggLine(rows, ks[i]);
    }
  }

  lemma AggDataProfitPerLine(rows: seq<Record>)
    ensures forall i :: 0 <= i < |AggData(rows)| ==>
      AggData(rows)[i].profit == Total(RowsWithKey(rows, SlotOf, AggData(rows)[i].slot), Profit)
  {
    var agg := AggData(rows);
    var ks := KeysInOrder(rows, SlotOf);
    forall i | 0 <= i < |agg| ensures agg[i].profit == Total(RowsWithKey(rows, SlotOf, agg[i].slot), Profit) {
      assert agg[i] == AggLine(rows, ks[i]);
      TotalDiff(RowsWithKey(rows, SlotOf, ks[i]), Profit, Amount, Cost);
    }
  }

  /**
   * Each line's margin is its profit as a percentage of its sales, and is
   * undefined (NaN or infinite in floating point) exactly when its sales sum is 0.
   */
  lemma AggDataMarginPerLine(rows: seq<Record>)
    ensures forall i :: 0 <= i < |AggData(rows)| ==>
      AggData(rows)[i].profitMargin == MarginOf(AggData(rows)[i].profit, AggData(rows)[i].salesAmount)
  {
    var agg := AggData(rows);
    var ks := KeysInOrder(rows, SlotOf);
    forall i | 0 <= i < |agg| ensures agg[i].profitMargin == MarginOf(agg[i].profit, agg[i].salesAmount) {
      assert agg[i] == AggLine(rows, ks[i]);
      AggLineMargin(rows, ks[i]);
    }
  }

  lemma AggLineMargin(rows: seq<Record>, slot: Slot)
    ensures AggLine(rows, slot).profitMargin == MarginOf(AggLine(rows, slot).profit, AggLine(rows, slot).salesAmount)
  {
  }

  /** `profit / sales * 100`, undefined when `sales` is 0. */
  function MarginOf(profit: int, sales: int): (m: Option<real>)
    ensures m.Some? <==> sales != 0
    ensures m.Some? ==> m.value * (sales as real) == profit as real * 100.0
  {
    if sales == 0 then None else Some(profit as real / sales as real * 100.0)
  }

  lemma AggDataSalesSum(rows: seq<Record>)
    ensures SumTotals(SalesColumn(AggData(rows))) == Total(rows, Amount)
  {
    var agg := AggData(rows);
    var ks := KeysInOrder(rows, SlotOf);
    var col, ref := SalesColumn(agg), GroupTotals(rows, SlotOf, Amount);
    assert |col| == |ref|;
    forall i | 0 <= i < |col| ensures col[i] == ref[i] {
      assert agg[i] == AggLine(rows, ks[i]);
    }
    assert col == ref;
    GroupSumIsGroupTotals(rows, SlotOf, Amount);
  }

  lemma AggDataProfitSum(rows: seq<Record>)
    ensures SumTotals(ProfitColumn(AggData(rows))) == Total(rows, Amount) - Total(rows, Cost)
  {
    var agg := AggData(rows);
    var ks := KeysInOrder(rows, SlotOf);
    var col, ref := ProfitColumn(agg), GroupTotals(rows, SlotOf, Profit);
    assert |col| == |ref|;
    forall i | 0 <= i < |col| ensures col[i] == ref[i] {
      assert agg[i] == AggLine(rows, ks[i]);
      TotalDiff(RowsWithKey(rows, SlotOf, ks[i]), Profit, Amount, Cost);
    }
    assert col == ref;
    GroupSumIsGroupTotals(rows, SlotOf, Profit);
    TotalDiff(rows, Profit, Amount, Cost);
  }
}
