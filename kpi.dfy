/**
 * The four KPI calculators and their merge. Each calculator maps KPI names
 * to values, as the Python calculators' dictionaries do; a value is one of the
 * shapes a KPI can take (an amount, a ratio that may be undefined, a count,
 * or a grouped aggregate keyed by label, by identifier or by month).
 */
module Kpi {
  import opened Base
  import opened Sales
  import opened Aggregate

  datatype KpiValue =
    | Money(cents: int)
    | Ratio(ratio: Option<real>)
    | Count(count: nat)
    | ByLabel(labelGroups: seq<Group<string>>)
    | ById(idGroups: seq<Group<int>>)
    | ByMonth(monthGroups: seq<Group<Month>>)

  const RevenueNames: set<string> :=
    {"total_revenue", "average_order_value", "revenue_by_region", "revenue_by_channel", "monthly_revenue"}
  const ProfitabilityNames: set<string> :=
    {"total_profit", "profit_margin", "profit_by_region", "profit_by_channel", "monthly_profit"}
  const ProductNames: set<string> :=
    {"top_products_by_revenue", "top_products_by_quantity", "product_profitability"}
  const CustomerNames: set<string> :=
    {"unique_customers", "avg_revenue_per_customer", "top_customers", "customers_by_region"}

  /** How many entries `top_customers` keeps. */
  const TopCustomerCount: nat := 10

  // ---------------------------------------------------------------------
  // Scalar KPIs
  // ---------------------------------------------------------------------

  /** The mean of `count` values adding up to `sum`; undefined (NaN) when there are none. */
  function MeanOf(sum: int, count: nat): (m: Option<real>)
    ensures m.Some? <==> count > 0
    ensures m.Some? ==> m.value * (count as real) == sum as real
  {
    if count == 0 then None else Some(sum as real / count as real)
  }

  /** `df['sales_amount'].mean()`. */
  function AverageOrderValue(rows: seq<Record>): (aov: Option<real>)
    ensures aov.Some? <==> rows != []
    ensures aov.Some? ==> aov.value * (|rows| as real) == Total(rows, Amount) as real
  {
    MeanOf(Total(rows, Amount), |rows|)
  }

  /**
   * `total_profit / total_revenue * 100`, unguarded: a zero revenue makes the
   * floating-point result NaN or infinite, which is `None` here.
   */
  function ProfitMargin(rows: seq<Record>): (margin: Option<real>)
    ensures margin.Some? <==> Total(rows, Amount) != 0
    ensures margin.Some? ==>
      margin.value * (Total(rows, Amount) as real) == (Total(rows, Amount) - Total(rows, Cost)) as real * 100.0
  {
    TotalDiff(rows, Profit, Amount, Cost);
    var revenue := Total(rows, Amount);
    if revenue == 0 then None
    else Some(Total(rows, Profit) as real / revenue as real * 100.0)
  }

  // ---------------------------------------------------------------------
  // Product and customer aggregates
  // ---------------------------------------------------------------------

  /**
   * `df.groupby('product_id').apply(lambda x: x['sales_amount'].sum() - x['cost'].sum())`:
   * one entry per product, holding that product's revenue minus its cost.
   */
  function ProductProfit(rows: seq<Record>): seq<Group<int>>
  {
    var ks := KeysInOrder(rows, ProductOf);
    seq(|ks|, i requires 0 <= i < |ks| =>
      Group(ks[i], Total(RowsWithKey(rows, ProductOf, ks[i]), Amount) - Total(RowsWithKey(rows, ProductOf, ks[i]), Cost)))
  }

  /**
   * `product_profitability` has one entry per product, equal to that
   * product's summed revenue minus its summed cost, and the
   * entries add up to the total profit.
   */
  lemma ProductProfitIsRevenueMinusCost(rows: seq<Record>)
    ensures Keys(ProductProfit(rows)) == KeysInOrder(rows, ProductOf)
    ensures forall g :: g in ProductProfit(rows) ==>
      g.total == Lookup(GroupSum(rows, ProductOf, Amount), g.key) - Lookup(GroupSum(rows, ProductOf, Cost), g.key)
    ensures SumTotals(ProductProfit(rows)) == Total(rows, Amount) - Total(rows, Cost)
  {
    var ks := KeysInOrder(rows, ProductOf);
    var gs := ProductProfit(rows);
    KeysOfTable(gs, ks);
    assert gs == GroupTotals(rows, ProductOf, Profit) by {
      forall i | 0 <= i < |ks| ensures gs[i].total == Total(RowsWithKey(rows, ProductOf, ks[i]), Profit) {
        TotalDiff(RowsWithKey(rows, ProductOf, ks[i]), Profit, Amount, Cost);
      }
    }
    GroupSumIsGroupTotals(rows, ProductOf, Profit);
    TotalDiff(rows, Profit, Amount, Cost);
  }

  /** `df.groupby('customer_id')['sales_amount'].sum()`. */
  function CustomerRevenue(rows: seq<Record>): seq<Group<int>>
  {
    GroupSum(rows, CustomerOf, Amount)
  }

  /** `customer_revenue.mean()`: total revenue shared equally among the distinct customers. */
  function AvgRevenuePerCustomer(rows: seq<Record>): (avg: Option<real>)
    ensures avg == MeanOf(Total(rows, Amount), |KeySet(rows, CustomerOf)|)
    ensures avg.Some? <==> rows != []
  {
    var cr := CustomerRevenue(rows);
    KeysLength(cr);
    KeySetEmpty(rows, CustomerOf);
    MeanOf(SumTotals(cr), |cr|)
  }

  /** `customer_revenue.sort_values(ascending=False).head(10)`. */
  function TopCustomers(rows: seq<Record>): seq<Group<int>>
  {
    Head(SortDesc(CustomerRevenue(rows)), TopCustomerCount)
  }

  /**
   * `top_customers` holds at most ten customers with their true totals, in
   * non-increasing order, and no customer left out spent more than any kept.
   */
  lemma TopCustomersAreTheLargest(rows: seq<Record>)
    ensures |TopCustomers(rows)| <= TopCustomerCount
    ensures |TopCustomers(rows)| == if |CustomerRevenue(rows)| < TopCustomerCount then |CustomerRevenue(rows)| else TopCustomerCount
    ensures SortedDesc(TopCustomers(rows))
    ensures multiset(TopCustomers(rows)) <= multiset(CustomerRevenue(rows))
    ensures forall g :: g in TopCustomers(rows) ==> g.total == Total(RowsWithKey(rows, CustomerOf, g.key), Amount)
    ensures forall g, h :: g in TopCustomers(rows) && h in CustomerRevenue(rows) && h !in TopCustomers(rows) ==> h.total <= g.total
  {
    var cr := CustomerRevenue(rows);
    TopOfRanking(cr, TopCustomerCount);
    forall g | g in TopCustomers(rows) ensures g.total == Total(RowsWithKey(rows, CustomerOf, g.key), Amount) {
      assert g in multiset(cr);
      var i :| 0 <= i < |cr| && cr[i] == g;
      KeysAt(cr, i);
      LookupAt(cr, i);
    }
  }

  /** `df.groupby('region')['customer_id'].nunique()`. */
  function CustomersByRegion(rows: seq<Record>): (gs: seq<Group<string>>)
    ensures Keys(gs) == KeysInOrder(rows, RegionOf)
    ensures forall i :: 0 <= i < |gs| ==> gs[i].total == |KeySet(RowsWithKey(rows, RegionOf, gs[i].key), CustomerOf)|
    ensures forall i :: 0 <= i < |gs| ==> 1 <= gs[i].total <= |KeySet(rows, CustomerOf)|
  {
    GroupNUnique(rows, RegionOf, CustomerOf)
  }

  // ---------------------------------------------------------------------
  // The calculators
  // ---------------------------------------------------------------------

  /**
   * A grouped aggregate of column `val` that splits `total`: its index is
   * exactly the keys occurring in the table, each once, each key's value is
   * the sum of `val` over that key's rows, and the values add up to `total`.
   */
  ghost predicate Splits<K(!new)>(gs: seq<Group<K>>, rows: seq<Record>, key: Record -> K, val: Record -> int, total: int)
  {
    && Distinct(Keys(gs))
    && (forall k :: k in Keys(gs) <==> k in KeySet(rows, key))
    && (forall g :: g in gs ==> g.total == Total(RowsWithKey(rows, key, g.key), val))
    && SumTotals(gs) == total
  }

  /** A group-by sum splits its column's total. */
  lemma GroupSumSplits<K(!new)>(rows: seq<Record>, key: Record -> K, val: Record -> int)
    ensures Splits(GroupSum(rows, key, val), rows, key, val, Total(rows, val))
  {
    var gs := GroupSum(rows, key, val);
    forall g | g in gs ensures g.total == Total(RowsWithKey(rows, key, g.key), val) {
      var i :| 0 <= i < |gs| && gs[i] == g;
      KeysAt(gs, i);
      LookupAt(gs, i);
    }
  }

  /** A ranking of `gs`: a non-increasing permutation of its entries. */
  ghost predicate Ranks<K>(ranking: seq<Group<K>>, gs: seq<Group<K>>)
  {
    SortedDesc(ranking) && multiset(ranking) == multiset(gs)
  }

  /** The result of `calculate_revenue_kpis`. */
  datatype RevenueKpis = RevenueKpis(
    totalRevenue: int,
    averageOrderValue: Option<real>,
    revenueByRegion: seq<Group<string>>,
    revenueByChannel: seq<Group<string>>,
    monthlyRevenue: seq<Group<Month>>)
  {
    /** The dictionary the calculator returns. */
    function AsDict(): (d: map<string, KpiValue>)
      ensures d.Keys == RevenueNames
    {
      map[
        "total_revenue" := Money(totalRevenue),
        "average_order_value" := Ratio(averageOrderValue),
        "revenue_by_region" := ByLabel(revenueByRegion),
        "revenue_by_channel" := ByLabel(revenueByChannel),
        "monthly_revenue" := ByMonth(monthlyRevenue)
      ]
    }
  }

  /** The result of `calculate_profitability_kpis`. */
  datatype ProfitabilityKpis = ProfitabilityKpis(
    totalProfit: int,
    profitMargin: Option<real>,
    profitByRegion: seq<Group<string>>,
    profitByChannel: seq<Group<string>>,
    monthlyProfit: seq<Group<Month>>)
  {
    /** The dictionary the calculator returns. */
    function AsDict(): (d: map<string, KpiValue>)
      ensures d.Keys == ProfitabilityNames
    {
      map[
        "total_profit" := Money(totalProfit),
        "profit_margin" := Ratio(profitMargin),
        "profit_by_region" := ByLabel(profitByRegion),
        "profit_by_channel" := ByLabel(profitByChannel),
        "monthly_profit" := ByMonth(monthlyProfit)
      ]
    }
  }

  /** The result of `calculate_product_kpis`. */
  datatype ProductKpis = ProductKpis(
    topProductsByRevenue: seq<Group<int>>,
    topProductsByQuantity: seq<Group<int>>,
    productProfitability: seq<Group<int>>)
  {
    /** The dictionary the calculator returns. */
    function AsDict(): (d: map<string, KpiValue>)
      ensures d.Keys == ProductNames
    {
      map[
        "top_products_by_revenue" := ById(topProductsByRevenue),
        "top_products_by_quantity" := ById(topProductsByQuantity),
        "product_profitability" := ById(productProfitability)
      ]
    }
  }

  /** The result of `calculate_customer_kpis`. */
  datatype CustomerKpis = CustomerKpis(
    uniqueCustomers: nat,
    avgRevenuePerCustomer: Option<real>,
    topCustomers: seq<Group<int>>,
    customersByRegion: seq<Group<string>>)
  {
    /** The dictionary the calculator returns. */
    function AsDict(): (d: map<string, KpiValue>)
      ensures d.Keys == CustomerNames
    {
      map[
        "unique_customers" := Count(uniqueCustomers),
        "avg_revenue_per_customer" := Ratio(avgRevenuePerCustomer),
        "top_customers" := ById(topCustomers),
        "customers_by_region" := ByLabel(customersByRegion)
      ]
    }
  }

  /**
   * `calculate_revenue_kpis`: total revenue is the sum of `sales_amount`,
   * and the per-region, per-channel and per-month revenues each split it.
   */
  function CalculateRevenueKpis(rows: seq<Record>): (k: RevenueKpis)
    ensures k.totalRevenue == Total(rows, Amount)
    ensures k.averageOrderValue == AverageOrderValue(rows)
    ensures Splits(k.revenueByRegion, rows, RegionOf, Amount, k.totalRevenue)
    ensures Splits(k.revenueByChannel, rows, ChannelOf, Amount, k.totalRevenue)
    ensures Splits(k.monthlyRevenue, rows, MonthOf, Amount, k.totalRevenue)
  {
    GroupSumSplits(rows, RegionOf, Amount);
    GroupSumSplits(rows, ChannelOf, Amount);
    GroupSumSplits(rows, MonthOf, Amount);
    RevenueKpis(
      Total(rows, Amount),
      AverageOrderValue(rows),
      GroupSum(rows, RegionOf, Amount),
      GroupSum(rows, ChannelOf, Amount),
      GroupSum(rows, MonthOf, Amount))
  }

  /**
   * `calculate_profitability_kpis`: total profit is total revenue minus
   * total cost, and the per-region, per-channel and per-month profits each
   * split it.
   */
  function CalculateProfitabilityKpis(rows: seq<Record>): (k: ProfitabilityKpis)
    ensures k.totalProfit == Total(rows, Amount) - Total(rows, Cost)
    ensures k.profitMargin == ProfitMargin(rows)
    ensures Splits(k.profitByRegion, rows, RegionOf, Profit, k.totalProfit)
    ensures Splits(k.profitByChannel, rows, ChannelOf, Profit, k.totalProfit)
    ensures Splits(k.monthlyProfit, rows, MonthOf, Profit, k.totalProfit)
  {
    TotalDiff(rows, Profit, Amount, Cost);
    GroupSumSplits(rows, RegionOf, Profit);
    GroupSumSplits(rows, ChannelOf, Profit);
    GroupSumSplits(rows, MonthOf, Profit);
    ProfitabilityKpis(
      Total(rows, Profit),
      ProfitMargin(rows),
      GroupSum(rows, RegionOf, Profit),
      GroupSum(rows, ChannelOf, Profit),
      GroupSum(rows, MonthOf, Profit))
  }

  /**
   * `calculate_product_kpis`: three rankings of the per-product table, by
   * revenue, by quantity and by profit.
   */
  function CalculateProductKpis(rows: seq<Record>): (k: ProductKpis)
    ensures Ranks(k.topProductsByRevenue, GroupSum(rows, ProductOf, Amount))
    ensures Ranks(k.topProductsByQuantity, GroupSum(rows, ProductOf, Quantity))
    ensures Ranks(k.productProfitability, ProductProfit(rows))
  {
    ProductKpis(
      SortDesc(GroupSum(rows, ProductOf, Amount)),
      SortDesc(GroupSum(rows, ProductOf, Quantity)),
      SortDesc(ProductProfit(rows)))
  }

  /**
   * `calculate_customer_kpis`: the distinct customer count, bounded by the
   * row count; the mean spend per customer; the ten largest spenders; and
   * per region a customer count between 1 and the distinct customer count.
   */
  function CalculateCustomerKpis(rows: seq<Record>): (k: CustomerKpis)
    ensures k.uniqueCustomers == |KeySet(rows, CustomerOf)| <= |rows|
    ensures k.avgRevenuePerCustomer == AvgRevenuePerCustomer(rows)
    ensures k.topCustomers == TopCustomers(rows) && |k.topCustomers| <= TopCustomerCount
    ensures Keys(k.customersByRegion) == KeysInOrder(rows, RegionOf)
    ensures forall g :: g in k.customersByRegion ==> g.total == |KeySet(RowsWithKey(rows, RegionOf, g.key), CustomerOf)|
    ensures forall g :: g in k.customersByRegion ==> 1 <= g.total <= k.uniqueCustomers
  {
    KeySetBound(rows, CustomerOf);
    var byRegion := CustomersByRegion(rows);
    assert forall g :: g in byRegion ==>
      g.total == |KeySet(RowsWithKey(rows, RegionOf, g.key), CustomerOf)| && 1 <= g.total <= |KeySet(rows, CustomerOf)|;
    CustomerKpis(
      |KeySet(rows, CustomerOf)|,
      AvgRevenuePerCustomer(rows),
      TopCustomers(rows),
      byRegion)
  }

  /** The four calculators use pairwise disjoint names. */
  lemma KpiNamesDisjoint()
    ensures RevenueNames !! ProfitabilityNames && RevenueNames !! ProductNames && RevenueNames !! CustomerNames
    ensures ProfitabilityNames !! ProductNames && ProfitabilityNames !! CustomerNames
    ensures ProductNames !! CustomerNames
  {
  }

  /**
   * `get_all_kpis`: the four dictionaries merged by successive `update`
   * calls. Because their names are disjoint, no KPI is overwritten: every
   * calculator's entries survive unchanged.
   */
  method GetAllKpis(rows: seq<Record>) returns (all: map<string, KpiValue>)
    ensures all.Keys == RevenueNames + ProfitabilityNames + ProductNames + CustomerNames
    ensures forall n :: n in RevenueNames ==> all[n] == CalculateRevenueKpis(rows).AsDict()[n]
    ensures forall n :: n in ProfitabilityNames ==> all[n] == CalculateProfitabilityKpis(rows).AsDict()[n]
    ensures forall n :: n in ProductNames ==> all[n] == CalculateProductKpis(rows).AsDict()[n]
    ensures forall n :: n in CustomerNames ==> all[n] == CalculateCustomerKpis(rows).AsDict()[n]
  {
    var revenue := CalculateRevenueKpis(rows).AsDict();
    var profitability := CalculateProfitabilityKpis(rows).AsDict();
    var product := CalculateProductKpis(rows).AsDict();
    var customer := CalculateCustomerKpis(rows).AsDict();
    all := map[];
    all := all + revenue;
    all := all + profitability;
    all := all + product;
    all := all + customer;
    MergedKpis(revenue, profitability, product, customer, all);
  }

  /** Four dictionaries over the four disjoint name sets, merged in turn, each keep their entries. */
  lemma MergedKpis(revenue: map<string, KpiValue>, profitability: map<string, KpiValue>,
                   product: map<string, KpiValue>, customer: map<string, KpiValue>, all: map<string, KpiValue>)
    requires revenue.Keys == RevenueNames && profitability.Keys == ProfitabilityNames
    requires product.Keys == ProductNames && customer.Keys == CustomerNames
    requires all == map[] + revenue + profitability + product + customer
    ensures all.Keys == RevenueNames + ProfitabilityNames + ProductNames + CustomerNames
    ensures forall n :: n in RevenueNames ==> all[n] == revenue[n]
    ensures forall n :: n in ProfitabilityNames ==> all[n] == profitability[n]
    ensures forall n :: n in ProductNames ==> all[n] == product[n]
    ensures forall n :: n in CustomerNames ==> all[n] == customer[n]
  {
    KpiNamesDisjoint();
  }
}
