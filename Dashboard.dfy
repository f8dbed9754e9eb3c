/**
 * The admin dashboard page: the stat cards filled from the analytics
 * payload, the category chart, the sales series with its fallback, the
 * products list it reads, and the top five products by sales.
 */
module Dashboard {
  import opened Wrappers
  import opened Sequences
  import opened Sorting
  import opened Catalog
  import AdminController
  import Models

  /** The product list from `data.data`, else `data.products`, else empty; a present but empty array is still taken. */
  function ProductsOf(data: Option<seq<Product>>, products: Option<seq<Product>>): (r: seq<Product>)
    ensures data.Some? ==> r == data.value
    ensures data.None? && products.Some? ==> r == products.value
    ensures data.None? && products.None? ==> r == []
  {
    data.GetOr(products.GetOr([]))
  }

  /** A row of the top-products card: revenue is units sold times the price, a missing value counting 0. */
  datatype TopProduct = TopProduct(id: string, name: string, soldCount: int, revenue: int)

  function Summary(p: Product): (t: TopProduct)
    ensures t.id == p.id && t.name == p.name && t.soldCount == SoldCount(p)
    ensures t.revenue == SoldCount(p) * PriceOf(p)
  {
    TopProduct(p.id, p.name, SoldCount(p), SoldCount(p) * PriceOf(p))
  }

  function Summaries(ps: seq<Product>): (r: seq<TopProduct>)
    ensures |r| == |ps| && forall i :: 0 <= i < |ps| ==> r[i] == Summary(ps[i])
  {
    seq(|ps|, i requires 0 <= i < |ps| => Summary(ps[i]))
  }

  /** `displayTopProducts`: at most five rows, best sellers first, each summarising a product of the list. */
  function TopProducts(all: seq<Product>): (r: seq<TopProduct>)
    ensures all == [] ==> r == []
    ensures |r| == if |all| <= 5 then |all| else 5
    ensures forall i, j :: 0 <= i < j < |r| ==> r[j].soldCount <= r[i].soldCount
    ensures forall i :: 0 <= i < |r| ==> SummarisesOneOf(r[i], all)
  {
    if |all| > 0 then
      var top := TopByKey(all, SoldCount, 5);
      var r := Summaries(top);
      SummariesOfList(top, all);
      r
    else []
  }

  /** The row is the summary of some product of the list. */
  ghost predicate SummarisesOneOf(t: TopProduct, all: seq<Product>) {
    exists p :: p in all && t == Summary(p)
  }

  /** Each row summarising a sub-multiset of the list summarises one of its products. */
  lemma SummariesOfList(top: seq<Product>, all: seq<Product>)
    requires multiset(top) <= multiset(all)
    ensures forall i :: 0 <= i < |top| ==> SummarisesOneOf(Summaries(top)[i], all)
  {
    var r := Summaries(top);
    forall i | 0 <= i < |top| ensures SummarisesOneOf(r[i], all) {
      assert top[i] in multiset(top);
      assert top[i] in all && r[i] == Summary(top[i]);
    }
  }

  /** A product the card leaves out sold no more than any product it shows. */
  lemma TopProductsAreBest(all: seq<Product>)
    ensures forall x :: x in multiset(all) - multiset(TopByKey(all, SoldCount, 5)) ==>
      forall i :: 0 <= i < |TopProducts(all)| ==> SoldCount(x) <= TopProducts(all)[i].soldCount
  {
    TopByKeyLeftovers(all, SoldCount, 5);
    if |all| > 0 {
      assert TopProducts(all) == Summaries(TopByKey(all, SoldCount, 5));
    }
  }

  /** A point of the sales chart. */
  datatype SalesPoint = SalesPoint(name: string, sales: int, revenue: int)

  const DummySales := [
    SalesPoint("2024-01", 10, 2000), SalesPoint("2024-02", 15, 3000), SalesPoint("2024-03", 8, 1600),
    SalesPoint("2024-04", 20, 4000), SalesPoint("2024-05", 12, 2400), SalesPoint("2024-06", 18, 3600)]

  /** `displaySalesData`: the series, or the fixed six-month series when it is empty. */
  function DisplaySales(sales: seq<SalesPoint>): (r: seq<SalesPoint>)
    ensures |r| > 0
    ensures |sales| > 0 ==> r == sales
    ensures |sales| == 0 ==> r == DummySales
  {
    if |sales| > 0 then sales else DummySales
  }

  /** The page sets the series to empty on load, so the chart always shows the fixed series, whose revenue is 200 per sale. */
  lemma LoadedChartIsDummy()
    ensures DisplaySales([]) == DummySales
    ensures forall i :: 0 <= i < |DummySales| ==> DummySales[i].revenue == 200 * DummySales[i].sales
  {
  }

  /** One entry of the backend's category aggregate, and the chart slice made of it. */
  datatype CategoryStat = CategoryStat(id: string, count: int)
  datatype Slice = Slice(name: string, value: int)

  function SliceValue(s: Slice): int { s.value }
  function StatCount(c: CategoryStat): int { c.count }

  /** The category chart: one slice per aggregate entry, in the same order (`categoryStats || []`). */
  function CategoryChart(stats: Option<seq<CategoryStat>>): (r: seq<Slice>)
    ensures stats.None? ==> r == []
    ensures stats.Some? ==> |r| == |stats.value|
    ensures stats.Some? ==> forall i :: 0 <= i < |r| ==> r[i].name == stats.value[i].id && r[i].value == stats.value[i].count
  {
    var cs := stats.GetOr([]);
    seq(|cs|, i requires 0 <= i < |cs| => Slice(cs[i].id, cs[i].count))
  }

  /** The chart shows exactly the counted total: its slices add up to the aggregate's counts. */
  lemma {:induction false} ChartKeepsTotal(stats: seq<CategoryStat>)
    ensures Sum(CategoryChart(Some(stats)), SliceValue) == Sum(stats, StatCount)
    decreases |stats|
  {
    if |stats| > 0 {
      var init := stats[..|stats| - 1];
      var chart := CategoryChart(Some(stats));
      ChartKeepsTotal(init);
      assert stats == init + [stats[|stats| - 1]];
      assert chart == CategoryChart(Some(init)) + [chart[|chart| - 1]];
      SumAppend(CategoryChart(Some(init)), [chart[|chart| - 1]], SliceValue);
      SumAppend(init, [stats[|stats| - 1]], StatCount);
    }
  }

  datatype Stats = Stats(totalCustomers: int, totalOrders: int, totalProducts: int, totalRevenue: int)

  /** The stat cards, filled from the analytics payload. */
  function StatsOf(d: AdminController.Dashboard): (s: Stats)
    ensures s.totalCustomers == d.totalUsers && s.totalOrders == d.totalOrders
    ensures s.totalProducts == d.totalProducts && s.totalRevenue == d.totalRevenue
  {
    Stats(d.totalUsers, d.totalOrders, d.totalProducts, d.totalRevenue)
  }

  /** The revenue card shows the backend's delivered-order revenue, and the customers card its user count. */
  lemma RevenueCardIsDeliveredRevenue(users: seq<Models.User>, orders: seq<Models.Order>, n: nat)
    ensures StatsOf(AdminController.DashboardAnalytics(users, orders, n)).totalRevenue == AdminController.TotalRevenue(orders)
    ensures StatsOf(AdminController.DashboardAnalytics(users, orders, n)).totalCustomers == |users|
  {
  }

  datatype Trend = Up | Down

  /** A card's growth line: absent without a figure, pointing up exactly when growth is positive. */
  function GrowthIcon(growth: Option<int>): (r: Option<Trend>)
    ensures r.None? <==> growth.None?
    ensures r == Some(Up) <==> growth.Some? && growth.value > 0
  {
    match growth
    case None => None
    case Some(g) => if g > 0 then Some(Up) else Some(Down)
  }
}
