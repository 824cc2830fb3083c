/**
 * The dashboard's statistics for the selected date range: revenue per
 * status view, order and customer counts, the daily average, the
 * payment-method breakdown and the five best-selling products.
 */
module Dashboard {
  import opened Wrappers
  import opened Seqs
  import opened Grouping
  import opened Calendar
  import opened Orders
  import opened PaymentBreakdown
  import opened ProductRollup
  import opened ProductRanking

  datatype DashboardStats = DashboardStats(
    totalSalesRevenue: int,
    subtotalRevenue: int,
    estimatedRevenue: int,
    servingRevenue: int,
    cancelledRevenue: int,
    periodOrderCount: int,
    periodCustomerCount: int,
    dailyAverageRevenue: real,
    activeOrders: int,
    completedOrdersCount: int,
    processingOrdersCount: int,
    cancelledOrdersCount: int,
    unpaidOrdersCount: int,
    totalOrdersInRange: int,
    dateRange: DateRange,
    paymentLabels: seq<PaymentLabel>,
    paymentMethods: map<PaymentLabel, Tally>,
    topProducts: seq<ProductEntry>)

  /** The statistics shown while any of the three queries has not returned. */
  function EmptyStats(range: DateRange): (s: DashboardStats)
    ensures s.totalSalesRevenue == s.subtotalRevenue == s.estimatedRevenue == s.servingRevenue == s.cancelledRevenue == 0
    ensures s.periodOrderCount == s.periodCustomerCount == s.totalOrdersInRange == 0
    ensures s.activeOrders == s.completedOrdersCount == s.processingOrdersCount == s.cancelledOrdersCount == s.unpaidOrdersCount == 0
    ensures s.dailyAverageRevenue == 0.0 && s.paymentLabels == [] && s.paymentMethods == map[] && s.topProducts == []
    ensures s.dateRange == range
  {
    DashboardStats(0, 0, 0, 0, 0, 0, 0, 0.0, 0, 0, 0, 0, 0, 0, range, [], map[], [])
  }

  /**
   * The number of days the range covers, both ends included, and never
   * less than 1. Two date-only strings parse to midnight UTC, so the
   * rounded-up difference of their times is a whole number of days.
   */
  function DaysDiff(range: DateRange): (n: int)
    ensures n >= 1
    ensures DayNumber(range.start) <= DayNumber(range.end) ==> n == DayNumber(range.end) - DayNumber(range.start) + 1
    ensures DayNumber(range.end) < DayNumber(range.start) ==> n == 1
  {
    var diff := DayNumber(range.end) - DayNumber(range.start);
    if diff + 1 > 1 then diff + 1 else 1
  }

  /** `revenue / days`, exactly: the amount that, earned on each of the days, makes up the revenue. */
  function DailyAverage(revenue: int, days: int): (a: real)
    requires days >= 1
    ensures a * days as real == revenue as real
    ensures revenue >= 0 ==> 0.0 <= a <= revenue as real
  {
    revenue as real / days as real
  }

  /** The sum of the order counts of the labels `labels`. */
  function CountOfLabels(labels: seq<PaymentLabel>, methods: map<PaymentLabel, Tally>): int
    requires forall i :: 0 <= i < |labels| ==> labels[i] in methods
    decreases |labels|
  {
    if labels == [] then 0
    else CountOfLabels(labels[..|labels| - 1], methods) + methods[labels[|labels| - 1]].count
  }

  /** Tallies that are group sums add up, label by label, as the group sums do. */
  lemma {:induction false} CountOfLabelsIsSumOverKeys(labels: seq<PaymentLabel>, methods: map<PaymentLabel, Tally>, completed: seq<Order>)
    requires forall i :: 0 <= i < |labels| ==> labels[i] in methods
    requires forall l :: l in methods ==> methods[l].count == GroupSum(completed, MethodLabel, l, One)
    ensures CountOfLabels(labels, methods) == SumOverKeys(labels, completed, MethodLabel, One)
    decreases |labels|
  {
    if labels != [] {
      CountOfLabelsIsSumOverKeys(labels[..|labels| - 1], methods, completed);
    }
  }

  /** The statistics of the orders of a range and the order items, field by field. */
  function ExpectedStats(orders: seq<Order>, orderItems: seq<OrderItem>, range: DateRange): DashboardStats
  {
    var completed := Filter(orders, IsCompleted);
    var serving := Filter(orders, IsServing);
    var cancelled := Filter(orders, IsCancelled);
    var relevant := RelevantItems(completed, orderItems);
    var names := FirstSeen(relevant, ProductName);
    var productStats := Rollup(relevant, RevenueWeight(completed, relevant));
    RollupIsGroupSums(relevant, RevenueWeight(completed, relevant));
    DashboardStats(
      TotalRevenue(completed), TotalRevenue(completed),
      TotalRevenue(completed) + TotalRevenue(serving),
      TotalRevenue(serving), TotalRevenue(cancelled),
      |completed|, TotalCustomers(orders),
      DailyAverage(TotalRevenue(completed), DaysDiff(range)),
      |Filter(orders, IsActive)|, |completed|, |serving|, |cancelled|, |Filter(orders, IsUnpaid)|, |orders|,
      range, FirstSeen(completed, MethodLabel), Breakdown(completed),
      TopProducts(ProductEntries(names, productStats)))
  }

  /** The statistics of a date range whose three queries have all returned. */
  method RangeStats(orders: seq<Order>, orderItems: seq<OrderItem>, range: DateRange) returns (stats: DashboardStats)
    ensures stats == ExpectedStats(orders, orderItems, range)
  {
    var completedOrders := Filter(orders, IsCompleted);
    var unpaidOrders := Filter(orders, IsUnpaid);
    var servingOrders := Filter(orders, IsServing);
    var cancelledOrders := Filter(orders, IsCancelled);
    var activeOrdersCount := |Filter(orders, IsActive)|;
    var completedOrdersRevenue := TotalRevenue(completedOrders);
    var servingOrdersRevenue := TotalRevenue(servingOrders);
    var cancelledOrdersRevenue := TotalRevenue(cancelledOrders);
    var estimatedRevenue := completedOrdersRevenue + servingOrdersRevenue;

    var labels, paymentMethods := GroupPayments(completedOrders);
    var totalCustomers := TotalCustomers(orders);

    var relevantOrderItems := RelevantItems(completedOrders, orderItems);
    var names, productStats := RollupProducts(completedOrders, relevantOrderItems);
    var topProducts := TopProducts(ProductEntries(names, productStats));

    var daysDiff := DaysDiff(range);
    var dailyAverage := DailyAverage(completedOrdersRevenue, daysDiff);

    stats := DashboardStats(
      completedOrdersRevenue, completedOrdersRevenue, estimatedRevenue, servingOrdersRevenue, cancelledOrdersRevenue,
      |completedOrders|, totalCustomers, dailyAverage, activeOrdersCount,
      |completedOrders|, |servingOrders|, |cancelledOrders|, |unpaidOrders|, |orders|,
      range, labels, paymentMethods, topProducts);
  }

  /**
   * The whole computation: the all-zero statistics until the orders, the
   * orders of the range and the order items have all been loaded (only
   * the presence of the first is asked), and otherwise the statistics of
   * the range.
   */
  method ComputeDashboardStats(ordersData: Option<seq<Order>>, dateRangeOrders: Option<seq<Order>>,
                               orderItemsData: Option<seq<OrderItem>>, range: DateRange)
    returns (stats: DashboardStats)
    ensures ordersData.None? || dateRangeOrders.None? || orderItemsData.None? ==> stats == EmptyStats(range)
    ensures ordersData.Some? && dateRangeOrders.Some? && orderItemsData.Some? ==>
      stats == ExpectedStats(dateRangeOrders.value, orderItemsData.value, range)
  {
    if ordersData.None? || dateRangeOrders.None? || orderItemsData.None? {
      return EmptyStats(range);
    }
    stats := RangeStats(dateRangeOrders.value, orderItemsData.value, range);
  }

  // ---------------------------------------------------------------------
  // How the fields relate.

  /** The estimate adds what is still being served to what is completed; sales and subtotal agree. */
  lemma EstimateIsSalesPlusServing(orders: seq<Order>, orderItems: seq<OrderItem>, range: DateRange)
    ensures var s := ExpectedStats(orders, orderItems, range);
      s.estimatedRevenue == s.totalSalesRevenue + s.servingRevenue && s.subtotalRevenue == s.totalSalesRevenue
  {
  }

  /**
   * The order counts: active orders are the ones being processed, unpaid
   * orders are those plus the ones marked unpaid, and the completed,
   * processing and cancelled counts never exceed the orders in the range.
   */
  lemma OrderCountsAgree(orders: seq<Order>, orderItems: seq<OrderItem>, range: DateRange)
    ensures var s := ExpectedStats(orders, orderItems, range);
      && s.activeOrders == s.processingOrdersCount
      && s.unpaidOrdersCount == s.processingOrdersCount + |Filter(orders, IsMarkedUnpaid)|
      && s.completedOrdersCount + s.processingOrdersCount + s.cancelledOrdersCount <= s.totalOrdersInRange
      && s.periodOrderCount == s.completedOrdersCount
  {
    ActiveIsServing(orders);
    UnpaidIsServingOrMarkedUnpaid(orders);
    StatusViewsPartition(orders);
  }

  /** Every order in the range brings at least one customer. */
  lemma CustomersAtLeastOrders(orders: seq<Order>, orderItems: seq<OrderItem>, range: DateRange)
    requires forall i :: 0 <= i < |orders| ==> orders[i].customerCount >= 0
    ensures var s := ExpectedStats(orders, orderItems, range);
      s.periodCustomerCount >= s.totalOrdersInRange
  {
    AtLeastOneCustomerPerOrder(orders);
  }

  /** The payment breakdown counts every completed order exactly once. */
  lemma BreakdownCountsEveryOrder(orders: seq<Order>, orderItems: seq<OrderItem>, range: DateRange)
    ensures var s := ExpectedStats(orders, orderItems, range);
      && (forall i :: 0 <= i < |s.paymentLabels| ==> s.paymentLabels[i] in s.paymentMethods)
      && CountOfLabels(s.paymentLabels, s.paymentMethods) == s.periodOrderCount
  {
    var completed := Filter(orders, IsCompleted);
    var labels := FirstSeen(completed, MethodLabel);
    var methods := Breakdown(completed);
    CountOfLabelsIsSumOverKeys(labels, methods, completed);
    BreakdownAddsUp(completed);
  }

  /** Over a single day the daily average is the day's revenue. */
  lemma SingleDayAverage(d: Date, revenue: int)
    ensures DaysDiff(DateRange(d, d)) == 1
    ensures DailyAverage(revenue, DaysDiff(DateRange(d, d))) == revenue as real
  {
  }
}
