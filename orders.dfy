/**
 * The point-of-sale records the dashboard reads, the status views it takes
 * of the orders in the selected date range, and the tax-inclusion revenue
 * rule. Amounts are whole Vietnamese dong (no subunit); a missing amount
 * string counts as 0, as `parseFloat(x || "0")` does.
 */
module Orders {
  import opened Seqs

  /**
   * An order. `customerCount` is 0 when the record has none; a missing
   * `priceIncludeTax` is `false` (the source tests `=== true`).
   */
  datatype Order = Order(
    id: int,
    status: string,
    total: int,
    tax: int,
    discount: int,
    priceIncludeTax: bool,
    paymentMethod: string,
    customerCount: int)

  datatype OrderItem = OrderItem(
    id: int,
    orderId: int,
    productName: string,
    quantity: int,
    unitPrice: int)

  // ---------------------------------------------------------------------
  // Status views of the orders in the date range.

  predicate IsCompleted(o: Order)
  {
    o.status == "completed" || o.status == "paid"
  }

  /** Orders still being served. */
  predicate IsServing(o: Order)
  {
    o.status == "served" || o.status == "preparing" || o.status == "pending"
  }

  /** The separate test behind the active-order count. */
  predicate IsActive(o: Order)
  {
    o.status == "pending" || o.status == "preparing" || o.status == "served"
  }

  predicate IsCancelled(o: Order)
  {
    o.status == "cancelled"
  }

  /** Orders whose money is not yet collected. */
  predicate IsUnpaid(o: Order)
  {
    o.status == "pending" || o.status == "unpaid" || o.status == "served" || o.status == "preparing"
  }

  /** Orders explicitly marked unpaid. */
  predicate IsMarkedUnpaid(o: Order)
  {
    o.status == "unpaid"
  }

  /** An order in none of the completed, serving and cancelled views. */
  predicate IsOtherStatus(o: Order)
  {
    !IsCompleted(o) && !IsServing(o) && !IsCancelled(o)
  }

  // ---------------------------------------------------------------------
  // Revenue.

  /** Recognised revenue: a tax-inclusive total has its tax taken out. */
  function Revenue(o: Order): int
  {
    if o.priceIncludeTax then o.total - o.tax else o.total
  }

  /**
   * What the customer paid: the revenue plus the tax, which is the charged
   * total for a tax-inclusive order and total plus tax otherwise.
   */
  function CustomerPayment(o: Order): (r: int)
    ensures r == if o.priceIncludeTax then o.total else o.total + o.tax
  {
    Revenue(o) + o.tax
  }

  /** Toggling tax inclusion moves the revenue by exactly the tax. */
  lemma TaxInclusionShiftsRevenueByTax(o: Order)
    ensures Revenue(o.(priceIncludeTax := false)) - Revenue(o.(priceIncludeTax := true)) == o.tax
    ensures Revenue(o) + o.tax == CustomerPayment(o)
  {
  }

  /** `orders.reduce((sum, o) => sum + revenue(o), 0)`. */
  function TotalRevenue(os: seq<Order>): int
  {
    Total(os, Revenue)
  }

  /** `order.customerCount || 1`. */
  function Headcount(o: Order): (n: int)
    ensures n != 0
    ensures o.customerCount == 0 ==> n == 1
    ensures o.customerCount != 0 ==> n == o.customerCount
  {
    if o.customerCount == 0 then 1 else o.customerCount
  }

  function TotalCustomers(os: seq<Order>): int
  {
    Total(os, Headcount)
  }

  /** Every order brings at least one customer, so there are at least as many customers as orders. */
  lemma {:induction false} AtLeastOneCustomerPerOrder(os: seq<Order>)
    requires forall i :: 0 <= i < |os| ==> os[i].customerCount >= 0
    ensures TotalCustomers(os) >= |os|
    decreases |os|
  {
    if os != [] {
      AtLeastOneCustomerPerOrder(os[..|os| - 1]);
    }
  }

  // ---------------------------------------------------------------------
  // The status views, related.

  /**
   * The completed, serving and cancelled views never share an order, so
   * together with the remaining orders they account for every order.
   */
  lemma {:induction false} StatusViewsPartition(os: seq<Order>)
    ensures |Filter(os, IsCompleted)| + |Filter(os, IsServing)| + |Filter(os, IsCancelled)| + |Filter(os, IsOtherStatus)| == |os|
    decreases |os|
  {
    if os != [] {
      StatusViewsPartition(os[..|os| - 1]);
    }
  }

  /** The unpaid view is the serving view plus the orders marked unpaid. */
  lemma {:induction false} UnpaidIsServingOrMarkedUnpaid(os: seq<Order>)
    ensures |Filter(os, IsUnpaid)| == |Filter(os, IsServing)| + |Filter(os, IsMarkedUnpaid)|
    decreases |os|
  {
    if os != [] {
      UnpaidIsServingOrMarkedUnpaid(os[..|os| - 1]);
    }
  }

  /** The active-order test selects exactly the serving view. */
  lemma {:induction false} ActiveIsServing(os: seq<Order>)
    ensures Filter(os, IsActive) == Filter(os, IsServing)
    decreases |os|
  {
    if os != [] {
      ActiveIsServing(os[..|os| - 1]);
    }
  }

  /** Revenue adds up over a split of the orders. */
  lemma {:induction false} RevenueOfViews(os: seq<Order>)
    ensures TotalRevenue(Filter(os, IsCompleted)) + TotalRevenue(Filter(os, IsServing))
            + TotalRevenue(Filter(os, IsCancelled)) + TotalRevenue(Filter(os, IsOtherStatus)) == TotalRevenue(os)
    decreases |os|
  {
    if os != [] {
      RevenueOfViews(os[..|os| - 1]);
      TotalOfFilterStep(os, IsCompleted, Revenue);
      TotalOfFilterStep(os, IsServing, Revenue);
      TotalOfFilterStep(os, IsCancelled, Revenue);
      TotalOfFilterStep(os, IsOtherStatus, Revenue);
    }
  }
}
