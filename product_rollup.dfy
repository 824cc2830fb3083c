/**
 * The per-product rollup of the items of the completed orders: per product
 * name, the quantity sold, the revenue after each item's share of its
 * order's discount, and the unit price of the last item seen.
 */
module ProductRollup {
  import opened Wrappers
  import opened Seqs
  import opened Grouping
  import opened Orders
  import opened DiscountAllocation

  /** What the rollup keeps per product name. */
  datatype ProductStat = ProductStat(quantity: int, revenue: int, unitPrice: int)

  /** The ids of the orders, in their order. */
  function OrderIds(os: seq<Order>): (ids: seq<int>)
    ensures |ids| == |os|
    ensures forall i :: 0 <= i < |os| ==> ids[i] == os[i].id
  {
    seq(|os|, i requires 0 <= i < |os| => os[i].id)
  }

  /** The test `ids.includes(item.orderId)`. */
  function BelongsTo(ids: seq<int>): OrderItem -> bool
  {
    (item: OrderItem) => item.orderId in ids
  }

  /** `orderItems.filter(item => completedOrderIds.includes(item.orderId))`. */
  function RelevantItems(completed: seq<Order>, orderItems: seq<OrderItem>): (r: seq<OrderItem>)
    ensures |r| <= |orderItems|
    ensures forall i :: 0 <= i < |r| ==> r[i] in orderItems && exists j :: 0 <= j < |completed| && completed[j].id == r[i].orderId
    ensures forall i :: 0 <= i < |orderItems| && (exists j :: 0 <= j < |completed| && completed[j].id == orderItems[i].orderId)
              ==> orderItems[i] in r
  {
    var ids := OrderIds(completed);
    var r := Filter(orderItems, BelongsTo(ids));
    assert forall i :: 0 <= i < |r| ==> r[i].orderId in ids;
    r
  }

  /** `orders.find(o => o.id === id)`: the first order with that id. */
  function FindOrder(os: seq<Order>, id: int): (r: Option<Order>)
    ensures r.None? <==> forall j :: 0 <= j < |os| ==> os[j].id != id
    ensures r.Some? ==> r.value.id == id && exists j :: 0 <= j < |os| && os[j] == r.value && forall k :: 0 <= k < j ==> os[k].id != id
    decreases |os|
  {
    if os == [] then None
    else if os[0].id == id then Some(os[0])
    else
      var r := FindOrder(os[1..], id);
      assert r.Some? ==> exists j :: 1 <= j < |os| && os[j] == r.value && forall k :: 0 <= k < j ==> os[k].id != id by {
        if r.Some? {
          var j :| 0 <= j < |os[1..]| && os[1..][j] == r.value && forall k :: 0 <= k < j ==> os[1..][k].id != id;
          assert os[j + 1] == r.value;
          assert forall k :: 1 <= k < j + 1 ==> os[k].id != id by {
            forall k | 1 <= k < j + 1 ensures os[k].id != id {
              assert os[k] == os[1..][k - 1];
            }
          }
        }
      }
      r
  }

  /** The test `i.orderId === id`. */
  function OfOrder(id: int): OrderItem -> bool
  {
    (item: OrderItem) => item.orderId == id
  }

  /** The items of order `id` among the relevant items, in their order. */
  function ItemsOfOrder(relevant: seq<OrderItem>, id: int): (r: seq<OrderItem>)
    ensures forall i :: 0 <= i < |r| ==> r[i] in relevant && r[i].orderId == id
  {
    Filter(relevant, OfOrder(id))
  }

  /**
   * The discount of a relevant item: its share of the discount of its
   * (first) completed order, among that order's relevant items.
   */
  function ItemDiscountIn(completed: seq<Order>, relevant: seq<OrderItem>, item: OrderItem): int
  {
    match FindOrder(completed, item.orderId)
    case None => 0
    case Some(o) => ItemDiscount(o.discount, ItemsOfOrder(relevant, o.id), item)
  }

  /** `unitPrice * quantity - itemDiscountAmount`. */
  function ItemRevenue(completed: seq<Order>, relevant: seq<OrderItem>, item: OrderItem): int
  {
    LineTotal(item) - ItemDiscountIn(completed, relevant, item)
  }

  /** `ItemRevenue` as a weight for summing; one lambda, so that its every use is the same term. */
  function RevenueWeight(completed: seq<Order>, relevant: seq<OrderItem>): OrderItem -> int
  {
    (item: OrderItem) => ItemRevenue(completed, relevant, item)
  }

  function ProductName(item: OrderItem): string
  {
    item.productName
  }

  function Quantity(item: OrderItem): int
  {
    item.quantity
  }

  function UnitPrice(item: OrderItem): int
  {
    item.unitPrice
  }

  /** The discount of one relevant item, computed as the loop body does. */
  method ItemDiscountFor(completed: seq<Order>, relevant: seq<OrderItem>, item: OrderItem) returns (amount: int)
    ensures amount == ItemDiscountIn(completed, relevant, item)
  {
    var order := FindOrder(completed, item.orderId);
    amount := 0;
    if order.Some? {
      var orderItems := ItemsOfOrder(relevant, order.value.id);
      amount := ItemDiscountAmount(order.value.discount, orderItems, item);
    }
  }

  /** The stat a product has before its item is added: its current one, or a fresh one. */
  function CurrentStat(stats: map<string, ProductStat>, item: OrderItem): ProductStat
  {
    if item.productName in stats then stats[item.productName] else ProductStat(0, 0, item.unitPrice)
  }

  /** `stats` with `item`, of revenue `revenue`, added to its product. */
  function WithItem(stats: map<string, ProductStat>, item: OrderItem, revenue: int): map<string, ProductStat>
  {
    var current := CurrentStat(stats, item);
    stats[item.productName := ProductStat(current.quantity + item.quantity, current.revenue + revenue, item.unitPrice)]
  }

  /** The stats object after the items `s`, item revenue being `w`. */
  function Rollup(s: seq<OrderItem>, w: OrderItem -> int): map<string, ProductStat>
    decreases |s|
  {
    if s == [] then map[] else WithItem(Rollup(s[..|s| - 1], w), s[|s| - 1], w(s[|s| - 1]))
  }

  lemma RollupStep(s: seq<OrderItem>, item: OrderItem, w: OrderItem -> int)
    ensures Rollup(s + [item], w) == WithItem(Rollup(s, w), item, w(item))
  {
    assert (s + [item])[..|s|] == s;
  }

  /**
   * After the items `s`, each product's stat holds the quantity and revenue
   * summed over its items and the unit price of its last item.
   */
  ghost predicate StatsOf(s: seq<OrderItem>, w: OrderItem -> int, stats: map<string, ProductStat>)
  {
    forall n :: n in stats ==>
      stats[n] == ProductStat(GroupSum(s, ProductName, n, Quantity), GroupSum(s, ProductName, n, w), LastSeen(s, ProductName, n, UnitPrice, 0))
  }

  /** The stat of one product after one more item. */
  lemma StatStep(done: seq<OrderItem>, item: OrderItem, w: OrderItem -> int, stats: map<string, ProductStat>, n: string)
    requires StatsOf(done, w, stats)
    requires n !in stats ==> forall i :: 0 <= i < |done| ==> ProductName(done[i]) != n
    requires n in stats || ProductName(item) == n
    ensures var current := if n in stats then stats[n] else ProductStat(0, 0, item.unitPrice);
      var hit := ProductName(item) == n;
      && GroupSum(done + [item], ProductName, n, Quantity) == current.quantity + (if hit then item.quantity else 0)
      && GroupSum(done + [item], ProductName, n, w) == current.revenue + (if hit then w(item) else 0)
      && LastSeen(done + [item], ProductName, n, UnitPrice, 0) == if hit then item.unitPrice else current.unitPrice
  {
    GroupSumStep(done, item, ProductName, n, Quantity);
    GroupSumStep(done, item, ProductName, n, w);
    LastSeenStep(done, item, ProductName, n, UnitPrice, 0);
    if n !in stats {
      GroupSumOfAbsentKey(done, ProductName, n, Quantity);
      GroupSumOfAbsentKey(done, ProductName, n, w);
      assert LastSeen(done, ProductName, n, UnitPrice, 0) == 0;
    }
  }

  /** Adding one item keeps the stats those of the items so far. */
  lemma StatsStep(done: seq<OrderItem>, item: OrderItem, w: OrderItem -> int, stats: map<string, ProductStat>)
    requires KeysInFirstSeenOrder(done, ProductName, FirstSeen(done, ProductName), stats) && StatsOf(done, w, stats)
    ensures StatsOf(done + [item], w, WithItem(stats, item, w(item)))
  {
    var stats' := WithItem(stats, item, w(item));
    forall n | n in stats'
      ensures stats'[n] == ProductStat(GroupSum(done + [item], ProductName, n, Quantity), GroupSum(done + [item], ProductName, n, w),
                                       LastSeen(done + [item], ProductName, n, UnitPrice, 0))
    {
      if n !in stats { AbsentKey(done, ProductName, n); }
      StatStep(done, item, w, stats, n);
    }
  }

  /**
   * The stats object after the items `s` has a key for each product name,
   * listed in the order first seen, and each product's stat holds its total
   * quantity, its total item revenue and the unit price of its last item.
   */
  lemma {:induction false} RollupIsGroupSums(s: seq<OrderItem>, w: OrderItem -> int)
    ensures KeysInFirstSeenOrder(s, ProductName, FirstSeen(s, ProductName), Rollup(s, w))
    ensures StatsOf(s, w, Rollup(s, w))
    decreases |s|
  {
    if s != [] {
      var init, item := s[..|s| - 1], s[|s| - 1];
      RollupIsGroupSums(init, w);
      assert s == init + [item];
      KeysInFirstSeenOrderStep(init, item, s, ProductName, FirstSeen(init, ProductName), Rollup(init, w),
                               FirstSeen(s, ProductName), Rollup(s, w));
      StatsStep(init, item, w, Rollup(init, w));
    }
  }

  /**
   * The body of the `forEach`: a new product gets a fresh stat and its name
   * is appended; then the item's quantity and revenue are added and its unit
   * price recorded.
   */
  method AddItem(completed: seq<Order>, relevant: seq<OrderItem>, item: OrderItem,
                 names: seq<string>, productStats: map<string, ProductStat>)
    returns (names': seq<string>, productStats': map<string, ProductStat>)
    ensures names' == if item.productName in productStats then names else names + [item.productName]
    ensures productStats' == WithItem(productStats, item, RevenueWeight(completed, relevant)(item))
  {
    var productName := item.productName;
    var unitPrice := item.unitPrice;
    var quantity := item.quantity;
    var current := CurrentStat(productStats, item);
    names' := if productName in productStats then names else names + [productName];
    var itemDiscountAmount := ItemDiscountFor(completed, relevant, item);
    var itemRevenue := unitPrice * quantity - itemDiscountAmount;
    productStats' := productStats[productName := ProductStat(current.quantity + quantity, current.revenue + itemRevenue, unitPrice)];
  }

  /**
   * The `forEach` over the relevant items. The product names come out in
   * the order first met, as the stats object's keys do; each product's
   * stat holds its total quantity, its total item revenue and the unit
   * price of its last item.
   */
  method RollupProducts(completed: seq<Order>, relevant: seq<OrderItem>) returns (names: seq<string>, productStats: map<string, ProductStat>)
    ensures names == FirstSeen(relevant, ProductName)
    ensures productStats == Rollup(relevant, RevenueWeight(completed, relevant))
    ensures forall n :: n in productStats <==> n in names
    ensures forall n :: n in productStats ==>
      productStats[n] == ProductStat(GroupSum(relevant, ProductName, n, Quantity),
                                     GroupSum(relevant, ProductName, n, RevenueWeight(completed, relevant)),
                                     LastSeen(relevant, ProductName, n, UnitPrice, 0))
  {
    names := [];
    productStats := map[];
    var i := 0;
    while i < |relevant|
      invariant 0 <= i <= |relevant|
      invariant names == FirstSeen(relevant[..i], ProductName)
      invariant productStats == Rollup(relevant[..i], RevenueWeight(completed, relevant))
    {
      var item := relevant[i];
      RollupIsGroupSums(relevant[..i], RevenueWeight(completed, relevant));
      names, productStats := AddItem(completed, relevant, item, names, productStats);
      PrefixStep(relevant, i);
      FirstSeenStep(relevant[..i], item, ProductName);
      RollupStep(relevant[..i], item, RevenueWeight(completed, relevant));
      i := i + 1;
    }
    WholePrefix(relevant);
    RollupIsGroupSums(relevant, RevenueWeight(completed, relevant));
  }

  // ---------------------------------------------------------------------
  // The rollup and the discount allocation.

  /** Summing a weight is summing the sequence of its values. */
  lemma {:induction false} TotalIsSumOfValues(items: seq<OrderItem>, w: OrderItem -> int, values: seq<int>, n: nat)
    requires n <= |items| == |values|
    requires forall k :: 0 <= k < |items| ==> values[k] == w(items[k])
    ensures Total(items[..n], w) == Sum(values[..n])
    decreases n
  {
    if n > 0 {
      TotalIsSumOfValues(items, w, values, n - 1);
      assert items[..n][..n - 1] == items[..n - 1];
      SumPrefixStep(values, n - 1);
    }
  }

  /**
   * Inside the rollup, the items of one completed order earn together their
   * subtotal less the order's discount: the discount is neither lost nor
   * counted twice by the rounding.
   */
  lemma OrderRevenueInRollup(completed: seq<Order>, relevant: seq<OrderItem>, o: Order)
    requires FindOrder(completed, o.id) == Some(o)
    requires o.discount > 0
    requires LastIdUnique(ItemsOfOrder(relevant, o.id))
    ensures Total(ItemsOfOrder(relevant, o.id), RevenueWeight(completed, relevant))
            == Subtotal(ItemsOfOrder(relevant, o.id)) - o.discount
  {
    var items := ItemsOfOrder(relevant, o.id);
    var values := ItemRevenues(o.discount, items);
    TotalIsSumOfValues(items, RevenueWeight(completed, relevant), values, |items|);
    assert items[..|items|] == items;
    assert values[..|values|] == values;
    ItemRevenuesAddUp(o.discount, items);
  }

  /**
   * The product revenues add up to the revenue of all relevant items, and
   * the quantities to the quantity of all relevant items.
   */
  lemma ProductTotalsAddUp(completed: seq<Order>, relevant: seq<OrderItem>)
    ensures SumOverKeys(FirstSeen(relevant, ProductName), relevant, ProductName, RevenueWeight(completed, relevant))
            == Total(relevant, RevenueWeight(completed, relevant))
    ensures SumOverKeys(FirstSeen(relevant, ProductName), relevant, ProductName, Quantity) == Total(relevant, Quantity)
  {
    GroupSumsAddUp(relevant, ProductName, RevenueWeight(completed, relevant));
    GroupSumsAddUp(relevant, ProductName, Quantity);
  }

  /** Items of orders that are not completed are left out of the rollup. */
  lemma RelevantItemsBelongToCompletedOrders(completed: seq<Order>, orderItems: seq<OrderItem>, i: int)
    requires 0 <= i < |RelevantItems(completed, orderItems)|
    ensures FindOrder(completed, RelevantItems(completed, orderItems)[i].orderId).Some?
  {
  }
}
