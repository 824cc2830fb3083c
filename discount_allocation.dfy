/**
 * Splitting an order's discount over its items in proportion to their line
 * totals, rounded with `Math.round`, the last item taking whatever the
 * others' rounded shares leave, so that the shares add up to the discount.
 */
module DiscountAllocation {
  import opened Seqs
  import opened Orders

  /** `unitPrice * quantity`. */
  function LineTotal(item: OrderItem): int
  {
    item.unitPrice * item.quantity
  }

  /** The order's total before discount: the sum of its line totals. */
  function Subtotal(items: seq<OrderItem>): int
  {
    Total(items, LineTotal)
  }

  /**
   * `Math.round(a / b)` for `b > 0`: the integer nearest to `a / b`, a half
   * rounding up.
   */
  function RoundHalfUp(a: int, b: int): (q: int)
    requires b > 0
    ensures 2 * (b * q) <= 2 * a + b < 2 * (b * q) + 2 * b
  {
    (2 * a + b) / (2 * b)
  }

  /**
   * The rounded proportional share of `discount` for a line of `line` in an
   * order of `subtotal`; nothing when the subtotal is not positive.
   */
  function Share(discount: int, line: int, subtotal: int): (r: int)
    ensures subtotal <= 0 ==> r == 0
    ensures subtotal > 0 ==> 2 * (subtotal * r) <= 2 * (discount * line) + subtotal < 2 * (subtotal * r) + 2 * subtotal
  {
    if subtotal > 0 then RoundHalfUp(discount * line, subtotal) else 0
  }

  /** The shares of the first `n` items. */
  function SharesBefore(discount: int, items: seq<OrderItem>, subtotal: int, n: nat): int
    requires n <= |items|
  {
    if n == 0 then 0
    else SharesBefore(discount, items, subtotal, n - 1) + Share(discount, LineTotal(items[n - 1]), subtotal)
  }

  /** The number of items before the last one (none for an empty list). */
  function BeforeLast(items: seq<OrderItem>): (n: nat)
    ensures n <= |items|
    ensures items != [] ==> n == |items| - 1
  {
    if items == [] then 0 else |items| - 1
  }

  /**
   * `findIndex(i => i.id === id)`: the first position of an item with that
   * id, or -1.
   */
  function FindIndexById(items: seq<OrderItem>, id: int): (r: int)
    ensures -1 <= r < |items|
    ensures r >= 0 ==> items[r].id == id && forall j :: 0 <= j < r ==> items[j].id != id
    ensures r == -1 ==> forall j :: 0 <= j < |items| ==> items[j].id != id
    decreases |items|
  {
    if items == [] then -1
    else if items[0].id == id then 0
    else
      var r := FindIndexById(items[1..], id);
      if r == -1 then -1 else r + 1
  }

  /**
   * The discount of `item` in an order whose discount is `discount` and whose
   * items are `orderItems`. A discount that is not positive gives every item 0.
   */
  function ItemDiscount(discount: int, orderItems: seq<OrderItem>, item: OrderItem): int
  {
    if discount > 0 then
      var subtotal := Subtotal(orderItems);
      if FindIndexById(orderItems, item.id) == |orderItems| - 1 then
        discount - SharesBefore(discount, orderItems, subtotal, BeforeLast(orderItems))
      else
        Share(discount, LineTotal(item), subtotal)
    else 0
  }

  /** The loop that adds up the shares of all items before the last. */
  method PreviousDiscounts(discount: int, orderItems: seq<OrderItem>, subtotal: int) returns (previous: int)
    ensures previous == SharesBefore(discount, orderItems, subtotal, BeforeLast(orderItems))
  {
    previous := 0;
    var i := 0;
    while i < |orderItems| - 1
      invariant 0 <= i <= BeforeLast(orderItems)
      invariant previous == SharesBefore(discount, orderItems, subtotal, i)
    {
      var prevItem := orderItems[i];
      var prevItemDiscount := Share(discount, LineTotal(prevItem), subtotal);
      previous := previous + prevItemDiscount;
      i := i + 1;
    }
  }

  /** The per-item computation, as the product rollup runs it for each item. */
  method ItemDiscountAmount(discount: int, orderItems: seq<OrderItem>, item: OrderItem) returns (amount: int)
    ensures amount == ItemDiscount(discount, orderItems, item)
  {
    amount := 0;
    if discount > 0 {
      var subtotal := Subtotal(orderItems);
      var currentIndex := FindIndexById(orderItems, item.id);
      if currentIndex == |orderItems| - 1 {
        var previous := PreviousDiscounts(discount, orderItems, subtotal);
        amount := discount - previous;
      } else {
        amount := Share(discount, LineTotal(item), subtotal);
      }
    }
  }

  // ---------------------------------------------------------------------
  // The allocation of one order, item by item.

  /** No two items carry the same id. */
  predicate DistinctIds(items: seq<OrderItem>)
  {
    forall i, j :: 0 <= i < j < |items| ==> items[i].id != items[j].id
  }

  /**
   * No item before the last carries the last item's id, so `findIndex`
   * finds the last item at its own position; distinct ids are one way.
   */
  predicate LastIdUnique(items: seq<OrderItem>)
  {
    items != [] && forall j :: 0 <= j < |items| - 1 ==> items[j].id != items[|items| - 1].id
  }

  /** The last item is recognised as the last exactly when no earlier item shares its id. */
  lemma LastFoundLast(items: seq<OrderItem>)
    requires items != []
    ensures FindIndexById(items, items[|items| - 1].id) == |items| - 1 <==> LastIdUnique(items)
  {
  }

  /** The discounts of the items of one order, in their order. */
  function Allocation(discount: int, orderItems: seq<OrderItem>): (r: seq<int>)
    ensures |r| == |orderItems|
  {
    seq(|orderItems|, k requires 0 <= k < |orderItems| => ItemDiscount(discount, orderItems, orderItems[k]))
  }

  /** With distinct ids, an item is found at its own position. */
  lemma FoundAtOwnPosition(items: seq<OrderItem>, k: int)
    requires DistinctIds(items) && 0 <= k < |items|
    ensures FindIndexById(items, items[k].id) == k
  {
  }

  /**
   * Every item but the last gets its rounded proportional share, whatever
   * the ids: `findIndex` stops at or before the item's own position, so it
   * never lands on the last one.
   */
  lemma AllocationOfEarlierItems(discount: int, orderItems: seq<OrderItem>, k: int)
    requires discount > 0 && 0 <= k < |orderItems| - 1
    ensures Allocation(discount, orderItems)[k] == Share(discount, LineTotal(orderItems[k]), Subtotal(orderItems))
  {
    assert FindIndexById(orderItems, orderItems[k].id) <= k;
  }

  /** The allocated discounts of the first `n` items are their shares. */
  lemma {:induction false} AllocationPrefix(discount: int, orderItems: seq<OrderItem>, n: nat)
    requires discount > 0 && n <= BeforeLast(orderItems)
    ensures Sum(Allocation(discount, orderItems)[..n]) == SharesBefore(discount, orderItems, Subtotal(orderItems), n)
    decreases n
  {
    if n > 0 {
      var a := Allocation(discount, orderItems);
      AllocationPrefix(discount, orderItems, n - 1);
      SumPrefixStep(a, n - 1);
      AllocationOfEarlierItems(discount, orderItems, n - 1);
    }
  }

  /**
   * Exact sum: for a positive discount over a non-empty list of items with
   * distinct ids, the item discounts add up to the order discount, whatever
   * the rounding of the shares.
   */
  lemma ExactSum(discount: int, orderItems: seq<OrderItem>)
    requires discount > 0 && LastIdUnique(orderItems)
    ensures Sum(Allocation(discount, orderItems)) == discount
  {
    var a := Allocation(discount, orderItems);
    var n := |orderItems|;
    AllocationPrefix(discount, orderItems, n - 1);
    SumPrefixStep(a, n - 1);
    assert a[..n] == a;
    LastFoundLast(orderItems);
  }

  /** The last item takes the discount less the earlier items' shares. */
  lemma LastItemTakesRemainder(discount: int, orderItems: seq<OrderItem>)
    requires discount > 0 && LastIdUnique(orderItems)
    ensures Allocation(discount, orderItems)[|orderItems| - 1]
            == discount - SharesBefore(discount, orderItems, Subtotal(orderItems), |orderItems| - 1)
  {
    LastFoundLast(orderItems);
  }

  /** A single item receives the whole discount. */
  lemma SingleItemTakesAll(discount: int, item: OrderItem)
    requires discount > 0
    ensures Allocation(discount, [item]) == [discount]
  {
    FoundAtOwnPosition([item], 0);
  }

  /** No shares when the subtotal is not positive. */
  lemma {:induction false} NoSharesWithoutSubtotal(discount: int, items: seq<OrderItem>, subtotal: int, n: nat)
    requires subtotal <= 0 && n <= |items|
    ensures SharesBefore(discount, items, subtotal, n) == 0
    decreases n
  {
    if n > 0 {
      NoSharesWithoutSubtotal(discount, items, subtotal, n - 1);
    }
  }

  /**
   * A zero subtotal gives every item but the last no discount and the last
   * item the whole of it.
   */
  lemma ZeroSubtotalGoesToLastItem(discount: int, orderItems: seq<OrderItem>)
    requires discount > 0 && LastIdUnique(orderItems) && Subtotal(orderItems) == 0
    ensures forall k :: 0 <= k < |orderItems| - 1 ==> Allocation(discount, orderItems)[k] == 0
    ensures Allocation(discount, orderItems)[|orderItems| - 1] == discount
  {
    forall k | 0 <= k < |orderItems| - 1
      ensures Allocation(discount, orderItems)[k] == 0
    {
      AllocationOfEarlierItems(discount, orderItems, k);
    }
    LastItemTakesRemainder(discount, orderItems);
    NoSharesWithoutSubtotal(discount, orderItems, 0, |orderItems| - 1);
  }

  /** No discount is allocated at all when the order has none. */
  lemma NoDiscountNoAllocation(discount: int, orderItems: seq<OrderItem>)
    requires discount <= 0
    ensures forall k :: 0 <= k < |orderItems| ==> Allocation(discount, orderItems)[k] == 0
  {
  }

  /** A share of a line that is part of the subtotal lies between 0 and the discount. */
  lemma ShareWithinDiscount(discount: int, line: int, subtotal: int)
    requires discount >= 0 && 0 <= line <= subtotal && subtotal > 0
    ensures 0 <= Share(discount, line, subtotal) <= discount
  {
    var r := Share(discount, line, subtotal);
    RoundingBounds(discount, line, subtotal, r, discount * line);
  }

  /** The arithmetic behind `ShareWithinDiscount`, on plain integers (`p` is `d * l`). */
  lemma RoundingBounds(d: int, l: int, s: int, r: int, p: int)
    requires d >= 0 && 0 <= l <= s && s > 0 && p == d * l
    requires 2 * (s * r) <= 2 * p + s < 2 * (s * r) + 2 * s
    ensures 0 <= r <= d
  {
    ProductOrder(d, 0, l);
    ProductOrder(d, l, s);
    ProductOrder(s, d, r);
    ProductOrder(s, r, 0);
    assert d * s == s * d;
  }

  /** Multiplying by a non-negative factor keeps the order; by a positive one, by at least the factor. */
  lemma {:induction false} ProductOrder(f: int, a: int, b: int)
    requires f >= 0
    ensures a <= b ==> f * a <= f * b
    ensures f > 0 && a < b ==> f * a + f <= f * b
    ensures f * 0 == 0
    decreases f
  {
    if f > 0 {
      ProductOrder(f - 1, a, b);
      assert f * a == (f - 1) * a + a;
      assert f * b == (f - 1) * b + b;
    }
  }

  // ---------------------------------------------------------------------
  // Item revenue.

  /** The revenue of each item: its line total less its discount. */
  function ItemRevenues(discount: int, orderItems: seq<OrderItem>): (r: seq<int>)
    ensures |r| == |orderItems|
  {
    var a := Allocation(discount, orderItems);
    seq(|orderItems|, k requires 0 <= k < |orderItems| => LineTotal(orderItems[k]) - a[k])
  }

  lemma {:induction false} ItemRevenuesPrefix(discount: int, orderItems: seq<OrderItem>, n: nat)
    requires n <= |orderItems|
    ensures Sum(ItemRevenues(discount, orderItems)[..n]) == Subtotal(orderItems[..n]) - Sum(Allocation(discount, orderItems)[..n])
    decreases n
  {
    if n > 0 {
      ItemRevenuesPrefix(discount, orderItems, n - 1);
      SumPrefixStep(ItemRevenues(discount, orderItems), n - 1);
      SumPrefixStep(Allocation(discount, orderItems), n - 1);
      assert orderItems[..n][..n - 1] == orderItems[..n - 1];
    }
  }

  /**
   * The items' revenues add up to the subtotal less the order discount,
   * independently of the order's tax.
   */
  lemma ItemRevenuesAddUp(discount: int, orderItems: seq<OrderItem>)
    requires discount > 0 && LastIdUnique(orderItems)
    ensures Sum(ItemRevenues(discount, orderItems)) == Subtotal(orderItems) - discount
  {
    var n := |orderItems|;
    ItemRevenuesPrefix(discount, orderItems, n);
    assert orderItems[..n] == orderItems;
    assert ItemRevenues(discount, orderItems)[..n] == ItemRevenues(discount, orderItems);
    assert Allocation(discount, orderItems)[..n] == Allocation(discount, orderItems);
    ExactSum(discount, orderItems);
  }

  /**
   * The worked example: a discount of 90 over lines of 300 and 700 gives
   * 27 (27.0 rounded) and the remaining 63.
   */
  lemma ExampleSplit()
    ensures Allocation(90, [OrderItem(1, 7, "A", 1, 300), OrderItem(2, 7, "B", 1, 700)]) == [27, 63]
  {
    var items := [OrderItem(1, 7, "A", 1, 300), OrderItem(2, 7, "B", 1, 700)];
    assert items[..1] == [items[0]];
    assert items[..1][..0] == [];
    assert Total(items[..1], LineTotal) == 300;
    assert Subtotal(items) == 1000;
    FoundAtOwnPosition(items, 0);
    FoundAtOwnPosition(items, 1);
    assert Share(90, 300, 1000) == 27;
  }
}
