/**
 * The top-selling products: the product stats as a list of entries, sorted
 * by revenue from the highest (a stable sort, as `Array.prototype.sort` is),
 * the first five kept, and each one's share of their total revenue as a
 * whole percentage.
 */
module ProductRanking {
  import opened Seqs
  import opened Grouping
  import opened Orders
  import opened DiscountAllocation
  import opened ProductRollup

  /** `{ name, ...stats }`. */
  datatype ProductEntry = ProductEntry(name: string, quantity: int, revenue: int, unitPrice: int)

  /** How many products the dashboard shows. */
  const TopCount := 5

  /** The entries of the products `names`, in that order. */
  function ProductEntries(names: seq<string>, stats: map<string, ProductStat>): (r: seq<ProductEntry>)
    requires forall i :: 0 <= i < |names| ==> names[i] in stats
    ensures |r| == |names|
    ensures forall i :: 0 <= i < |names| ==>
      r[i] == ProductEntry(names[i], stats[names[i]].quantity, stats[names[i]].revenue, stats[names[i]].unitPrice)
    decreases |names|
  {
    if names == [] then []
    else
      var n := names[|names| - 1];
      ProductEntries(names[..|names| - 1], stats) + [ProductEntry(n, stats[n].quantity, stats[n].revenue, stats[n].unitPrice)]
  }

  function EntryRevenue(e: ProductEntry): int
  {
    e.revenue
  }

  // ---------------------------------------------------------------------
  // Sorting by revenue, highest first.

  predicate SortedByRevenue(s: seq<ProductEntry>)
  {
    forall i, j :: 0 <= i < j < |s| ==> s[i].revenue >= s[j].revenue
  }

  /** Where a stable insertion puts `x`: after every entry of at least its revenue. */
  function InsertPosition(t: seq<ProductEntry>, x: ProductEntry, i: nat): (k: nat)
    requires i <= |t|
    requires forall j :: 0 <= j < i ==> t[j].revenue >= x.revenue
    ensures i <= k <= |t|
    ensures forall j :: 0 <= j < k ==> t[j].revenue >= x.revenue
    ensures k < |t| ==> t[k].revenue < x.revenue
    decreases |t| - i
  {
    if i == |t| || t[i].revenue < x.revenue then i else InsertPosition(t, x, i + 1)
  }

  /** `t` with `x` inserted after the entries of at least its revenue. */
  function Insert(t: seq<ProductEntry>, x: ProductEntry): seq<ProductEntry>
  {
    var k := InsertPosition(t, x, 0);
    t[..k] + [x] + t[k..]
  }

  /** The stable sort by revenue, highest first, one entry inserted at a time. */
  function SortByRevenue(s: seq<ProductEntry>): seq<ProductEntry>
    decreases |s|
  {
    if s == [] then [] else Insert(SortByRevenue(s[..|s| - 1]), s[|s| - 1])
  }

  /** Where each entry of `t` lands once `x` is put at position `k`. */
  lemma InsertAtIndices(t: seq<ProductEntry>, x: ProductEntry, k: nat)
    requires k <= |t|
    ensures |t[..k] + [x] + t[k..]| == |t| + 1
    ensures forall i :: 0 <= i < k ==> (t[..k] + [x] + t[k..])[i] == t[i]
    ensures (t[..k] + [x] + t[k..])[k] == x
    ensures forall i :: k < i <= |t| ==> (t[..k] + [x] + t[k..])[i] == t[i - 1]
  {
  }

  lemma InsertKeepsSorted(t: seq<ProductEntry>, x: ProductEntry)
    requires SortedByRevenue(t)
    ensures SortedByRevenue(Insert(t, x))
  {
    var k := InsertPosition(t, x, 0);
    var r := Insert(t, x);
    InsertAtIndices(t, x, k);
    forall i, j | 0 <= i < j < |r| ensures r[i].revenue >= r[j].revenue {
      var a := if i < k then t[i] else if i == k then x else t[i - 1];
      var b := if j < k then t[j] else if j == k then x else t[j - 1];
      assert r[i] == a && r[j] == b;
    }
  }

  lemma InsertKeepsEntries(t: seq<ProductEntry>, x: ProductEntry)
    ensures multiset(Insert(t, x)) == multiset(t) + multiset{x}
  {
    var k := InsertPosition(t, x, 0);
    assert t == t[..k] + t[k..];
  }

  /** The sort returns the same entries, highest revenue first. */
  lemma {:induction false} SortIsSortedPermutation(s: seq<ProductEntry>)
    ensures SortedByRevenue(SortByRevenue(s))
    ensures multiset(SortByRevenue(s)) == multiset(s)
    decreases |s|
  {
    if s != [] {
      var init, x := s[..|s| - 1], s[|s| - 1];
      SortIsSortedPermutation(init);
      InsertKeepsSorted(SortByRevenue(init), x);
      InsertKeepsEntries(SortByRevenue(init), x);
      assert s == init + [x];
    }
  }

  /** Entries of revenue `v`. */
  function HasRevenue(v: int): ProductEntry -> bool
  {
    (e: ProductEntry) => e.revenue == v
  }

  /** Past the insertion point every entry earns less than `x`. */
  lemma TailBelow(t: seq<ProductEntry>, x: ProductEntry, k: nat)
    requires SortedByRevenue(t)
    requires k <= |t| && (k < |t| ==> t[k].revenue < x.revenue)
    ensures forall j :: 0 <= j < |t[k..]| ==> !HasRevenue(x.revenue)(t[k..][j])
  {
    forall j | 0 <= j < |t[k..]| ensures t[k..][j].revenue < x.revenue {
      assert t[k..][j] == t[k + j];
    }
  }

  lemma InsertIsStable(t: seq<ProductEntry>, x: ProductEntry, v: int)
    requires SortedByRevenue(t)
    ensures Filter(Insert(t, x), HasRevenue(v)) == Filter(t, HasRevenue(v)) + Filter([x], HasRevenue(v))
  {
    var k := InsertPosition(t, x, 0);
    var p := HasRevenue(v);
    var head, tail := t[..k], t[k..];
    assert t == head + tail;
    FilterAppend(head + [x], tail, p);
    FilterAppend(head, [x], p);
    FilterAppend(head, tail, p);
    var fh, fx, ft := Filter(head, p), Filter([x], p), Filter(tail, p);
    assert Filter(Insert(t, x), p) == fh + fx + ft;
    assert Filter(t, p) == fh + ft;
    if x.revenue == v {
      TailBelow(t, x, k);
      FilterNone(tail, p);
      SwapEmpty(fh, fx, ft);
    } else {
      assert [x][..0] == [];
      SwapEmpty(fh, fx, ft);
    }
  }

  /**
   * Stability: the entries of any one revenue keep their relative order, so
   * ties stay in the order the products were first seen.
   */
  lemma {:induction false} SortIsStable(s: seq<ProductEntry>, v: int)
    ensures Filter(SortByRevenue(s), HasRevenue(v)) == Filter(s, HasRevenue(v))
    decreases |s|
  {
    if s != [] {
      var init, x := s[..|s| - 1], s[|s| - 1];
      var p := HasRevenue(v);
      assert s == init + [x];
      calc {
        Filter(SortByRevenue(s), p);
        Filter(Insert(SortByRevenue(init), x), p);
        { SortIsSortedPermutation(init); InsertIsStable(SortByRevenue(init), x, v); }
        Filter(SortByRevenue(init), p) + Filter([x], p);
        { SortIsStable(init, v); }
        Filter(init, p) + Filter([x], p);
        { FilterAppend(init, [x], p); }
        Filter(s, p);
      }
    }
  }

  lemma InsertAddsRevenue(t: seq<ProductEntry>, x: ProductEntry)
    ensures Total(Insert(t, x), EntryRevenue) == Total(t, EntryRevenue) + x.revenue
  {
    var k := InsertPosition(t, x, 0);
    var head, tail := t[..k], t[k..];
    assert t == head + tail;
    TotalAppend(head + [x], tail, EntryRevenue);
    TotalAppend(head, [x], EntryRevenue);
    TotalAppend(head, tail, EntryRevenue);
    assert [x][..0] == [];
  }

  /** Sorting keeps the total revenue. */
  lemma {:induction false} SortKeepsTotal(s: seq<ProductEntry>)
    ensures Total(SortByRevenue(s), EntryRevenue) == Total(s, EntryRevenue)
    decreases |s|
  {
    if s != [] {
      var init, x := s[..|s| - 1], s[|s| - 1];
      calc {
        Total(SortByRevenue(s), EntryRevenue);
        Total(Insert(SortByRevenue(init), x), EntryRevenue);
        { InsertAddsRevenue(SortByRevenue(init), x); }
        Total(SortByRevenue(init), EntryRevenue) + x.revenue;
        { SortKeepsTotal(init); }
        Total(init, EntryRevenue) + x.revenue;
        Total(s, EntryRevenue);
      }
    }
  }

  // ---------------------------------------------------------------------
  // The top five.

  /** `.sort((a, b) => b.revenue - a.revenue).slice(0, 5)`. */
  function TopProducts(entries: seq<ProductEntry>): seq<ProductEntry>
  {
    var sorted := SortByRevenue(entries);
    if |sorted| <= TopCount then sorted else sorted[..TopCount]
  }

  /**
   * The top list holds the five (or all, if fewer) entries of highest
   * revenue, highest first: every entry left out earns at most what every
   * entry kept earns.
   */
  lemma TopProductsAreTheHighest(entries: seq<ProductEntry>)
    ensures var top := TopProducts(entries);
      && |top| == (if |entries| <= TopCount then |entries| else TopCount)
      && SortedByRevenue(top)
      && multiset(top) <= multiset(entries)
      && forall e :: e in multiset(entries) - multiset(top) ==> forall i :: 0 <= i < |top| ==> top[i].revenue >= e.revenue
  {
    SortIsSortedPermutation(entries);
    TopOfSorted(entries, SortByRevenue(entries), TopProducts(entries));
  }

  /** The claim above, for any sorted arrangement of the entries. */
  lemma TopOfSorted(entries: seq<ProductEntry>, sorted: seq<ProductEntry>, top: seq<ProductEntry>)
    requires SortedByRevenue(sorted) && multiset(sorted) == multiset(entries)
    requires top == if |sorted| <= TopCount then sorted else sorted[..TopCount]
    ensures |top| == (if |entries| <= TopCount then |entries| else TopCount)
    ensures SortedByRevenue(top)
    ensures multiset(top) <= multiset(entries)
    ensures forall e :: e in multiset(entries) - multiset(top) ==> forall i :: 0 <= i < |top| ==> top[i].revenue >= e.revenue
  {
    assert |sorted| == |multiset(sorted)| == |entries|;
    var k := |top|;
    assert top == sorted[..k];
    PrefixElements(sorted, k);
    forall e | e in multiset(entries) - multiset(top)
      ensures forall i :: 0 <= i < |top| ==> top[i].revenue >= e.revenue
    {
      LeftOutBelowKept(sorted, k, e);
    }
  }

  /** In a sorted list, whatever comes after position `k` earns at most what comes before it. */
  lemma LeftOutBelowKept(sorted: seq<ProductEntry>, k: nat, e: ProductEntry)
    requires SortedByRevenue(sorted) && k <= |sorted|
    requires e in sorted[k..]
    ensures forall i :: 0 <= i < k ==> sorted[i].revenue >= e.revenue
  {
    var j :| 0 <= j < |sorted[k..]| && sorted[k..][j] == e;
    assert sorted[k + j] == e;
  }

  // ---------------------------------------------------------------------
  // The share of each top product.

  /**
   * `(revenue / totalRevenue * 100).toFixed(0)` when the total is positive,
   * `"0"` otherwise: the whole number nearest to the exact percentage, a
   * half rounding away from zero.
   */
  function Percentage(revenue: int, totalRevenue: int): (p: int)
    ensures totalRevenue <= 0 ==> p == 0
    ensures totalRevenue > 0 && revenue >= 0 ==>
      -totalRevenue <= 2 * (100 * revenue - totalRevenue * p) < totalRevenue
    ensures totalRevenue > 0 && revenue < 0 ==>
      -totalRevenue < 2 * (100 * revenue - totalRevenue * p) <= totalRevenue
  {
    if totalRevenue <= 0 then 0
    else if revenue >= 0 then RoundHalfUp(100 * revenue, totalRevenue)
    else
      var q := RoundHalfUp(-100 * revenue, totalRevenue);
      assert totalRevenue * -q == -(totalRevenue * q);
      -q
  }

  /** A share of a non-negative revenue within the total lies between 0 and 100. */
  lemma PercentageWithinBounds(revenue: int, totalRevenue: int)
    requires 0 <= revenue <= totalRevenue && totalRevenue > 0
    ensures 0 <= Percentage(revenue, totalRevenue) <= 100
  {
    var p := Percentage(revenue, totalRevenue);
    assert totalRevenue * p == p * totalRevenue;
    RoundingBounds(100, revenue, totalRevenue, p, 100 * revenue);
  }

  /**
   * The shares shown beside the top products: each one's percentage of the
   * revenue of the listed products together (not of all products).
   */
  function TopShares(top: seq<ProductEntry>): (r: seq<int>)
    ensures |r| == |top|
    ensures forall i :: 0 <= i < |top| ==> r[i] == Percentage(top[i].revenue, Total(top, EntryRevenue))
  {
    var total := Total(top, EntryRevenue);
    seq(|top|, i requires 0 <= i < |top| => Percentage(top[i].revenue, total))
  }

  /** With no negative revenue, each entry earns at most the entries' total. */
  lemma {:induction false} EachWithinTotal(s: seq<ProductEntry>, i: nat)
    requires i < |s|
    requires forall j :: 0 <= j < |s| ==> s[j].revenue >= 0
    ensures s[i].revenue <= Total(s, EntryRevenue)
    ensures Total(s, EntryRevenue) >= 0
    decreases |s|
  {
    if i < |s| - 1 {
      EachWithinTotal(s[..|s| - 1], i);
    } else if |s| > 1 {
      EachWithinTotal(s[..|s| - 1], 0);
    }
  }

  /** When no listed product has a negative revenue, every share lies between 0 and 100. */
  lemma SharesWithinBounds(top: seq<ProductEntry>)
    requires forall j :: 0 <= j < |top| ==> top[j].revenue >= 0
    ensures forall i :: 0 <= i < |top| ==> 0 <= TopShares(top)[i] <= 100
  {
    forall i | 0 <= i < |top| ensures 0 <= TopShares(top)[i] <= 100 {
      EachWithinTotal(top, i);
      if Total(top, EntryRevenue) > 0 {
        PercentageWithinBounds(top[i].revenue, Total(top, EntryRevenue));
      }
    }
  }

  /** The percentage is symmetric in the sign of the revenue. */
  lemma PercentageIsOdd(revenue: int, totalRevenue: int)
    ensures Percentage(-revenue, totalRevenue) == -Percentage(revenue, totalRevenue)
  {
  }

  /** Shares of 600, 300 and 100 out of 1000 are 60, 30 and 10; 1 out of 200 (0.5) shows as 1. */
  lemma ExamplePercentages()
    ensures Percentage(600, 1000) == 60 && Percentage(300, 1000) == 30 && Percentage(100, 1000) == 10
    ensures Percentage(1, 200) == 1 && Percentage(-1, 200) == -1
    ensures Percentage(5, 0) == 0
  {
  }

  // ---------------------------------------------------------------------
  // The rollup seen as a list.

  /** The product entries' revenues add up to the group sums of their names. */
  lemma {:induction false} EntriesRevenueIsSumOverKeys(names: seq<string>, stats: map<string, ProductStat>,
                                                       relevant: seq<OrderItem>, w: OrderItem -> int)
    requires forall i :: 0 <= i < |names| ==> names[i] in stats
    requires forall i :: 0 <= i < |names| ==> stats[names[i]].revenue == GroupSum(relevant, ProductName, names[i], w)
    ensures Total(ProductEntries(names, stats), EntryRevenue) == SumOverKeys(names, relevant, ProductName, w)
    decreases |names|
  {
    if names != [] {
      EntriesRevenueIsSumOverKeys(names[..|names| - 1], stats, relevant, w);
    }
  }

  /**
   * Nothing is lost between the items and the ranking: the entries, sorted,
   * earn together what the relevant items earn.
   */
  lemma SortedEntriesKeepItemRevenue(completed: seq<Order>, relevant: seq<OrderItem>)
    ensures var w := RevenueWeight(completed, relevant);
      var names := FirstSeen(relevant, ProductName);
      var stats := Rollup(relevant, w);
      && (forall i :: 0 <= i < |names| ==> names[i] in stats)
      && Total(SortByRevenue(ProductEntries(names, stats)), EntryRevenue) == Total(relevant, w)
  {
    var w := RevenueWeight(completed, relevant);
    var names := FirstSeen(relevant, ProductName);
    var stats := Rollup(relevant, w);
    RollupIsGroupSums(relevant, w);
    EntriesRevenueIsSumOverKeys(names, stats, relevant, w);
    SortKeepsTotal(ProductEntries(names, stats));
    GroupSumsAddUp(relevant, ProductName, w);
  }
}
