/**
 * The aggregations of `reports_data` (app.py:262-289) as functions over the
 * order table: the caller's scope, revenue of delivered orders over a time
 * range, and the five best-selling product names.
 */
module Reports {
  import opened Wrappers
  import opened Records

  const SecondsPerDay: int := 86400

  /** Midnight (UTC) of the day holding timestamp `t`, as `datetime(y, m, d)` does. */
  function DayStart(t: int): (d: int)
    ensures d <= t < d + SecondsPerDay
    ensures d % SecondsPerDay == 0
  {
    t - t % SecondsPerDay
  }

  /** Going back `i` whole days and taking midnight is taking midnight and going back. */
  lemma DayStartShift(t: int, i: int)
    ensures DayStart(t - i * SecondsPerDay) == DayStart(t) - i * SecondsPerDay
  {
    var q := t / SecondsPerDay;
    var r := t % SecondsPerDay;
    assert t == q * SecondsPerDay + r;
    assert t - i * SecondsPerDay == (q - i) * SecondsPerDay + r;
    assert (t - i * SecondsPerDay) % SecondsPerDay == r;
  }

  /** Whether an order is visible to a report scoped to a vendor name (None: all orders). */
  predicate InScope(o: Order, vendor: Option<string>) {
    vendor.None? || o.vendorName == vendor.value
  }

  /** The filter `Order.vendor_name == name`, or no filter. */
  function Scoped(os: seq<Order>, vendor: Option<string>): (r: seq<Order>)
    ensures vendor.None? ==> r == os
    ensures |r| <= |os|
    ensures forall o :: o in r <==> o in os && InScope(o, vendor)
    ensures forall o :: multiset(r)[o] == if InScope(o, vendor) then multiset(os)[o] else 0
  {
    if os == [] then []
    else
      var init := os[..|os| - 1];
      var o := os[|os| - 1];
      assert os == init + [o];
      Scoped(init, vendor) + (if InScope(o, vendor) then [o] else [])
  }

  /** `price_each * quantity` of one order. */
  function LineTotal(o: Order): int {
    o.priceEach * o.quantity
  }

  /** What one order adds to a revenue sum restricted to `[lo, hi)`. */
  function RevenueOf(o: Order, lo: int, hi: int): int {
    if o.status == Delivered && lo <= o.createdAt < hi then LineTotal(o) else 0
  }

  /**
   * `sum(price_each * quantity)` over delivered orders created in `[lo, hi)`,
   * with an empty sum read as 0 (`q.scalar() or 0`).
   */
  function RevenueBetween(os: seq<Order>, lo: int, hi: int): int {
    if os == [] then 0
    else RevenueBetween(os[..|os| - 1], lo, hi) + RevenueOf(os[|os| - 1], lo, hi)
  }

  function DeliveredTotal(o: Order): int {
    if o.status == Delivered then LineTotal(o) else 0
  }

  /** `sum(price_each * quantity)` over all delivered orders, 0 when there are none. */
  function TotalRevenue(os: seq<Order>): int {
    if os == [] then 0 else TotalRevenue(os[..|os| - 1]) + DeliveredTotal(os[|os| - 1])
  }

  /** `sum(quantity)` over the orders of one product name, whatever their status. */
  function QtyOf(os: seq<Order>, name: string): int {
    if os == [] then 0
    else QtyOf(os[..|os| - 1], name) + (if os[|os| - 1].productName == name then os[|os| - 1].quantity else 0)
  }

  function SumInts(xs: seq<int>): int {
    if xs == [] then 0 else SumInts(xs[..|xs| - 1]) + xs[|xs| - 1]
  }

  /** Revenue over a range is the revenue of its two halves. */
  lemma {:induction false} RevenueSplit(os: seq<Order>, a: int, b: int, c: int)
    requires a <= b <= c
    ensures RevenueBetween(os, a, c) == RevenueBetween(os, a, b) + RevenueBetween(os, b, c)
  {
    if os != [] {
      RevenueSplit(os[..|os| - 1], a, b, c);
    }
  }

  /** No delivered order was created in `[lo, hi)`. */
  predicate NoDeliveryBetween(os: seq<Order>, lo: int, hi: int) {
    forall i :: 0 <= i < |os| ==> !(os[i].status == Delivered && lo <= os[i].createdAt < hi)
  }

  /** A range without delivered orders has revenue 0. */
  lemma {:induction false} QuietRangeIsZero(os: seq<Order>, lo: int, hi: int)
    requires NoDeliveryBetween(os, lo, hi)
    ensures RevenueBetween(os, lo, hi) == 0
  {
    if os != [] {
      QuietRangeIsZero(os[..|os| - 1], lo, hi);
    }
  }

  /**
   * Consecutive one-day buckets starting at `first` add up to the revenue of
   * the whole window they cover.
   */
  lemma {:induction false} BucketsCoverWindow(os: seq<Order>, first: int, values: seq<int>)
    requires forall k :: 0 <= k < |values| ==>
      values[k] == RevenueBetween(os, first + k * SecondsPerDay, first + (k + 1) * SecondsPerDay)
    ensures SumInts(values) == RevenueBetween(os, first, first + |values| * SecondsPerDay)
  {
    if values != [] {
      var n := |values| - 1;
      BucketsCoverWindow(os, first, values[..n]);
      assert values == values[..n] + [values[n]];
      assert SumInts(values) == SumInts(values[..n]) + values[n];
      assert values[n] == RevenueBetween(os, first + n * SecondsPerDay, first + (n + 1) * SecondsPerDay);
      assert first + (n + 1) * SecondsPerDay == first + |values| * SecondsPerDay;
      RevenueSplit(os, first, first + n * SecondsPerDay, first + (n + 1) * SecondsPerDay);
    } else {
      QuietRangeIsZero(os, first, first);
    }
  }

  /** Replacing one order changes total revenue by the difference of their contributions. */
  lemma {:induction false} ReplacingOrderShiftsRevenue(os: seq<Order>, i: nat, o: Order)
    requires i < |os|
    ensures TotalRevenue(os[i := o]) == TotalRevenue(os) - DeliveredTotal(os[i]) + DeliveredTotal(o)
  {
    var n := |os| - 1;
    if i < n {
      assert os[i := o][..n] == os[..n][i := o];
      ReplacingOrderShiftsRevenue(os[..n], i, o);
    } else {
      assert os[i := o][..n] == os[..n];
    }
  }

  /** A new order that is not delivered leaves every revenue figure as it was. */
  lemma UndeliveredOrderAddsNoRevenue(os: seq<Order>, o: Order, lo: int, hi: int)
    requires o.status != Delivered
    ensures TotalRevenue(os + [o]) == TotalRevenue(os)
    ensures RevenueBetween(os + [o], lo, hi) == RevenueBetween(os, lo, hi)
  {
    assert (os + [o])[..|os|] == os;
  }

  /** The number of daily buckets in a report. */
  const DayCount: nat := 7

  /** Midnight of the `k`-th reported day, day 0 being six days before `now`'s. */
  function DayLabel(now: int, k: int): int {
    DayStart(now) - (DayCount - 1 - k) * SecondsPerDay
  }

  /**
   * The loop of `reports_data` over the last seven days, oldest first: each
   * day's midnight and the revenue of the delivered orders of that day. A day
   * without delivered orders has 0, and the buckets add up to the revenue of
   * the whole week.
   */
  method DailyRevenue(os: seq<Order>, now: int) returns (labels: seq<int>, values: seq<int>)
    ensures |labels| == DayCount && |values| == DayCount
    ensures forall k :: 0 <= k < DayCount ==>
      labels[k] == DayLabel(now, k) &&
      values[k] == RevenueBetween(os, labels[k], labels[k] + SecondsPerDay)
    ensures forall k :: 0 <= k < DayCount && NoDeliveryBetween(os, labels[k], labels[k] + SecondsPerDay) ==>
      values[k] == 0
    ensures SumInts(values) == RevenueBetween(os, DayLabel(now, 0), DayStart(now) + SecondsPerDay)
  {
    labels, values := [], [];
    var i := DayCount as int - 1;
    while i >= 0
      invariant -1 <= i < DayCount
      invariant |labels| == DayCount - 1 - i && |values| == DayCount - 1 - i
      invariant forall k :: 0 <= k < |labels| ==> labels[k] == DayLabel(now, k)
      invariant forall k :: 0 <= k < |values| ==>
        values[k] == RevenueBetween(os, labels[k], labels[k] + SecondsPerDay)
    {
      DayStartShift(now, i);
      var start := DayStart(now - i * SecondsPerDay);
      var end := start + SecondsPerDay;
      labels := labels + [start];
      values := values + [RevenueBetween(os, start, end)];
      i := i - 1;
    }
    forall k | 0 <= k < DayCount && NoDeliveryBetween(os, labels[k], labels[k] + SecondsPerDay)
      ensures values[k] == 0
    {
      QuietRangeIsZero(os, labels[k], labels[k] + SecondsPerDay);
    }
    var first := DayLabel(now, 0);
    assert forall k :: 0 <= k < DayCount ==> labels[k] == first + k * SecondsPerDay;
    BucketsCoverWindow(os, first, values);
  }

  // ---------------------------------------------------------------------------
  // Top products: group by product name, sum quantity, sort descending, limit 5.

  datatype TopEntry = TopEntry(name: string, qty: int)

  const TopLimit: nat := 5

  /** Some order carries this product name. */
  predicate Mentions(os: seq<Order>, name: string) {
    exists i | 0 <= i < |os| :: os[i].productName == name
  }

  /** The distinct product names of the orders, in order of first appearance. */
  function Names(os: seq<Order>): (ns: seq<string>)
    ensures forall i, j :: 0 <= i < j < |ns| ==> ns[i] != ns[j]
    ensures forall n :: n in ns <==> Mentions(os, n)
  {
    if os == [] then []
    else
      var init := os[..|os| - 1];
      var rest := Names(init);
      var n := os[|os| - 1].productName;
      assert forall m :: Mentions(os, m) <==> Mentions(init, m) || m == n by {
        forall m | Mentions(init, m) ensures Mentions(os, m) {
          var i :| 0 <= i < |init| && init[i].productName == m;
          assert os[i] == init[i];
        }
      }
      if n in rest then rest else rest + [n]
  }

  predicate NonIncreasing(es: seq<TopEntry>) {
    forall i, j :: 0 <= i < j < |es| ==> es[i].qty >= es[j].qty
  }

  predicate DistinctNames(es: seq<TopEntry>) {
    forall i, j :: 0 <= i < j < |es| ==> es[i].name != es[j].name
  }

  /** Some entry carries this name. */
  predicate Listed(es: seq<TopEntry>, name: string) {
    exists k | 0 <= k < |es| :: es[k].name == name
  }

  /** The `group_by(product_name)` rows with their `sum(quantity)`. */
  function Groups(os: seq<Order>): seq<TopEntry> {
    var ns := Names(os);
    seq(|ns|, i requires 0 <= i < |ns| => TopEntry(ns[i], QtyOf(os, ns[i])))
  }

  /** Insert into a list sorted by non-increasing quantity, before entries of equal quantity. */
  function Insert(e: TopEntry, es: seq<TopEntry>): seq<TopEntry> {
    if es == [] then [e]
    else if e.qty >= es[0].qty then [e] + es
    else [es[0]] + Insert(e, es[1..])
  }

  /** `order_by(desc('qty'))`, the order among equal quantities being this model's. */
  function SortByQty(es: seq<TopEntry>): seq<TopEntry> {
    if es == [] then [] else Insert(es[0], SortByQty(es[1..]))
  }

  lemma {:induction false} InsertIsPermutation(e: TopEntry, es: seq<TopEntry>)
    ensures multiset(Insert(e, es)) == multiset(es) + multiset{e}
  {
    if es != [] && e.qty < es[0].qty {
      InsertIsPermutation(e, es[1..]);
      assert es == [es[0]] + es[1..];
    }
  }

  lemma {:induction false} InsertKeepsOrder(e: TopEntry, es: seq<TopEntry>)
    requires NonIncreasing(es)
    ensures NonIncreasing(Insert(e, es))
  {
    if es != [] && e.qty < es[0].qty {
      var t := Insert(e, es[1..]);
      InsertKeepsOrder(e, es[1..]);
      InsertIsPermutation(e, es[1..]);
      forall j | 0 <= j < |t| ensures es[0].qty >= t[j].qty {
        assert t[j] in multiset(es[1..]) + multiset{e};
        if t[j] != e {
          var m :| 0 <= m < |es[1..]| && es[1..][m] == t[j];
          assert es[1 + m] == t[j];
        }
      }
    }
  }

  /** Sorting yields a non-increasing permutation of the groups. */
  lemma {:induction false} SortIsOrderedPermutation(es: seq<TopEntry>)
    ensures NonIncreasing(SortByQty(es))
    ensures multiset(SortByQty(es)) == multiset(es)
  {
    if es != [] {
      SortIsOrderedPermutation(es[1..]);
      InsertKeepsOrder(es[0], SortByQty(es[1..]));
      InsertIsPermutation(es[0], SortByQty(es[1..]));
      assert es == [es[0]] + es[1..];
    }
  }

  lemma {:induction false} InsertKeepsNamesDistinct(e: TopEntry, es: seq<TopEntry>)
    requires DistinctNames(es)
    requires forall x :: x in es ==> x.name != e.name
    ensures DistinctNames(Insert(e, es))
  {
    if es != [] && e.qty < es[0].qty {
      InsertKeepsNamesDistinct(e, es[1..]);
      InsertIsPermutation(e, es[1..]);
      var t := Insert(e, es[1..]);
      forall j | 0 <= j < |t| ensures es[0].name != t[j].name {
        assert t[j] in multiset(es[1..]) + multiset{e};
        if t[j] != e {
          var m :| 0 <= m < |es[1..]| && es[1..][m] == t[j];
          assert es[1 + m] == t[j];
        }
      }
    }
  }

  lemma {:induction false} SortKeepsNamesDistinct(es: seq<TopEntry>)
    requires DistinctNames(es)
    ensures DistinctNames(SortByQty(es))
  {
    if es != [] {
      SortKeepsNamesDistinct(es[1..]);
      SortIsOrderedPermutation(es[1..]);
      var s := SortByQty(es[1..]);
      forall x | x in s ensures x.name != es[0].name {
        assert x in multiset(es[1..]);
        var m :| 0 <= m < |es[1..]| && es[1..][m] == x;
        assert es[1 + m] == x;
      }
      InsertKeepsNamesDistinct(es[0], s);
    }
  }

  /** `.limit(5)` of the sorted groups. */
  function TopProducts(os: seq<Order>): seq<TopEntry> {
    var s := SortByQty(Groups(os));
    if |s| <= TopLimit then s else s[..TopLimit]
  }

  /**
   * The top-products list: at most five entries, one per product name, each
   * with that name's total quantity, by non-increasing quantity; a name left
   * out sells no more than the fifth entry, so fewer than five entries means
   * every name is listed.
   */
  lemma TopProductsSpec(os: seq<Order>)
    ensures var r := TopProducts(os);
      && |r| <= TopLimit
      && NonIncreasing(r)
      && DistinctNames(r)
      && (forall k :: 0 <= k < |r| ==> Mentions(os, r[k].name) && r[k].qty == QtyOf(os, r[k].name))
      && (forall n :: Mentions(os, n) && !Listed(r, n) ==> |r| == TopLimit && QtyOf(os, n) <= r[TopLimit - 1].qty)
  {
    var ns := Names(os);
    var g := Groups(os);
    var s := SortByQty(g);
    var r := TopProducts(os);
    SortKeepsNamesDistinct(g);
    SortIsOrderedPermutation(g);
    assert forall k :: 0 <= k < |r| ==> r[k] == s[k];
    forall k | 0 <= k < |r| ensures Mentions(os, r[k].name) && r[k].qty == QtyOf(os, r[k].name) {
      assert s[k] in multiset(g);
      var i :| 0 <= i < |g| && g[i] == s[k];
      assert ns[i] in ns;
    }
    forall n | Mentions(os, n) && !Listed(r, n)
      ensures |r| == TopLimit && QtyOf(os, n) <= r[TopLimit - 1].qty
    {
      var i :| 0 <= i < |ns| && ns[i] == n;
      var e := g[i];
      assert e in multiset(s);
      var j :| 0 <= j < |s| && s[j] == e;
    }
  }
}
