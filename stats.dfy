/**
 * The dashboard aggregator. Both persistence adapters compute their statistics with
 * this one function, over the orders they hold and the current calendar month.
 * `calendar` stands for `new Date(text)` followed by `getMonth()`/`getFullYear()`;
 * it yields `None` for text that is not a date (whose month is NaN and equals nothing).
 */
module Stats {
  import opened Wrappers
  import opened Types

  /** `orders.filter(o => o.status === s)`. */
  function OfStatus(orders: seq<ServiceOrder>, s: OrderStatus): (r: seq<ServiceOrder>)
    ensures |r| <= |orders|
    ensures forall o :: o in r <==> o in orders && o.status == s
  {
    if orders == [] then []
    else if orders[0].status == s then [orders[0]] + OfStatus(orders[1..], s)
    else OfStatus(orders[1..], s)
  }

  /** The candidate test: Completed, a non-empty close date, and that date in the month `now`. */
  predicate ClosedIn(o: ServiceOrder, now: MonthYear, calendar: string -> Option<MonthYear>) {
    o.status == Completed && o.closeDate.Some? && o.closeDate.value != ""
    && calendar(o.closeDate.value) == Some(now)
  }

  /** `completedOrdersThisMonth`: the orders that pass `ClosedIn`, in their original order. */
  function ClosedThisMonth(orders: seq<ServiceOrder>, now: MonthYear, calendar: string -> Option<MonthYear>): (r: seq<ServiceOrder>)
    ensures |r| <= |orders|
    ensures forall o :: o in r <==> o in orders && ClosedIn(o, now, calendar)
  {
    if orders == [] then []
    else if ClosedIn(orders[0], now, calendar) then [orders[0]] + ClosedThisMonth(orders[1..], now, calendar)
    else ClosedThisMonth(orders[1..], now, calendar)
  }

  /** `reduce((acc, o) => acc + (Number(o.value) || 0), 0)`. */
  function Revenue(orders: seq<ServiceOrder>): (r: int)
    ensures orders == [] ==> r == 0
    ensures (forall o :: o in orders ==> CentsOrZero(o.value) >= 0) ==> r >= 0
  {
    if orders == [] then 0 else Revenue(orders[..|orders| - 1]) + CentsOrZero(orders[|orders| - 1].value)
  }

  /** The `byStatus` list: one entry per status of `statuses`, in that order. */
  function CountsFor(statuses: seq<OrderStatus>, orders: seq<ServiceOrder>): (r: seq<StatusCount>)
    ensures |r| == |statuses|
    ensures forall i :: 0 <= i < |statuses| ==> r[i] == StatusCount(StatusCode(statuses[i]), |OfStatus(orders, statuses[i])|)
  {
    if statuses == [] then []
    else [StatusCount(StatusCode(statuses[0]), |OfStatus(orders, statuses[0])|)] + CountsFor(statuses[1..], orders)
  }

  /** The dashboard statistics of `orders` in the month `now`. */
  function ComputeStats(orders: seq<ServiceOrder>, now: MonthYear, calendar: string -> Option<MonthYear>): (st: DashboardStats)
    ensures st.totalOpen <= |orders| && st.completedThisMonth <= |orders|
    ensures |st.byStatus| == |AllStatuses|
    ensures forall i :: 0 <= i < |st.byStatus| ==> st.byStatus[i].name == StatusCode(AllStatuses[i]) && st.byStatus[i].value <= |orders|
  {
    var completed := ClosedThisMonth(orders, now, calendar);
    DashboardStats(|OfStatus(orders, Open)|, |completed|, Revenue(completed), CountsFor(AllStatuses, orders))
  }

  /** The sum of the counts of a chart. */
  function TotalCount(counts: seq<StatusCount>): nat {
    if counts == [] then 0 else counts[0].value + TotalCount(counts[1..])
  }

  // ----- Shape of the result -----

  /** `byStatus` has six entries, in declaration order, each with the count of its status; `totalOpen` is the first. */
  lemma StatsShape(orders: seq<ServiceOrder>, now: MonthYear, calendar: string -> Option<MonthYear>)
    ensures var st := ComputeStats(orders, now, calendar);
      && |st.byStatus| == 6
      && (forall i :: 0 <= i < 6 ==>
            st.byStatus[i].name == StatusCode(AllStatuses[i])
            && st.byStatus[i].value == |OfStatus(orders, AllStatuses[i])|)
      && st.totalOpen == st.byStatus[0].value
  {
  }

  // ----- The counts add up to the number of orders -----

  /** The six per-status counts of `orders`, added up. */
  function SixCounts(orders: seq<ServiceOrder>): nat {
    |OfStatus(orders, Open)| + |OfStatus(orders, Creation)| + |OfStatus(orders, Production)|
    + |OfStatus(orders, AwaitingInstallation)| + |OfStatus(orders, Completed)| + |OfStatus(orders, Cancelled)|
  }

  lemma {:induction false} SixCountsIsLength(orders: seq<ServiceOrder>)
    ensures SixCounts(orders) == |orders|
  {
    if orders != [] {
      SixCountsIsLength(orders[1..]);
    }
  }

  lemma TotalCountStep(counts: seq<StatusCount>, k: nat)
    requires k < |counts|
    ensures TotalCount(counts[k..]) == counts[k].value + TotalCount(counts[k + 1..])
  {
    assert counts[k..][1..] == counts[k + 1..];
  }

  /** Every order is counted under exactly one status: the counts of `byStatus` sum to the number of orders. */
  lemma {:induction false} CountsSumToLength(orders: seq<ServiceOrder>, now: MonthYear, calendar: string -> Option<MonthYear>)
    ensures TotalCount(ComputeStats(orders, now, calendar).byStatus) == |orders|
  {
    var counts := CountsFor(AllStatuses, orders);
    TotalCountStep(counts, 0);
    TotalCountStep(counts, 1);
    TotalCountStep(counts, 2);
    TotalCountStep(counts, 3);
    TotalCountStep(counts, 4);
    TotalCountStep(counts, 5);
    assert counts[6..] == [];
    SixCountsIsLength(orders);
  }

  /** Orders counted as completed this month are a subset of the Completed ones. */
  lemma {:induction false} CompletedWithinCompletedCount(orders: seq<ServiceOrder>, now: MonthYear, calendar: string -> Option<MonthYear>)
    ensures ComputeStats(orders, now, calendar).completedThisMonth <= |OfStatus(orders, Completed)|
  {
    if orders != [] {
      CompletedWithinCompletedCount(orders[1..], now, calendar);
    }
  }

  // ----- Appending one order -----

  lemma {:induction false} OfStatusAppend(a: seq<ServiceOrder>, b: seq<ServiceOrder>, s: OrderStatus)
    ensures OfStatus(a + b, s) == OfStatus(a, s) + OfStatus(b, s)
  {
    if a != [] {
      assert (a + b)[1..] == a[1..] + b;
      OfStatusAppend(a[1..], b, s);
    } else {
      assert a + b == b;
    }
  }

  lemma {:induction false} ClosedAppend(a: seq<ServiceOrder>, b: seq<ServiceOrder>, now: MonthYear, calendar: string -> Option<MonthYear>)
    ensures ClosedThisMonth(a + b, now, calendar) == ClosedThisMonth(a, now, calendar) + ClosedThisMonth(b, now, calendar)
  {
    if a != [] {
      assert (a + b)[1..] == a[1..] + b;
      ClosedAppend(a[1..], b, now, calendar);
    } else {
      assert a + b == b;
    }
  }

  lemma {:induction false} RevenueAppend(a: seq<ServiceOrder>, b: seq<ServiceOrder>)
    ensures Revenue(a + b) == Revenue(a) + Revenue(b)
    decreases |b|
  {
    if b == [] {
      assert a + b == a;
    } else {
      var last := b[|b| - 1];
      assert (a + b)[..|a + b| - 1] == a + b[..|b| - 1];
      RevenueAppend(a, b[..|b| - 1]);
    }
  }

  /** Revenue of a list that starts with `o`. */
  lemma RevenueCons(o: ServiceOrder, rest: seq<ServiceOrder>)
    ensures Revenue([o] + rest) == CentsOrZero(o.value) + Revenue(rest)
  {
    RevenueAppend([o], rest);
    assert [o][..0] == [];
  }

  /**
   * Adding one order changes the statistics exactly by that order's part: one more open order if it is
   * Open, and one more completed order carrying its value into the revenue if it is Completed with a
   * close date in the current month. A Completed order closed in another month, or with no close date,
   * adds nothing to the month's figures.
   */
  lemma AddOrder(orders: seq<ServiceOrder>, o: ServiceOrder, now: MonthYear, calendar: string -> Option<MonthYear>)
    ensures var before, after := ComputeStats(orders, now, calendar), ComputeStats(orders + [o], now, calendar);
      && after.totalOpen == before.totalOpen + (if o.status == Open then 1 else 0)
      && after.completedThisMonth == before.completedThisMonth + (if ClosedIn(o, now, calendar) then 1 else 0)
      && after.revenueThisMonth == before.revenueThisMonth + (if ClosedIn(o, now, calendar) then CentsOrZero(o.value) else 0)
  {
    OfStatusAppend(orders, [o], Open);
    ClosedAppend(orders, [o], now, calendar);
    var c := ClosedThisMonth(orders, now, calendar);
    RevenueAppend(c, ClosedThisMonth([o], now, calendar));
    RevenueCons(o, []);
  }

  // ----- Independence from the order of the list -----

  /** The multiplicity of each order in a filtered list. */
  lemma {:induction false} OfStatusMultiset(orders: seq<ServiceOrder>, s: OrderStatus, x: ServiceOrder)
    ensures multiset(OfStatus(orders, s))[x] == if x.status == s then multiset(orders)[x] else 0
  {
    if orders != [] {
      assert orders == [orders[0]] + orders[1..];
      OfStatusMultiset(orders[1..], s, x);
    }
  }

  lemma {:induction false} ClosedMultiset(orders: seq<ServiceOrder>, now: MonthYear, calendar: string -> Option<MonthYear>, x: ServiceOrder)
    ensures multiset(ClosedThisMonth(orders, now, calendar))[x] == if ClosedIn(x, now, calendar) then multiset(orders)[x] else 0
  {
    if orders != [] {
      assert orders == [orders[0]] + orders[1..];
      ClosedMultiset(orders[1..], now, calendar, x);
    }
  }

  /** Reordering a list does not change its revenue. */
  lemma {:induction false} RevenuePermutation(a: seq<ServiceOrder>, b: seq<ServiceOrder>)
    requires multiset(a) == multiset(b)
    ensures Revenue(a) == Revenue(b)
    decreases |a|
  {
    if a == [] {
      assert |multiset(b)| == 0;
    } else {
      var x := a[0];
      assert x in multiset(b);
      var j :| 0 <= j < |b| && b[j] == x;
      var rest := b[..j] + b[j + 1..];
      assert b == b[..j] + [x] + b[j + 1..];
      assert a == [x] + a[1..];
      assert multiset(b) == multiset(b[..j]) + multiset([x]) + multiset(b[j + 1..]);
      assert multiset(a) == multiset([x]) + multiset(a[1..]);
      assert multiset(rest) == multiset(b[..j]) + multiset(b[j + 1..]);
      assert multiset(a[1..]) == multiset(a) - multiset([x]);
      assert multiset(rest) == multiset(b) - multiset([x]);
      RevenuePermutation(a[1..], rest);
      RevenueCons(x, a[1..]);
      RevenueAppend(b[..j] + [x], b[j + 1..]);
      RevenueAppend(b[..j], [x]);
      RevenueAppend(b[..j], b[j + 1..]);
      RevenueCons(x, []);
      assert [x] + [] == [x];
    }
  }

  /**
   * The statistics depend only on which orders there are, not on their order:
   * the local store's insertion order and the remote store's newest-first order give the same figures.
   */
  lemma StatsPermutation(a: seq<ServiceOrder>, b: seq<ServiceOrder>, now: MonthYear, calendar: string -> Option<MonthYear>)
    requires multiset(a) == multiset(b)
    ensures ComputeStats(a, now, calendar) == ComputeStats(b, now, calendar)
  {
    forall s: OrderStatus ensures |OfStatus(a, s)| == |OfStatus(b, s)| {
      forall x ensures multiset(OfStatus(a, s))[x] == multiset(OfStatus(b, s))[x] {
        OfStatusMultiset(a, s, x);
        OfStatusMultiset(b, s, x);
      }
      assert multiset(OfStatus(a, s)) == multiset(OfStatus(b, s));
      assert |multiset(OfStatus(a, s))| == |OfStatus(a, s)|;
    }
    var ca, cb := ClosedThisMonth(a, now, calendar), ClosedThisMonth(b, now, calendar);
    forall x ensures multiset(ca)[x] == multiset(cb)[x] {
      ClosedMultiset(a, now, calendar, x);
      ClosedMultiset(b, now, calendar, x);
    }
    assert multiset(ca) == multiset(cb);
    assert |multiset(ca)| == |ca|;
    RevenuePermutation(ca, cb);
  }
}
