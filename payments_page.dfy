/** The payments screen (`client/src/pages/payments/PaymentsPage.tsx`): today's orders
    among the recent ones, the day's summary, the transactions table and its badges. */
module PaymentsPage {
  import opened Seqs
  import opened Text
  import opened Ui
  import opened Pricing

  /** The fields of an order the screen reads; `createdAt` is in milliseconds and
      `total` is the decimal column read as a number. */
  datatype PaidOrder = PaidOrder(
    id: string, orderNumber: string, total: real, paymentMethod: string, status: string, createdAt: int)

  function Since(startOfToday: int): PaidOrder -> bool
  {
    (o: PaidOrder) => o.createdAt >= startOfToday
  }

  /** `todaysOrders`: the orders created at or after the start of today (local midnight,
      given as a parameter). */
  function TodaysOrders(orders: seq<PaidOrder>, startOfToday: int): (r: seq<PaidOrder>)
    ensures forall k :: 0 <= k < |r| ==> r[k] in orders && r[k].createdAt >= startOfToday
    ensures forall k :: 0 <= k < |orders| && orders[k].createdAt >= startOfToday ==> orders[k] in r
    ensures multiset(r) <= multiset(orders)
    ensures forall k :: 0 <= k < |orders| && orders[k].createdAt >= startOfToday ==>
      multiset(r)[orders[k]] == multiset(orders)[orders[k]]
  {
    FilterMultiplicity(orders, Since(startOfToday));
    Filter(orders, Since(startOfToday))
  }

  datatype DaySummary = DaySummary(
    totalRevenue: real, totalOrders: nat, cashOrders: nat, cardOrders: nat, averageOrder: real)

  function OrderTotal(o: PaidOrder): real { o.total }
  function PaidWith(pay: string): PaidOrder -> bool { (o: PaidOrder) => o.paymentMethod == pay }

  /** `todaysSummary`. */
  function TodaysSummary(today: seq<PaidOrder>): (s: DaySummary)
    ensures s.totalRevenue == Sum(today, OrderTotal) && s.totalOrders == |today|
    ensures s.cashOrders == Count(today, PaidWith("cash")) && s.cardOrders == Count(today, PaidWith("card"))
    ensures s.totalOrders > 0 ==> s.averageOrder * s.totalOrders as real == s.totalRevenue
    ensures s.totalOrders == 0 ==> s.averageOrder == 0.0
  {
    var revenue := Sum(today, OrderTotal);
    var n := |today|;
    DaySummary(revenue, n, Count(today, PaidWith("cash")), Count(today, PaidWith("card")),
      Average(revenue, n))
  }

  /** No order is both cash and card, so the two counts never exceed the day's orders. */
  lemma PaymentCountsBounded(today: seq<PaidOrder>)
    ensures TodaysSummary(today).cashOrders + TodaysSummary(today).cardOrders <= TodaysSummary(today).totalOrders
  {
    DisjointCountsBounded(today, PaidWith("cash"), PaidWith("card"));
  }

  /** Orders from before today never reach today's list, so they never change the summary. */
  lemma OlderOrdersIgnored(orders: seq<PaidOrder>, older: seq<PaidOrder>, startOfToday: int)
    requires forall k :: 0 <= k < |older| ==> older[k].createdAt < startOfToday
    ensures TodaysOrders(orders + older, startOfToday) == TodaysOrders(orders, startOfToday)
  {
    FilterConcat(orders, older, Since(startOfToday));
    FilterNone(older, Since(startOfToday));
    assert Filter(orders, Since(startOfToday)) + [] == Filter(orders, Since(startOfToday));
  }

  /** Newest first. */
  ghost predicate NewestFirst(s: seq<PaidOrder>)
  {
    forall i, j :: 0 <= i < j < |s| ==> s[i].createdAt >= s[j].createdAt
  }

  /** The `.sort(...)` of the transactions table: sorts today's orders in place, newest
      first (by straight insertion, which like the browser's sort is stable). */
  method SortNewestFirst(a: array<PaidOrder>)
    modifies a
    ensures NewestFirst(a[..])
    ensures multiset(a[..]) == multiset(old(a[..]))
  {
    var i := 0;
    while i < a.Length
      invariant 0 <= i <= a.Length
      invariant NewestFirst(a[..i])
      invariant multiset(a[..]) == multiset(old(a[..]))
    {
      InsertLast(a, i);
      i := i + 1;
    }
    assert a[..a.Length] == a[..];
  }

  /** Moves `a[i]` left past the older orders, into the newest-first prefix `a[..i]`. */
  method InsertLast(a: array<PaidOrder>, i: int)
    requires 0 <= i < a.Length && NewestFirst(a[..i])
    modifies a
    ensures NewestFirst(a[..i + 1])
    ensures multiset(a[..]) == multiset(old(a[..]))
  {
    var j := i;
    InsertStart(a[..], i);
    while j > 0 && a[j - 1].createdAt < a[j].createdAt
      invariant Inserting(a[..], i, j)
      invariant multiset(a[..]) == multiset(old(a[..]))
    {
      ghost var s := a[..];
      SwapStep(s, i, j);
      a[j - 1], a[j] := a[j], a[j - 1];
      assert a[..] == s[j - 1 := s[j]][j := s[j - 1]];
      j := j - 1;
    }
    InsertDone(a[..], i, j);
  }

  /** `s[..i + 1]` is newest first except for the element at `j`, which is newer than
      everything after it. */
  ghost predicate Inserting(s: seq<PaidOrder>, i: int, j: int)
  {
    0 <= j <= i < |s| &&
    (forall k, l :: 0 <= k < l <= i && k != j && l != j ==> s[k].createdAt >= s[l].createdAt) &&
    (forall l :: j < l <= i ==> s[j].createdAt > s[l].createdAt)
  }

  /** One swap moves the inserted order one place left and keeps the orders. */
  lemma SwapStep(s: seq<PaidOrder>, i: int, j: int)
    requires Inserting(s, i, j) && j > 0 && s[j - 1].createdAt < s[j].createdAt
    ensures Inserting(s[j - 1 := s[j]][j := s[j - 1]], i, j - 1)
    ensures multiset(s[j - 1 := s[j]][j := s[j - 1]]) == multiset(s)
  {
  }

  lemma InsertStart(s: seq<PaidOrder>, i: int)
    requires 0 <= i < |s| && NewestFirst(s[..i])
    ensures Inserting(s, i, i)
  {
    forall k, l | 0 <= k < l < i
      ensures s[k].createdAt >= s[l].createdAt
    {
      assert s[..i][k] == s[k] && s[..i][l] == s[l];
    }
  }

  /** Once the inserted order has reached an order at least as new, the prefix is sorted. */
  lemma InsertDone(s: seq<PaidOrder>, i: int, j: int)
    requires Inserting(s, i, j) && (j == 0 || s[j - 1].createdAt >= s[j].createdAt)
    ensures NewestFirst(s[..i + 1])
  {
  }

  /** The transactions table: today's orders sorted in place, then the first 20. */
  method Transactions(today: array<PaidOrder>) returns (shown: seq<PaidOrder>)
    modifies today
    ensures multiset(today[..]) == multiset(old(today[..]))
    ensures NewestFirst(today[..])
    ensures |shown| == if today.Length < 20 then today.Length else 20
    ensures shown == today[..|shown|]
  {
    SortNewestFirst(today);
    shown := today[..if today.Length < 20 then today.Length else 20];
  }

  /** What the table shows is newest first, and every order of the day it leaves out is
      no newer than any order it shows. */
  lemma ShownAreNewest(orders: seq<PaidOrder>, sorted: seq<PaidOrder>, m: nat)
    requires multiset(sorted) == multiset(orders) && NewestFirst(sorted) && m <= |sorted|
    ensures NewestFirst(sorted[..m])
    ensures forall k :: 0 <= k < |orders| && orders[k] !in sorted[..m] ==>
      forall i :: 0 <= i < m ==> orders[k].createdAt <= sorted[i].createdAt
  {
    forall k | 0 <= k < |orders| && orders[k] !in sorted[..m]
      ensures forall i :: 0 <= i < m ==> orders[k].createdAt <= sorted[i].createdAt
    {
      assert orders[k] in multiset(sorted);
      var p :| 0 <= p < |sorted| && sorted[p] == orders[k];
    }
  }

  /** `getStatusBadgeVariant` of the transactions table. */
  function StatusBadgeVariant(status: string): (v: BadgeVariant)
    ensures v == Default <==> Lower(status) == "completed"
    ensures v == Outline <==> Lower(status) == "preparing"
    ensures v == Secondary <==> Lower(status) != "completed" && Lower(status) != "preparing"
  {
    match Lower(status)
    case "completed" => Default
    case "pending" => Secondary
    case "preparing" => Outline
    case _ => Secondary
  }

  /** The mapping ignores letter case. */
  lemma BadgeIgnoresCase(status: string)
    ensures StatusBadgeVariant(Lower(status)) == StatusBadgeVariant(status)
  {
    LowerIdempotent(status);
  }
}
