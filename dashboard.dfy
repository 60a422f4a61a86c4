/** The dashboard's derived figures: the profit totals, the number of orders waiting
    to be picked up, the six-month profit series and the five most recent orders. */
module Dashboard {
  import opened Types
  import opened Seqs
  import opened Text
  import opened Ordering
  import OrdersView

  // ---------------------------------------------------------------------------
  // Profit sums

  /** reduce((s, o) => s + o.profit, 0): the summed profit, from the left. */
  function SumProfit(os: seq<Order>): int
    decreases |os|
  {
    if os == [] then 0 else SumProfit(os[..|os| - 1]) + os[|os| - 1].profit
  }

  /** The sum over two collections put together is the sum of their sums. */
  lemma {:induction false} SumProfitConcat(a: seq<Order>, b: seq<Order>)
    ensures SumProfit(a + b) == SumProfit(a) + SumProfit(b)
    decreases |b|
  {
    if b == [] {
      assert a + b == a;
    } else {
      var c := a + b;
      assert c[..|c| - 1] == a + b[..|b| - 1];
      SumProfitConcat(a, b[..|b| - 1]);
    }
  }

  /** The first-order form of the sum, which the filtering lemmas recurse along. */
  lemma SumProfitFront(os: seq<Order>)
    requires os != []
    ensures SumProfit(os) == os[0].profit + SumProfit(os[1..])
  {
    SumProfitConcat([os[0]], os[1..]);
    assert [os[0]] + os[1..] == os;
    assert [os[0]][..0] == [];
  }

  function InMonthTest(key: string): Order -> bool
  {
    (o: Order) => OrdersView.StartsWith(o.dateOrder, key)
  }

  function OutOfMonthTest(key: string): Order -> bool
  {
    (o: Order) => !OrdersView.StartsWith(o.dateOrder, key)
  }

  /** The profit of the orders whose date starts with the month key. */
  function ProfitIn(os: seq<Order>, key: string): int
  {
    SumProfit(Filter(os, InMonthTest(key)))
  }

  /** The total splits into the profit inside the month and the profit outside it. */
  lemma {:induction false} ProfitInSplit(os: seq<Order>, key: string)
    ensures SumProfit(os) == ProfitIn(os, key) + SumProfit(Filter(os, OutOfMonthTest(key)))
    decreases |os|
  {
    if os != [] {
      ProfitInSplit(os[1..], key);
      SumProfitFront(os);
      var p := InMonthTest(key);
      var q := OutOfMonthTest(key);
      var hp := if p(os[0]) then [os[0]] else [];
      var hq := if q(os[0]) then [os[0]] else [];
      SumProfitConcat(hp, Filter(os[1..], p));
      SumProfitConcat(hq, Filter(os[1..], q));
      if p(os[0]) {
        SumProfitFront(hp);
        assert hp[1..] == [];
      } else {
        SumProfitFront(hq);
        assert hq[1..] == [];
      }
    }
  }

  /** A month in which no order was placed has profit 0. */
  lemma ProfitInEmptyMonth(os: seq<Order>, key: string)
    requires forall k :: 0 <= k < |os| ==> !OrdersView.StartsWith(os[k].dateOrder, key)
    ensures ProfitIn(os, key) == 0
  {
    FilterNone(os, InMonthTest(key));
  }

  // ---------------------------------------------------------------------------
  // Month keys

  /** String(n).padStart(2, '0'). */
  function PadStart2(s: string): (r: string)
    ensures |s| <= 2 ==> |r| == 2
    ensures |s| >= 2 ==> r == s
    ensures r[|r| - |s|..] == s
  {
    if |s| >= 2 then s else if |s| == 1 then "0" + s else "00"
  }

  /** The two-digit text of a zero-based month: "01" for January up to "12". */
  function MonthText(month: nat): (r: string)
    requires month < 12
    ensures |r| == 2 && AllDigits(r)
    ensures DigitsValue(r) == month + 1
  {
    var n := month + 1;
    var d := NatToText(n);
    if n < 10 then
      assert d == [DigitChar(n)];
      var r := PadStart2(d);
      assert r == ['0', DigitChar(n)];
      assert r[..1] == ['0'];
      assert DigitsValue(r[..1]) == DigitsValue([]) * 10 + 0;
      r
    else
      assert d == NatToText(1) + [DigitChar(n % 10)];
      PadStart2(d)
  }

  lemma MonthTextExample()
    ensures MonthText(0) == "01" && MonthText(8) == "09" && MonthText(11) == "12"
  {
    assert NatToText(12) == NatToText(1) + "2";
  }

  /** The "YYYY-MM" key of a year and a zero-based month. */
  function MonthKey(year: int, month: nat): string
    requires month < 12
  {
    IntToText(year) + "-" + MonthText(month)
  }

  /** Reading a key's leading integer gives its year and leaves "-MM". */
  lemma MonthKeyParse(year: int, month: nat)
    requires month < 12
    ensures ParseIntToken(MonthKey(year, month)) == Some((year, "-" + MonthText(month)))
  {
    assert MonthKey(year, month) == IntToText(year) + ("-" + MonthText(month));
    ParseIntTokenRoundTrip(year, "-" + MonthText(month));
  }

  /** Different months have different keys. */
  lemma MonthKeyInjective(y1: int, m1: nat, y2: int, m2: nat)
    requires m1 < 12 && m2 < 12
    requires MonthKey(y1, m1) == MonthKey(y2, m2)
    ensures y1 == y2 && m1 == m2
  {
    MonthKeyParse(y1, m1);
    MonthKeyParse(y2, m2);
    var t1 := "-" + MonthText(m1);
    var t2 := "-" + MonthText(m2);
    assert t1 == t2;
    assert MonthText(m1) == t1[1..] && MonthText(m2) == t2[1..];
    assert DigitsValue(MonthText(m1)) == DigitsValue(MonthText(m2));
  }

  /** monthProfit: the profit of the orders placed in the current month. */
  function MonthProfit(os: seq<Order>, year: int, month: nat): int
    requires month < 12
  {
    ProfitIn(os, MonthKey(year, month))
  }

  // ---------------------------------------------------------------------------
  // The six-month series

  /** One bar of the chart: its month and the profit of the orders placed in it. */
  datatype ChartPoint = ChartPoint(year: int, month: nat, key: string, profit: int)

  /** new Date(year, month - back, 1): the month rolls over into earlier years. */
  function MonthsBefore(year: int, month: nat, back: int): (ym: (int, nat))
    ensures ym.1 < 12
    ensures ym.0 * 12 + ym.1 == year * 12 + month - back
  {
    var total := year * 12 + month - back;
    (total / 12, total % 12)
  }

  /** Entry i of the series: the month 5 - i months before the current one. */
  function Point(os: seq<Order>, year: int, month: nat, i: int): ChartPoint
  {
    var ym := MonthsBefore(year, month, 5 - i);
    var key := MonthKey(ym.0, ym.1);
    ChartPoint(ym.0, ym.1, key, ProfitIn(os, key))
  }

  /** chartData: six bars, from five months ago up to the current month. */
  function ChartData(os: seq<Order>, year: int, month: nat): (r: seq<ChartPoint>)
    ensures |r| == 6
  {
    seq(6, i requires 0 <= i < 6 => Point(os, year, month, i))
  }

  /** The months of the series, counted from year 0. */
  function MonthNumber(p: ChartPoint): int
  {
    p.year * 12 + p.month
  }

  /** The bars cover consecutive months in ascending order and end with the current one. */
  lemma ChartMonths(os: seq<Order>, year: int, month: nat)
    requires month < 12
    ensures var r := ChartData(os, year, month);
      && (forall i :: 0 <= i < 5 ==> MonthNumber(r[i + 1]) == MonthNumber(r[i]) + 1)
      && r[5].year == year && r[5].month == month
  {
    var r := ChartData(os, year, month);
    assert MonthNumber(r[5]) == year * 12 + month;
  }

  /** Bar i shows the month 5 - i months back: its key names that month and its profit
      is the profit of the orders placed in it. */
  lemma ChartKeys(os: seq<Order>, year: int, month: nat, i: int)
    requires 0 <= i < 6
    ensures var p := ChartData(os, year, month)[i];
      && (p.year, p.month) == MonthsBefore(year, month, 5 - i)
      && p.month < 12
      && p.key == MonthKey(p.year, p.month)
      && p.profit == ProfitIn(os, p.key)
  {
  }

  /** No two bars share a month key. */
  lemma ChartKeysDistinct(os: seq<Order>, year: int, month: nat, i: int, j: int)
    requires month < 12
    requires 0 <= i < j < 6
    ensures ChartData(os, year, month)[i].key != ChartData(os, year, month)[j].key
  {
    var r := ChartData(os, year, month);
    ChartMonths(os, year, month);
    ChartKeys(os, year, month, i);
    ChartKeys(os, year, month, j);
    if r[i].key == r[j].key {
      MonthKeyInjective(r[i].year, r[i].month, r[j].year, r[j].month);
      assert false;
    }
  }

  /** In February 2025 the series runs from September 2024 to February 2025. */
  lemma ChartRollOverExample()
    ensures MonthsBefore(2025, 1, 5) == (2024, 8)
    ensures MonthsBefore(2025, 1, 2) == (2024, 11)
    ensures MonthsBefore(2025, 1, 1) == (2025, 0)
  {
  }

  /** The last bar shows the month's profit of the dashboard card. */
  lemma ChartEndsWithMonthProfit(os: seq<Order>, year: int, month: nat)
    requires month < 12
    ensures ChartData(os, year, month)[5].profit == MonthProfit(os, year, month)
  {
    ChartMonths(os, year, month);
    ChartKeys(os, year, month, 5);
  }

  // ---------------------------------------------------------------------------
  // Counts and the recent orders

  function IsArriveTest(): Order -> bool
  {
    (o: Order) => o.status == Arrive
  }

  /** toPickup: how many orders have arrived and wait to be picked up. */
  function ToPickup(os: seq<Order>): (n: nat)
    ensures n <= |os|
  {
    |Filter(os, IsArriveTest())|
  }

  /** The count is zero exactly when no order has arrived. */
  lemma ToPickupZero(os: seq<Order>)
    ensures ToPickup(os) == 0 <==> forall k :: 0 <= k < |os| ==> os[k].status != Arrive
  {
    var r := Filter(os, IsArriveTest());
    if ToPickup(os) != 0 {
      assert r[0] in os && IsArriveTest()(r[0]);
    }
  }

  /** Counting over two collections put together adds the counts. */
  lemma ToPickupConcat(a: seq<Order>, b: seq<Order>)
    ensures ToPickup(a + b) == ToPickup(a) + ToPickup(b)
  {
    FilterConcat(a, b, IsArriveTest());
  }

  /** recent: a sorted copy of the orders cut to its first five. It takes each order at
      most as often as the collection holds it, and all of them when there are at most five. */
  function Recent(os: seq<Order>): (r: seq<Order>)
    ensures |r| == if |os| < 5 then |os| else 5
    ensures multiset(r) <= multiset(os)
    ensures |os| <= 5 ==> multiset(r) == multiset(os)
  {
    var s := SortNewestFirst(os);
    var n := if |s| < 5 then |s| else 5;
    assert s == s[..n] + s[n..];
    assert multiset(s) == multiset(s[..n]) + multiset(s[n..]);
    s[..n]
  }

  /** The recent orders are orders of the collection, newest first, and no order left out
      of them is newer than any of them. */
  lemma RecentAreNewest(os: seq<Order>)
    ensures NewestFirst(Recent(os))
    ensures forall k :: 0 <= k < |Recent(os)| ==> Recent(os)[k] in os
    ensures forall o, k :: o in os && o !in Recent(os) && 0 <= k < |Recent(os)| ==>
              o.createdAt <= Recent(os)[k].createdAt
  {
    var s := SortNewestFirst(os);
    var r := Recent(os);
    SortIsNewestFirst(os);
    assert r == s[..|r|];
    forall k | 0 <= k < |r|
      ensures r[k] in os
    {
      assert r[k] in multiset(r);
    }
    forall o, k | o in os && o !in r && 0 <= k < |r|
      ensures o.createdAt <= r[k].createdAt
    {
      SortedPosition(os, s, r, o, k);
    }
  }

  /** An order of the collection missing from the recent list sits after it in the sorted
      copy, so it is no newer than any shown order. */
  lemma SortedPosition(os: seq<Order>, s: seq<Order>, r: seq<Order>, o: Order, k: int)
    requires s == SortNewestFirst(os) && NewestFirst(s)
    requires |r| <= |s| && r == s[..|r|] && 0 <= k < |r|
    requires o in os && o !in r
    ensures o.createdAt <= r[k].createdAt
  {
    assert o in multiset(s);
    var j :| 0 <= j < |s| && s[j] == o;
    assert r[k] == s[k];
  }
}
