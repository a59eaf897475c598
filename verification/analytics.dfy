/**
 * The analytics screen (`AnalyticsView`, `ChartView`, `TopCustomerRow`): a
 * time-window filter over the ledger, totals and guarded averages over the window,
 * a best-weekday count, the customer ranking, and the bucketed chart series.
 * Everything here reads a snapshot of the ledger; the calendar and the current
 * time are parameters.
 */
module Analytics {
  import opened Wrappers
  import opened Calendars
  import opened Seqs
  import opened Models

  /** The period the screen summarises (`Timeframe`). */
  datatype Timeframe = Week | Month | Year

  /** What a chart plots (`ChartType`). */
  datatype ChartType = Income | Quantity | AveragePrice

  /** The calendar unit whose current interval a timeframe selects. */
  function UnitOf(tf: Timeframe): Unit {
    match tf
    case Week => WeekOfYear
    case Month => Calendars.Month
    case Year => Calendars.Year
  }

  /** Weekday names indexed by `component(.weekday) - 1`. */
  const Weekdays: seq<string> := ["Sunday", "Monday", "Tuesday", "Wednesday", "Thursday", "Friday", "Saturday"]
  const NotEnoughData: string := "Not enough data"
  const NoCustomers: string := "No customers"

  /** The sales falling on weekday index `d` (0 is Sunday). */
  function OnWeekday(cal: Calendar, d: int): Sale -> bool {
    (s: Sale) => cal.weekday(s.date) - 1 == d
  }

  /** The number of sales of `sales` falling on weekday index `d`. */
  function WeekdayCount(cal: Calendar, sales: seq<Sale>, d: int): nat {
    |Filter(sales, OnWeekday(cal, d))|
  }

  /** `dayCounts` after a prefix of the window: each key is a weekday index seen in
      `prefix`, mapped to its number of sales; a weekday index that is not a key has none. */
  predicate CountsSoFar(cal: Calendar, prefix: seq<Sale>, counts: map<nat, nat>) {
    && (forall k :: k in counts ==> 0 <= k < 7 && counts[k] > 0 && counts[k] == WeekdayCount(cal, prefix, k))
    && (forall d :: 0 <= d < 7 && d !in counts ==> WeekdayCount(cal, prefix, d) == 0)
    && (prefix != [] ==> counts != map[])
  }

  /** Comparing two amounts scaled by the same positive factor compares the amounts. */
  lemma ScaleCancel(a: real, b: real, c: real)
    requires c > 0.0
    ensures a * c == b * c ==> a == b
  {
    if a > b {
      assert (a - b) * c > 0.0;
    }
    if a < b {
      assert (b - a) * c > 0.0;
    }
  }

  /** A share of at most the whole, as a percentage, lies between 0 and 100. */
  lemma PercentBound(p: real, part: real, whole: real)
    requires whole > 0.0 && 0.0 <= part <= whole
    requires p * whole == part * 100.0
    ensures 0.0 <= p <= 100.0
  {
  }

  /** The last sale of `sales` adds one to the count of its own weekday and nothing to the others. */
  lemma WeekdayCountLast(cal: Calendar, sales: seq<Sale>, d: int)
    requires sales != []
    ensures WeekdayCount(cal, sales, d) == WeekdayCount(cal, sales[..|sales| - 1], d)
      + if cal.weekday(sales[|sales| - 1].date) - 1 == d then 1 else 0
  {
  }

  /** One iteration of the counting loop of `bestSellingPeriod`:
      `dayCounts[weekday, default: 0] += 1` for the weekday index of `x`. */
  function Tally(cal: Calendar, counts: map<nat, nat>, x: Sale): map<nat, nat> {
    var w := cal.weekday(x.date) - 1;
    counts[w := (if w in counts then counts[w] else 0) + 1]
  }

  /** The dictionary the counting loop builds over `sales`. */
  function CountsOf(cal: Calendar, sales: seq<Sale>): map<nat, nat>
    decreases |sales|
  {
    if sales == [] then map[] else Tally(cal, CountsOf(cal, sales[..|sales| - 1]), sales[|sales| - 1])
  }

  /** Tallying the last sale keeps `CountsSoFar`. */
  lemma CountStep(cal: Calendar, sales: seq<Sale>, counts: map<nat, nat>)
    requires sales != [] && CountsSoFar(cal, sales[..|sales| - 1], counts)
    ensures CountsSoFar(cal, sales, Tally(cal, counts, sales[|sales| - 1]))
  {
    var next := Tally(cal, counts, sales[|sales| - 1]);
    forall k | k in next
      ensures 0 <= k < 7 && next[k] > 0 && next[k] == WeekdayCount(cal, sales, k)
    {
      WeekdayCountLast(cal, sales, k);
    }
    forall d | 0 <= d < 7 && d !in next
      ensures WeekdayCount(cal, sales, d) == 0
    {
      WeekdayCountLast(cal, sales, d);
    }
    assert cal.weekday(sales[|sales| - 1].date) - 1 in next;
  }

  /** The counting loop's dictionary maps each weekday index that occurs in `sales` to its
      number of sales, and has no other key. */
  lemma {:induction false} CountsOfCorrect(cal: Calendar, sales: seq<Sale>)
    ensures CountsSoFar(cal, sales, CountsOf(cal, sales))
    decreases |sales|
  {
    if sales != [] {
      CountsOfCorrect(cal, sales[..|sales| - 1]);
      CountStep(cal, sales, CountsOf(cal, sales[..|sales| - 1]));
    }
  }

  /** The counting loop of `bestSellingPeriod`: one pass over `sales` that adds one to
      the entry of each sale's weekday index. */
  method CountWeekdays(cal: Calendar, sales: seq<Sale>) returns (dayCounts: map<nat, nat>)
    ensures dayCounts == CountsOf(cal, sales)
    ensures CountsSoFar(cal, sales, dayCounts)
  {
    dayCounts := map[];
    for i := 0 to |sales|
      invariant dayCounts == CountsOf(cal, sales[..i])
    {
      var weekday := cal.weekday(sales[i].date) - 1;
      assert sales[..i + 1][..i] == sales[..i];
      dayCounts := dayCounts[weekday := (if weekday in dayCounts then dayCounts[weekday] else 0) + 1];
    }
    assert sales[..|sales|] == sales;
    CountsOfCorrect(cal, sales);
  }

  /** A key with the largest count in the counting loop's dictionary is a weekday index
      on which at least one sale falls and no weekday has more sales. */
  lemma MaxCountIsBestDay(cal: Calendar, sales: seq<Sale>, counts: map<nat, nat>, best: nat)
    requires CountsSoFar(cal, sales, counts)
    requires best in counts && forall k :: k in counts ==> counts[k] <= counts[best]
    ensures 0 <= best < 7 && WeekdayCount(cal, sales, best) > 0
    ensures forall e :: 0 <= e < 7 ==> WeekdayCount(cal, sales, e) <= WeekdayCount(cal, sales, best)
  {
    forall e | 0 <= e < 7 ensures WeekdayCount(cal, sales, e) <= WeekdayCount(cal, sales, best) {
      if e in counts {
        assert counts[e] <= counts[best];
      }
    }
  }

  /** Swift's `max(by: { $0.value < $1.value })?.key` on a non-empty dictionary: a key
      whose value is largest, whichever of several such keys the iteration meets. */
  method MaxKey(counts: map<nat, nat>) returns (best: nat)
    requires counts != map[]
    ensures best in counts
    ensures forall k :: k in counts ==> counts[k] <= counts[best]
  {
    best :| best in counts;
    var pending := counts.Keys - {best};
    while pending != {}
      invariant best in counts && pending <= counts.Keys
      invariant forall k :: k in counts && k !in pending ==> counts[k] <= counts[best]
      decreases |pending|
    {
      var k :| k in pending;
      if counts[best] < counts[k] {
        best := k;
      }
      pending := pending - {k};
    }
  }

  /** The screen's inputs: a snapshot of the ledger, the selected timeframe, and the
      calendar and clock it reads (`Calendar.current`, `Date()`). */
  datatype AnalyticsView = AnalyticsView(sales: seq<Sale>, buyers: seq<Buyer>, timeframe: Timeframe, cal: Calendar, now: Date)
  {
    /** The start of the current week, month or year, or `now` if the calendar has none. */
    function WindowStart(): Date {
      cal.StartOf(UnitOf(timeframe), now)
    }

    /** `filteredSales`: the sales dated at or after the window start, in ledger order;
        there is no upper bound. */
    function FilteredSales(): (r: seq<Sale>)
      ensures forall x :: x in r <==> x in sales && x.date >= WindowStart()
    {
      Since(sales, WindowStart())
    }

    /** The sales dated before the window start. */
    function EarlierSales(): (r: seq<Sale>)
      ensures forall x :: x in r <==> x in sales && x.date < WindowStart()
    {
      Filter(sales, Not(AtOrAfter(WindowStart())))
    }

    /** `totalIncome`: 0 when every sale precedes the window, and the ledger's income
        when none does. */
    function TotalIncome(): (r: real)
      ensures (forall x :: x in sales ==> x.date < WindowStart()) ==> r == 0.0
      ensures (forall x :: x in sales ==> x.date >= WindowStart()) ==> r == TotalPrice(sales)
    {
      SinceNoneOrAll(sales, WindowStart());
      TotalPrice(FilteredSales())
    }

    /** `totalEggs`: 0 when every sale precedes the window, and the ledger's egg count
        when none does. */
    function TotalEggs(): (r: int)
      ensures (forall x :: x in sales ==> x.date < WindowStart()) ==> r == 0
      ensures (forall x :: x in sales ==> x.date >= WindowStart()) ==> r == TotalQuantity(sales)
    {
      SinceNoneOrAll(sales, WindowStart());
      TotalQuantity(FilteredSales())
    }

    /** `totalSales`: at most the ledger's size, 0 exactly when every sale precedes the
        window, and the ledger's size when none does. */
    function TotalSales(): (r: nat)
      ensures r <= |sales|
      ensures r == 0 <==> forall x :: x in sales ==> x.date < WindowStart()
      ensures (forall x :: x in sales ==> x.date >= WindowStart()) ==> r == |sales|
    {
      SinceNoneOrAll(sales, WindowStart());
      |FilteredSales()|
    }

    /** The window and the sales before it split the ledger: the window's count, income
        and eggs plus those of the earlier sales are the ledger's. */
    lemma WindowSplitsLedger()
      ensures TotalSales() + |EarlierSales()| == |sales|
      ensures TotalIncome() + TotalPrice(EarlierSales()) == TotalPrice(sales)
      ensures TotalEggs() + TotalQuantity(EarlierSales()) == TotalQuantity(sales)
    {
      var keep := AtOrAfter(WindowStart());
      FilterPartitionCount(sales, keep);
      FilterPartitionReal(sales, keep, Price);
      FilterPartitionInt(sales, keep, Models.Quantity);
    }

    /** `averagePricePerDozen`: income over dozens sold, or 0 when no positive number of
        dozens was sold; it never divides by zero. */
    function AveragePricePerDozen(): (r: real)
      ensures TotalDozens(FilteredSales()) <= 0.0 ==> r == 0.0
      ensures TotalDozens(FilteredSales()) > 0.0 ==> r * TotalDozens(FilteredSales()) == TotalIncome()
    {
      var totalDozens := TotalDozens(FilteredSales());
      if totalDozens > 0.0 then TotalIncome() / totalDozens else 0.0
    }

    /** In eggs: when a positive number of eggs was sold, the average price per dozen
        times the eggs is twelve times the income. */
    lemma AveragePriceInEggs()
      ensures TotalEggs() > 0 ==> AveragePricePerDozen() * (TotalEggs() as real) == 12.0 * TotalIncome()
      ensures TotalEggs() <= 0 ==> AveragePricePerDozen() == 0.0
    {
      TotalDozensIsEggsOverTwelve(FilteredSales());
    }

    /** `averageOrderSize`: dozens per sale in the window, 0 for an empty window. */
    function AverageOrderSize(): (r: real)
      ensures FilteredSales() == [] ==> r == 0.0
      ensures FilteredSales() != [] ==> r * (TotalSales() as real) == TotalDozens(FilteredSales())
    {
      var filtered := FilteredSales();
      if filtered == [] then 0.0 else TotalDozens(filtered) / (|filtered| as real)
    }

    /** In eggs: twelve times the average order size times the number of sales is the
        number of eggs in the window. */
    lemma AverageOrderSizeInEggs()
      ensures AverageOrderSize() * 12.0 * (TotalSales() as real) == TotalEggs() as real
    {
      TotalDozensIsEggsOverTwelve(FilteredSales());
    }

    /** The number of sales in the window on weekday index `d` (0 is Sunday). */
    function DayCount(d: int): nat {
      WeekdayCount(cal, FilteredSales(), d)
    }

    /** `bestSellingPeriod`: "Not enough data" for an empty window, otherwise the name
        of a weekday with the most sales in the window. Which of several equally busy
        weekdays is named depends on the dictionary's order and is not fixed here. */
    method BestSellingPeriod() returns (r: string)
      ensures FilteredSales() == [] ==> r == NotEnoughData
      ensures FilteredSales() != [] ==>
        exists d :: 0 <= d < 7 && r == Weekdays[d] && DayCount(d) > 0
                    && forall e :: 0 <= e < 7 ==> DayCount(e) <= DayCount(d)
    {
      var dayCounts := CountWeekdays(cal, FilteredSales());
      if dayCounts == map[] {
        return NotEnoughData;
      }
      var best := MaxKey(dayCounts);
      r := Weekdays[best];
      MaxCountIsBestDay(cal, FilteredSales(), dayCounts, best);
    }

    /** `topCustomers`: every buyer of the ledger (not only those in the window),
        ranked by amount paid, largest first. */
    function TopCustomers(): (r: seq<Buyer>)
      ensures SortedDesc(r, Paid)
      ensures multiset(r) == multiset(buyers)
    {
      SortDesc(buyers, Paid)
    }

    /** When the buyer list is the ledger's statistics, ranking changes nothing: they
        are already in that order. */
    lemma TopCustomersOfStats()
      requires IsBuyerStats(sales, buyers)
      ensures TopCustomers() == buyers
    {
      SortDescOfSorted(buyers, Paid);
    }

    /** `mostActiveCustomer`: the name of a buyer who paid the most, or "No customers". */
    function MostActiveCustomer(): (r: string)
      ensures buyers == [] ==> r == NoCustomers
      ensures buyers != [] ==>
        exists b :: b in buyers && b.name == r && forall c :: c in buyers ==> c.totalPaid <= b.totalPaid
    {
      var top := TopCustomers();
      if top == [] then
        assert |buyers| == |multiset(buyers)| == 0;
        NoCustomers
      else
        assert top[0] in multiset(buyers);
        assert forall c :: c in buyers ==> c.totalPaid <= top[0].totalPaid by {
          forall c | c in buyers ensures c.totalPaid <= top[0].totalPaid {
            assert c in multiset(top);
            var k :| 0 <= k < |top| && top[k] == c;
            assert k == 0 || Paid(top[0]) >= Paid(top[k]);
          }
        }
        top[0].name
    }

    /** Over the ledger's statistics, the most active customer is a name in the ledger
        whose sales add up to at least as much as any other name's. */
    lemma MostActiveCustomerSpentMost()
      requires IsBuyerStats(sales, buyers)
      ensures sales == [] ==> MostActiveCustomer() == NoCustomers
      ensures sales != [] ==>
        && MostActiveCustomer() in Names(sales)
        && forall n :: n in Names(sales) ==>
             TotalPrice(SalesOf(sales, n)) <= TotalPrice(SalesOf(sales, MostActiveCustomer()))
    {
      OneBuyerPerName(sales, buyers);
      var r := MostActiveCustomer();
      if sales != [] {
        var b :| b in buyers && b.name == r && forall c :: c in buyers ==> c.totalPaid <= b.totalPaid;
        assert r in BuyerNames(buyers);
        forall n | n in Names(sales)
          ensures TotalPrice(SalesOf(sales, n)) <= TotalPrice(SalesOf(sales, r))
        {
          assert n in BuyerNames(buyers);
          var c :| c in buyers && c.name == n;
          assert c == BuyerFor(sales, n) && b == BuyerFor(sales, r);
        }
      }
    }

    /** The rows of the "Top Customers" list: the first five ranked buyers, numbered
        from 1, each compared with the first buyer's amount (0 if there is none). */
    function TopCustomerRows(): (r: seq<TopCustomerRow>)
      ensures |r| == if |buyers| < 5 then |buyers| else 5
      ensures forall k :: 0 <= k < |r| ==> r[k].rank == k + 1 && r[k].customer == TopCustomers()[k]
      ensures forall k :: 0 <= k < |r| ==> r[k].totalSpent == TopCustomers()[0].totalPaid
    {
      var top := TopCustomers();
      assert |top| == |multiset(top)| == |buyers|;
      var leader := if top == [] then 0.0 else top[0].totalPaid;
      var shown := if |top| < 5 then |top| else 5;
      seq(shown, k requires 0 <= k < shown => TopCustomerRow(top[k], k + 1, leader))
    }

    /** The percentages in the list are relative to the first-ranked buyer, not to the
        total: when the leader paid a positive amount, the first row shows 100 and every
        row with a non-negative amount shows between 0 and 100. */
    lemma TopCustomerPercentages()
      ensures forall k :: 0 <= k < |TopCustomerRows()| && TopCustomerRows()[k].totalSpent > 0.0 ==>
        && (k == 0 ==> TopCustomerRows()[k].Percentage() == 100.0)
        && (TopCustomerRows()[k].customer.totalPaid >= 0.0 ==> 0.0 <= TopCustomerRows()[k].Percentage() <= 100.0)
    {
      var rows, top := TopCustomerRows(), TopCustomers();
      forall k | 0 <= k < |rows| && rows[k].totalSpent > 0.0
        ensures k == 0 ==> rows[k].Percentage() == 100.0
        ensures rows[k].customer.totalPaid >= 0.0 ==> 0.0 <= rows[k].Percentage() <= 100.0
      {
        var row, p := rows[k], rows[k].Percentage();
        assert row.customer == top[k] && row.totalSpent == top[0].totalPaid;
        assert k == 0 || Paid(top[0]) >= Paid(top[k]);
        if k == 0 {
          ScaleCancel(p, 100.0, row.totalSpent);
        }
        if row.customer.totalPaid >= 0.0 {
          PercentBound(p, row.customer.totalPaid, row.totalSpent);
        }
      }
    }
  }

  /** A row of the "Top Customers" list. */
  datatype TopCustomerRow = TopCustomerRow(customer: Buyer, rank: int, totalSpent: real)
  {
    /** `percentage`: the customer's amount as a percentage of `totalSpent`, or 0 when
        `totalSpent` is not positive. */
    function Percentage(): (r: real)
      ensures totalSpent <= 0.0 ==> r == 0.0
      ensures totalSpent > 0.0 ==> r * totalSpent == customer.totalPaid * 100.0
    {
      if totalSpent > 0.0 then (customer.totalPaid / totalSpent) * 100.0 else 0.0
    }
  }

  /** One point of a chart series (`ChartDataPoint`). */
  datatype ChartDataPoint = ChartDataPoint(period: int, value: real)

  /** The condition `$0.date >= start && $0.date < end`. */
  function Within(start: Date, end: Date): Sale -> bool {
    (s: Sale) => start <= s.date < end
  }

  /** Two adjacent half-open date intervals split the income of their union. */
  lemma {:induction false} WithinSplit(sales: seq<Sale>, a: Date, b: Date, c: Date)
    requires a <= b <= c
    ensures TotalPrice(Filter(sales, Within(a, b))) + TotalPrice(Filter(sales, Within(b, c)))
            == TotalPrice(Filter(sales, Within(a, c)))
    decreases |sales|
  {
    if sales != [] {
      var init, x := sales[..|sales| - 1], sales[|sales| - 1];
      var left, right, whole := Filter(init, Within(a, b)), Filter(init, Within(b, c)), Filter(init, Within(a, c));
      WithinSplit(init, a, b, c);
      if a <= x.date < b {
        assert Filter(sales, Within(a, b)) == left + [x];
        assert Filter(sales, Within(b, c)) == right;
        assert Filter(sales, Within(a, c)) == whole + [x];
        SumAppend(left, x, Price, Models.Quantity);
        SumAppend(whole, x, Price, Models.Quantity);
      } else if b <= x.date < c {
        assert Filter(sales, Within(a, b)) == left;
        assert Filter(sales, Within(b, c)) == right + [x];
        assert Filter(sales, Within(a, c)) == whole + [x];
        SumAppend(right, x, Price, Models.Quantity);
        SumAppend(whole, x, Price, Models.Quantity);
      } else {
        assert Filter(sales, Within(a, b)) == left;
        assert Filter(sales, Within(b, c)) == right;
        assert Filter(sales, Within(a, c)) == whole;
      }
    }
  }

  /** The mean price per dozen of some sales, 0 for none. */
  function MeanPricePerDozen(sales: seq<Sale>): (r: real)
    ensures sales == [] ==> r == 0.0
    ensures sales != [] ==> r * (|sales| as real) == SumReal(sales, PerDozen)
  {
    if sales == [] then 0.0 else SumReal(sales, PerDozen) / (|sales| as real)
  }

  /** The chart's inputs. The series is computed from every sale of the ledger, not
      from the screen's time window. */
  datatype ChartView = ChartView(sales: seq<Sale>, chartType: ChartType, timeframe: Timeframe, cal: Calendar, now: Date)
  {
    /** Seven daily points, four weekly points for the income-per-month chart, twelve
        monthly points for the income-per-year chart. */
    function BucketCount(): nat {
      match (chartType, timeframe)
      case (Income, Month) => 4
      case (Income, Year) => 12
      case _ => 7
    }

    /** The day `i` days before now (`now` if the calendar cannot step back). */
    function DayOf(i: nat): Date {
      cal.adding(Day, -(i as int), now).GetOr(now)
    }

    /** The sales on the same day as `DayOf(i)`. */
    function DaySales(i: nat): (r: seq<Sale>)
      ensures forall x :: x in r <==> x in sales && cal.sameDay(x.date, DayOf(i))
    {
      Filter(sales, OnSameDay(cal, DayOf(i)))
    }

    /** The start of the weekly bucket: `i` weeks before now. */
    function WeekStart(i: nat): Date {
      cal.adding(WeekOfYear, -(i as int), now).GetOr(now)
    }

    /** The end of the weekly bucket: seven days after its start. */
    function WeekEnd(i: nat): Date {
      cal.adding(Day, 7, WeekStart(i)).GetOr(now)
    }

    /** The sales in the half-open weekly bucket `[WeekStart(i), WeekEnd(i))`. */
    function WeekSales(i: nat): (r: seq<Sale>)
      ensures forall x :: x in r <==> x in sales && WeekStart(i) <= x.date < WeekEnd(i)
    {
      Filter(sales, Within(WeekStart(i), WeekEnd(i)))
    }

    /** The start of the monthly bucket: `i` months before now. */
    function MonthStart(i: nat): Date {
      cal.adding(Calendars.Month, -(i as int), now).GetOr(now)
    }

    /** The end of the monthly bucket: one month after its start. */
    function MonthEnd(i: nat): Date {
      cal.adding(Calendars.Month, 1, MonthStart(i)).GetOr(now)
    }

    /** The sales in the half-open monthly bucket `[MonthStart(i), MonthEnd(i))`. */
    function MonthSales(i: nat): (r: seq<Sale>)
      ensures forall x :: x in r <==> x in sales && MonthStart(i) <= x.date < MonthEnd(i)
    {
      Filter(sales, Within(MonthStart(i), MonthEnd(i)))
    }

    /** The point for the bucket `i` steps back from now: income, eggs or mean price
        per dozen of the bucket's sales, labelled by weekday, week number or month. */
    function Bucket(i: nat): ChartDataPoint {
      match (chartType, timeframe)
      case (Income, Week) => ChartDataPoint(cal.weekday(DayOf(i)), TotalPrice(DaySales(i)))
      case (Income, Month) => ChartDataPoint(i + 1, TotalPrice(WeekSales(i)))
      case (Income, Year) => ChartDataPoint(cal.month(MonthStart(i)), TotalPrice(MonthSales(i)))
      case (Quantity, _) => ChartDataPoint(cal.weekday(DayOf(i)), TotalQuantity(DaySales(i)) as real)
      case (AveragePrice, _) => ChartDataPoint(cal.weekday(DayOf(i)), MeanPricePerDozen(DaySales(i)))
    }

    /** `points` holds one point per bucket, the current bucket first. */
    predicate InBucketOrder(points: seq<ChartDataPoint>) {
      |points| == BucketCount() && forall k :: 0 <= k < |points| ==> points[k] == Bucket(k)
    }

    /** The loop of `chartData` for the income-per-week chart: today and the six days before. */
    method DailyIncomePoints() returns (points: seq<ChartDataPoint>)
      requires chartType == Income && timeframe == Week
      ensures |points| == 7 && InBucketOrder(points)
    {
      points := [];
      for i := 0 to 7
        invariant |points| == i && forall k :: 0 <= k < i ==> points[k] == Bucket(k)
      {
        var date := cal.adding(Day, -i, now).GetOr(now);
        var daySales := Filter(sales, OnSameDay(cal, date));
        var income := TotalPrice(daySales);
        points := points + [ChartDataPoint(cal.weekday(date), income)];
      }
    }

    /** The loop of `chartData` for the income-per-month chart: this week and the three before. */
    method WeeklyIncomePoints() returns (points: seq<ChartDataPoint>)
      requires chartType == Income && timeframe == Timeframe.Month
      ensures |points| == 4 && InBucketOrder(points)
    {
      points := [];
      for i := 0 to 4
        invariant |points| == i && forall k :: 0 <= k < i ==> points[k] == Bucket(k)
      {
        var weekStart := cal.adding(WeekOfYear, -i, now).GetOr(now);
        var weekEnd := cal.adding(Day, 7, weekStart).GetOr(now);
        var weekSales := Filter(sales, Within(weekStart, weekEnd));
        var income := TotalPrice(weekSales);
        points := points + [ChartDataPoint(i + 1, income)];
      }
    }

    /** The loop of `chartData` for the income-per-year chart: this month and the eleven before. */
    method MonthlyIncomePoints() returns (points: seq<ChartDataPoint>)
      requires chartType == Income && timeframe == Timeframe.Year
      ensures |points| == 12 && InBucketOrder(points)
    {
      points := [];
      for i := 0 to 12
        invariant |points| == i && forall k :: 0 <= k < i ==> points[k] == Bucket(k)
      {
        var monthStart := cal.adding(Calendars.Month, -i, now).GetOr(now);
        var monthEnd := cal.adding(Calendars.Month, 1, monthStart).GetOr(now);
        var monthSales := Filter(sales, Within(monthStart, monthEnd));
        var income := TotalPrice(monthSales);
        points := points + [ChartDataPoint(cal.month(monthStart), income)];
      }
    }

    /** The loop of `chartData` for the quantity chart: eggs sold today and on the six days before. */
    method DailyQuantityPoints() returns (points: seq<ChartDataPoint>)
      requires chartType == Quantity
      ensures |points| == 7 && InBucketOrder(points)
    {
      points := [];
      for i := 0 to 7
        invariant |points| == i && forall k :: 0 <= k < i ==> points[k] == Bucket(k)
      {
        var date := cal.adding(Day, -i, now).GetOr(now);
        var daySales := Filter(sales, OnSameDay(cal, date));
        var quantity := TotalQuantity(daySales);
        points := points + [ChartDataPoint(cal.weekday(date), quantity as real)];
      }
    }

    /** The loop of `chartData` for the average-price chart: the mean price per dozen of
        today's sales and of each of the six days before, zero on a day without sales. */
    method DailyAveragePricePoints() returns (points: seq<ChartDataPoint>)
      requires chartType == AveragePrice
      ensures |points| == 7 && InBucketOrder(points)
    {
      points := [];
      for i := 0 to 7
        invariant |points| == i && forall k :: 0 <= k < i ==> points[k] == Bucket(k)
      {
        var date := cal.adding(Day, -i, now).GetOr(now);
        var daySales := Filter(sales, OnSameDay(cal, date));
        var avgPrice := if daySales == [] then 0.0 else SumReal(daySales, PerDozen) / (|daySales| as real);
        points := points + [ChartDataPoint(cal.weekday(date), avgPrice)];
      }
    }

    /** The loop of `chartData` that suits the chart type and timeframe. */
    method BucketPoints() returns (points: seq<ChartDataPoint>)
      ensures InBucketOrder(points)
    {
      match (chartType, timeframe) {
        case (Income, Week) => points := DailyIncomePoints();
        case (Income, Month) => points := WeeklyIncomePoints();
        case (Income, Year) => points := MonthlyIncomePoints();
        case (Quantity, _) => points := DailyQuantityPoints();
        case (AveragePrice, _) => points := DailyAveragePricePoints();
      }
    }

    /** `chartData`: one point per bucket, built from now backwards and then reversed,
        so that the first point is the oldest bucket and the last is the current one. */
    method ChartData() returns (data: seq<ChartDataPoint>)
      ensures |data| == BucketCount()
      ensures forall k :: 0 <= k < |data| ==> data[k] == Bucket(|data| - 1 - k)
    {
      var points := BucketPoints();
      data := Reversed(points);
      forall k | 0 <= k < |data| ensures data[k] == Bucket(|data| - 1 - k) {
        assert data[k] == points[|points| - 1 - k];
      }
    }

    /** The quantity and average-price charts do not depend on the timeframe: under
        every timeframe they have the same seven daily points. */
    lemma DailyChartsIgnoreTimeframe(other: Timeframe)
      requires chartType != Income
      ensures BucketCount() == this.(timeframe := other).BucketCount() == 7
      ensures forall i :: Bucket(i) == this.(timeframe := other).Bucket(i)
    {
    }

    /** With a calendar whose week arithmetic is exact (a week is `w` > 0 time units),
        the four weekly buckets tile `[now - 3w, now + w)`: their incomes add up to the
        income of that span. The income-per-month chart therefore covers the three
        weeks before now and the week after it. */
    lemma WeeklyBucketsTile(w: int)
      requires w > 0
      requires cal.adding(WeekOfYear, 0, now) == Some(now)
      requires cal.adding(WeekOfYear, -1, now) == Some(now - w)
      requires cal.adding(WeekOfYear, -2, now) == Some(now - 2 * w)
      requires cal.adding(WeekOfYear, -3, now) == Some(now - 3 * w)
      requires forall t :: cal.adding(Day, 7, t) == Some(t + w)
      ensures TotalPrice(WeekSales(3)) + TotalPrice(WeekSales(2)) + TotalPrice(WeekSales(1)) + TotalPrice(WeekSales(0))
              == TotalPrice(Filter(sales, Within(now - 3 * w, now + w)))
    {
      var a, b, c, d, e := now - 3 * w, now - 2 * w, now - w, now, now + w;
      assert WeekSales(0) == Filter(sales, Within(d, e));
      assert WeekSales(1) == Filter(sales, Within(c, d));
      assert WeekSales(2) == Filter(sales, Within(b, c));
      assert WeekSales(3) == Filter(sales, Within(a, b));
      WithinSplit(sales, a, b, c);
      WithinSplit(sales, a, c, d);
      WithinSplit(sales, a, d, e);
    }

    /** The current weekly bucket of the income-per-month chart starts at now and runs
        seven days forward: with a calendar for which stepping zero weeks is the
        identity, no sale dated before now is ever counted in it. */
    lemma CurrentWeekBucketStartsNow()
      requires cal.adding(WeekOfYear, 0, now) == Some(now)
      ensures forall x :: x in sales && x.date < now ==> x !in WeekSales(0)
    {
    }
  }
}
