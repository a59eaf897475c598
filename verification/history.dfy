/**
 * The sales history screen (`SalesHistoryView`): a date-range filter, then an
 * optional exact-name filter, then a sort by date, newest first; the totals over
 * what is shown; and the list of customers offered by its picker.
 */
module History {
  import opened Wrappers
  import opened Calendars
  import opened Seqs
  import opened Strings
  import opened Models

  /** The date ranges the screen offers (`DateRange`). */
  datatype DateRange = Today | ThisWeek | ThisMonth | Custom | AllTime

  /** The picker's sentinel entry, which switches the customer filter off. */
  const AllCustomers: string := "All Customers"

  /** The filter condition `$0.date >= start && $0.date <= end`, inclusive at both ends. */
  function Between(start: Date, end: Date): Sale -> bool {
    (s: Sale) => start <= s.date <= end
  }

  /** The screen's inputs: a snapshot of the ledger, the selected range and customer,
      the custom range's bounds, and the calendar and clock it reads. */
  datatype SalesHistoryView = SalesHistoryView(
    sales: seq<Sale>,
    dateRange: DateRange,
    selectedCustomer: string,
    customStartDate: Date,
    customEndDate: Date,
    cal: Calendar,
    now: Date)
  {
    /** Whether a sale lies in the selected date range. */
    predicate InDateRange(x: Sale) {
      match dateRange
      case Today => cal.sameDay(x.date, cal.startOfDay(now))
      case ThisWeek => x.date >= cal.StartOf(WeekOfYear, now)
      case ThisMonth => x.date >= cal.StartOf(Month, now)
      case Custom => customStartDate <= x.date <= customEndDate
      case AllTime => true
    }

    /** Whether a sale passes the customer filter. */
    predicate ForSelectedCustomer(x: Sale) {
      selectedCustomer == AllCustomers || x.buyerName == selectedCustomer
    }

    /** The ledger after the date-range filter, in ledger order. */
    function DateFiltered(): seq<Sale> {
      match dateRange
      case Today => Filter(sales, OnSameDay(cal, cal.startOfDay(now)))
      case ThisWeek => Since(sales, cal.StartOf(WeekOfYear, now))
      case ThisMonth => Since(sales, cal.StartOf(Month, now))
      case Custom => Filter(sales, Between(customStartDate, customEndDate))
      case AllTime => sales
    }

    /** The date-filtered sales after the customer filter, in ledger order. */
    function CustomerFiltered(): seq<Sale> {
      if selectedCustomer != AllCustomers then SalesOf(DateFiltered(), selectedCustomer)
      else DateFiltered()
    }

    /** `filteredSales`: the selected sales, newest first. */
    function FilteredSales(): (r: seq<Sale>)
      ensures SortedDesc(r, SaleDate)
      ensures multiset(r) == multiset(CustomerFiltered())
    {
      SortDesc(CustomerFiltered(), SaleDate)
    }

    /** The date-range filter keeps every copy of a sale in the range and no other. */
    lemma DateFilteredCount(x: Sale)
      ensures multiset(DateFiltered())[x] == if InDateRange(x) then multiset(sales)[x] else 0
    {
      match dateRange
      case Today => FilterCount(sales, OnSameDay(cal, cal.startOfDay(now)), x);
      case ThisWeek => FilterCount(sales, AtOrAfter(cal.StartOf(WeekOfYear, now)), x);
      case ThisMonth => FilterCount(sales, AtOrAfter(cal.StartOf(Month, now)), x);
      case Custom => FilterCount(sales, Between(customStartDate, customEndDate), x);
      case AllTime =>
    }

    /** What the screen lists is exactly the ledger's sales that lie in the date range
        and belong to the selected customer, each as often as it occurs in the ledger:
        the filters only drop sales and never invent them. */
    lemma FilteredSalesExactly(x: Sale)
      ensures multiset(FilteredSales())[x]
        == if InDateRange(x) && ForSelectedCustomer(x) then multiset(sales)[x] else 0
      ensures x in FilteredSales() <==> x in sales && InDateRange(x) && ForSelectedCustomer(x)
    {
      DateFilteredCount(x);
      if selectedCustomer != AllCustomers {
        FilterCount(DateFiltered(), BoughtBy(selectedCustomer), x);
      }
      assert x in FilteredSales() <==> x in multiset(FilteredSales());
    }

    /** `totalIncome`: the price sum of the selected sales; sorting them newest first
        does not change it. */
    function TotalIncome(): (r: real)
      ensures r == TotalPrice(CustomerFiltered())
    {
      SumPermutation(FilteredSales(), CustomerFiltered(), Price, Models.Quantity);
      TotalPrice(FilteredSales())
    }

    /** `totalEggs`: the egg sum of the selected sales; sorting them newest first does
        not change it. */
    function TotalEggs(): (r: int)
      ensures r == TotalQuantity(CustomerFiltered())
    {
      SumPermutation(FilteredSales(), CustomerFiltered(), Price, Models.Quantity);
      TotalQuantity(FilteredSales())
    }

    /** Over all time and all customers the screen shows the whole ledger, newest first,
        and its totals are the ledger's. */
    lemma AllTimeAllCustomersShowsLedger()
      requires dateRange == AllTime && selectedCustomer == AllCustomers
      ensures multiset(FilteredSales()) == multiset(sales)
      ensures TotalIncome() == TotalPrice(sales) && TotalEggs() == TotalQuantity(sales)
    {
    }

    /** Over all time, selecting one customer shows that customer's sales, and the totals
        agree with the customer's entry in the buyer statistics. A customer whose name
        is the sentinel cannot be singled out. */
    lemma AllTimeCustomerMatchesBuyerStats(buyers: seq<Buyer>, b: Buyer)
      requires dateRange == AllTime && selectedCustomer != AllCustomers
      requires IsBuyerStats(sales, buyers) && b in buyers && b.name == selectedCustomer
      ensures TotalIncome() == b.totalPaid && TotalEggs() == b.totalEggsPurchased
    {
    }

    /** `availableCustomers`: the sentinel, then every distinct buyer name of the ledger
        once, in ascending order. */
    function AvailableCustomers(): (r: seq<string>)
      ensures |r| >= 1 && r[0] == AllCustomers
      ensures StrictlyAscending(r[1..])
      ensures forall n :: n in r[1..] <==> n in Names(sales)
      ensures forall i, j :: 1 <= i < j < |r| ==> r[i] != r[j]
    {
      var names := seq(|sales|, i requires 0 <= i < |sales| => sales[i].buyerName);
      assert forall n :: n in names <==> n in Names(sales) by {
        forall n | n in Names(sales) ensures n in names {
          var s :| s in sales && s.buyerName == n;
          var i :| 0 <= i < |sales| && sales[i] == s;
          assert names[i] == n;
        }
      }
      var sorted := SortedDistinct(names);
      AscendingHasNoDuplicates(sorted);
      var r := [AllCustomers] + sorted;
      assert r[1..] == sorted;
      r
    }
  }
}
