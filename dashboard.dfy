/**
 * The dashboard's figures (components/Dashboard.tsx): the KPI folds over sales
 * and expenses, the efficiency margin, the target-margin input and the
 * six-month chart.
 */
module Dashboard {
  import opened Wrappers
  import opened Types
  import opened Seqs
  import Store

  // ---------------------------------------------------------------- KPIs

  /** Sum of the sale prices. */
  function TotalRevenue(sales: seq<Sale>): (r: int)
    ensures sales == [] ==> r == 0
  {
    Sum(sales, SalePrice)
  }

  /** Sum of the profits recorded at sale time. */
  function SalesProfit(sales: seq<Sale>): (r: int)
    ensures sales == [] ==> r == 0
  {
    Sum(sales, SaleProfit)
  }

  /** Sum of all expense amounts. */
  function TotalExpenses(expenses: seq<Expense>): (r: int)
    ensures expenses == [] ==> r == 0
  {
    Sum(expenses, ExpenseAmount)
  }

  /** The expenses of category Manutenção. */
  function MaintenanceItems(expenses: seq<Expense>): seq<Expense> {
    Filter(expenses, IsMaintenance)
  }

  /** Sum of the amounts of the maintenance expenses only. */
  function MaintenanceExpenses(expenses: seq<Expense>): (r: int)
    ensures (forall e :: e in expenses ==> e.category != Manutencao) ==> r == 0
  {
    var items := MaintenanceItems(expenses);
    assert items != [] ==> items[0] in items;
    Sum(items, ExpenseAmount)
  }

  /** Sales profit less vehicle maintenance; expenses of other categories do not lower it. */
  function GrossProfit(sales: seq<Sale>, expenses: seq<Expense>): (r: int)
    ensures (forall e :: e in expenses ==> e.category != Manutencao) ==> r == SalesProfit(sales)
  {
    SalesProfit(sales) - MaintenanceExpenses(expenses)
  }

  /**
   * Sales profit less every expense: gross and net profit differ by exactly
   * the expenses that are not maintenance.
   */
  function NetProfit(sales: seq<Sale>, expenses: seq<Expense>): (r: int)
    ensures expenses == [] ==> r == SalesProfit(sales)
    ensures r == GrossProfit(sales, expenses) - Sum(Filter(expenses, Not(IsMaintenance)), ExpenseAmount)
  {
    SumFilterComplement(expenses, IsMaintenance, ExpenseAmount);
    SalesProfit(sales) - TotalExpenses(expenses)
  }

  /**
   * `currentMargin`: net profit as a percentage of gross profit, 0 unless
   * gross profit is positive; at most 100 when net does not exceed gross.
   */
  function Margin(gross: int, net: int): (m: real)
    ensures gross <= 0 ==> m == 0.0
    ensures gross > 0 ==> m * (gross as real) == (net as real) * 100.0
    ensures 0 < gross && net <= gross ==> m <= 100.0
  {
    if gross > 0 then
      var ratio := (net as real) / (gross as real);
      assert ratio * (gross as real) == net as real;
      assert net <= gross ==> ratio <= 1.0;
      ratio * 100.0
    else 0.0
  }

  /** The number of vehicles in stock: every vehicle counts exactly when it is available. */
  function VehiclesInStock(vehicles: seq<Vehicle>): (n: nat)
    ensures n <= |vehicles|
    ensures n == |vehicles| <==> forall i :: 0 <= i < |vehicles| ==> vehicles[i].status == Available
    ensures n == 0 <==> forall v :: v in vehicles ==> v.status != Available
  {
    var stock := Filter(vehicles, IsAvailable);
    assert stock != [] ==> stock[0] in stock;
    |stock|
  }

  /** Counting stock one vehicle at a time: a vehicle adds one exactly when it is available. */
  lemma VehiclesInStockStep(v: Vehicle, vehicles: seq<Vehicle>)
    ensures VehiclesInStock([v] + vehicles) == VehiclesInStock(vehicles) + (if v.status == Available then 1 else 0)
  {
    FilterConcat([v], vehicles, IsAvailable);
    assert [v][1..] == [];
    assert Filter([], IsAvailable) == [];
    assert Filter([v], IsAvailable) == if v.status == Available then [v] else [];
  }

  /** With non-negative amounts, maintenance is a part of the total expenses. */
  lemma MaintenanceWithinTotal(expenses: seq<Expense>)
    requires forall e :: e in expenses ==> e.amount >= 0
    ensures 0 <= MaintenanceExpenses(expenses) <= TotalExpenses(expenses)
  {
    SumFilterAtMost(expenses, IsMaintenance, ExpenseAmount);
  }

  /** With non-negative amounts net profit never exceeds gross profit. */
  lemma NetAtMostGross(sales: seq<Sale>, expenses: seq<Expense>)
    requires forall e :: e in expenses ==> e.amount >= 0
    ensures NetProfit(sales, expenses) <= GrossProfit(sales, expenses)
  {
    var others := Filter(expenses, Not(IsMaintenance));
    assert forall e :: e in others ==> e in expenses;
    SumNonNegative(others, ExpenseAmount);
  }

  /** With non-negative amounts the margin is at most 100. */
  lemma MarginAtMostHundred(sales: seq<Sale>, expenses: seq<Expense>)
    requires forall e :: e in expenses ==> e.amount >= 0
    ensures Margin(GrossProfit(sales, expenses), NetProfit(sales, expenses)) <= 100.0
  {
    NetAtMostGross(sales, expenses);
  }

  // ------------------------------------------------------- target margin

  /**
   * The new profile after the target input changes to `parsed` (None when the
   * text is not a number): only a value in [0, 100] is taken, and only the
   * target changes.
   */
  function TargetChange(profile: StoreProfile, parsed: Option<real>): (r: StoreProfile)
    ensures r.name == profile.name && r.email == profile.email && r.phone == profile.phone
    ensures parsed.Some? && 0.0 <= parsed.value <= 100.0 ==> r.targetMargin == parsed.value
    ensures !(parsed.Some? && 0.0 <= parsed.value <= 100.0) ==> r == profile
    ensures 0.0 <= profile.targetMargin <= 100.0 ==> 0.0 <= r.targetMargin <= 100.0
  {
    if parsed.Some? && 0.0 <= parsed.value <= 100.0 then profile.(targetMargin := parsed.value) else profile
  }

  /** `handleTargetChange`: the store's profile is updated only for an accepted value. */
  method HandleTargetChange(store: Store.StoreState, parsed: Option<real>)
    requires store.Valid()
    modifies store`storeProfile
    ensures store.Valid()
    ensures store.storeProfile == TargetChange(old(store.storeProfile), parsed)
  {
    if parsed.Some? && 0.0 <= parsed.value <= 100.0 {
      store.UpdateStoreProfile(store.storeProfile.(targetMargin := parsed.value));
    }
  }

  // --------------------------------------------------------------- chart

  /** A chart key: a year and a month counted from 0. */
  datatype YearMonth = YearMonth(year: int, month: int)

  /** Months since year 0. */
  function MonthIndex(m: YearMonth): int { m.year * 12 + m.month }

  /** The month `k` months after January of year 0, as `new Date(y, m, 1)` normalises an out-of-range month. */
  function MonthAt(k: int): (m: YearMonth)
    ensures MonthIndex(m) == k && 0 <= m.month < 12
  {
    YearMonth(k / 12, k % 12)
  }

  /** The month bucket `j` (0 to 5) of a chart drawn on `today`: five months back up to the current one. */
  function WindowMonth(today: Date, j: int): YearMonth {
    MonthAt(today.year * 12 + today.month - 5 + j)
  }

  /** The month a record dated `d` belongs to. */
  function MonthOf(d: Date): YearMonth { YearMonth(d.year, d.month) }

  function SaleInMonth(m: YearMonth): Sale -> bool {
    (s: Sale) => MonthOf(s.date) == m
  }

  function ExpenseInMonth(m: YearMonth): Expense -> bool {
    (e: Expense) => MonthOf(e.date) == m
  }

  function SalesIn(sales: seq<Sale>, m: YearMonth): seq<Sale> {
    Filter(sales, SaleInMonth(m))
  }

  function ExpensesIn(expenses: seq<Expense>, m: YearMonth): seq<Expense> {
    Filter(expenses, ExpenseInMonth(m))
  }

  /** One bar group of the chart. */
  datatype Bucket = Bucket(month: YearMonth, sales: int, grossProfit: int, expenses: int, netProfit: int)

  /** The six months of the window are distinct and consecutive. */
  lemma WindowConsecutive(today: Date, j: int, k: int)
    ensures MonthIndex(WindowMonth(today, k)) - MonthIndex(WindowMonth(today, j)) == k - j
    ensures j != k ==> WindowMonth(today, j) != WindowMonth(today, k)
  {
  }

  /** Adding one sale to the records adds it to the totals of its own month only. */
  lemma SalesStep(prefix: seq<Sale>, sale: Sale, m: YearMonth)
    ensures Sum(SalesIn(prefix + [sale], m), SalePrice)
            == Sum(SalesIn(prefix, m), SalePrice) + (if MonthOf(sale.date) == m then sale.salePrice else 0)
    ensures Sum(SalesIn(prefix + [sale], m), SaleProfit)
            == Sum(SalesIn(prefix, m), SaleProfit) + (if MonthOf(sale.date) == m then sale.profit else 0)
  {
    SumFilterSnoc(prefix, sale, SaleInMonth(m), SalePrice);
    SumFilterSnoc(prefix, sale, SaleInMonth(m), SaleProfit);
  }

  /** Adding one expense to the records adds it to the total of its own month only. */
  lemma ExpensesStep(prefix: seq<Expense>, expense: Expense, m: YearMonth)
    ensures Sum(ExpensesIn(prefix + [expense], m), ExpenseAmount)
            == Sum(ExpensesIn(prefix, m), ExpenseAmount) + (if MonthOf(expense.date) == m then expense.amount else 0)
  {
    SumFilterSnoc(prefix, expense, ExpenseInMonth(m), ExpenseAmount);
  }

  /** The first bucket whose month is `m`, as `dataMap.has(key)` / `dataMap.get(key)` find it. */
  method FindBucket(buckets: seq<Bucket>, m: YearMonth) returns (k: Option<nat>)
    ensures k.None? ==> forall j :: 0 <= j < |buckets| ==> buckets[j].month != m
    ensures k.Some? ==> k.value < |buckets| && buckets[k.value].month == m
  {
    var j := 0;
    while j < |buckets|
      invariant 0 <= j <= |buckets|
      invariant forall i :: 0 <= i < j ==> buckets[i].month != m
    {
      if buckets[j].month == m {
        return Some(j);
      }
      j := j + 1;
    }
    return None;
  }

  /** The buckets are the six months of the window drawn on `today`, in order. */
  predicate IsWindow(buckets: seq<Bucket>, today: Date) {
    |buckets| == 6 && forall j :: 0 <= j < 6 ==> buckets[j].month == WindowMonth(today, j)
  }

  /** The current month is the last of the window. */
  lemma WindowEndsToday(today: Date)
    requires 0 <= today.month < 12
    ensures WindowMonth(today, 5) == MonthOf(today)
  {
    var k := today.year * 12 + today.month;
    assert k / 12 == today.year && k % 12 == today.month;
  }

  /** The first loop of `chartData`: one empty bucket per month, oldest first. */
  method EmptyWindow(today: Date) returns (buckets: seq<Bucket>)
    ensures IsWindow(buckets, today)
    ensures forall j :: 0 <= j < 6 ==> buckets[j] == Bucket(WindowMonth(today, j), 0, 0, 0, 0)
  {
    buckets := [];
    var i := 5;
    while i >= 0
      invariant -1 <= i <= 5
      invariant |buckets| == 5 - i
      invariant forall j :: 0 <= j < |buckets| ==> buckets[j] == Bucket(WindowMonth(today, j), 0, 0, 0, 0)
    {
      buckets := buckets + [Bucket(MonthAt(today.year * 12 + today.month - i), 0, 0, 0, 0)];
      i := i - 1;
    }
  }

  /** One step of the `sales.forEach` loop: the sale is added to the bucket of its month, if any. */
  method PlaceSale(buckets: seq<Bucket>, sale: Sale, today: Date) returns (r: seq<Bucket>)
    requires IsWindow(buckets, today)
    ensures IsWindow(r, today)
    ensures forall j :: 0 <= j < 6 ==>
              var hit := MonthOf(sale.date) == buckets[j].month;
              && r[j].sales == buckets[j].sales + (if hit then sale.salePrice else 0)
              && r[j].grossProfit == buckets[j].grossProfit + (if hit then sale.profit else 0)
              && r[j].expenses == buckets[j].expenses
  {
    r := buckets;
    var k := FindBucket(buckets, MonthOf(sale.date));
    if k.Some? {
      forall j | 0 <= j < 6 && j != k.value
        ensures buckets[j].month != MonthOf(sale.date)
      {
        WindowConsecutive(today, j, k.value);
      }
      var entry := buckets[k.value];
      r := buckets[k.value := entry.(sales := entry.sales + sale.salePrice,
                                     grossProfit := entry.grossProfit + sale.profit)];
    }
  }

  /** The `sales.forEach` loop: each sale goes to the bucket of its month, if there is one. */
  method AddSales(window: seq<Bucket>, sales: seq<Sale>, today: Date) returns (buckets: seq<Bucket>)
    requires IsWindow(window, today)
    requires forall j :: 0 <= j < 6 ==> window[j].sales == 0 && window[j].grossProfit == 0
    ensures IsWindow(buckets, today)
    ensures forall j :: 0 <= j < 6 ==>
              && buckets[j].sales == Sum(SalesIn(sales, buckets[j].month), SalePrice)
              && buckets[j].grossProfit == Sum(SalesIn(sales, buckets[j].month), SaleProfit)
              && buckets[j].expenses == window[j].expenses
  {
    buckets := window;
    var n := 0;
    while n < |sales|
      invariant 0 <= n <= |sales|
      invariant IsWindow(buckets, today)
      invariant forall j :: 0 <= j < 6 ==>
                  && buckets[j].sales == Sum(SalesIn(sales[..n], buckets[j].month), SalePrice)
                  && buckets[j].grossProfit == Sum(SalesIn(sales[..n], buckets[j].month), SaleProfit)
                  && buckets[j].expenses == window[j].expenses
    {
      var sale := sales[n];
      assert sales[..n + 1] == sales[..n] + [sale];
      forall j | 0 <= j < 6 {
        SalesStep(sales[..n], sale, buckets[j].month);
      }
      buckets := PlaceSale(buckets, sale, today);
      n := n + 1;
    }
    assert sales[..n] == sales;
  }

  /** One step of the `expenses.forEach` loop: the expense is added to the bucket of its month, if any. */
  method PlaceExpense(buckets: seq<Bucket>, expense: Expense, today: Date) returns (r: seq<Bucket>)
    requires IsWindow(buckets, today)
    ensures IsWindow(r, today)
    ensures forall j :: 0 <= j < 6 ==>
              && r[j].expenses == buckets[j].expenses + (if MonthOf(expense.date) == buckets[j].month then expense.amount else 0)
              && r[j].sales == buckets[j].sales
              && r[j].grossProfit == buckets[j].grossProfit
  {
    r := buckets;
    var k := FindBucket(buckets, MonthOf(expense.date));
    if k.Some? {
      forall j | 0 <= j < 6 && j != k.value
        ensures buckets[j].month != MonthOf(expense.date)
      {
        WindowConsecutive(today, j, k.value);
      }
      var entry := buckets[k.value];
      r := buckets[k.value := entry.(expenses := entry.expenses + expense.amount)];
    }
  }

  /** The `expenses.forEach` loop: each expense goes to the bucket of its month, if there is one. */
  method AddExpenses(window: seq<Bucket>, expenses: seq<Expense>, today: Date) returns (buckets: seq<Bucket>)
    requires IsWindow(window, today)
    requires forall j :: 0 <= j < 6 ==> window[j].expenses == 0
    ensures IsWindow(buckets, today)
    ensures forall j :: 0 <= j < 6 ==>
              && buckets[j].expenses == Sum(ExpensesIn(expenses, buckets[j].month), ExpenseAmount)
              && buckets[j].sales == window[j].sales
              && buckets[j].grossProfit == window[j].grossProfit
  {
    buckets := window;
    var n := 0;
    while n < |expenses|
      invariant 0 <= n <= |expenses|
      invariant IsWindow(buckets, today)
      invariant forall j :: 0 <= j < 6 ==>
                  && buckets[j].expenses == Sum(ExpensesIn(expenses[..n], buckets[j].month), ExpenseAmount)
                  && buckets[j].sales == window[j].sales
                  && buckets[j].grossProfit == window[j].grossProfit
    {
      var expense := expenses[n];
      assert expenses[..n + 1] == expenses[..n] + [expense];
      forall j | 0 <= j < 6 {
        ExpensesStep(expenses[..n], expense, buckets[j].month);
      }
      buckets := PlaceExpense(buckets, expense, today);
      n := n + 1;
    }
    assert expenses[..n] == expenses;
  }

  /**
   * `chartData`: six buckets for consecutive months, oldest first, ending at
   * the month of `today`; each totals exactly the sales and expenses dated in
   * its month (records outside the window are dropped), and its net profit is
   * its gross profit less its expenses.
   */
  method ChartData(sales: seq<Sale>, expenses: seq<Expense>, today: Date) returns (chart: seq<Bucket>)
    ensures |chart| == 6
    ensures forall j :: 0 <= j < 6 ==> chart[j].month == WindowMonth(today, j)
    ensures forall j :: 0 <= j < 5 ==> MonthIndex(chart[j + 1].month) == MonthIndex(chart[j].month) + 1
    ensures 0 <= today.month < 12 ==> chart[5].month == MonthOf(today)
    ensures forall j :: 0 <= j < 6 ==>
              && chart[j].sales == Sum(SalesIn(sales, chart[j].month), SalePrice)
              && chart[j].grossProfit == Sum(SalesIn(sales, chart[j].month), SaleProfit)
              && chart[j].expenses == Sum(ExpensesIn(expenses, chart[j].month), ExpenseAmount)
              && chart[j].netProfit == chart[j].grossProfit - chart[j].expenses
  {
    var buckets := EmptyWindow(today);
    buckets := AddSales(buckets, sales, today);
    buckets := AddExpenses(buckets, expenses, today);
    chart := [];
    var n := 0;
    while n < 6
      invariant 0 <= n <= 6
      invariant |chart| == n
      invariant forall j :: 0 <= j < n ==> chart[j] == buckets[j].(netProfit := buckets[j].grossProfit - buckets[j].expenses)
    {
      chart := chart + [buckets[n].(netProfit := buckets[n].grossProfit - buckets[n].expenses)];
      n := n + 1;
    }
    forall j | 0 <= j < 5 {
      WindowConsecutive(today, j, j + 1);
    }
    if 0 <= today.month < 12 {
      WindowEndsToday(today);
    }
  }

  // ------------------------------------------- date parsing, as written

  /**
   * The month that `new Date("YYYY-MM-DD")` followed by `getFullYear` and
   * `getMonth` reports for a date-only text: the text is read as midnight UTC
   * and the month is taken in local time. West of UTC (a negative offset, in
   * minutes, of less than a day) the first day of a month is reported as the
   * last day of the previous one.
   */
  function ParsedMonthAsWritten(d: Date, utcOffsetMinutes: int): (m: YearMonth)
    requires -24 * 60 < utcOffsetMinutes < 24 * 60
    ensures utcOffsetMinutes >= 0 || d.day != 1 ==> m == MonthOf(d)
    ensures utcOffsetMinutes < 0 && d.day == 1 ==> MonthIndex(m) == MonthIndex(MonthOf(d)) - 1
  {
    if utcOffsetMinutes < 0 && d.day == 1 then MonthAt(MonthIndex(MonthOf(d)) - 1) else MonthOf(d)
  }

  /**
   * In Brasília time (UTC-3) a sale dated on the first day of the oldest month
   * of the window is bucketed, as written, into no month of the window; the
   * month of its own date is the first bucket.
   */
  lemma FirstOfOldestMonthDropped(today: Date)
    ensures var oldest := WindowMonth(today, 0);
            var d := Date(oldest.year, oldest.month, 1);
            && MonthOf(d) == WindowMonth(today, 0)
            && forall j :: 0 <= j < 6 ==> ParsedMonthAsWritten(d, -180) != WindowMonth(today, j)
  {
    var oldest := WindowMonth(today, 0);
    var d := Date(oldest.year, oldest.month, 1);
    forall j | 0 <= j < 6
      ensures ParsedMonthAsWritten(d, -180) != WindowMonth(today, j)
    {
      WindowConsecutive(today, 0, j);
    }
  }
}
