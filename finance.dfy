/**
 * The finance screen (components/Finance.tsx): the three totals and the
 * form that records a general expense.
 */
module Finance {
  import opened Wrappers
  import opened Types
  import opened Seqs
  import Store
  import Dashboard

  /** The three figures at the top of the screen. */
  datatype Totals = Totals(totalSales: int, totalExpenses: int, net: int)

  /**
   * The finance screen computes its own `totalSales`, `totalExpenses` and
   * `net`; they are the dashboard's revenue, total expenses and net profit
   * under other names, not a second definition of them.
   */
  function Summary(sales: seq<Sale>, expenses: seq<Expense>): (r: Totals)
    ensures r.totalSales == Dashboard.TotalRevenue(sales)
    ensures r.totalExpenses == Dashboard.TotalExpenses(expenses)
    ensures r.net == Dashboard.NetProfit(sales, expenses)
    ensures r.net == Dashboard.SalesProfit(sales) - r.totalExpenses
    ensures sales == [] && expenses == [] ==> r == Totals(0, 0, 0)
  {
    var totalExpenses := Sum(expenses, ExpenseAmount);
    Totals(Sum(sales, SalePrice), totalExpenses, Sum(sales, SaleProfit) - totalExpenses)
  }

  /** Recording an expense lowers the net by its amount and leaves the sales total alone. */
  lemma NetAfterExpense(sales: seq<Sale>, expenses: seq<Expense>, e: Expense)
    ensures Summary(sales, [e] + expenses).totalSales == Summary(sales, expenses).totalSales
    ensures Summary(sales, [e] + expenses).totalExpenses == Summary(sales, expenses).totalExpenses + e.amount
    ensures Summary(sales, [e] + expenses).net == Summary(sales, expenses).net - e.amount
  {
    SumConcat([e], expenses, ExpenseAmount);
    assert Sum([e], ExpenseAmount) == e.amount;
  }

  /** Recording a sale raises the sales total by its price and the net by its profit. */
  lemma NetAfterSale(sales: seq<Sale>, expenses: seq<Expense>, s: Sale)
    ensures Summary([s] + sales, expenses).totalSales == Summary(sales, expenses).totalSales + s.salePrice
    ensures Summary([s] + sales, expenses).totalExpenses == Summary(sales, expenses).totalExpenses
    ensures Summary([s] + sales, expenses).net == Summary(sales, expenses).net + s.profit
  {
    SumConcat([s], sales, SalePrice);
    SumConcat([s], sales, SaleProfit);
    assert Sum([s], SalePrice) == s.salePrice;
    assert Sum([s], SaleProfit) == s.profit;
  }

  /** The expense form; a category of `None` is the empty placeholder choice. */
  datatype ExpenseDraft = ExpenseDraft(description: string, category: Option<ExpenseCategory>, amount: int, date: Option<Date>)

  function BlankExpenseDraft(today: Date): ExpenseDraft {
    ExpenseDraft("", None, 0, Some(today))
  }

  /** A description, a category and a non-zero amount are all present. */
  predicate Complete(d: ExpenseDraft) {
    d.description != "" && d.amount != 0 && d.category.Some?
  }

  /** The expense a complete form records: linked to no vehicle, dated today when the date was cleared. */
  function ExpenseFromDraft(d: ExpenseDraft, id: string, today: Date): (e: Expense)
    requires Complete(d)
    ensures e.id == id && e.description == d.description && e.category == d.category.value && e.amount == d.amount
    ensures e.vehicleId == None
    ensures d.date.Some? ==> e.date == d.date.value
    ensures d.date.None? ==> e.date == today
  {
    Expense(id, d.description, d.category.value, d.amount, d.date.GetOr(today), None)
  }

  class FinanceView {
    const store: Store.StoreState
    var newExpense: ExpenseDraft

    constructor (store: Store.StoreState, today: Date)
      ensures this.store == store && newExpense == BlankExpenseDraft(today)
    {
      this.store := store;
      newExpense := BlankExpenseDraft(today);
    }

    /** `handleSubmit`: an incomplete form changes nothing; otherwise the expense is added first and the form is reset. */
    method HandleSubmit(id: string, today: Date)
      requires store.Valid()
      modifies this`newExpense, store`expenses
      ensures store.Valid()
      ensures !Complete(old(newExpense)) ==> store.expenses == old(store.expenses) && newExpense == old(newExpense)
      ensures Complete(old(newExpense)) ==>
                && store.expenses == [ExpenseFromDraft(old(newExpense), id, today)] + old(store.expenses)
                && newExpense == BlankExpenseDraft(today)
    {
      if !Complete(newExpense) {
        return;
      }
      store.AddExpense(ExpenseFromDraft(newExpense, id, today));
      newExpense := BlankExpenseDraft(today);
    }
  }
}
