/** The overview page (src/app/overview/overview.component.ts): the figures
    of the current month and the latest transactions, as pure functions of
    the loaded collections and of "now". */
module Overview {
  import opened Models
  import opened Seqs
  import opened Chronology
  import TransactionsView

  const RecentCount: nat := 5

  /** `totalBalance`: accounts carry no balance, so the figure is fixed. */
  function TotalBalance(accounts: seq<Account>): (r: real)
    ensures r == 0.0
  {
    0.0
  }

  /** The transaction is an expense dated in now's month of now's year. */
  function ThisMonthExpense(now: Date): Transaction -> bool {
    (t: Transaction) => DateOf(t).month == now.month && DateOf(t).year == now.year && IsExpense(t)
  }

  /** `monthlyExpenses`: the amounts of this month's expenses; 0 when the
      month has none. */
  function MonthlyExpenses(transactions: seq<Transaction>, now: Date): (r: real)
    ensures (forall i :: 0 <= i < |transactions| ==> !ThisMonthExpense(now)(transactions[i])) ==> r == 0.0
  {
    NoneSelectedIsEmpty(transactions, ThisMonthExpense(now));
    Total(Filter(transactions, ThisMonthExpense(now)))
  }

  /** An income never counts towards the monthly expenses, wherever it sits
      in the list. */
  lemma MonthlyExpensesIgnoreIncome(a: seq<Transaction>, income: Income, b: seq<Transaction>, now: Date)
    ensures MonthlyExpenses(a + [Inc(income)] + b, now) == MonthlyExpenses(a + b, now)
  {
    var p := ThisMonthExpense(now);
    TotalFilterAppend(a + [Inc(income)], b, p);
    TotalFilterAppend(a, [Inc(income)], p);
    FilterSingle(Inc(income), p);
    TotalFilterAppend(a, b, p);
  }

  /** An expense of now's month adds exactly its amount. */
  lemma MonthlyExpensesCountExpense(a: seq<Transaction>, expense: Expense, now: Date)
    requires expense.info.executionDate.month == now.month && expense.info.executionDate.year == now.year
    ensures MonthlyExpenses(a + [Exp(expense)], now) == MonthlyExpenses(a, now) + expense.info.amount
  {
    var p := ThisMonthExpense(now);
    TotalFilterAppend(a, [Exp(expense)], p);
    FilterSingle(Exp(expense), p);
    assert [Exp(expense)][1..] == [];
  }

  function InYearMonth(year: int, m: int): Transaction -> bool {
    (t: Transaction) => DateOf(t).year == year && DateOf(t).month == m
  }

  /** The overview's monthly expenses agree with the expense total of the
      current month on the transactions page viewing now's year. */
  lemma MonthlyExpensesMatchTransactionsPage(all: seq<Transaction>, now: Date)
    ensures var r := TransactionsView.MonthlyGroups(all, now.year, now);
      exists i :: 0 <= i < |r| && r[i].date.month == now.month && r[i].totalExpense == MonthlyExpenses(all, now)
  {
    var r := TransactionsView.MonthlyGroups(all, now.year, now);
    TransactionsView.CurrentYearMonths(all, now, now.month);
    var i :| 0 <= i < |r| && r[i].date.month == now.month;
    TransactionsView.GroupIsSortedBucket(all, now.year, now);
    FilterFilter(all, TransactionsView.InYear(now.year), TransactionsView.MonthIs(now.month), InYearMonth(now.year, now.month));
    FilterFilter(all, InYearMonth(now.year, now.month), IsExpense, ThisMonthExpense(now));
  }

  function IsMonthlyBudget(b: Budget): bool { b.info.cycle.kind == Monthly }

  function BudgetTotal(bs: seq<Budget>): real {
    if bs == [] then 0.0 else bs[0].info.amount + BudgetTotal(bs[1..])
  }

  /** `monthlyBudget`: the amounts of the budgets whose cycle is monthly;
      0 when no budget is monthly. */
  function MonthlyBudget(budgets: seq<Budget>): (r: real)
    ensures (forall i :: 0 <= i < |budgets| ==> !IsMonthlyBudget(budgets[i])) ==> r == 0.0
  {
    NoneSelectedIsEmpty(budgets, IsMonthlyBudget);
    BudgetTotal(Filter(budgets, IsMonthlyBudget))
  }

  lemma {:induction false} BudgetTotalAppend(a: seq<Budget>, b: seq<Budget>)
    ensures BudgetTotal(a + b) == BudgetTotal(a) + BudgetTotal(b)
  {
    if a == [] {
      assert a + b == b;
    } else {
      assert (a + b)[1..] == a[1..] + b;
      BudgetTotalAppend(a[1..], b);
    }
  }

  /** Each budget adds its amount when its cycle is monthly and nothing
      otherwise. */
  lemma MonthlyBudgetStep(budgets: seq<Budget>, b: Budget)
    ensures MonthlyBudget(budgets + [b]) == MonthlyBudget(budgets) + (if b.info.cycle.kind == Monthly then b.info.amount else 0.0)
  {
    FilterAppend(budgets, [b], IsMonthlyBudget);
    FilterSingle(b, IsMonthlyBudget);
    BudgetTotalAppend(Filter(budgets, IsMonthlyBudget), Filter([b], IsMonthlyBudget));
    assert [b][1..] == [];
  }

  /** `budgetProgress`: zero when there is no monthly budget, otherwise the
      expenses as a percentage of the budget. */
  function BudgetProgress(transactions: seq<Transaction>, budgets: seq<Budget>, now: Date): (r: real)
    ensures MonthlyBudget(budgets) == 0.0 ==> r == 0.0
    ensures MonthlyBudget(budgets) != 0.0 ==> r * MonthlyBudget(budgets) == MonthlyExpenses(transactions, now) * 100.0
  {
    var budget := MonthlyBudget(budgets);
    if budget == 0.0 then 0.0 else (MonthlyExpenses(transactions, now) / budget) * 100.0
  }

  /** `recentTransactions`: the first five of the list, or all when fewer. */
  function RecentTransactions(transactions: seq<Transaction>): (r: seq<Transaction>)
    ensures |r| == if |transactions| < RecentCount then |transactions| else RecentCount
    ensures r == transactions[..|r|]
  {
    if |transactions| < RecentCount then transactions else transactions[..RecentCount]
  }

  /** On a list ordered newest first, none of the transactions left out is
      newer than one that is shown. */
  lemma RecentAreLatest(transactions: seq<Transaction>)
    requires SortedNewestFirst(transactions)
    ensures var r := RecentTransactions(transactions);
      forall i, j :: 0 <= i < |r| <= j < |transactions| ==> NotAfter(DateOf(transactions[j]), DateOf(r[i]))
  {
  }
}
