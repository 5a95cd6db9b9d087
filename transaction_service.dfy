/** The expense and income repositories (src/shared/services/transaction.service.ts).
    Each call reads the whole stored collection, and a change writes the
    whole new collection back under the same key. */
module TransactionService {
  import opened Wrappers
  import opened Models
  import opened Seqs
  import opened Storage
  import opened Chronology

  const ExpensePrefix: string := "exp-"
  const IncomePrefix: string := "inc-"

  /** `[...expenses, ...incomes]` as transactions. */
  function Tagged(expenses: seq<Expense>, incomes: seq<Income>): (r: seq<Transaction>)
    ensures |r| == |expenses| + |incomes|
    ensures forall i :: 0 <= i < |expenses| ==> r[i] == Exp(expenses[i])
    ensures forall i :: 0 <= i < |incomes| ==> r[|expenses| + i] == Inc(incomes[i])
  {
    seq(|expenses|, i requires 0 <= i < |expenses| => Exp(expenses[i]))
      + seq(|incomes|, i requires 0 <= i < |incomes| => Inc(incomes[i]))
  }

  /** `getAllTransactions`: every expense and every income, newest first. */
  function AllTransactions(expenses: seq<Expense>, incomes: seq<Income>): (r: seq<Transaction>)
    ensures SortedNewestFirst(r)
    ensures multiset(r) == multiset(Tagged(expenses, incomes))
  {
    SortIsSortedPermutation(Tagged(expenses, incomes));
    SortNewestFirst(Tagged(expenses, incomes))
  }

  method GetExpenses(store: Store) returns (r: Result<seq<Expense>>)
    ensures store.backend == Firebase ==> r == Err(FirebaseUnsupported)
    ensures store.backend == Local ==> r == Ok(store.Expenses())
    ensures store.backend == Local && ExpensesKey !in store.items ==> r == Ok([])
  {
    var got := store.GetItem(ExpensesKey);
    if got.Err? {
      return Err(got.message);
    }
    match got.value
    case Some(ExpenseList(es)) => r := Ok(es);
    case _ => r := Ok([]);
  }

  method GetIncomes(store: Store) returns (r: Result<seq<Income>>)
    ensures store.backend == Firebase ==> r == Err(FirebaseUnsupported)
    ensures store.backend == Local ==> r == Ok(store.Incomes())
    ensures store.backend == Local && IncomesKey !in store.items ==> r == Ok([])
  {
    var got := store.GetItem(IncomesKey);
    if got.Err? {
      return Err(got.message);
    }
    match got.value
    case Some(IncomeList(ins)) => r := Ok(ins);
    case _ => r := Ok([]);
  }

  method GetAllTransactions(store: Store) returns (r: Result<seq<Transaction>>)
    ensures store.backend == Firebase ==> r == Err(FirebaseUnsupported)
    ensures store.backend == Local ==> r == Ok(AllTransactions(store.Expenses(), store.Incomes()))
  {
    var expenses := GetExpenses(store);
    if expenses.Err? {
      return Err(expenses.message);
    }
    var incomes := GetIncomes(store);
    match incomes
    case Err(message) => r := Err(message);
    case Ok(ins) => r := Ok(AllTransactions(expenses.value, ins));
  }

  /** `createExpense`: the input plus the id "exp-<stamp>" is appended. */
  method CreateExpense(store: Store, info: ExpenseInfo, stamp: string) returns (r: Result<Expense>)
    modifies store
    ensures store.backend == Firebase ==> r == Err(FirebaseUnsupported) && store.items == old(store.items)
    ensures store.backend == Local ==>
      && r == Ok(Expense(ExpensePrefix + stamp, info))
      && ExpensePrefix <= r.value.id
      && store.items == old(store.items)[ExpensesKey := ExpenseList(old(store.Expenses()) + [r.value])]
  {
    var newExpense := Expense(ExpensePrefix + stamp, info);
    var expenses := GetExpenses(store);
    if expenses.Err? {
      return Err(expenses.message);
    }
    var _ := store.SetItem(ExpensesKey, ExpenseList(expenses.value + [newExpense]));
    r := Ok(newExpense);
  }

  /** `updateExpense`: the first expense with the same id is overwritten; with
      no such expense nothing is written. The argument is returned either way. */
  method UpdateExpense(store: Store, updated: Expense) returns (r: Result<Expense>)
    modifies store
    ensures store.backend == Firebase ==> r == Err(FirebaseUnsupported) && store.items == old(store.items)
    ensures store.backend == Local ==>
      && r == Ok(updated)
      && store.items == (match ReplaceFirst(old(store.Expenses()), updated, ExpenseId)
                         case None => old(store.items)
                         case Some(es) => old(store.items)[ExpensesKey := ExpenseList(es)])
  {
    var expenses := GetExpenses(store);
    if expenses.Err? {
      return Err(expenses.message);
    }
    var replaced := ReplaceFirst(expenses.value, updated, ExpenseId);
    if replaced.Some? {
      var _ := store.SetItem(ExpensesKey, ExpenseList(replaced.value));
    }
    r := Ok(updated);
  }

  /** `deleteExpense`: every expense with the id is dropped, and the result is
      written even when nothing was dropped. */
  method DeleteExpense(store: Store, id: string) returns (r: Result<()>)
    modifies store
    ensures store.backend == Firebase ==> r == Err(FirebaseUnsupported) && store.items == old(store.items)
    ensures store.backend == Local ==>
      && r == Ok(())
      && store.items == old(store.items)[ExpensesKey := ExpenseList(RemoveById(old(store.Expenses()), id, ExpenseId))]
  {
    var expenses := GetExpenses(store);
    if expenses.Err? {
      return Err(expenses.message);
    }
    var _ := store.SetItem(ExpensesKey, ExpenseList(RemoveById(expenses.value, id, ExpenseId)));
    r := Ok(());
  }

  /** `createIncome`: the input plus the id "inc-<stamp>" is appended. */
  method CreateIncome(store: Store, info: IncomeInfo, stamp: string) returns (r: Result<Income>)
    modifies store
    ensures store.backend == Firebase ==> r == Err(FirebaseUnsupported) && store.items == old(store.items)
    ensures store.backend == Local ==>
      && r == Ok(Income(IncomePrefix + stamp, info))
      && IncomePrefix <= r.value.id
      && store.items == old(store.items)[IncomesKey := IncomeList(old(store.Incomes()) + [r.value])]
  {
    var newIncome := Income(IncomePrefix + stamp, info);
    var incomes := GetIncomes(store);
    if incomes.Err? {
      return Err(incomes.message);
    }
    var _ := store.SetItem(IncomesKey, IncomeList(incomes.value + [newIncome]));
    r := Ok(newIncome);
  }

  method UpdateIncome(store: Store, updated: Income) returns (r: Result<Income>)
    modifies store
    ensures store.backend == Firebase ==> r == Err(FirebaseUnsupported) && store.items == old(store.items)
    ensures store.backend == Local ==>
      && r == Ok(updated)
      && store.items == (match ReplaceFirst(old(store.Incomes()), updated, IncomeId)
                         case None => old(store.items)
                         case Some(ins) => old(store.items)[IncomesKey := IncomeList(ins)])
  {
    var incomes := GetIncomes(store);
    if incomes.Err? {
      return Err(incomes.message);
    }
    var replaced := ReplaceFirst(incomes.value, updated, IncomeId);
    if replaced.Some? {
      var _ := store.SetItem(IncomesKey, IncomeList(replaced.value));
    }
    r := Ok(updated);
  }

  method DeleteIncome(store: Store, id: string) returns (r: Result<()>)
    modifies store
    ensures store.backend == Firebase ==> r == Err(FirebaseUnsupported) && store.items == old(store.items)
    ensures store.backend == Local ==>
      && r == Ok(())
      && store.items == old(store.items)[IncomesKey := IncomeList(RemoveById(old(store.Incomes()), id, IncomeId))]
  {
    var incomes := GetIncomes(store);
    if incomes.Err? {
      return Err(incomes.message);
    }
    var _ := store.SetItem(IncomesKey, IncomeList(RemoveById(incomes.value, id, IncomeId)));
    r := Ok(());
  }
}
