/** The key-value store behind every repository (src/shared/services/storage.service.ts).
    The browser's localStorage becomes a map from keys to stored collections;
    the build-time `environment.storageType` becomes the store's backend, and
    with the 'firebase' backend every call fails without touching the map. */
module Storage {
  import opened Wrappers
  import opened Models

  datatype Backend = Local | Firebase

  const FirebaseUnsupported: string := "Firebase storage is not supported yet."

  /** What the repositories keep under their keys: one whole collection each. */
  datatype Value =
    | ExpenseList(expenses: seq<Expense>)
    | IncomeList(incomes: seq<Income>)
    | CardList(cards: seq<CreditCard>)
    | AccountList(accounts: seq<Account>)
    | BudgetList(budgets: seq<Budget>)

  const ExpensesKey: string := "expenses"
  const IncomesKey: string := "incomes"
  const CardsKey: string := "credit-cards"
  const AccountsKey: string := "accounts"
  const BudgetsKey: string := "budgets"

  /** `getItem` on a plain map: the stored value, or null (None) when absent. */
  function Get(m: map<string, Value>, key: string): Option<Value> {
    if key in m then Some(m[key]) else None
  }

  class Store {
    const backend: Backend
    var items: map<string, Value>

    constructor (backend: Backend, items: map<string, Value>)
      ensures this.backend == backend && this.items == items
    {
      this.backend := backend;
      this.items := items;
    }

    /** What `getItem(key)` yields when the backend is local. */
    function Lookup(key: string): Option<Value>
      reads this
    {
      Get(items, key)
    }

    method GetItem(key: string) returns (r: Result<Option<Value>>)
      ensures backend == Firebase ==> r == Err(FirebaseUnsupported)
      ensures backend == Local ==> r.Ok? && (r.value.None? <==> key !in items)
      ensures backend == Local && key in items ==> r.value == Some(items[key])
    {
      if backend == Firebase {
        return Err(FirebaseUnsupported);
      }
      r := Ok(Lookup(key));
    }

    method SetItem(key: string, value: Value) returns (r: Result<()>)
      modifies this
      ensures backend == Firebase ==> r == Err(FirebaseUnsupported) && items == old(items)
      ensures backend == Local ==> r == Ok(()) && items == old(items)[key := value]
    {
      if backend == Firebase {
        return Err(FirebaseUnsupported);
      }
      items := items[key := value];
      r := Ok(());
    }

    method RemoveItem(key: string) returns (r: Result<()>)
      modifies this
      ensures backend == Firebase ==> r == Err(FirebaseUnsupported) && items == old(items)
      ensures backend == Local ==> r == Ok(()) && items == old(items) - {key}
    {
      if backend == Firebase {
        return Err(FirebaseUnsupported);
      }
      items := items - {key};
      r := Ok(());
    }

    /** The collections as the repositories read them: an absent key, or a
        value of another shape, reads as the empty collection (`|| []`). */
    function Expenses(): seq<Expense> reads this {
      match Lookup(ExpensesKey) case Some(ExpenseList(es)) => es case _ => []
    }

    function Incomes(): seq<Income> reads this {
      match Lookup(IncomesKey) case Some(IncomeList(ins)) => ins case _ => []
    }

    function Cards(): seq<CreditCard> reads this {
      match Lookup(CardsKey) case Some(CardList(cs)) => cs case _ => []
    }

    function Accounts(): seq<Account> reads this {
      match Lookup(AccountsKey) case Some(AccountList(accs)) => accs case _ => []
    }

    function Budgets(): seq<Budget> reads this {
      match Lookup(BudgetsKey) case Some(BudgetList(bs)) => bs case _ => []
    }
  }

  /** `setItem` then `getItem` on a local store: the key just written reads
      back the written value, and any other key reads as it did before. */
  method SetThenGet(store: Store, key: string, value: Value, other: string)
      returns (r: Result<Option<Value>>, o: Result<Option<Value>>)
    requires store.backend == Local && other != key
    modifies store
    ensures r == Ok(Some(value))
    ensures o == Ok(old(store.Lookup(other)))
  {
    var w := store.SetItem(key, value);
    r := store.GetItem(key);
    o := store.GetItem(other);
  }

  /** `removeItem` then `getItem` on a local store: the key just removed
      reads as null, and any other key reads as it did before. */
  method RemoveThenGet(store: Store, key: string, other: string)
      returns (r: Result<Option<Value>>, o: Result<Option<Value>>)
    requires store.backend == Local && other != key
    modifies store
    ensures r == Ok(None)
    ensures o == Ok(old(store.Lookup(other)))
  {
    var w := store.RemoveItem(key);
    r := store.GetItem(key);
    o := store.GetItem(other);
  }
}
