/** The budget repository (src/shared/services/budget.service.ts). Unlike the
    other repositories, updating or deleting an unknown id is an error and
    writes nothing. */
module BudgetService {
  import opened Wrappers
  import opened Models
  import opened Seqs
  import opened Storage

  const BudgetNotFound: string := "Budget not found"

  /** The collection to write for `updateBudget`, or the not-found error. */
  function AfterUpdate(budgets: seq<Budget>, updated: Budget): (r: Result<seq<Budget>>)
    ensures r.Err? <==> forall j :: 0 <= j < |budgets| ==> budgets[j].id != updated.id
    ensures r.Err? ==> r.message == BudgetNotFound
    ensures r.Ok? ==> |r.value| == |budgets| && updated in r.value
    ensures r.Ok? ==> exists k ::
      && 0 <= k < |budgets| && budgets[k].id == updated.id && r.value[k] == updated
      && (forall j :: 0 <= j < k ==> budgets[j].id != updated.id)
      && (forall j :: 0 <= j < |budgets| && j != k ==> r.value[j] == budgets[j])
  {
    match ReplaceFirst(budgets, updated, BudgetId)
    case None => Err(BudgetNotFound)
    case Some(bs) => Ok(bs)
  }

  /** The collection to write for `deleteBudget`, or the not-found error. */
  function AfterDelete(budgets: seq<Budget>, id: string): (r: Result<seq<Budget>>)
    ensures r.Err? <==> forall j :: 0 <= j < |budgets| ==> budgets[j].id != id
    ensures r.Err? ==> r.message == BudgetNotFound
    ensures r.Ok? ==> |r.value| < |budgets|
    ensures r.Ok? ==> forall i :: 0 <= i < |r.value| ==> r.value[i].id != id && r.value[i] in budgets
    ensures r.Ok? ==> forall i :: 0 <= i < |budgets| && budgets[i].id != id ==> budgets[i] in r.value
  {
    if IndexOfId(budgets, id, BudgetId) == -1 then Err(BudgetNotFound)
    else
      var k := IndexOfId(budgets, id, BudgetId);
      RemoveByIdShrinks(budgets, id, BudgetId, k);
      Ok(RemoveById(budgets, id, BudgetId))
  }

  /** Deleting a budget that was just created with a fresh id restores the
      collection that was there before. */
  lemma DeleteUndoesCreate(budgets: seq<Budget>, b: Budget)
    requires forall j :: 0 <= j < |budgets| ==> budgets[j].id != b.id
    ensures AfterDelete(budgets + [b], b.id) == Ok(budgets)
  {
    assert (budgets + [b])[|budgets|].id == b.id;
    assert IndexOfId(budgets + [b], b.id, BudgetId) != -1;
    RemoveByIdOrder(budgets, [b], b.id, BudgetId);
    RemoveByIdAbsent(budgets, b.id, BudgetId);
    assert [b][1..] == [];
    assert RemoveById([b], b.id, BudgetId) == [];
    assert RemoveById(budgets + [b], b.id, BudgetId) == budgets;
  }

  method GetBudgets(store: Store) returns (r: Result<seq<Budget>>)
    ensures store.backend == Firebase ==> r == Err(FirebaseUnsupported)
    ensures store.backend == Local ==> r == Ok(store.Budgets())
    ensures store.backend == Local && BudgetsKey !in store.items ==> r == Ok([])
  {
    var got := store.GetItem(BudgetsKey);
    if got.Err? {
      return Err(got.message);
    }
    match got.value
    case Some(BudgetList(bs)) => r := Ok(bs);
    case _ => r := Ok([]);
  }

  /** `newId` is the generated random base-36 id. */
  method CreateBudget(store: Store, info: BudgetInfo, newId: string) returns (r: Result<Budget>)
    modifies store
    ensures store.backend == Firebase ==> r == Err(FirebaseUnsupported) && store.items == old(store.items)
    ensures store.backend == Local ==>
      && r == Ok(Budget(newId, info))
      && store.items == old(store.items)[BudgetsKey := BudgetList(old(store.Budgets()) + [r.value])]
  {
    var newBudget := Budget(newId, info);
    var budgets := GetBudgets(store);
    if budgets.Err? {
      return Err(budgets.message);
    }
    var written := store.SetItem(BudgetsKey, BudgetList(budgets.value + [newBudget]));
    r := match written case Ok(_) => Ok(newBudget) case Err(m) => Err(m);
  }

  method UpdateBudget(store: Store, updated: Budget) returns (r: Result<Budget>)
    modifies store
    ensures store.backend == Firebase ==> r == Err(FirebaseUnsupported) && store.items == old(store.items)
    ensures store.backend == Local ==>
      (match AfterUpdate(old(store.Budgets()), updated)
       case Err(m) => r == Err(m) && store.items == old(store.items)
       case Ok(bs) => r == Ok(updated) && store.items == old(store.items)[BudgetsKey := BudgetList(bs)])
  {
    var budgets := GetBudgets(store);
    if budgets.Err? {
      return Err(budgets.message);
    }
    var plan := AfterUpdate(budgets.value, updated);
    match plan
    case Err(m) => r := Err(m);
    case Ok(bs) =>
      var written := store.SetItem(BudgetsKey, BudgetList(bs));
      r := match written case Ok(_) => Ok(updated) case Err(m) => Err(m);
  }

  method DeleteBudget(store: Store, id: string) returns (r: Result<()>)
    modifies store
    ensures store.backend == Firebase ==> r == Err(FirebaseUnsupported) && store.items == old(store.items)
    ensures store.backend == Local ==>
      (match AfterDelete(old(store.Budgets()), id)
       case Err(m) => r == Err(m) && store.items == old(store.items)
       case Ok(bs) => r == Ok(()) && store.items == old(store.items)[BudgetsKey := BudgetList(bs)])
  {
    var budgets := GetBudgets(store);
    if budgets.Err? {
      return Err(budgets.message);
    }
    var plan := AfterDelete(budgets.value, id);
    match plan
    case Err(m) => r := Err(m);
    case Ok(bs) =>
      r := store.SetItem(BudgetsKey, BudgetList(bs));
  }
}
