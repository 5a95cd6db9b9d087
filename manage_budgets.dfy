/** The budgets page (src/app/manage-budgets/manage-budgets.component.ts):
    the list it shows, whether the editor is open and on which budget, and
    the loading flag, as its handlers change them. The service's observables
    complete synchronously here, so `isLoading` is seen true only inside a
    handler. */
module ManageBudgets {
  import opened Wrappers
  import opened Models
  import opened Storage
  import opened BudgetService
  import opened BudgetForm

  class ManageBudgetsComponent {
    const store: Store
    var budgets: seq<Budget>
    var showForm: bool
    var selectedBudget: Option<Budget>
    var isLoading: bool

    /** The page after `ngOnInit`: the stored budgets are shown. */
    constructor (store: Store)
      ensures this.store == store
      ensures store.backend == Local ==> budgets == store.Budgets()
      ensures store.backend == Firebase ==> budgets == []
      ensures !showForm && selectedBudget.None? && !isLoading
    {
      this.store := store;
      budgets := [];
      showForm := false;
      selectedBudget := None;
      isLoading := false;
      new;
      LoadBudgets();
    }

    /** `loadBudgets`: the stored list replaces the shown one; a failed read
        has no error handler and leaves the list as it was. */
    method LoadBudgets()
      modifies this
      ensures store.backend == Local ==> budgets == store.Budgets()
      ensures store.backend == Firebase ==> budgets == old(budgets)
      ensures showForm == old(showForm) && selectedBudget == old(selectedBudget) && isLoading == old(isLoading)
    {
      var r := GetBudgets(store);
      if r.Ok? {
        budgets := r.value;
      }
    }

    /** `onCreate`: an empty editor. */
    method OnCreate()
      modifies this
      ensures selectedBudget.None? && showForm
      ensures budgets == old(budgets) && isLoading == old(isLoading)
    {
      selectedBudget := None;
      showForm := true;
    }

    /** `onEdit`: the editor on the given budget. */
    method OnEdit(b: Budget)
      modifies this
      ensures selectedBudget == Some(b) && showForm
      ensures budgets == old(budgets) && isLoading == old(isLoading)
    {
      selectedBudget := Some(b);
      showForm := true;
    }

    /** `onCancel`: the editor closes and forgets its budget. */
    method OnCancel()
      modifies this
      ensures !showForm && selectedBudget.None?
      ensures budgets == old(budgets) && isLoading == old(isLoading)
    {
      showForm := false;
      selectedBudget := None;
    }

    /** `onDelete`: a successful delete reloads the list; either way the
        page stops loading and the editor is left alone. */
    method OnDelete(id: string)
      modifies this, store
      ensures !isLoading
      ensures showForm == old(showForm) && selectedBudget == old(selectedBudget)
      ensures store.backend == Firebase ==> store.items == old(store.items) && budgets == old(budgets)
      ensures store.backend == Local ==>
        (match AfterDelete(old(store.Budgets()), id)
         case Err(_) => store.items == old(store.items) && budgets == old(budgets)
         case Ok(bs) => store.items == old(store.items)[BudgetsKey := BudgetList(bs)] && budgets == bs)
    {
      isLoading := true;
      var r := DeleteBudget(store, id);
      if r.Ok? {
        LoadBudgets();
        isLoading := false;
      } else {
        isLoading := false;
      }
    }

    /** `onSave`: data with an id updates that budget, data without one
        creates a budget (`newId` is the generated id). Success closes the
        editor and reloads the list; failure only stops loading. */
    method OnSave(data: BudgetData, newId: string)
      modifies this, store
      ensures !isLoading && selectedBudget == old(selectedBudget)
      ensures store.backend == Firebase ==>
        store.items == old(store.items) && budgets == old(budgets) && showForm == old(showForm)
      ensures store.backend == Local && data.id.None? ==>
        && store.items == old(store.items)[BudgetsKey := BudgetList(old(store.Budgets()) + [Budget(newId, data.info)])]
        && !showForm && budgets == old(store.Budgets()) + [Budget(newId, data.info)]
      ensures store.backend == Local && data.id.Some? ==>
        (match AfterUpdate(old(store.Budgets()), Budget(data.id.value, data.info))
         case Err(_) => store.items == old(store.items) && budgets == old(budgets) && showForm == old(showForm)
         case Ok(bs) => store.items == old(store.items)[BudgetsKey := BudgetList(bs)] && !showForm && budgets == bs)
    {
      isLoading := true;
      var ok: bool;
      if data.id.Some? {
        var r := UpdateBudget(store, Budget(data.id.value, data.info));
        ok := r.Ok?;
      } else {
        var r := CreateBudget(store, data.info, newId);
        ok := r.Ok?;
      }
      if ok {
        showForm := false;
        LoadBudgets();
        isLoading := false;
      } else {
        isLoading := false;
      }
    }
  }
}
