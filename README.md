# Finance PWA core, modelled in Dafny

This project models the data layer and the page logic of a personal-finance
progressive web app written in Angular. The app records expenses and incomes,
budgets, bank accounts and credit cards. Each repository service keeps one
whole collection per key of a key-value store (the browser's localStorage).
The pages compute from those collections:

- the transactions page groups a year's transactions by month and totals them;
- the overview shows this month's figures;
- the forms decide which fields are required and what they emit.

The model is split the way the app is:

- `Wrappers`, `Models`, `Seqs`, `Text`, `Chronology`: option and result values, the entities, the shared filter/find/replace/remove shapes, number rendering, and date order with the stable sort and sums.
- `Storage`: the key-value store as a class whose map the methods update. The build-time backend choice is a constant of the store. With the Firebase backend every call fails and leaves the map as it was.
- `TransactionService`, `CreditCardService`, `AccountService`, `BudgetService`: the repositories. Each is a method that reads, changes and writes a collection. Each change is specified by a pure function on the collection (`UpdateAtId`, `RemoveById`, `CancelIn`, `AfterUpdate`, …), and the properties are proved about those functions.
- `TransactionsView`: the month grouping, written as the source's loops (`BucketByMonth`, `CollectMonths`, `AssembleGroups`). It is proved equal to the specification function `MonthlyGroups`, and the lemmas state the page's promises about that function. Also here: the year totals, the name lookups and the year navigation.
- `Overview`: the overview page's computed figures.
- `MockAuth`, `UserService`: the mock login service and the current-user service, as classes.
- `TransactionForm`, `BudgetForm`, `BudgetList`, `ManageBudgets`, `CreditCardForm`: the form components and the budgets page, as classes whose methods match the handlers. Beside each class are the pure validity, payload and label functions its contracts use.

Conventions:

- Dates are `(year, month 0–11, day, milliseconds)`, compared lexicographically.
- Amounts are `real`.
- "Now", the time stamps and random suffixes used in ids, and the confirmation-dialog result are parameters.

## Model

| member | source | states |
|---|---|---|
| Storage.Store.GetItem | src/shared/services/storage.service.ts:12-18 | With Firebase it fails with 'Firebase storage is not supported yet.'; locally it yields null exactly when the key is absent, else the stored value |
| Storage.Store.SetItem | src/shared/services/storage.service.ts:20-26 | Firebase: the error, map unchanged; local: the map with only that key set to the value |
| Storage.Store.RemoveItem | src/shared/services/storage.service.ts:28-34 | Firebase: the error, map unchanged; local: the map with only that key removed |
| Storage.SetThenGet | src/shared/services/storage.service.ts:12-26 | On a local store, `getItem` right after `setItem` reads back the written value, and any other key reads as before |
| Storage.RemoveThenGet | src/shared/services/storage.service.ts:12-34 | On a local store, `getItem` right after `removeItem` reads null, and any other key reads as before |
| TransactionService.GetExpenses | src/shared/services/transaction.service.ts:14-21 | The stored expenses, or the empty list when the key is absent; the storage error on Firebase |
| TransactionService.GetIncomes | src/shared/services/transaction.service.ts:23-30 | The stored incomes, or the empty list when the key is absent; the storage error on Firebase |
| TransactionService.AllTransactions | src/shared/services/transaction.service.ts:32-43 | The result is ordered by date, newest first, and is a permutation (same multiset) of the expenses followed by the incomes |
| TransactionService.Tagged | src/shared/services/transaction.service.ts:35 | `[...expenses, ...incomes]`: the expenses at their own indices, then each income shifted by the number of expenses |
| TransactionService.GetAllTransactions | src/shared/services/transaction.service.ts:32-43 | Returns `AllTransactions` of the two stored collections |
| TransactionService.CreateExpense | src/shared/services/transaction.service.ts:45-58 | Writes the old expenses plus exactly one new expense at the end; the new expense has the given fields and an id that starts with 'exp-' |
| TransactionService.UpdateExpense | src/shared/services/transaction.service.ts:60-72 | With a match, writes the list with only the first matching element replaced; with none, writes nothing; returns the argument either way |
| TransactionService.DeleteExpense | src/shared/services/transaction.service.ts:74-81 | Always writes the list without the elements carrying the id |
| TransactionService.CreateIncome | src/shared/services/transaction.service.ts:83-96 | Appends exactly one income with the given fields and an id that starts with 'inc-' |
| TransactionService.UpdateIncome | src/shared/services/transaction.service.ts:98-110 | Replaces the first match, or writes nothing; returns the argument |
| TransactionService.DeleteIncome | src/shared/services/transaction.service.ts:112-119 | Always writes the list without the elements carrying the id |
| Seqs.UpdateAtId | src/shared/services/transaction.service.ts:60-72 | No result when no element has the id; otherwise the same length, the first element with the id transformed, and every other index unchanged |
| Seqs.ReplaceFirst | src/shared/services/credit-card.service.ts:89-101 | No result exactly when no element has x's id; otherwise x sits at the first matching index and every other index is unchanged |
| Seqs.RemoveById | src/shared/services/transaction.service.ts:74-81 | Keeps exactly the elements whose id differs: nothing with the id remains, and every element without it stays |
| Seqs.RemoveByIdExact | src/shared/services/transaction.service.ts:76 | The multiplicity of each kept element is unchanged, and elements with the id have multiplicity 0 |
| Seqs.RemoveByIdOrder | src/shared/services/transaction.service.ts:76 | Deleting distributes over concatenation, so the remaining elements keep their relative order |
| Seqs.RemoveByIdAbsent | src/shared/services/transaction.service.ts:74-81 | Deleting an id nobody carries leaves the list as it was |
| Chronology.SortNewestFirst | src/shared/services/transaction.service.ts:36-40 | The date sort keeps the length and the multiset of its input |
| Chronology.SortIsSortedPermutation | src/shared/services/transaction.service.ts:36-40 | The date sort gives a list ordered newest first that is a permutation of its input |
| Chronology.TotalFilterSort | src/app/transactions/transactions.component.ts:153-161 | Sorting does not change the sum of the amounts of any filtered part |
| CreditCardService.GetCreditCards | src/shared/services/credit-card.service.ts:13-17 | The stored cards, or the empty list when the key is absent |
| CreditCardService.CreateCreditCard | src/shared/services/credit-card.service.ts:19-33 | Appends one card at the end: the given details, status active, no cancellation reason or note |
| CreditCardService.CancelIn | src/shared/services/credit-card.service.ts:35-51 | No write exactly when no card has the id; otherwise only the first such card changes: it becomes inactive with the reason and note, and its id and details are kept |
| CreditCardService.CancelCreditCard | src/shared/services/credit-card.service.ts:35-51 | Writes `CancelIn`'s list when there is one, otherwise nothing |
| CreditCardService.ReactivateIn | src/shared/services/credit-card.service.ts:53-69 | No write exactly when no card has the id; otherwise the first such card becomes active with its reason and note cleared, whatever its status was; the other cards are unchanged |
| CreditCardService.ReactivateCreditCard | src/shared/services/credit-card.service.ts:53-69 | Writes `ReactivateIn`'s list when there is one, otherwise nothing |
| CreditCardService.CancelThenReactivate | src/shared/services/credit-card.service.ts:35-69 | Cancelling an active card that has no reason or note, then reactivating it, restores the original list |
| CreditCardService.CardsByAccount | src/shared/services/credit-card.service.ts:71-75 | Exactly the cards charged to the account, in their order |
| CreditCardService.HasActiveCards | src/shared/services/credit-card.service.ts:77-81 | True iff some card of the account is active |
| CreditCardService.HasAnyCards | src/shared/services/credit-card.service.ts:83-87 | True iff the account has at least one card |
| CreditCardService.ActiveCardsAreCards | src/shared/services/credit-card.service.ts:77-87 | Having an active card implies having a card |
| CreditCardService.UpdateCreditCard | src/shared/services/credit-card.service.ts:89-101 | Replaces the first match, or writes nothing; returns the argument |
| CreditCardService.DeleteCreditCard | src/shared/services/credit-card.service.ts:103-110 | Writes the cards without those carrying the id |
| AccountService.AccountTypes | src/shared/services/account.service.ts:16-28 | The fixed list of 7 types with pairwise distinct ids; the first four are banks and the rest digital wallets; each has a logo |
| AccountService.GetAccounts | src/shared/services/account.service.ts:30-34 | The stored accounts, or the empty list when the key is absent |
| AccountService.WithDefaultOwner | src/shared/services/account.service.ts:37-40 | Non-empty owners are kept as given; empty owners become the current user's id alone; name and type are untouched |
| AccountService.DefaultOwnerIdempotent | src/shared/services/account.service.ts:37-40 | Applying the owner default twice equals applying it once |
| AccountService.CreateAccount | src/shared/services/account.service.ts:36-50 | Appends one account: the given fields with the owner default applied, and a fresh id |
| AccountService.UpdateAccount | src/shared/services/account.service.ts:52-64 | Replaces the first match, or writes nothing; returns the argument |
| AccountService.DeleteAccount | src/shared/services/account.service.ts:66-73 | Writes the accounts without those carrying the id, with no check against cards |
| BudgetService.GetBudgets | src/shared/services/budget.service.ts:14-18 | The stored budgets as they are, or the empty list when the key is absent |
| BudgetService.CreateBudget | src/shared/services/budget.service.ts:20-34 | Writes the old budgets plus the input with its new id, and returns that budget |
| BudgetService.AfterUpdate | src/shared/services/budget.service.ts:36-52 | Fails with 'Budget not found' exactly when no budget has the id; otherwise the same length, the updated budget at the first matching index, and the others unchanged |
| BudgetService.UpdateBudget | src/shared/services/budget.service.ts:36-52 | On the error nothing is written; otherwise `AfterUpdate`'s list is written and the updated budget returned |
| BudgetService.AfterDelete | src/shared/services/budget.service.ts:54-68 | Fails with 'Budget not found' exactly when no budget has the id; otherwise the list is strictly shorter and holds exactly the budgets without the id |
| BudgetService.DeleteBudget | src/shared/services/budget.service.ts:54-68 | On the error nothing is written; otherwise `AfterDelete`'s list is written |
| BudgetService.DeleteUndoesCreate | src/shared/services/budget.service.ts:20-68 | Deleting a budget just appended with a fresh id gives back the original list |
| TransactionsView.MonthlyGroups | src/app/transactions/transactions.component.ts:66-172 | A future year gives no groups; every group is dated the 1st of its month in the viewed year; months strictly decrease, so none repeats |
| TransactionsView.BucketByMonth | src/app/transactions/transactions.component.ts:77-84 | The map built by the push loop holds, for each month with data, that month's transactions in input order; its keys are exactly the months with data |
| TransactionsView.CollectMonths | src/app/transactions/transactions.component.ts:120-132 | The month set is 0..maxMonth joined with the map's keys |
| TransactionsView.DescendingFrom | src/app/transactions/transactions.component.ts:136 | The sorted months are members of the set, strictly descending |
| TransactionsView.DescendingComplete | src/app/transactions/transactions.component.ts:136 | Every member of the set (up to 11) appears in the sorted months |
| TransactionsView.AssembleGroups | src/app/transactions/transactions.component.ts:138-171 | The result loop yields, for each sorted month in turn, that month's sorted group with its totals; the guard at 146-148 never skips a month |
| TransactionsView.SkipNeverApplies | src/app/transactions/transactions.component.ts:146-148 | No month in the set to show is both after the current month of the current year and without data |
| TransactionsView.GroupedTransactions | src/app/transactions/transactions.component.ts:66-172 | The imperative computation returns exactly `MonthlyGroups` |
| TransactionsView.GroupsHoldOwnMonth | src/app/transactions/transactions.component.ts:71-84 | Every transaction in a group comes from the input, has the viewed year, and has the group's month |
| TransactionsView.GroupsHoldEveryTransaction | src/app/transactions/transactions.component.ts:71-132 | For a past or current year, every transaction of that year lies in the group of its own month |
| TransactionsView.PastYearShowsTwelveMonths | src/app/transactions/transactions.component.ts:96-136 | A past year gives exactly twelve groups, for months 11 down to 0 in that order |
| TransactionsView.CurrentYearMonths | src/app/transactions/transactions.component.ts:98-148 | In the current year a month is shown iff it is at most the current month or has data |
| TransactionsView.ShownIffInMonthSet | src/app/transactions/transactions.component.ts:120-136 | For a past or current year, a month is shown iff it is in the set of months to show |
| TransactionsView.GroupIsSortedBucket | src/app/transactions/transactions.component.ts:150-161 | Each group is ordered newest first and is a permutation of its month's transactions; its totals are the sums of its incomes and of its expenses |
| TransactionsView.TotalYearIncome | src/app/transactions/transactions.component.ts:175-177 | `totalYearIncome`: with non-negative month totals, the year total is non-negative and at least each month's total |
| TransactionsView.TotalYearExpenses | src/app/transactions/transactions.component.ts:179-181 | `totalYearExpenses`: with non-negative month totals, the year total is non-negative and at least each month's total |
| TransactionsView.YearIncome | src/app/transactions/transactions.component.ts:175-177 | For a past or current year, the sum of the group incomes equals the sum of all that year's incomes |
| TransactionsView.YearExpenses | src/app/transactions/transactions.component.ts:179-181 | For a past or current year, the sum of the group expenses equals the sum of all that year's expenses |
| TransactionsView.YearTotals | src/app/transactions/transactions.component.ts:175-181 | The year totals are those sums, and 0 for a future year |
| TransactionsView.NameOf | src/app/transactions/transactions.component.ts:274-277 | A missing id gives ''; an unknown id gives 'לא ידוע'; otherwise the first match's name, or 'לא ידוע' when that name is empty |
| TransactionsView.BudgetLabel | src/app/transactions/transactions.component.ts:274-277 | `getBudgetName`: '' iff the id is missing; 'לא ידוע' for an unknown id; else the first match's name, or 'לא ידוע' when it is empty |
| TransactionsView.AccountLabel | src/app/transactions/transactions.component.ts:299-302 | `getAccountName`, with the same three cases |
| TransactionsView.CardLabel | src/app/transactions/transactions.component.ts:304-307 | `getCardName`, with the same three cases, on the display name |
| TransactionsView.BudgetIdOf | src/app/transactions/transactions.component.ts:279-281 | An expense's budget id; an income has none |
| TransactionsView.CreditCardIdOf | src/app/transactions/transactions.component.ts:283-285 | An expense's card id; an income has none |
| TransactionsView.TargetTypeOf | src/app/transactions/transactions.component.ts:287-289 | An income's target type; an expense has none |
| TransactionsView.ReceivingAccountIdOf | src/app/transactions/transactions.component.ts:291-293 | An income's receiving account; an expense has none |
| TransactionsView.ReceivingCreditCardIdOf | src/app/transactions/transactions.component.ts:295-297 | An income's receiving card; an expense has none |
| TransactionsView.RowLabelsOfKind | src/app/transactions/transactions.component.ts:274-307 | An income row shows no budget or paying card, and an expense row shows no receiving account or card |
| TransactionsView.TransactionsPage.constructor | src/app/transactions/transactions.component.ts:54 | The viewed year starts at now's year |
| TransactionsView.TransactionsPage.PrevYear | src/app/transactions/transactions.component.ts:183-185 | The viewed year decreases by exactly 1 |
| TransactionsView.TransactionsPage.NextYear | src/app/transactions/transactions.component.ts:187-189 | The viewed year increases by exactly 1 |
| TransactionsView.TransactionsPage.Groups | src/app/transactions/transactions.component.ts:66-172 | The page's groups are `MonthlyGroups` of the viewed year |
| Overview.TotalBalance | src/app/overview/overview.component.ts:39-41 | Always 0 |
| Overview.MonthlyExpenses | src/app/overview/overview.component.ts:43-53 | 0 when no transaction is an expense of now's month and year; the lemmas below give its other properties |
| Overview.MonthlyExpensesIgnoreIncome | src/app/overview/overview.component.ts:43-53 | An income inserted anywhere in the list never changes the monthly expenses |
| Overview.MonthlyExpensesCountExpense | src/app/overview/overview.component.ts:43-53 | An expense dated in now's month and year adds exactly its amount |
| Overview.MonthlyExpensesMatchTransactionsPage | src/app/overview/overview.component.ts:43-53 | The monthly expenses equal the expense total of the current month's group on the transactions page for now's year |
| Overview.MonthlyBudget | src/app/overview/overview.component.ts:55-60 | 0 when no budget has a monthly cycle |
| Overview.MonthlyBudgetStep | src/app/overview/overview.component.ts:55-60 | Each budget adds its amount when its cycle is monthly and nothing otherwise |
| Overview.BudgetProgress | src/app/overview/overview.component.ts:62-66 | 0 when the monthly budget is 0; otherwise progress × budget = expenses × 100 |
| Overview.RecentTransactions | src/app/overview/overview.component.ts:68-70 | The prefix of length min(5, n) |
| Overview.RecentAreLatest | src/app/overview/overview.component.ts:68-70 | On a list sorted newest first, no omitted transaction is newer than a shown one |
| MockAuth.EmailTaken | src/shared/services/mock-auth.service.ts:40 | True iff some stored user has the email |
| MockAuth.FindLogin | src/shared/services/mock-auth.service.ts:59-62 | None iff no stored user has both the email and the password; otherwise the first such user, without its password |
| MockAuth.WithoutPassword | src/shared/services/mock-auth.service.ts:62 | Keeps the profile and the email, drops the password |
| MockAuth.NewUser | src/shared/services/mock-auth.service.ts:44-49 | The given profile with id 'user-' + stamp, the email and the password |
| MockAuth.RegisteredUserLogsIn | src/shared/services/mock-auth.service.ts:39-54 | After a free email is registered, the login that follows finds exactly the new user |
| MockAuth.AuthService.constructor | src/shared/services/mock-auth.service.ts:18-28 | Starts unauthenticated, then `checkSession` authenticates the stored session user if there is one; the invariant holds |
| MockAuth.AuthService.CurrentUser | src/shared/services/mock-auth.service.ts:23-24 | Under the invariant, `currentUser` is present iff the service is authenticated, and it is the session user |
| MockAuth.AuthService.CheckSession | src/shared/services/mock-auth.service.ts:30-36 | A stored session becomes the authenticated user; without one the auth state is unchanged |
| MockAuth.AuthService.Register | src/shared/services/mock-auth.service.ts:38-55 | A taken email returns false and changes nothing; otherwise exactly one user is appended, becomes the session user, and true is returned; the invariant is kept |
| MockAuth.AuthService.Login | src/shared/services/mock-auth.service.ts:57-68 | Succeeds iff `FindLogin` finds a user, who then becomes the session and auth user; failure changes nothing; the invariant is kept |
| MockAuth.AuthService.Logout | src/shared/services/mock-auth.service.ts:70-74 | The session is removed, the user is null and the state is unauthenticated |
| UserService.DisplayName | src/shared/services/user.service.ts:19-28 | The nickname if truthy; else "first last" if lastName is truthy; else firstName |
| UserService.DisplayNameEmpty | src/shared/services/user.service.ts:19-28 | The display name is empty iff the first name is empty and neither the nickname nor the last name is set |
| UserService.NicknameWins | src/shared/services/user.service.ts:19-35 | After setting a non-empty nickname, that nickname is the display name |
| UserService.Merge | src/shared/services/user.service.ts:30-35 | Each key the patch carries is overwritten, and each key it lacks is kept |
| UserService.EmptyPatchIsIdentity | src/shared/services/user.service.ts:30-35 | The empty patch changes nothing |
| UserService.MergeIdempotent | src/shared/services/user.service.ts:30-35 | Applying a patch twice equals applying it once |
| UserService.MergeThen | src/shared/services/user.service.ts:30-35 | Two updates in a row equal one update with both patches spread, the later one winning |
| UserService.InitialUser | src/shared/services/user.service.ts:9-15 | Id 'user-1', no nickname, no date of birth |
| UserService.InitialDisplayName | src/shared/services/user.service.ts:9-28 | The initial display name is the first and last name joined by a space |
| UserService.UserService.DisplayNameNow | src/shared/services/user.service.ts:19-28 | For the current user: a truthy nickname is the display name, and the display name is empty iff the first name is empty and no nickname or last name is set |
| UserService.UserService.UpdateUser | src/shared/services/user.service.ts:30-35 | The current user becomes `Merge` of itself with the patch |
| TransactionForm.ResolveType | src/app/transactions/transaction-form/transaction-form.component.ts:54-64 | The given type; else 'expense' iff the transaction has an execution date; else 'expense' |
| TransactionForm.RequiredFields | src/app/transactions/transaction-form/transaction-form.component.ts:98-142 | Amount, description and date are always required. Budget iff expense. Card iff expense paid by card. Payment account iff expense paid from an account. Receiving account iff income to an account. Receiving card iff income to a card |
| TransactionForm.TransactionFormComponent.UpdateValidators | src/app/transactions/transaction-form/transaction-form.component.ts:98-142 | Leaves exactly the required set of the current kind and the form's method and target |
| TransactionForm.TransactionFormComponent.constructor | src/app/transactions/transaction-form/transaction-form.component.ts:58-96 | isEdit iff a transaction is given; the resolved kind; the initial controls, patched from the transaction in edit mode; validators consistent |
| TransactionForm.TransactionFormComponent.PatchForm | src/app/transactions/transaction-form/transaction-form.component.ts:144-172 | Fills the controls of the transaction's kind from it and sets the matching signal |
| TransactionForm.ExpenseValue | src/app/transactions/transaction-form/transaction-form.component.ts:148-159 | An edited expense fills the amount, description, date, budget, payment method, card and payment account from the expense; the income controls keep their values |
| TransactionForm.IncomeValue | src/app/transactions/transaction-form/transaction-form.component.ts:160-171 | An edited income fills the amount, description, date, target type, receiving account and receiving card from the income; the expense controls keep their values |
| TransactionForm.TransactionFormComponent.OnTypeChange | src/app/transactions/transaction-form/transaction-form.component.ts:174-177 | Sets the kind; the validators follow; the value, the edit mode and both signals are kept |
| TransactionForm.TransactionFormComponent.OnPaymentMethodChange | src/app/transactions/transaction-form/transaction-form.component.ts:179-183 | Sets the payment-method signal and control; the validators follow; the kind, the edit mode and the target signal are kept |
| TransactionForm.TransactionFormComponent.OnTargetTypeChange | src/app/transactions/transaction-form/transaction-form.component.ts:185-189 | Sets the target-type signal and control; the validators follow; the kind, the edit mode and the payment signal are kept |
| TransactionForm.TransactionFormComponent.OnValueChange | src/app/transactions/transaction-form/transaction-form.component.ts:90-92 | A new form value re-runs the validator update; the kind, the edit mode and both signals are kept |
| TransactionForm.InitialValue | src/app/transactions/transaction-form/transaction-form.component.ts:74-87 | A new form has no amount, today's date, payment by card, income to an account, and every other control '' |
| TransactionForm.FormValid | src/app/transactions/transaction-form/transaction-form.component.ts:75-77 | `form.valid`: every required control is filled, and a required amount is at least 0.1 |
| TransactionForm.BuildPayload | src/app/transactions/transaction-form/transaction-form.component.ts:198-221 | An expense payload carries the card id only for 'card' and the payment account only for 'account'; an income payload carries the receiving account only for 'account' and the receiving card only for 'card'; the id is the edited one |
| TransactionForm.ValidFormGivesCompletePayload | src/app/transactions/transaction-form/transaction-form.component.ts:191-225 | A form passing its validators yields an amount ≥ 0.1, a description, a date, and exactly the one reference its method or target selects; an expense also names its budget |
| TransactionForm.FreshFormInvalid | src/app/transactions/transaction-form/transaction-form.component.ts:75 | A new form cannot be submitted until it has an amount |
| TransactionForm.ExpenseRoundTrip | src/app/transactions/transaction-form/transaction-form.component.ts:144-225 | Editing a well-formed expense and submitting it unchanged gives back its own fields and id |
| TransactionForm.IncomeRoundTrip | src/app/transactions/transaction-form/transaction-form.component.ts:144-225 | Editing a well-formed income and submitting it unchanged gives back its own fields and id |
| TransactionForm.TransactionFormComponent.EditId | src/app/transactions/transaction-form/transaction-form.component.ts:219-221 | The original id in edit mode, none otherwise |
| TransactionForm.TransactionFormComponent.Submit | src/app/transactions/transaction-form/transaction-form.component.ts:191-225 | An invalid form closes nothing; a valid one closes with the kind and `BuildPayload` |
| BudgetForm.FormValid | src/app/manage-budgets/budget-form/budget-form.component.ts:34-44 | `budgetForm.valid`; a valid form's custom value is empty or at least 1 |
| BudgetForm.CustomValueRule | src/app/manage-budgets/budget-form/budget-form.component.ts:39 | The custom value passes `min(1)` and the digits pattern iff it is empty or at least 1 |
| Text.IntString | src/app/manage-budgets/budget-list/budget-list.component.ts:60 | The decimal text of an integer is never empty |
| Text.NatStringValue | src/app/manage-budgets/budget-list/budget-list.component.ts:60 | The digits rendered for a natural number denote that number |
| Text.NatStringNoLeadingZero | src/app/manage-budgets/budget-list/budget-list.component.ts:60 | The rendering starts with '0' only for zero itself |
| Text.IntStringValue | src/app/manage-budgets/budget-list/budget-list.component.ts:60 | A non-negative integer renders as digits denoting it; a negative one as '-' followed by digits denoting its magnitude |
| Text.DigitsOnlyIffNonNegative | src/app/manage-budgets/budget-form/budget-form.component.ts:39 | The digits-only pattern accepts an integer's text iff the integer is non-negative |
| BudgetForm.ResetValue | src/app/manage-budgets/budget-form/budget-form.component.ts:85-91 | Reset gives a monthly cycle, custom value 1, unit month, no amount and not accumulating; every other control is null |
| BudgetForm.ResetFormInvalid | src/app/manage-budgets/budget-form/budget-form.component.ts:85-91 | A reset form is invalid |
| BudgetForm.CustomValueDefault | src/app/manage-budgets/budget-form/budget-form.component.ts:76 | An absent, null or zero custom value becomes 1, and any other is kept |
| BudgetForm.CustomUnitDefault | src/app/manage-budgets/budget-form/budget-form.component.ts:77 | An absent unit becomes 'month' |
| BudgetForm.PatchValue | src/app/manage-budgets/budget-form/budget-form.component.ts:71-81 | Every control takes the budget's field; the custom value goes through `|| 1` and the unit through `|| 'month'` |
| BudgetForm.StoredValue | src/app/manage-budgets/budget-form/budget-form.component.ts:107 | The submitted custom value is never absent: a cleared control is null, otherwise the number |
| BudgetForm.SubmittedCycle | src/app/manage-budgets/budget-form/budget-form.component.ts:105-109 | For a custom cycle the value and unit are the form's, a cleared value stored as null; for any other cycle both keys are absent |
| BudgetForm.Payload | src/app/manage-budgets/budget-form/budget-form.component.ts:98-114 | The entered fields; an id iff the id control is truthy |
| BudgetForm.EditRoundTrip | src/app/manage-budgets/budget-form/budget-form.component.ts:63-120 | A budget within the limits, loaded into the form and submitted untouched, passes validation and emits itself, id included |
| BudgetForm.NewBudgetScenario | src/app/manage-budgets/budget-form/budget-form.component.spec.ts:50-66 | A reset form given a name, amount, monthly cycle and importance is valid and emits that name and amount |
| BudgetForm.UnitLabel | src/app/manage-budgets/budget-form/budget-form.component.ts:53-61 | For months and for years alike: the singular word iff the custom value is 1, otherwise the plural |
| BudgetForm.BudgetFormComponent.constructor | src/app/manage-budgets/budget-form/budget-form.component.ts:63-94 | The form patched from the input budget, or reset when there is none |
| BudgetForm.BudgetFormComponent.SetBudget | src/app/manage-budgets/budget-form/budget-form.component.ts:63-94 | A new input patches the form, keeping the touched state, or resets it, which leaves every control untouched |
| BudgetForm.BudgetFormComponent.Edit | src/app/manage-budgets/budget-form/budget-form.component.ts:34-44 | Typing changes only the form value: the input and the touched state are kept |
| BudgetForm.BudgetFormComponent.IsCustomCycle | src/app/manage-budgets/budget-form/budget-form.component.ts:51 | True exactly when the submitted cycle would carry the custom value and unit |
| BudgetForm.BudgetFormComponent.Submit | src/app/manage-budgets/budget-form/budget-form.component.ts:96-120 | A valid form emits `Payload`; an invalid one emits nothing and marks all controls touched |
| BudgetList.CycleLabel | src/app/manage-budgets/budget-list/budget-list.component.ts:52-63 | The fixed labels for monthly, bi-monthly and yearly; 'כל {value} {unit}' for custom; '' otherwise |
| BudgetList.UnitWord | src/app/manage-budgets/budget-list/budget-list.component.ts:59 | 'חודשים' iff the unit is 'month', so 'שנים' also when it is undefined |
| BudgetList.ValueText | src/app/manage-budgets/budget-list/budget-list.component.ts:60 | A missing value renders as 'undefined', a stored null as 'null', and a number as the decimal text that denotes it |
| BudgetList.CycleLabelCases | src/app/manage-budgets/budget-list/budget-list.component.ts:52-63 | The label is empty iff the cycle type is unknown, and a custom label is never one of the fixed ones |
| BudgetList.CustomLabelShowsUnit | src/app/manage-budgets/budget-list/budget-list.component.ts:58-60 | With equal values, a month unit and a non-month unit give different labels |
| BudgetList.ClearedValueShowsNull | src/app/manage-budgets/budget-list/budget-list.component.ts:58-60 | A custom budget submitted from the editor with its value control cleared is labelled 'כל null' and its unit word |
| BudgetList.OnEdit | src/app/manage-budgets/budget-list/budget-list.component.ts:36-38 | Emits exactly the given budget |
| BudgetList.OnDelete | src/app/manage-budgets/budget-list/budget-list.component.ts:40-50 | Emits the id iff the dialog result is truthy |
| ManageBudgets.ManageBudgetsComponent.constructor | src/app/manage-budgets/manage-budgets.component.ts:27-34 | Starts with the stored budgets loaded, the form hidden, nothing selected, not loading |
| ManageBudgets.ManageBudgetsComponent.LoadBudgets | src/app/manage-budgets/manage-budgets.component.ts:36-38 | The shown list becomes the stored one; a failed read leaves it |
| ManageBudgets.ManageBudgetsComponent.OnCreate | src/app/manage-budgets/manage-budgets.component.ts:40-43 | Nothing selected, form shown |
| ManageBudgets.ManageBudgetsComponent.OnEdit | src/app/manage-budgets/manage-budgets.component.ts:45-48 | The budget selected, form shown |
| ManageBudgets.ManageBudgetsComponent.OnCancel | src/app/manage-budgets/manage-budgets.component.ts:87-90 | Form hidden, nothing selected |
| ManageBudgets.ManageBudgetsComponent.OnDelete | src/app/manage-budgets/manage-budgets.component.ts:50-62 | A successful delete writes and reloads; an error leaves store and list as they were; loading ends false either way |
| ManageBudgets.ManageBudgetsComponent.OnSave | src/app/manage-budgets/manage-budgets.component.ts:64-85 | Data with an id updates and data without one creates. Success hides the form and reloads. Failure leaves the form and the list as they were. Loading ends false either way |
| CreditCardForm.ExpiryPatternExact | src/app/credit-cards/credit-card-form/credit-card-form.component.ts:43 | The MM/YY pattern accepts exactly the texts of a month 01–12, '/', and two digits |
| CreditCardForm.PatternIsFormatted | src/app/credit-cards/credit-card-form/credit-card-form.component.ts:43 | Every accepted text is the MM/YY of its own month and year |
| CreditCardForm.FormattedMatchesPattern | src/app/credit-cards/credit-card-form/credit-card-form.component.ts:43 | Every month 1–12 with a two-digit year is accepted |
| CreditCardForm.InitialValue | src/app/credit-cards/credit-card-form/credit-card-form.component.ts:39-45 | The charge date defaults to 10 and isVirtual to false |
| CreditCardForm.NewFormNeedsNameAndAccount | src/app/credit-cards/credit-card-form/credit-card-form.component.ts:40-42 | A new form is invalid, and becomes valid once it has a name and an account |
| CreditCardForm.FormValid | src/app/credit-cards/credit-card-form/credit-card-form.component.ts:39-45 | `cardForm.valid`: the display name is always validated, the disabled controls only when unlocked |
| CreditCardForm.LockingRelaxes | src/app/credit-cards/credit-card-form/credit-card-form.component.ts:39-61 | A form valid unlocked is valid locked, and a locked form is valid iff its display name is |
| CreditCardForm.PatchValue | src/app/credit-cards/credit-card-form/credit-card-form.component.ts:52 | The card's details fill the controls, and a detail the card lacks leaves its control as it was |
| CreditCardForm.FormOutput | src/app/credit-cards/credit-card-form/credit-card-form.component.ts:47-69 | The form value lacks the charge date, account, expiry and virtual keys exactly when those controls are disabled |
| CreditCardForm.SubmittedFieldsMeetRules | src/app/credit-cards/credit-card-form/credit-card-form.component.ts:40-43 | A valid, unlocked form gives a name of 1–50 characters, a charge date in 1..31, an account, and an expiry that is empty or MM/YY |
| CreditCardForm.EditRoundTrip | src/app/credit-cards/credit-card-form/credit-card-form.component.ts:39-69 | An active card with valid details, edited and submitted untouched, gives back its details |
| CreditCardForm.CreditCardFormComponent.constructor | src/app/credit-cards/credit-card-form/credit-card-form.component.ts:47-61 | isEdit iff a card is given; locked iff that card is inactive; the controls patched from the card |
| CreditCardForm.CreditCardFormComponent.Edit | src/app/credit-cards/credit-card-form/credit-card-form.component.ts:54-59 | A locked form changes only its display name |
| CreditCardForm.CreditCardFormComponent.Submit | src/app/credit-cards/credit-card-form/credit-card-form.component.ts:65-69 | Closes with the form value iff the form is valid, where disabled controls are not validated |

## Left out

- localStorage and JSON: the store is a map from keys to typed collections. A stored value of the wrong shape reads as the empty collection. Rehydrating dates with `new Date(...)` is taken to be the identity. The mock-auth keys 'mock_users_db' and 'mock_session' are fields of the auth service.
- RxJS: every observable delivers synchronously and once. `combineLatest`, `pipe` and the nested `setItem(...).subscribe()` calls become sequential calls. A write error in a nested subscription of a create, update or cancel is modelled as the result of that call.
- The `Date` API and time zones: "now" is a parameter. Dates are calendar fields with milliseconds in the day, compared lexicographically. `new Date(year, month, 1)` for two-digit years is not modelled.
- Floating point: amounts are real numbers. Sums are exact, and the percentage in `budgetProgress` is an exact division.
- Id generation (`Date.now()`, `Math.random().toString(36)`): the caller passes the suffix or the whole id; freshness appears only as a lemma hypothesis.
- Sorting: `Array.prototype.sort` with a date comparator is modelled as a stable insertion sort on values, not in place. Its guaranteed properties (sorted newest first, a permutation) are what the model proves.
- Framework plumbing: Angular DI, templates, Material dialogs, the `MatDialogRef` close calls, router navigation in `logout`, `console.log`, and the `setTimeout` in the budget form's effect (the patch is applied at once).
- The dialog data lists (accounts, cards, budgets) of the transaction form: they only fill select boxes.
- TransactionForm.TransactionFormComponent.constructor: requires that a type given with a transaction names that transaction's kind. Both callers in src/app/transactions/transactions.component.ts pass it so, and a mismatched cast in `patchForm` is not modelled.
- CreditCardForm.PatchValue: a card's absent optional detail and a detail stored as null are not told apart; both leave the control as it was.
- BudgetForm.CustomValueRule: the custom value and the card's charge date are modelled as integers. A fractional number typed into the number input (which `min`/`max` would accept and the digits pattern would reject) is not modelled.
- The budget-form test that expects an initial amount of 0 contradicts the form (which starts with null). Neither value is asserted beyond the reset value above.
- `getMonthName` and the template-only computeds (`isCustomCycle` aside) are display text and are not modelled.
- Text lengths for `maxLength` count Dafny characters, not UTF-16 code units.
- ManageBudgets.ManageBudgetsComponent.OnDelete: takes the id the budget list emits. That the list emits it only after a truthy dialog result is stated by BudgetList.OnDelete, not restated on the page.
