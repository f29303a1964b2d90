# FinTrack, modelled in Dafny

FinTrack is an Android personal-finance app. Each signed-in user has a
per-user store with these parts:

- transactions (Income or Expense, each with a title, category, amount and date);
- budgets, keyed by category, each with a limit and a spent amount;
- money accounts, keyed by name;
- savings goals, keyed by name;
- one document holding the user's income and expense category lists;
- a profile document.

The screens validate form input, write to that store and show reports
computed from it.

This project models the bookkeeping the screens do, once the asynchronous
callbacks are taken away:

- **The store and its writes.** `Store` is a pure value: maps from keys to
  records. It has one function per write the app makes: add, delete, `set`
  (an overwrite), `increment` (a no-op on a missing document), `arrayUnion`
  and `arrayRemove`, a batch that clears a collection, and the profile writes.
  `LiveStore.UserStore` is the same store as a mutable object. Each of its
  methods is proved to leave exactly the state the matching `Store` function
  describes.
- **The writing screens.** Add transaction, delete transaction, add budget,
  add goal, add account, edit and delete account, contribute to a goal,
  save and delete a category, sign up, and the account deletion chain.
- **The read-side reports.** These are:
  - the transaction list's tab and search filter;
  - the dashboard's month totals, per-category map, recent list and total;
  - the yearly report's twelve monthly buckets;
  - the savings suggestions;
  - the budget and goal progress percentages;
  - the CSV export.
- **The validators.** Each form's ordered checks over trimmed text, and the
  password strength pattern.
- **The splash routing decision.**

Each screen is modelled the same way:

- a `Validate` function, with one if-and-only-if per rejection reason, in the
  order the screen checks them;
- a pure `...On` function giving the store after the whole operation. Each
  remote call's success is a boolean parameter;
- a class `Screen` (or `Dashboard`) with the screen's fields. Its methods make
  the store calls in the order the source makes them, and are proved equal to
  the pure function.

Amounts are integers in cents (one Sri Lankan rupee is 100). Dates are
integer timestamps in seconds. A calendar's month and year boundaries are
given as parameters: day numbers for a month, and the twelve month starts for
a year.

The module `Ledger` proves properties that hold across several screens. For
example, saving a transaction and then deleting its row restores the store,
budgets included, except for the id counter.

All paths below are relative to the repository root. Every Java file is
under `app/src/main/java/com/viranya/fintrack/`.

## Model

| member | source | states |
|---|---|---|
| Records.KindsDiffer | app/src/main/java/com/viranya/fintrack/model/Transaction.java:15 | The two type strings the screens use, "Income" and "Expense", are distinct. |
| Records.NewTransaction | app/src/main/java/com/viranya/fintrack/model/Transaction.java:30-36 | The five-argument constructor stores title, category, amount, type and date unchanged. It leaves the document id unset and records no account. |
| Records.NewAccountTransaction | app/src/main/java/com/viranya/fintrack/model/Transaction.java:9-36 | The six-argument form the screens call stores the five fields unchanged plus the account name. The document id stays unset. |
| Records.EmptyBudget | app/src/main/java/com/viranya/fintrack/model/Budget.java:9 | The empty constructor leaves both amounts at 0. |
| Records.NewAccount | app/src/main/java/com/viranya/fintrack/model/Account.java:15-18 | Name and balance are stored and the document id is left unset. |
| Records.EmptyGoal | app/src/main/java/com/viranya/fintrack/model/SavingGoal.java:9 | The empty constructor leaves target and saved at 0. |
| Records.GoalMayExceedTarget | app/src/main/java/com/viranya/fintrack/model/SavingGoal.java:11-15 | Nothing bounds the saved amount by the target: a goal saved past its target is representable. |
| Store.EmptyDb | app/src/main/java/com/viranya/fintrack/auth/SignUpActivity.java:173-190 | A new user's store is well formed. |
| Store.AddTransaction | app/src/main/java/com/viranya/fintrack/AddTransactionActivity.java:155-157 | `add` creates exactly one fresh document holding the record without its id. Every other document and every other collection stays as it was. |
| Store.DeleteTransaction | app/src/main/java/com/viranya/fintrack/fragment/TransactionsFragment.java:187-188 | `delete` removes exactly that id. It is a no-op when the document is already gone, and nothing else changes. |
| Store.IncrementSpent | app/src/main/java/com/viranya/fintrack/AddTransactionActivity.java:177-190 | `increment` adds the delta to that budget's spent amount only. For a missing budget it changes nothing. |
| Store.SetBudget | app/src/main/java/com/viranya/fintrack/fragment/AddBudgetBottomSheetFragment.java:94-96 | `set` replaces the budget under the key and leaves every other budget and collection alone. |
| Store.SetAccount | app/src/main/java/com/viranya/fintrack/fragment/AddAccountBottomSheetFragment.java:91-93 | `set` stores the account without its id under the key. Other accounts are unchanged. |
| Store.DeleteAccount | app/src/main/java/com/viranya/fintrack/AccountsActivity.java:190-191 | Exactly the key goes; the other accounts keep their values. |
| Store.SetGoal | app/src/main/java/com/viranya/fintrack/fragment/AddGoalBottomSheetFragment.java:76-78 | `set` replaces the goal under the key and leaves every other goal alone. |
| Store.IncrementSaved | app/src/main/java/com/viranya/fintrack/SavingsGoalsActivity.java:199-200 | `increment` raises that goal's saved amount only. For a missing goal it changes nothing. |
| Store.WithField | app/src/main/java/com/viranya/fintrack/CategoriesActivity.java:174-179 | Sets one list field of the categories document and keeps the other. |
| Store.ArrayUnion | app/src/main/java/com/viranya/fintrack/CategoriesActivity.java:171-172 | The value is present afterwards and the members are the old ones plus it. A list that already holds it is unchanged; otherwise the value is appended. |
| Store.ArrayRemove | app/src/main/java/com/viranya/fintrack/CategoriesActivity.java:190-191 | Every occurrence goes and exactly the other members remain. |
| Store.ArrayUnionIdempotent | app/src/main/java/com/viranya/fintrack/CategoriesActivity.java:171-172 | A second union of the same value changes nothing. |
| Store.ArrayRemoveProperties | app/src/main/java/com/viranya/fintrack/CategoriesActivity.java:164-168 | The result keeps the other elements in order, removing twice is removing once, and removing an absent value changes nothing. |
| Store.UnionCategory | app/src/main/java/com/viranya/fintrack/CategoriesActivity.java:171-174 | The update fails exactly when the document does not exist. Otherwise only the chosen field changes, to its union with the value, and an absent field becomes a list of that one value. |
| Store.RemoveCategory | app/src/main/java/com/viranya/fintrack/CategoriesActivity.java:164-168 | The update fails exactly when the document does not exist. Otherwise only the chosen field changes, to the list without the value. |
| Store.Other | app/src/main/java/com/viranya/fintrack/CategoriesActivity.java:152 | The other list kind differs from the given one. |
| Store.SetSingleCategory | app/src/main/java/com/viranya/fintrack/CategoriesActivity.java:174-179 | Creating the document stores only the chosen list, holding the one name. The other field is absent. |
| Store.SetProfile | app/src/main/java/com/viranya/fintrack/auth/SignUpActivity.java:173-190 | The profile document becomes the given record and nothing else changes. |
| Store.ClearCollection | app/src/main/java/com/viranya/fintrack/fragment/ProfileFragment.java:252-264 | The batch empties that collection and nothing else: every other collection holds the same documents as before (`SameCollection`), and the profile and the counter are the same. |
| Store.DeleteProfile | app/src/main/java/com/viranya/fintrack/fragment/ProfileFragment.java:223-244 | The user document is gone and nothing else changes. |
| Store.ExpenseSumFrame | app/src/main/java/com/viranya/fintrack/AddTransactionActivity.java:177-190 | The expense sum up to an id depends only on the documents below it. |
| Store.ExpenseSumAbove | app/src/main/java/com/viranya/fintrack/AddTransactionActivity.java:177-190 | Documents at or beyond the bound do not count. |
| Store.ExpenseSumRemove | app/src/main/java/com/viranya/fintrack/fragment/TransactionsFragment.java:187-193 | Removing one stored transaction takes exactly its contribution off the category's expense sum. |
| Store.ExpenseTotalAfterAdd | app/src/main/java/com/viranya/fintrack/AddTransactionActivity.java:155-163 | Adding a transaction adds exactly its amount to its category's stored expenses when it is an Expense, and nothing otherwise. |
| Store.ExpenseTotalAfterDelete | app/src/main/java/com/viranya/fintrack/fragment/TransactionsFragment.java:187-193 | Deleting takes the stored record's contribution off its category. Deleting a missing id changes no total. |
| LiveStore.UserStore.constructor | app/src/main/java/com/viranya/fintrack/auth/SignUpActivity.java:173-190 | A fresh user's store is empty and well formed. |
| LiveStore.UserStore.AddTransaction | app/src/main/java/com/viranya/fintrack/AddTransactionActivity.java:155-157 | The new state is `Store.AddTransaction` of the old one. |
| LiveStore.UserStore.DeleteTransaction | app/src/main/java/com/viranya/fintrack/fragment/TransactionsFragment.java:187-188 | The new state is `Store.DeleteTransaction` of the old one. |
| LiveStore.UserStore.IncrementSpent | app/src/main/java/com/viranya/fintrack/AddTransactionActivity.java:177-190 | The new state is `Store.IncrementSpent` of the old one. |
| LiveStore.UserStore.SetBudget | app/src/main/java/com/viranya/fintrack/fragment/AddBudgetBottomSheetFragment.java:94-96 | The new state is `Store.SetBudget` of the old one. |
| LiveStore.UserStore.SetAccount | app/src/main/java/com/viranya/fintrack/fragment/AddAccountBottomSheetFragment.java:91-93 | The new state is `Store.SetAccount` of the old one. |
| LiveStore.UserStore.DeleteAccount | app/src/main/java/com/viranya/fintrack/AccountsActivity.java:190-191 | The new state is `Store.DeleteAccount` of the old one. |
| LiveStore.UserStore.CommitRename | app/src/main/java/com/viranya/fintrack/AccountsActivity.java:176-180 | The batch applies the delete and then the set, both at once. |
| LiveStore.UserStore.SetGoal | app/src/main/java/com/viranya/fintrack/fragment/AddGoalBottomSheetFragment.java:76-78 | The new state is `Store.SetGoal` of the old one. |
| LiveStore.UserStore.IncrementSaved | app/src/main/java/com/viranya/fintrack/SavingsGoalsActivity.java:199-200 | The new state is `Store.IncrementSaved` of the old one. |
| LiveStore.UserStore.UnionCategory | app/src/main/java/com/viranya/fintrack/CategoriesActivity.java:171-172 | It reports whether the update succeeded. On success the state is `Store.UnionCategory`'s; otherwise it is unchanged. |
| LiveStore.UserStore.RemoveCategory | app/src/main/java/com/viranya/fintrack/CategoriesActivity.java:164-168 | It reports whether the update succeeded. On success the state is `Store.RemoveCategory`'s; otherwise it is unchanged. |
| LiveStore.UserStore.SetSingleCategory | app/src/main/java/com/viranya/fintrack/CategoriesActivity.java:174-179 | The new state is `Store.SetSingleCategory` of the old one. |
| LiveStore.UserStore.SetProfile | app/src/main/java/com/viranya/fintrack/auth/SignUpActivity.java:173-190 | The new state is `Store.SetProfile` of the old one. |
| LiveStore.UserStore.ClearCollection | app/src/main/java/com/viranya/fintrack/fragment/ProfileFragment.java:252-264 | The new state is `Store.ClearCollection` of the old one. |
| LiveStore.UserStore.DeleteProfile | app/src/main/java/com/viranya/fintrack/fragment/ProfileFragment.java:223-244 | The new state is `Store.DeleteProfile` of the old one. |
| Text.Trim | app/src/main/java/com/viranya/fintrack/AddTransactionActivity.java:124-127 | `String.trim`: the result is no longer than the input, neither starts nor ends with a character up to U+0020, and is empty exactly when the input is blank. |
| Text.TrimStartDropsTrimmable | app/src/main/java/com/viranya/fintrack/AddTransactionActivity.java:124-127 | Every character the leading strip drops is one up to U+0020. |
| Text.TrimEndDropsTrimmable | app/src/main/java/com/viranya/fintrack/AddTransactionActivity.java:124-127 | Every character the trailing strip drops is one up to U+0020. |
| Text.TrimIsSlice | app/src/main/java/com/viranya/fintrack/AddTransactionActivity.java:124-127 | The trimmed text is the slice `s[i..j]` of the input, with every character before `i` and from `j` on trimmable: only the runs at the two ends are removed. |
| Text.TrimIdempotent | app/src/main/java/com/viranya/fintrack/AddTransactionActivity.java:124-127 | Trimming twice is trimming once. |
| Text.ToLower | app/src/main/java/com/viranya/fintrack/fragment/TransactionsFragment.java:142-147 | `toLowerCase` keeps the length and maps each character on its own. |
| Text.TrimToLowerCommute | app/src/main/java/com/viranya/fintrack/fragment/TransactionsFragment.java:142-147 | Lower-casing and trimming the query can be done in either order. |
| Text.Contains | app/src/main/java/com/viranya/fintrack/fragment/TransactionsFragment.java:142-147 | `contains` holds exactly when the text occurs at some index. |
| Text.DoubleQuotes | app/src/main/java/com/viranya/fintrack/fragment/ProfileFragment.java:187 | `replace("\"", "\"\"")` never shortens the title. |
| Text.UndoubleDoubleQuotes | app/src/main/java/com/viranya/fintrack/fragment/ProfileFragment.java:187 | Undoubling the doubled quotes gives back the original title. |
| Text.DoubleQuotesNoQuote | app/src/main/java/com/viranya/fintrack/fragment/ProfileFragment.java:187 | A text without quotes is left as it is. |
| Seqs.Filter | app/src/main/java/com/viranya/fintrack/fragment/TransactionsFragment.java:136-147 | A stream filter keeps exactly the members that satisfy the condition. |
| Seqs.FilterIsSubsequence | app/src/main/java/com/viranya/fintrack/fragment/TransactionsFragment.java:136-147 | The filtered list keeps the input's order. |
| Seqs.FilterKeepsAll | app/src/main/java/com/viranya/fintrack/fragment/TransactionsFragment.java:136-147 | A filter that every member passes returns the list itself. |
| Seqs.FilterMonotone | app/src/main/java/com/viranya/fintrack/SavingsGoalsActivity.java:155-157 | A weaker condition keeps a superset, in the same order. |
| Seqs.FilterFilter | app/src/main/java/com/viranya/fintrack/fragment/TransactionsFragment.java:136-147 | Two filters in a row are one filter on both conditions. |
| Seqs.SubsequenceTransitive | app/src/main/java/com/viranya/fintrack/fragment/TransactionsFragment.java:136-147 | A subsequence of a subsequence is a subsequence. |
| Seqs.SubsequenceMembers | app/src/main/java/com/viranya/fintrack/fragment/TransactionsFragment.java:136-147 | A subsequence's members are members of the list. |
| AddTransaction.Toggle | app/src/main/java/com/viranya/fintrack/AddTransactionActivity.java:65-73 | A checked button selects its own type, and an unchecked event keeps the current one. |
| AddTransaction.Validate | app/src/main/java/com/viranya/fintrack/AddTransactionActivity.java:122-151 | One iff per rejection, first failure wins: no user, blank title, a missing or non-positive amount, a blank category. Success is exactly passing all four, and the record is the trimmed title and category with the amount, type and date. |
| AddTransaction.SaveValidated | app/src/main/java/com/viranya/fintrack/AddTransactionActivity.java:155-189 | The writes of a passed save: the record under the next id, the counter moved on, and for an Expense only its category's budget raised by the amount. |
| AddTransaction.SaveOn | app/src/main/java/com/viranya/fintrack/AddTransactionActivity.java:122-190 | A refused form or a failed `add` writes nothing. A successful save stores the validated record under the next id and moves the counter on by one; for an Expense whose category has a budget, that budget becomes the old one with the amount added to its spent amount. Every other budget, and every account, goal, category and profile, is unchanged; without Expense no budget changes. |
| AddTransaction.SaveKeepsLimits | app/src/main/java/com/viranya/fintrack/AddTransactionActivity.java:185-189 | No save changes any budget's limit. |
| AddTransaction.SaveKeepsBudgetGap | app/src/main/java/com/viranya/fintrack/AddTransactionActivity.java:155-163 | For every budget, spent minus the category's stored expenses is the same after a save as before. |
| AddTransaction.UnbudgetedExpenseTouchesNoBudget | app/src/main/java/com/viranya/fintrack/AddTransactionActivity.java:185-189 | An Expense in a category without a budget is still stored, and every budget is left unchanged. |
| AddTransaction.Screen.constructor | app/src/main/java/com/viranya/fintrack/AddTransactionActivity.java:38 | The type starts as "Expense". |
| AddTransaction.Screen.OnButtonChecked | app/src/main/java/com/viranya/fintrack/AddTransactionActivity.java:65-73 | The screen's type becomes `Toggle` of the old type. |
| AddTransaction.Screen.Save | app/src/main/java/com/viranya/fintrack/AddTransactionActivity.java:122-190 | The store ends as `SaveOn` says for the current type, and the outcome reports the rejection or the write's result. |
| TransactionsList.WithIds | app/src/main/java/com/viranya/fintrack/fragment/TransactionsFragment.java:123-128 | The transactions screen's own copy of the id fill-in (`Accounts.WithIds` is the accounts screen's, over a different record type): each listed record is its document's record with that document's id filled in, one per document. |
| TransactionsList.WithIdsDescending | app/src/main/java/com/viranya/fintrack/fragment/TransactionsFragment.java:114-128 | The full list keeps the query's newest-first order. |
| TransactionsList.MatchesTab | app/src/main/java/com/viranya/fintrack/fragment/TransactionsFragment.java:136-140 | Reference definition of the tab filter: the "All" tab keeps every record, any other tab the records of that type. `ApplyFilters` keeps by it, and `ApplyFiltersKeepsExactly` states the resulting list with this test written out. |
| TransactionsList.MatchesQuery | app/src/main/java/com/viranya/fintrack/fragment/TransactionsFragment.java:142-147 | Reference definition of the search filter: the lower-cased, trimmed query is blank or occurs in the lower-cased title. `ApplyFiltersKeepsExactly` states the resulting list with this test written out, blank meaning a query of trimmable characters only. |
| TransactionsList.ApplyFilters | app/src/main/java/com/viranya/fintrack/fragment/TransactionsFragment.java:133-153 | The shown list is a subsequence of the full list. |
| TransactionsList.ApplyFiltersKeepsExactly | app/src/main/java/com/viranya/fintrack/fragment/TransactionsFragment.java:136-147 | A transaction is shown iff it is listed, its type equals the tab (or the tab is "All"), and the trimmed lower-cased query is blank or occurs in its lower-cased title. |
| TransactionsList.ToLowerPreservesBlank | app/src/main/java/com/viranya/fintrack/fragment/TransactionsFragment.java:142-143 | Lower-casing does not change whether the query is blank. |
| TransactionsList.FiltersKeepOrder | app/src/main/java/com/viranya/fintrack/fragment/TransactionsFragment.java:136-147 | Tab filter then query filter gives an order-keeping subsequence of the full list. |
| TransactionsList.AllTabBlankQueryShowsEverything | app/src/main/java/com/viranya/fintrack/fragment/TransactionsFragment.java:136-147 | With "All" and a blank query, the shown list is the whole list. |
| TransactionsList.SubsequenceDescending | app/src/main/java/com/viranya/fintrack/fragment/TransactionsFragment.java:133-153 | A subsequence of a newest-first list is newest first. |
| TransactionsList.FilteredIsDescending | app/src/main/java/com/viranya/fintrack/fragment/TransactionsFragment.java:114-153 | The filtered list of a fresh query is newest first. |
| TransactionsList.DeleteOn | app/src/main/java/com/viranya/fintrack/fragment/TransactionsFragment.java:181-204 | With no user, no id or a failed delete, nothing changes. Otherwise exactly that id goes, and an Expense lowers its category's budget by its amount. No account, goal, category list, profile or limit changes. |
| TransactionsList.DeleteKeepsBudgetGap | app/src/main/java/com/viranya/fintrack/fragment/TransactionsFragment.java:187-201 | Deleting a row whose record is still stored keeps, for every budget, spent minus stored expenses. |
| TransactionsList.StaleDeleteDecrementsAgain | app/src/main/java/com/viranya/fintrack/fragment/TransactionsFragment.java:187-201 | Deleting a row whose record is already gone still lowers the budget, while the stored expenses stay the same. |
| TransactionsList.Screen.constructor | app/src/main/java/com/viranya/fintrack/fragment/TransactionsFragment.java:51 | Both lists start empty, the filter is "All" and the query empty. |
| TransactionsList.Screen.Refilter | app/src/main/java/com/viranya/fintrack/fragment/TransactionsFragment.java:133-153 | The shown list is replaced by `ApplyFilters` of the full list; nothing else changes. |
| TransactionsList.Screen.OnSnapshot | app/src/main/java/com/viranya/fintrack/fragment/TransactionsFragment.java:114-130 | The full list is rebuilt as `WithIds` of the documents and the shown list refiltered from it. |
| TransactionsList.Screen.OnTabSelected | app/src/main/java/com/viranya/fintrack/fragment/TransactionsFragment.java:85-86 | The filter becomes the tab's text and the shown list is refiltered. |
| TransactionsList.Screen.OnQueryTextChange | app/src/main/java/com/viranya/fintrack/fragment/TransactionsFragment.java:103-104 | The query becomes the new text and the shown list is refiltered. |
| TransactionsList.Screen.Delete | app/src/main/java/com/viranya/fintrack/fragment/TransactionsFragment.java:181-204 | The store ends as `DeleteOn` says. |
| AddBudget.Validate | app/src/main/java/com/viranya/fintrack/fragment/AddBudgetBottomSheetFragment.java:67-89 | One iff per rejection, in order: no user, a blank category, a missing or non-positive limit. An accepted form is the budget (trimmed category, limit, spent 0). |
| AddBudget.SaveOn | app/src/main/java/com/viranya/fintrack/fragment/AddBudgetBottomSheetFragment.java:67-104 | A refused form or failed `set` writes nothing. A save stores that budget under its category, replacing any old one, and leaves every other budget and collection alone. |
| AddBudget.CategoryIsFreeText | app/src/main/java/com/viranya/fintrack/fragment/AddBudgetBottomSheetFragment.java:62 | A category outside the dropdown's suggestions is accepted, trimmed. |
| AddBudget.Save | app/src/main/java/com/viranya/fintrack/fragment/AddBudgetBottomSheetFragment.java:67-104 | Returns `Validate`'s verdict and leaves the store as `SaveOn` says. |
| AddGoal.Validate | app/src/main/java/com/viranya/fintrack/fragment/AddGoalBottomSheetFragment.java:50-72 | One iff per rejection, in order: no user, a blank name, a missing or non-positive target. An accepted form is the goal (trimmed name, target, saved 0). |
| AddGoal.SaveOn | app/src/main/java/com/viranya/fintrack/fragment/AddGoalBottomSheetFragment.java:50-86 | A refused form or failed `set` writes nothing. A save stores the goal under its name, replacing any old one and its saved amount, and leaves every other goal and collection alone. |
| AddGoal.Save | app/src/main/java/com/viranya/fintrack/fragment/AddGoalBottomSheetFragment.java:50-86 | Returns `Validate`'s verdict and leaves the store as `SaveOn` says. |
| AddAccount.Validate | app/src/main/java/com/viranya/fintrack/fragment/AddAccountBottomSheetFragment.java:61-80 | Refused exactly for no user or a blank name. An accepted entry has the trimmed name, and a balance of 0 when none was typed. |
| AddAccount.InitialBalanceTransaction | app/src/main/java/com/viranya/fintrack/fragment/AddAccountBottomSheetFragment.java:99-105 | The Income "Initial Balance for <name>", in category "Initial Balance", for the balance, naming the account. |
| AddAccount.SaveOn | app/src/main/java/com/viranya/fintrack/fragment/AddAccountBottomSheetFragment.java:61-113 | A refusal or a failed account `set` writes nothing. Otherwise the account is stored, overwriting one of the same name. A transaction is added iff the balance is positive and its `add` succeeds. |
| AddAccount.NoTransactionWithoutPositiveBalance | app/src/main/java/com/viranya/fintrack/fragment/AddAccountBottomSheetFragment.java:99 | A zero or negative balance stores the account and no transaction. |
| AddAccount.Save | app/src/main/java/com/viranya/fintrack/fragment/AddAccountBottomSheetFragment.java:61-113 | Returns `Validate`'s verdict and leaves the store as `SaveOn` says. |
| Accounts.WithIds | app/src/main/java/com/viranya/fintrack/AccountsActivity.java:79-84 | The accounts screen's own copy of the id fill-in (`TransactionsList.WithIds` is the transactions screen's): each listed account is its document's record with that document's id, one per document. |
| Accounts.ValidateEdit | app/src/main/java/com/viranya/fintrack/AccountsActivity.java:137-147 | Refused exactly when the name is literally empty or the balance text is empty. The name is not trimmed. |
| Accounts.UpdateOn | app/src/main/java/com/viranya/fintrack/AccountsActivity.java:167-181 | Without a user or with a failed commit, nothing changes. A commit removes the old name's key and stores the new account; every other account stays. Only the accounts change, so no transaction is touched. |
| Accounts.SameNameOverwritesBalance | app/src/main/java/com/viranya/fintrack/AccountsActivity.java:177-178 | Keeping the name leaves the same set of accounts and replaces only the balance. |
| Accounts.RenameOntoExistingMerges | app/src/main/java/com/viranya/fintrack/AccountsActivity.java:178 | Renaming onto another account's name replaces that account, leaving one account fewer. |
| Accounts.DeleteOn | app/src/main/java/com/viranya/fintrack/AccountsActivity.java:186-194 | Removes exactly the row's document; every other account and collection is unchanged. |
| Accounts.Screen.constructor | app/src/main/java/com/viranya/fintrack/AccountsActivity.java:67-88 | The list starts empty. |
| Accounts.Screen.OnSnapshot | app/src/main/java/com/viranya/fintrack/AccountsActivity.java:67-88 | The list is rebuilt as `WithIds` of the documents. |
| Accounts.Screen.SaveEdit | app/src/main/java/com/viranya/fintrack/AccountsActivity.java:137-181 | A refused edit writes nothing. An accepted one leaves the store as `UpdateOn` says. |
| Accounts.Screen.Delete | app/src/main/java/com/viranya/fintrack/AccountsActivity.java:186-194 | The store ends as `DeleteOn` says. |
| SavingsGoals.CatalogueShape | app/src/main/java/com/viranya/fintrack/SavingsGoalsActivity.java:91-125 | Twenty suggestions at the listed rupee prices, the cheapest costing 5000 rupees. |
| SavingsGoals.Affordable | app/src/main/java/com/viranya/fintrack/SavingsGoalsActivity.java:155-157 | Exactly the catalogue entries whose price is at most the total saved, in catalogue order. |
| SavingsGoals.TotalSaved | app/src/main/java/com/viranya/fintrack/SavingsGoalsActivity.java:141-146 | The saved total as the listener adds it, in list order: 0 when nothing is saved, never negative when no saving is. |
| SavingsGoals.AffordableMonotone | app/src/main/java/com/viranya/fintrack/SavingsGoalsActivity.java:156 | A larger total keeps every suggestion shown before, still in order. |
| SavingsGoals.SuggestionsShownIffCheapestAffordable | app/src/main/java/com/viranya/fintrack/SavingsGoalsActivity.java:155-167 | The section is non-empty iff the goals hold at least 5000 rupees. |
| SavingsGoals.ValidateAmount | app/src/main/java/com/viranya/fintrack/SavingsGoalsActivity.java:181-189 | Refused exactly when the amount is missing or not positive. |
| SavingsGoals.ContributionTransaction | app/src/main/java/com/viranya/fintrack/SavingsGoalsActivity.java:202-205 | The Expense "Contribution to <goal>", in category "Savings", for the amount. |
| SavingsGoals.ContributeOn | app/src/main/java/com/viranya/fintrack/SavingsGoalsActivity.java:194-207 | The goal's saved amount rises when its increment succeeds. The contribution is recorded when its `add` succeeds. No budget, account, category list or profile changes. |
| SavingsGoals.ContributionWidensSavingsGap | app/src/main/java/com/viranya/fintrack/SavingsGoalsActivity.java:194-207 | A recorded contribution raises the "Savings" expenses by the amount while the "Savings" budget's spent amount stays put. |
| SavingsGoals.Screen.constructor | app/src/main/java/com/viranya/fintrack/SavingsGoalsActivity.java:132-169 | The lists start empty and the suggestions section hidden. |
| SavingsGoals.Screen.UpdateSuggestions | app/src/main/java/com/viranya/fintrack/SavingsGoalsActivity.java:154-169 | The shown suggestions are `Affordable` of the catalogue, and the section is visible iff that is non-empty. |
| SavingsGoals.Screen.OnSnapshot | app/src/main/java/com/viranya/fintrack/SavingsGoalsActivity.java:132-151 | Refills the list and returns `TotalSaved` of the goals, from which the suggestions are updated. |
| SavingsGoals.Screen.OnAddMoney | app/src/main/java/com/viranya/fintrack/SavingsGoalsActivity.java:181-207 | A refused amount writes nothing; a valid one leaves the store as `ContributeOn` says, for the row's goal. |
| Categories.DefaultSelection | app/src/main/java/com/viranya/fintrack/CategoriesActivity.java:137-141 | The editor starts on Income exactly for a category of income type. |
| Categories.ValidateName | app/src/main/java/com/viranya/fintrack/CategoriesActivity.java:147-151 | Refused exactly when the name is blank; otherwise the trimmed name. |
| Categories.InferKind | app/src/main/java/com/viranya/fintrack/CategoriesActivity.java:97 | Expense exactly when the expense list holds the name, else income. |
| Categories.SaveOn | app/src/main/java/com/viranya/fintrack/CategoriesActivity.java:159-180 | Without a user, nothing changes. Otherwise the new name is in the chosen list, and a missing document is created holding only it. A name already there with no rename changes nothing. A rename first removes the old name from its inferred list. On an existing document every other name keeps its membership of both lists. Only the categories document changes. |
| Categories.RetypeKeepsBothEntries | app/src/main/java/com/viranya/fintrack/CategoriesActivity.java:164 | Re-saving a name unchanged under the other type adds it there and keeps it in its old list. |
| Categories.DeleteOn | app/src/main/java/com/viranya/fintrack/CategoriesActivity.java:182-196 | The name leaves the given list only. Every other name's membership and the other list are unchanged. |
| Categories.Screen.constructor | app/src/main/java/com/viranya/fintrack/CategoriesActivity.java:63-88 | All three lists start empty. |
| Categories.Screen.OnSnapshot | app/src/main/java/com/viranya/fintrack/CategoriesActivity.java:63-88 | Both lists are read from the document, empty when absent. The displayed list is income followed by expense. |
| Categories.Screen.SaveCategory | app/src/main/java/com/viranya/fintrack/CategoriesActivity.java:159-180 | The store ends as `SaveOn` says, for the screen's expense list. |
| Categories.Screen.DeleteCategory | app/src/main/java/com/viranya/fintrack/CategoriesActivity.java:182-196 | The store ends as `DeleteOn` says. |
| Totals.TotalsSplitEveryAmount | app/src/main/java/com/viranya/fintrack/fragment/HomeFragment.java:143-152 | Income plus non-Income totals equal the sum of all amounts. |
| Totals.IncomeTotal | app/src/main/java/com/viranya/fintrack/fragment/HomeFragment.java:142-146 | The month's income as the loop adds it: the amounts of the transactions typed exactly "Income", front to back. Its properties are the lemmas below. |
| Totals.NonIncomeTotal | app/src/main/java/com/viranya/fintrack/fragment/HomeFragment.java:142-148 | The month's expense as the loop adds it: the amounts of every other transaction, whatever its type. |
| Totals.TotalsBounded | app/src/main/java/com/viranya/fintrack/fragment/HomeFragment.java:142-148 | With no negative amounts, the income and the expense each lie between 0 and the total of all amounts. |
| Totals.NoIncomeTotal | app/src/main/java/com/viranya/fintrack/fragment/HomeFragment.java:142-148 | Without Income transactions the income is 0 and the expense is every amount. |
| Totals.IncomeTotalAppend | app/src/main/java/com/viranya/fintrack/fragment/HomeFragment.java:143-152 | The Income total of two lists joined is the sum of their totals. |
| Totals.NonIncomeTotalAppend | app/src/main/java/com/viranya/fintrack/fragment/HomeFragment.java:143-152 | Likewise for the non-Income total. |
| Totals.AllIncomeTotals | app/src/main/java/com/viranya/fintrack/fragment/HomeFragment.java:143-152 | Over Income transactions only, the expense is 0 and the income is every amount. |
| Home.TimeOfDay | app/src/main/java/com/viranya/fintrack/fragment/HomeFragment.java:126-130 | The seconds since midnight, within one day. |
| Home.DayOfBounds | app/src/main/java/com/viranya/fintrack/fragment/HomeFragment.java:126-130 | A timestamp lies in its day, at its time of day. |
| Home.AsWrittenMonthWindow | app/src/main/java/com/viranya/fintrack/fragment/HomeFragment.java:126-130 | Both bounds carry the current time of day, on day 1 and on the last day. |
| Home.MonthWindow | app/src/main/java/com/viranya/fintrack/fragment/HomeFragment.java:124-130 | The window the month bounds are meant to span, from the first day's midnight to the last second of the last day (the corrected form, see "## Findings"). It is non-empty iff the first day is not after the last; `MonthWindowIsWholeDays` states which timestamps it holds. |
| Home.MonthWindowIsWholeDays | app/src/main/java/com/viranya/fintrack/fragment/HomeFragment.java:126-135 | The corrected window holds a timestamp iff its day is one of the month's days. |
| Home.AsWrittenWindowMissesMonthStart | app/src/main/java/com/viranya/fintrack/fragment/HomeFragment.java:126-135 | After midnight the as-written window drops the first moment of the month. |
| Home.AsWrittenWindowMissesMonthEnd | app/src/main/java/com/viranya/fintrack/fragment/HomeFragment.java:126-135 | Before the last second of the day, it drops the month's last second. |
| Home.AsWrittenWindowExample | app/src/main/java/com/viranya/fintrack/fragment/HomeFragment.java:126-135 | At 10:00 on the 15th, an expense at 09:00 on the 1st is outside the window. |
| Home.InMonth | app/src/main/java/com/viranya/fintrack/fragment/HomeFragment.java:133-135 | The query returns exactly the stored transactions dated inside the window. |
| Home.BalanceSum | app/src/main/java/com/viranya/fintrack/fragment/HomeFragment.java:115-121 | The account balance sum as the first listener adds it, each document's `balance` when present. Its properties are `BalanceSumAppend` and `BalanceSumSkipsMissing`. |
| Home.ByCategory | app/src/main/java/com/viranya/fintrack/fragment/HomeFragment.java:140-150 | The `expenseByCategory` map as the loop builds it; `ByCategoryContents` states its keys and values. |
| Home.BalanceSumAppend | app/src/main/java/com/viranya/fintrack/fragment/HomeFragment.java:115-121 | The balance sum of joined lists is the sum of their sums. |
| Home.BalanceSumSkipsMissing | app/src/main/java/com/viranya/fintrack/fragment/HomeFragment.java:115-121 | Accounts without a balance field add nothing: the sum equals that over the others alone. |
| Home.ByCategoryContents | app/src/main/java/com/viranya/fintrack/fragment/HomeFragment.java:148-150 | The keys are exactly the categories of non-Income transactions, and each value is that category's total. |
| Home.MapSumRemove | app/src/main/java/com/viranya/fintrack/fragment/HomeFragment.java:148-150 | A map's value sum is any entry plus the sum of the rest. |
| Home.MapSumUpdate | app/src/main/java/com/viranya/fintrack/fragment/HomeFragment.java:148-150 | Overwriting an entry changes the sum by the difference. |
| Home.ByCategorySumsToExpense | app/src/main/java/com/viranya/fintrack/fragment/HomeFragment.java:143-152 | The per-category values sum to the month's expense. |
| Home.MonthStep | app/src/main/java/com/viranya/fintrack/fragment/HomeFragment.java:143-152 | One more transaction raises income or expense by its amount, and an Expense raises its category's entry. |
| Home.Aggregate | app/src/main/java/com/viranya/fintrack/fragment/HomeFragment.java:143-152 | The loop yields exactly the month's Income total, non-Income total and per-category map. |
| Home.RecentIsNewest | app/src/main/java/com/viranya/fintrack/fragment/HomeFragment.java:168-178 | At most five, the newest from the front, fewer only when fewer exist, and newest first. |
| Home.Recent | app/src/main/java/com/viranya/fintrack/fragment/HomeFragment.java:166-178 | The `limit(5)` query: at most five, the first of the newest-first list in order, five unless fewer exist, and all of them when there are at most five. |
| Home.DisplayedTotal | app/src/main/java/com/viranya/fintrack/fragment/HomeFragment.java:184-190 | The displayed total: the balance sum plus the month's income minus its expense; `Ledger.InitialBalanceCountsTwice` is stated over it. |
| Home.Dashboard.constructor | app/src/main/java/com/viranya/fintrack/fragment/HomeFragment.java:184-190 | Every figure starts at 0, the lists empty, and the shown total agrees with them. |
| Home.Dashboard.UpdateTotalBalance | app/src/main/java/com/viranya/fintrack/fragment/HomeFragment.java:184-190 | The shown total becomes balances plus income minus expense. The figures stay unchanged. |
| Home.Dashboard.OnAccountsSnapshot | app/src/main/java/com/viranya/fintrack/fragment/HomeFragment.java:111-123 | The balance becomes `BalanceSum` of the documents, and the total is updated; the month figures stay. |
| Home.Dashboard.OnMonthSnapshot | app/src/main/java/com/viranya/fintrack/fragment/HomeFragment.java:126-165 | Income, expense and the per-category map are those of the month's transactions under the corrected whole-day window, not the source's time-of-day window (see "## Left out"), and the total is updated. |
| Home.Dashboard.OnRecentSnapshot | app/src/main/java/com/viranya/fintrack/fragment/HomeFragment.java:168-178 | The recent list is replaced wholesale by `Recent`; nothing else changes. |
| YearlyReport.YearWindow | app/src/main/java/com/viranya/fintrack/YearlyReportActivity.java:76-86 | The range holds exactly the timestamps from January 1 00:00:00 to December 31 23:59:59. |
| YearlyReport.InYear | app/src/main/java/com/viranya/fintrack/YearlyReportActivity.java:83-86 | Exactly the stored transactions dated in the year, in order. |
| YearlyReport.MonthOf | app/src/main/java/com/viranya/fintrack/YearlyReportActivity.java:100-101 | The month index lies among the twelve. |
| YearlyReport.MonthOfIsCalendarMonth | app/src/main/java/com/viranya/fintrack/YearlyReportActivity.java:100-101 | A date from the first month on falls into the month whose range holds it. |
| YearlyReport.MonthIncome | app/src/main/java/com/viranya/fintrack/YearlyReportActivity.java:95-107 | Month `m`'s income bucket as the loop fills it: the Income amounts dated in that month. |
| YearlyReport.MonthExpense | app/src/main/java/com/viranya/fintrack/YearlyReportActivity.java:95-107 | Month `m`'s expense bucket: the amounts of every other transaction dated in that month. |
| YearlyReport.IncomeLine | app/src/main/java/com/viranya/fintrack/YearlyReportActivity.java:95-107 | The chart's income array: exactly twelve buckets, bucket `m` being `MonthIncome(m)`. `IncomeLineSumsToIncome` states that they sum to the income total. |
| YearlyReport.ExpenseLine | app/src/main/java/com/viranya/fintrack/YearlyReportActivity.java:95-107 | The chart's expense array: exactly twelve buckets, bucket `m` being `MonthExpense(m)`. `ExpenseLineSumsToNonIncome` states that they sum to the non-Income total. |
| YearlyReport.MonthWithinTotals | app/src/main/java/com/viranya/fintrack/YearlyReportActivity.java:95-107 | With no negative amounts, each month's bucket lies between 0 and the year's total of its kind. |
| YearlyReport.ValidYearIncreasing | app/src/main/java/com/viranya/fintrack/YearlyReportActivity.java:76-80 | The month starts of a year increase strictly. |
| YearlyReport.SumOfZeros | app/src/main/java/com/viranya/fintrack/YearlyReportActivity.java:95-96 | Fresh buckets sum to 0. |
| YearlyReport.SumRaiseOne | app/src/main/java/com/viranya/fintrack/YearlyReportActivity.java:103-107 | Raising one bucket raises the sum by the same amount. |
| YearlyReport.IncomeLineSumsToIncome | app/src/main/java/com/viranya/fintrack/YearlyReportActivity.java:98-108 | The income buckets sum to the Income total. |
| YearlyReport.ExpenseLineSumsToNonIncome | app/src/main/java/com/viranya/fintrack/YearlyReportActivity.java:98-108 | The expense buckets sum to the total of all other transactions. |
| YearlyReport.LinesSplitEveryAmount | app/src/main/java/com/viranya/fintrack/YearlyReportActivity.java:98-108 | Together the lines count every amount exactly once. |
| YearlyReport.EmptyMonthStaysZero | app/src/main/java/com/viranya/fintrack/YearlyReportActivity.java:95-96 | A month no transaction falls in stays 0 on both lines. |
| YearlyReport.ReportOf | app/src/main/java/com/viranya/fintrack/YearlyReportActivity.java:63-114 | A chart is built iff a user is signed in, the query succeeds and the year has a transaction. A chart has twelve entries per line. |
| YearlyReport.Bucket | app/src/main/java/com/viranya/fintrack/YearlyReportActivity.java:95-108 | The loop over the documents fills exactly the income and expense lines. |
| YearlyReport.FetchYearlyData | app/src/main/java/com/viranya/fintrack/YearlyReportActivity.java:63-114 | The method's result is `ReportOf`. |
| YearlyReport.ChartMatchesYearTotals | app/src/main/java/com/viranya/fintrack/YearlyReportActivity.java:98-108 | A chart's lines sum to the year's Income and non-Income totals. |
| YearlyReport.YearTransactionMonth | app/src/main/java/com/viranya/fintrack/YearlyReportActivity.java:100-101 | Each of the year's transactions is bucketed into the calendar month containing its date. |
| Decimal.DigitChar | app/src/main/java/com/viranya/fintrack/fragment/ProfileFragment.java:185-188 | A digit's character denotes that digit. |
| Decimal.DigitValue | app/src/main/java/com/viranya/fintrack/fragment/ProfileFragment.java:185-188 | A digit character's value maps back to that character. |
| Decimal.NatToDecimal | app/src/main/java/com/viranya/fintrack/fragment/ProfileFragment.java:185-188 | A non-empty numeral of digits without leading zeros. |
| Decimal.DecimalRoundTrip | app/src/main/java/com/viranya/fintrack/fragment/ProfileFragment.java:185-188 | The numeral of a number denotes that number. |
| Decimal.Fraction | app/src/main/java/com/viranya/fintrack/fragment/ProfileFragment.java:185-188 | Two digits denoting the cents. |
| Decimal.FormatCents | app/src/main/java/com/viranya/fintrack/fragment/ProfileFragment.java:185-188 | `%.2f`: a point before two final digits, a leading minus exactly for negative amounts, and no quote, comma or newline. |
| Decimal.FormatParseRoundTrip | app/src/main/java/com/viranya/fintrack/fragment/ProfileFragment.java:185-188 | The amount's text reads back as the amount. |
| Prefs.GetBoolean | app/src/main/java/com/viranya/fintrack/auth/SplashActivity.java:32-33 | The stored value for a written key, else the caller's default. |
| Prefs.AppLockDefaultsOff | app/src/main/java/com/viranya/fintrack/fragment/ProfileFragment.java:133-134 | With nothing written, the app lock reads as off. |
| Prefs.SharedPreferences.constructor | app/src/main/java/com/viranya/fintrack/auth/SplashActivity.java:32 | A fresh preference file holds no key. |
| Prefs.SharedPreferences.PutBoolean | app/src/main/java/com/viranya/fintrack/fragment/ProfileFragment.java:145-148 | That key now holds the value; every other key is as before. |
| Prefs.ReadAfterWrite | app/src/main/java/com/viranya/fintrack/fragment/ProfileFragment.java:145-148 | A written value reads back whatever the default. |
| Prefs.WriteKeepsOtherKeys | app/src/main/java/com/viranya/fintrack/fragment/ProfileFragment.java:145-148 | Writing one key leaves every other key's reading alone. |
| Profile.RowShape | app/src/main/java/com/viranya/fintrack/fragment/ProfileFragment.java:185-188 | Each line opens with the date's quote and ends with a newline. |
| Profile.Row | app/src/main/java/com/viranya/fintrack/fragment/ProfileFragment.java:185-188 | One CSV line: quoted date, type and category, the quoted title with its quotes doubled, the amount, a newline. `RowShape` and `ReadRowOfRow` state its shape and that it reads back. |
| Profile.Rows | app/src/main/java/com/viranya/fintrack/fragment/ProfileFragment.java:180-189 | The CSV body: one `Row` per transaction in query order. It is empty iff there are no transactions; `RowsAreConcat` and `ReadRowsOfRows` state its contents. |
| Profile.ExportOf | app/src/main/java/com/viranya/fintrack/fragment/ProfileFragment.java:165-189 | There is content iff a user is signed in and there is a transaction. The content starts with "Date,Type,Category,Title,Amount" and a newline. |
| Profile.LinesOf | app/src/main/java/com/viranya/fintrack/fragment/ProfileFragment.java:180-189 | One line per document, side by side. |
| Profile.ConcatCons | app/src/main/java/com/viranya/fintrack/fragment/ProfileFragment.java:180-189 | Appending lines from the back equals taking the first line and then the rest. |
| Profile.LinesOfTail | app/src/main/java/com/viranya/fintrack/fragment/ProfileFragment.java:180-189 | The lines of the later documents are the tail of the lines. |
| Profile.RowsAreConcat | app/src/main/java/com/viranya/fintrack/fragment/ProfileFragment.java:180-189 | The rows are each document's line, concatenated in query order. |
| Profile.BuildCsv | app/src/main/java/com/viranya/fintrack/fragment/ProfileFragment.java:179-189 | The builder loop yields the header followed by one row per document, in order. |
| Profile.ExportTransactionsToCsv | app/src/main/java/com/viranya/fintrack/fragment/ProfileFragment.java:165-189 | The content handed to the writer is `ExportOf`. |
| Profile.ReadQuotedBody | app/src/main/java/com/viranya/fintrack/fragment/ProfileFragment.java:185-188 | The CSV reader for a quoted field consumes input. |
| Profile.ReadField | app/src/main/java/com/viranya/fintrack/fragment/ProfileFragment.java:185-188 | Reading a field consumes input. |
| Profile.ReadLine | app/src/main/java/com/viranya/fintrack/fragment/ProfileFragment.java:185-188 | Reading to a newline consumes input. |
| Profile.ReadRow | app/src/main/java/com/viranya/fintrack/fragment/ProfileFragment.java:185-188 | Reading a record consumes input. |
| Profile.ReadQuotedBodyOfDoubled | app/src/main/java/com/viranya/fintrack/fragment/ProfileFragment.java:187 | A doubled-quote body followed by a closing quote reads back as the original text. |
| Profile.ReadFieldOfQuoted | app/src/main/java/com/viranya/fintrack/fragment/ProfileFragment.java:185-187 | A field written with doubled quotes reads back as the original text. |
| Profile.ReadLineOf | app/src/main/java/com/viranya/fintrack/fragment/ProfileFragment.java:188 | The text before a newline reads back as it is. |
| Profile.ReadRowOfRow | app/src/main/java/com/viranya/fintrack/fragment/ProfileFragment.java:185-188 | A row reads back as the transaction's fields, the title exactly even with quotes in it, given quote-free date, type and category. |
| Profile.ExpectedRecords | app/src/main/java/com/viranya/fintrack/fragment/ProfileFragment.java:180-189 | One record per transaction. |
| Profile.ReadRowsOfRows | app/src/main/java/com/viranya/fintrack/fragment/ProfileFragment.java:180-189 | The rows read back as one record per transaction, in order. |
| Profile.ReadRowsStep | app/src/main/java/com/viranya/fintrack/fragment/ProfileFragment.java:180-189 | Reading many rows is reading the first and then the rest. |
| Profile.ExportReadsBack | app/src/main/java/com/viranya/fintrack/fragment/ProfileFragment.java:165-189 | The exported file reads back as exactly the transactions' records. |
| Profile.UnescapedQuoteBreaksRow | app/src/main/java/com/viranya/fintrack/fragment/ProfileFragment.java:186 | A quote in a category, not followed by a quote or comma, makes the line unreadable, since the category is not escaped. |
| Profile.FieldClosedEarly | app/src/main/java/com/viranya/fintrack/fragment/ProfileFragment.java:186 | Such a quote closes the field before its end. |
| Profile.QuoteInCategoryExample | app/src/main/java/com/viranya/fintrack/fragment/ProfileFragment.java:186 | A category written `Caf"e` gives an unreadable line. |
| Profile.DeleteCollectionOn | app/src/main/java/com/viranya/fintrack/fragment/ProfileFragment.java:252-264 | The chain stops exactly on a failed fetch, or on a failed commit of a non-empty collection. Otherwise the collection is emptied. |
| Profile.ClearedIsEmpty | app/src/main/java/com/viranya/fintrack/fragment/ProfileFragment.java:252-264 | Clearing an already empty collection changes nothing. |
| Profile.RunCollections | app/src/main/java/com/viranya/fintrack/fragment/ProfileFragment.java:223-233 | The chained collection deletions, each begun only after the previous one went on. It never reports more completed steps than there are collections; `RunCollectionsStopsAtFirstFailure` states what it leaves. |
| Profile.ClearAll | app/src/main/java/com/viranya/fintrack/fragment/ProfileFragment.java:223-233 | Reference definition: the listed collections cleared one after another. `ClearAllEmpties` states that they end up empty and everything else is kept; `ClearAllSnoc` states that clearing one more appends a step. |
| Profile.RunCollectionsStopsAtFirstFailure | app/src/main/java/com/viranya/fintrack/fragment/ProfileFragment.java:223-233 | The collections before the first failure are cleared, in order, and the rest are untouched. |
| Profile.ClearAllSnoc | app/src/main/java/com/viranya/fintrack/fragment/ProfileFragment.java:223-233 | Clearing a list of collections is clearing the front and then the last. |
| Profile.ClearAllEmpties | app/src/main/java/com/viranya/fintrack/fragment/ProfileFragment.java:223-233 | After clearing, each listed collection is empty, every other one holds the same documents as before, and the profile is kept. |
| Profile.DeleteUserAccountOn | app/src/main/java/com/viranya/fintrack/fragment/ProfileFragment.java:217-245 | Without a user nothing happens. The sign-in account goes only after the user document, which goes only after all five collections. |
| Profile.DeletionOrder | app/src/main/java/com/viranya/fintrack/fragment/ProfileFragment.java:217-245 | The collections done are empty. The one whose fetch or batch failed, and all after it, hold the same documents as before. The profile stays unless its document was deleted. Once the sign-in account is gone, every collection is empty. |
| Profile.Screen.constructor | app/src/main/java/com/viranya/fintrack/fragment/ProfileFragment.java:133-134 | The switch starts off. |
| Profile.Screen.LoadData | app/src/main/java/com/viranya/fintrack/fragment/ProfileFragment.java:133-134 | The switch shows the stored setting, off when none was stored. |
| Profile.Screen.OnAppLockChanged | app/src/main/java/com/viranya/fintrack/fragment/ProfileFragment.java:145-148 | The new state is shown and stored, and only that key changes. |
| Profile.Screen.DeleteCollection | app/src/main/java/com/viranya/fintrack/fragment/ProfileFragment.java:252-264 | Continues iff `DeleteCollectionOn` does, and leaves the store as it says. |
| Profile.Screen.DeleteUserAccount | app/src/main/java/com/viranya/fintrack/fragment/ProfileFragment.java:217-245 | The steps taken and the store afterwards are those of `DeleteUserAccountOn`. |
| Progress.TruncDiv | app/src/main/java/com/viranya/fintrack/adapter/BudgetAdapter.java:58 | A quotient truncated toward zero, as the cast of a quotient truncates. |
| Progress.Saturate | app/src/main/java/com/viranya/fintrack/adapter/BudgetAdapter.java:58 | The cast clamps to the 32-bit range and keeps values inside it. |
| Progress.Percent | app/src/main/java/com/viranya/fintrack/adapter/BudgetAdapter.java:56-59 | 0 for a non-positive whole. Otherwise the result lies in the 32-bit range. |
| Progress.MulCompare | app/src/main/java/com/viranya/fintrack/adapter/BudgetAdapter.java:58 | For a positive factor, comparing products compares the other factors. |
| Progress.PercentAbove100 | app/src/main/java/com/viranya/fintrack/adapter/BudgetAdapter.java:58-67 | Above 100 exactly when the part is at least 101 percent of a positive whole. |
| Progress.PercentWithinWhole | app/src/main/java/com/viranya/fintrack/adapter/SavingGoalAdapter.java:69-72 | A part between 0 and the whole gives 0 to 100. |
| Progress.NegativePartNotPositive | app/src/main/java/com/viranya/fintrack/adapter/BudgetAdapter.java:56-59 | A negative spent amount shows at most 0. |
| BudgetAdapter.Info | app/src/main/java/com/viranya/fintrack/adapter/BudgetAdapter.java:53 | The row's line "<spent> spent of <limit> limit": it starts with the spent text, ends with " limit", and its length is the sum of its parts. |
| BudgetAdapter.Bind | app/src/main/java/com/viranya/fintrack/adapter/BudgetAdapter.java:53-67 | The row shows the category, "<spent> spent of <limit> limit" and `Percent(spent, limit)`, with the warning style iff that exceeds 100. |
| BudgetAdapter.WarningIffOverspent | app/src/main/java/com/viranya/fintrack/adapter/BudgetAdapter.java:56-67 | The warning marks exactly the budgets spent to at least 101 percent of a positive limit. |
| BudgetAdapter.SlightOverspendNotWarned | app/src/main/java/com/viranya/fintrack/adapter/BudgetAdapter.java:58-67 | Spending past the limit by under one percent shows 100 and no warning. |
| BudgetAdapter.HalfPercentOverExample | app/src/main/java/com/viranya/fintrack/adapter/BudgetAdapter.java:58-67 | 201.00 spent of 200.00 shows 100 without warning. |
| BudgetAdapter.ItemCount | app/src/main/java/com/viranya/fintrack/adapter/BudgetAdapter.java:71-73 | The budget adapter's own `getItemCount` (`GoalAdapter.ItemCount` is the goal adapter's): one row per budget. |
| GoalAdapter.ProgressText | app/src/main/java/com/viranya/fintrack/adapter/SavingGoalAdapter.java:66 | The row's line "Saved <saved> of <target>": it starts with "Saved ", ends with the target text, and its length is the sum of its parts. |
| GoalAdapter.Bind | app/src/main/java/com/viranya/fintrack/adapter/SavingGoalAdapter.java:66-76 | The row shows the name, "Saved <saved> of <target>" and `Percent(saved, target)`, and its button reports the row's own goal. |
| GoalAdapter.ProgressNotCapped | app/src/main/java/com/viranya/fintrack/adapter/SavingGoalAdapter.java:69-72 | A goal saved to 101 percent or more shows above 100. |
| GoalAdapter.ProgressWithinTarget | app/src/main/java/com/viranya/fintrack/adapter/SavingGoalAdapter.java:69-72 | Until the target is reached the bar stays within 0 to 100. |
| GoalAdapter.ItemCount | app/src/main/java/com/viranya/fintrack/adapter/SavingGoalAdapter.java:80-83 | The goal adapter's own `getItemCount` (`BudgetAdapter.ItemCount` is the budget adapter's): one row per goal. |
| ChangePassword.MatchesPasswordPattern | app/src/main/java/com/viranya/fintrack/ChangePasswordActivity.java:39-44 | The pattern matched against the whole password, as Java's `matches()` does: both lookaheads hold and `.{8,}` runs to the end. `PatternIsPolicy` gives its meaning in plain words. |
| ChangePassword.PatternIsPolicy | app/src/main/java/com/viranya/fintrack/ChangePasswordActivity.java:39-44 | The pattern matches iff the password has at least 8 characters, no line terminator, an ASCII digit and an ASCII capital. |
| ChangePassword.SimplePasswordPasses | app/src/main/java/com/viranya/fintrack/ChangePasswordActivity.java:39-44 | "Password1" matches. |
| ChangePassword.NoUppercaseFails | app/src/main/java/com/viranya/fintrack/ChangePasswordActivity.java:39-44 | Nothing without a capital matches. |
| ChangePassword.Validate | app/src/main/java/com/viranya/fintrack/ChangePasswordActivity.java:70-102 | One iff per rejection on the trimmed inputs, in order: no user or email, blank current, blank new, mismatch, weak. An accepted change has the trimmed passwords and meets the policy. |
| ChangePassword.ChangePasswordOn | app/src/main/java/com/viranya/fintrack/ChangePasswordActivity.java:70-129 | It updates iff the checks pass, the re-authentication succeeds and the update succeeds. The new password is the trimmed one and meets the policy. A failed re-authentication is reported iff the checks passed. A rejection is reported iff the checks fail, with the first failing check as its reason. |
| ChangePassword.PasswordAfter | app/src/main/java/com/viranya/fintrack/ChangePasswordActivity.java:106-129 | The password is unchanged unless the update succeeded. |
| ChangePassword.WrongCurrentPasswordKeepsPassword | app/src/main/java/com/viranya/fintrack/ChangePasswordActivity.java:124-128 | A failed re-authentication leaves the password as it was. |
| SignUp.Validate | app/src/main/java/com/viranya/fintrack/auth/SignUpActivity.java:99-116 | Refused for a blank name, email or password, and only then for a mismatch. An accepted form holds the trimmed fields. |
| SignUp.NewProfile | app/src/main/java/com/viranya/fintrack/auth/SignUpActivity.java:173-190 | The profile holds the name, the email and "LKR". |
| SignUp.SignUpOn | app/src/main/java/com/viranya/fintrack/auth/SignUpActivity.java:99-131 | Signed up iff the checks pass and both the account creation and the profile write succeed; that writes the trimmed profile. No other outcome writes anything, and a rejection carries the first failing check as its reason. |
| SignUp.SignedUpProfile | app/src/main/java/com/viranya/fintrack/auth/SignUpActivity.java:175-178 | A new account's profile is the trimmed name and email with "LKR". |
| SignUp.WeakPasswordAccepted | app/src/main/java/com/viranya/fintrack/auth/SignUpActivity.java:99-131 | No strength rule: "1", confirmed, is accepted. |
| SignUp.EmptinessBeforeMismatch | app/src/main/java/com/viranya/fintrack/auth/SignUpActivity.java:107-116 | A blank name is reported even when the passwords differ. |
| Splash.NextScreen | app/src/main/java/com/viranya/fintrack/auth/SplashActivity.java:38-50 | App lock iff signed in with the lock on, Home iff signed in with it off, Login iff signed out. |
| Splash.Route | app/src/main/java/com/viranya/fintrack/auth/SplashActivity.java:32-50 | The decision uses the stored lock setting, off when never written. |
| Splash.SignedOutIgnoresLock | app/src/main/java/com/viranya/fintrack/auth/SplashActivity.java:46-49 | Signed out always goes to Login. |
| Splash.FreshInstallSkipsLock | app/src/main/java/com/viranya/fintrack/auth/SplashActivity.java:33 | On a fresh install a signed-in user goes to Home. |
| Splash.SwitchDecidesRoute | app/src/main/java/com/viranya/fintrack/auth/SplashActivity.java:33-45 | The switch's stored value decides between the lock screen and Home. |
| Ledger.SavedRow | app/src/main/java/com/viranya/fintrack/fragment/TransactionsFragment.java:123-128 | The listed row of a saved transaction is the stored record with the new id. |
| Ledger.SaveThenDeleteRestores | app/src/main/java/com/viranya/fintrack/fragment/TransactionsFragment.java:199-201 | Saving a transaction and deleting its row restores the store exactly, budgets included, but for the id counter. |
| Ledger.DeleteSavedRestores | app/src/main/java/com/viranya/fintrack/fragment/TransactionsFragment.java:187-201 | Deleting the row of a transaction just saved, the save given as store primitives, restores the store but for the counter. |
| Ledger.SaveOnUnfolds | app/src/main/java/com/viranya/fintrack/AddTransactionActivity.java:155-163 | A successful save is an add, followed for an Expense by a budget increment. |
| Ledger.DeleteOnUnfolds | app/src/main/java/com/viranya/fintrack/fragment/TransactionsFragment.java:187-201 | A successful delete is a removal, followed for an Expense by a budget decrement. |
| Ledger.AddSpendDeleteRefund | app/src/main/java/com/viranya/fintrack/fragment/TransactionsFragment.java:199-201 | Add, raise, delete, lower: all undone but the counter. |
| Ledger.AddThenDeleteTransaction | app/src/main/java/com/viranya/fintrack/fragment/TransactionsFragment.java:187-188 | Deleting the transaction just added restores the store but for the counter. |
| Ledger.IncrementUndone | app/src/main/java/com/viranya/fintrack/fragment/TransactionsFragment.java:199-201 | An increment followed by its opposite restores the budgets. |
| Ledger.SavingBudgetForgetsSpending | app/src/main/java/com/viranya/fintrack/fragment/AddBudgetBottomSheetFragment.java:89-96 | Saving a budget resets spent to 0 while the category's stored expenses stay. |
| Ledger.InitialBalanceCountsTwice | app/src/main/java/com/viranya/fintrack/fragment/HomeFragment.java:184-190 | An account opened this month with a positive balance raises the dashboard total by twice that balance. |
| Ledger.EditSavesCopy | app/src/main/java/com/viranya/fintrack/fragment/TransactionsFragment.java:166-170 | Saving from the edit screen keeps the original, adds one record and counts the whole amount in the budget again. |
| Ledger.DoubleDeleteDecrementsTwice | app/src/main/java/com/viranya/fintrack/fragment/TransactionsFragment.java:181-204 | Deleting a row twice removes the record once but refunds its budget twice. |

## Left out

- Firebase's asynchrony, listeners and concurrency are not modelled. Each remote call is a boolean success parameter. Callbacks run in the order the code nests them. The two independent writes of a goal contribution (SavingsGoalsActivity.java:199-205) are two flags applied in sequence.
- Amounts are `double` in the source and exact integer cents here. Floating-point rounding in sums, in `%.2f` and in the percentage quotient is not modelled.
- `Double.parseDouble` exceptions on malformed text are not modelled. A numeric field is `None` when its trimmed text is empty, else the number it parses to.
- `NumberFormat` currency formatting is a `format` parameter.
- `SimpleDateFormat` in the CSV export is a `formatDate` parameter.
- `Calendar` month and year arithmetic is given as day numbers and month starts, in seconds rather than the source's milliseconds.
- The CSV export's file write, its content resolver and its `IOException` are left out. The model stops at the content handed to the writer.
- The per-document batch in `deleteCollection` is modelled as one atomic clear of the collection.
- The `isAdded()` guards and all toasts, dialogs, progress bars, charts and navigation are left out.
- Firestore's auto-generated document ids are modelled as a counter, `nextId`.
- `@ServerTimestamp` filling of a null date is left out; every call site passes a date.
- The setters of the record classes are Dafny record updates. Each changes only its own field by construction.
- Transaction.java has no account field and no six-argument constructor, although AddAccountBottomSheetFragment.java:101 and SavingsGoalsActivity.java:203 call one. The model follows the call sites, with an optional `account` field.
- Accounts.DeleteOn: requires a document id, which every row of the list has from `WithIds`. The null-id case of `deleteAccount` is not modelled.
- SavingsGoals.CatalogueShape: states prices in cents, 100 per rupee, for the catalogue's rupee amounts.
- Progress.Percent: the quotient is exact before the cast truncates. The source computes `(spent / limit) * 100` in `double`, which can land just below a whole percent (for example 29 of 100 can give 28).
- Home.Dashboard.OnMonthSnapshot: filters with the corrected whole-day window `MonthWindow`, not the time-of-day window the source builds (HomeFragment.java:126-130, see "## Findings"). So unlike the source, it counts a transaction on day 1 before the current time of day, or on the last day after it. `Home.AsWrittenMonthWindow` states the window as written.
- SavingsGoals.TotalSaved: sums in list order over exact integers, so the `double` sum's dependence on order is not modelled.
- The Google sign-in path of SignUpActivity, and LoginActivity, ForgotPasswordActivity, AppLockActivity, HomeActivity, BudgetsFragment, and the Transaction, Category, Suggestion and Account adapters are not part of this model.
- The Firebase re-authentication and password update calls are the `reauthOk` and `updateOk` flags.
- The Firebase account creation is the `authOk` flag.
- SharedPreferences internals: modelled as a map from key to boolean.
- `String.toLowerCase` is modelled on the ASCII letters only.
- The edit screen never reads the transaction passed to it, so an edit saves a new transaction (see `Ledger.EditSavesCopy`). No edit-with-reversal is modelled because the source has none.

## Findings

| source | as written | input that shows it | evidently intended | confidence | as-written member | corrected member |
|---|---|---|---|---|---|---|
| app/src/main/java/com/viranya/fintrack/fragment/HomeFragment.java:126-130 | The calendar is set to now and moved to day 1 and then to the last day, so both bounds keep the current time of day | Opened at 10:00 on the 15th, an expense at 09:00 on the 1st is outside the window and missing from the month's totals | The window runs from midnight of day 1 to 23:59:59 of the last day | likely; not executed | Home.AsWrittenWindowMissesMonthStart | Home.MonthWindowIsWholeDays |
