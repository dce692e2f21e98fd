# Finance tracker ledger model

A Dafny model of the ledger logic of a single-page personal finance
tracker. The app keeps accounts, each with a balance and a transaction
history, and budgets, each with a category, a limit and a derived `spent`
figure. The model covers these parts:

- **Ledger** (`ledger.dfy`): the shared records and the sums derived from
  them. Posting one transaction to the selected account is defined here.
  So is the per-category expense total that both the budget effect and the
  category chart compute.
- **TransactionEntry** (`transaction_entry.dfy`): the transaction entry
  form. It covers validation, submit, the form reset, the category dropdown
  and custom-category handlers, and the effect that keeps a valid account
  selected.
- **BudgetTracker** (`budget_tracker.dfy`): the budget component. Its
  spending effect is a loop that folds all expenses into a category map and
  then refreshes every budget's `spent`. The module also covers add-budget
  validation with the duplicate check, confirmed deletion, the list of
  categories still free, and the percent-used rules for the "over budget"
  and "approaching limit" warnings and the bar width.
- **SpendingVisualization** (`spending_visualization.dfy`): the three chart
  derivations. The first groups transactions by day into income and expense
  buckets and sorts them by day, using a loop. The second groups expenses
  by category, also with a loop. The third is a name/balance snapshot per
  account.
- **AppState** (`app_state.dfy`): the app state defined at the end of
  src/components/SpendingVisualization.js. It covers the default accounts
  and budgets, the fallback to them when nothing is saved, and the
  confirmed reset. It also has lemmas that link the components: an entry's
  day is the day the chart uses, an expense adds exactly its amount to its
  budget, and a worked grocery example.
- **AccountList** (`account_list.dfy`): the account list of src/App.js. It
  covers add, delete, the edit merge, the add form's guard and the
  edit/save toggle.
- The older versions at the repository root:
  - **LegacyTransactionEntry**: its only guard is a non-empty amount.
  - **LegacyBudgetTracker**: it has no duplicate check, and its 80% bar
    colour and width use a division with no guard. The division is modelled
    with explicit IEEE `Infinity`/`NaN` values.
  - **LegacyBalanceTracking**: it overwrites a balance and logs a
    `balance_update` transaction.

Modelling choices:

- Money is in integer cents.
- A numeric form field is an `Option<int>`. `None` is the empty string.
  `Some(v)` is a filled field that parses to `v`, so `Some(0)` counts as
  filled, just as the string "0" is truthy.
- A missing `category` or `description` is the empty string.
- React state is modelled as values. Every handler is a function from the
  old state to the new one. Every effect is an explicit function or method
  applied after a change.
- The `forEach` loops that fill dictionaries are methods with `while` loops.
  Each is proved against a specification function or predicate.
- Inputs stand in for things the model cannot see:
  - `Date.now()` is an integer `stamp`;
  - the current ISO time and today's date are strings;
  - the answer of `window.confirm` is a boolean `confirmed`;
  - a saved `localStorage` snapshot arrives already parsed, as an `Option`.

Behaviours of the code worth noting:

- **Budget thresholds.** The component treats a budget as over its limit
  only when percent used is strictly above 100. It shows "approaching limit"
  from 80 up to and including 100. Spending exactly the limit is therefore
  "approaching", not "over" (`BudgetTracker.StatusThresholds`).
- **Custom category in the entry form.** Validation reads the dropdown
  field even in custom-category mode, and choosing "custom" never sets that
  field. A typed custom category with no earlier dropdown choice is
  therefore rejected (`TransactionEntry.CustomCategoryWithoutDropdownFails`).
- **Custom category in the budget form.** The check looks at the dropdown
  and the custom text in either mode. In custom mode, an earlier dropdown
  choice lets an empty custom category through, and a budget is added under
  "" (`BudgetTracker.CustomModeAddsEmptyCategory`).
- **Balance updates.** Transactions of type `balance_update` exist, from the
  older balance form. The time-series chart adds them to the expense column
  of their day (`SpendingVisualization.IsTimeSeries`).
- **Uncategorized expenses.** The category chart does not drop them: an
  expense with no category is counted under "Uncategorized".
- **Older forms.** They accept zero and negative amounts
  (`LegacyTransactionEntry.LegacySubmitRecords`) and duplicate budget
  categories (`LegacyBudgetTracker.LegacyAddAllowsDuplicate`).

## Model

| member | source | states |
|---|---|---|
| Ledger.CategoryKey | src/components/BudgetTracker.js:48 | the key is never empty; a non-empty category is its own key and an empty one is "Uncategorized" |
| Ledger.Lookup | src/components/BudgetTracker.js:61 | a key the map lacks reads as 0; a present key reads as its value |
| Ledger.Post | src/components/TransactionEntry.js:84-106 | length and order are kept; accounts with another id are unchanged; the matching account keeps id and name, moves by the signed amount, and gets the transaction appended last |
| Ledger.PostUnknownId | src/components/TransactionEntry.js:84-106 | posting to an id no account has returns the list unchanged |
| Ledger.PostReconciles | src/components/TransactionEntry.js:84-106 | posting keeps every balance equal to its opening balance plus the signed sum of its history, so balance and history change together |
| Ledger.AllTransactions | src/components/SpendingVisualization.js:23-28 | a transaction is in the flattened list exactly when some account holds it |
| Ledger.AllTransactionsAppend | src/components/SpendingVisualization.js:23-28 | flattening maps a concatenation of account lists to the concatenation of their flattenings, so histories keep account order and appear once |
| Ledger.AllTransactionsSingle | src/components/SpendingVisualization.js:23-28 | one account flattens to exactly its own history |
| Ledger.ExpensesOf | src/components/BudgetTracker.js:43 | the filter keeps exactly the expense transactions and never grows the list |
| Ledger.ExpenseTransactions | src/components/BudgetTracker.js:42-44 | the flattened list holds only expenses |
| Ledger.ExpensesOfKeepsSums | src/components/BudgetTracker.js:42-44 | dropping non-expenses changes no category total and no category set |
| Ledger.ExpenseTransactionsSums | src/components/BudgetTracker.js:42-53 | the flattened expense list has the same per-category totals and categories as the accounts taken one by one |
| Ledger.Spending | src/components/BudgetTracker.js:39-53 | the spending map has a key for exactly the categories some expense falls in |
| Ledger.SpendingLookup | src/components/BudgetTracker.js:61 | reading the spending map with the 0 default gives the expense total of any category, including one with no expenses |
| Ledger.TallyExpense | src/components/BudgetTracker.js:47-52 | one pass of the callback, resetting a missing or zero entry to 0 and then adding the amount, is one step of the running totals |
| Ledger.RunningTotalsContents | src/components/BudgetTracker.js:47-53 | after any list of transactions the running totals have a key for exactly the expense categories met, each valued at that category's expense total |
| Ledger.FoldResult | src/components/BudgetTracker.js:42-53 | the running totals over the flattened expense list are the spending map of the accounts |
| BudgetTracker.SpendingByCategory | src/components/BudgetTracker.js:42-53 | the loop over all expenses produces exactly the spending map: a key per expense category, valued at that category's total |
| BudgetTracker.WithSpent | src/components/BudgetTracker.js:58-63 | length and order are kept; each budget keeps category and limit, and spent is the map's entry for its category, or 0 |
| BudgetTracker.SpendingEffect | src/components/BudgetTracker.js:36-64 | with no accounts, the spending state and budgets are left alone; otherwise the spending map is recomputed and the budgets refreshed from it |
| BudgetTracker.RefreshedSpent | src/components/BudgetTracker.js:36-64 | after the effect, each budget's spent is the expense total of its category over all accounts; category, limit, length and order are kept |
| BudgetTracker.RefreshIdempotent | src/components/BudgetTracker.js:36-64 | running the effect twice for the same accounts gives what running it once gives |
| BudgetTracker.ValidateBudget | src/components/BudgetTracker.js:66-87 | limit error iff the limit is empty or not positive; category error iff both the dropdown and custom text are empty or the final category already has a budget; the duplicate message replaces the missing one |
| BudgetTracker.AddBudget | src/components/BudgetTracker.js:89-108 | with errors, the budgets are unchanged and the errors are shown; otherwise one budget with the final category, the parsed limit and the known spending is appended, and the form resets |
| BudgetTracker.AddBudgetAccepts | src/components/BudgetTracker.js:66-101 | an add appends iff some category is given, the limit is positive and the final category is free |
| BudgetTracker.AddBudgetRejectsDuplicate | src/components/BudgetTracker.js:77-90 | a taken category is rejected with the duplicate error and the list is unchanged |
| BudgetTracker.AddKeepsCategoriesUnique | src/components/BudgetTracker.js:77-101 | adding keeps budget categories pairwise distinct |
| BudgetTracker.CustomModeAddsEmptyCategory | src/components/BudgetTracker.js:69-97 | in custom mode, an earlier dropdown choice lets an empty custom category through, and the new budget's category is "" |
| BudgetTracker.Without | src/components/BudgetTracker.js:113 | keeps exactly the budgets whose category differs |
| BudgetTracker.WithoutAppend | src/components/BudgetTracker.js:113 | the filter distributes over concatenation, so the order is kept |
| BudgetTracker.WithoutAbsent | src/components/BudgetTracker.js:113 | deleting a category no budget has leaves the list equal |
| BudgetTracker.DeleteBudget | src/components/BudgetTracker.js:110-115 | unconfirmed: unchanged; confirmed: the category filter, so no budget of that category remains, every other budget stays in order and nothing new appears |
| BudgetTracker.FreeCategories | src/components/BudgetTracker.js:118-120 | exactly the listed categories no budget uses; a list without repeats gives a result without repeats |
| BudgetTracker.AvailableCategories | src/components/BudgetTracker.js:118-120 | exactly the fixed dropdown categories that no budget uses, each once |
| BudgetTracker.BarWidth | src/components/BudgetTracker.js:184 | the width is the percent used while that is below 100, and exactly 100 from there on |
| BudgetTracker.BarWidthRule | src/components/BudgetTracker.js:136-184 | a limit that is not positive gives an empty bar; for a positive limit the bar is full iff spent reaches the limit; an over-budget bar is always full; nothing negative spent gives a width of at least 0 |
| BudgetTracker.StatusThresholds | src/components/BudgetTracker.js:136-138 | over iff limit > 0 and spent > limit; approaching iff limit > 0 and 80% of the limit <= spent <= limit; a limit that is not positive is always normal with an empty bar |
| TransactionEntry.ValidateEntry | src/components/TransactionEntry.js:60-77 | amount error iff the amount is empty or <= 0; category error iff the dropdown category is empty; date error iff the date is empty; each with its own message |
| TransactionEntry.ValidateEntryPasses | src/components/TransactionEntry.js:60-77 | validation passes iff the amount is positive and the category and date are filled |
| TransactionEntry.IsoMidnight | src/components/TransactionEntry.js:100 | the stored timestamp starts with the chosen day followed by 'T' |
| TransactionEntry.Submit | src/components/TransactionEntry.js:79-120 | with a validation error or no accounts, the accounts are unchanged and the errors are shown; otherwise the form resets to the first account, an expense, empty fields and today |
| TransactionEntry.SubmitRecords | src/components/TransactionEntry.js:84-106 | an accepted submit moves the selected account down by the amount for an expense and up for an income, and appends exactly one transaction with the final category, the description and the day's midnight; other accounts, length and order are kept |
| TransactionEntry.SubmitUnknownAccount | src/components/TransactionEntry.js:84-106 | a submit for an id no account has changes no account |
| TransactionEntry.SubmitReconciles | src/components/TransactionEntry.js:79-106 | every submit keeps balances equal to opening balance plus signed history |
| TransactionEntry.SelectCategory | src/components/TransactionEntry.js:231-240 | choosing "custom" only turns custom mode on; any other choice is stored in the category field |
| TransactionEntry.TypeCustomCategory | src/components/TransactionEntry.js:260 | only the custom text changes: form, mode and errors are kept |
| TransactionEntry.CancelCustomCategory | src/components/TransactionEntry.js:269 | custom mode turns off; the form, the typed text and the errors are kept, and the dropdown field decides the category again |
| TransactionEntry.CustomCategoryWithoutDropdownFails | src/components/TransactionEntry.js:67-82 | choosing "custom" with no dropdown choice and typing a category gives a rejected submit with the category error, and no account changes |
| TransactionEntry.SyncSelection | src/components/TransactionEntry.js:51-58 | a selected id that exists, or an empty list, is kept; an id no account has is replaced by the first account's id |
| LegacyTransactionEntry.LegacySubmit | TransactionEntry.js:25-60 | an empty amount or no accounts changes nothing; otherwise the form resets to the first account, an expense and empty fields |
| LegacyTransactionEntry.LegacySubmitRecords | TransactionEntry.js:28-50 | any filled amount, zero or negative included, moves the selected account by the signed amount and appends one transaction with the category as typed; others are unchanged |
| LegacyTransactionEntry.LegacySubmitUnknownAccount | TransactionEntry.js:28-50 | an unknown account id changes nothing |
| LegacyTransactionEntry.LegacySubmitReconciles | TransactionEntry.js:25-50 | every submit keeps balances equal to opening balance plus signed history |
| LegacyBalanceTracking.Overwrite | BalanceTracking.js:15-33 | length kept; other accounts unchanged; the matching account's balance becomes the amount and the log entry is appended |
| LegacyBalanceTracking.UpdateBalance | BalanceTracking.js:12-37 | an empty amount changes nothing; otherwise the selected account keeps its id and name, its balance is overwritten and one balance_update entry is appended, while other accounts are unchanged and the form returns to 'checking' with an empty amount |
| LegacyBalanceTracking.RepeatedUpdate | BalanceTracking.js:12-37 | entering the same amount twice leaves the same balance as once, with two log entries in order |
| LegacyBudgetTracker.LegacyAddBudget | BudgetTracker.js:12-26 | an empty category or limit changes nothing; otherwise exactly one budget with the parsed limit and nothing spent is appended and the form clears |
| LegacyBudgetTracker.LegacyAddAllowsDuplicate | BudgetTracker.js:13-22 | adding a taken category leaves two budgets with that category |
| LegacyBudgetTracker.Divide | BudgetTracker.js:48 | division by a non-zero limit is the exact quotient; by zero it is +Infinity, -Infinity or NaN according to the sign of spent |
| LegacyBudgetTracker.BarColourRule | BudgetTracker.js:47-51 | for a positive limit, red iff more than 80% is spent; for a zero limit, red iff anything is spent |
| LegacyBudgetTracker.BarWidthBounded | BudgetTracker.js:53 | the width never exceeds 100; for a positive limit it is the percentage spent below the limit and exactly 100 from the limit on; for a zero limit it is 100, -Infinity or NaN by the sign of spent |
| SpendingVisualization.DatePrefix | src/components/SpendingVisualization.js:33 | the day is a prefix of the date with no 'T', followed by 'T' when shorter |
| SpendingVisualization.DatePrefixOfTimestamp | src/components/SpendingVisualization.js:33 | "day" + "T" + anything is bucketed under that day |
| SpendingVisualization.DateLessIrreflexive | src/components/SpendingVisualization.js:51 | the day order is irreflexive |
| SpendingVisualization.DateLessTransitive | src/components/SpendingVisualization.js:51 | the day order is transitive |
| SpendingVisualization.DateLessTotal | src/components/SpendingVisualization.js:51 | any two different days are ordered |
| SpendingVisualization.InsertByDate | src/components/SpendingVisualization.js:51 | insertion adds exactly the one bucket |
| SpendingVisualization.SortByDate | src/components/SpendingVisualization.js:51 | the sort is a permutation of its input |
| SpendingVisualization.InsertKeepsAscending | src/components/SpendingVisualization.js:51 | inserting a new day into an ascending list keeps it ascending |
| SpendingVisualization.SortByDateAscending | src/components/SpendingVisualization.js:51 | sorting buckets with distinct days gives them in strictly ascending order |
| SpendingVisualization.TallyDay | src/components/SpendingVisualization.js:32-46 | one pass of the callback, creating the day's empty bucket when missing and then adding the amount to its income or expense column, is one step of the bucket map |
| SpendingVisualization.DayMapContents | src/components/SpendingVisualization.js:31-47 | after any list of transactions there is a bucket for exactly the days met, each carrying its own day, that day's income sum and the sum of its other amounts |
| SpendingVisualization.GroupByDate | src/components/SpendingVisualization.js:31-47 | after the loop there is one bucket per day met, with that day's income total and the total of every other type, and the key order lists each of those days once |
| SpendingVisualization.ValuesInOrder | src/components/SpendingVisualization.js:50 | the values are the grouped buckets, one per entry of the given key list and in that list's order |
| SpendingVisualization.SortedGroupingIsTimeSeries | src/components/SpendingVisualization.js:50-51 | sorting the grouped values gives the time series: ascending days, exactly the days present, each with its sums |
| SpendingVisualization.TimeframeData | src/components/SpendingVisualization.js:21-58 | the result is the time series of all transactions of all accounts |
| SpendingVisualization.TimeSeriesConserves | src/components/SpendingVisualization.js:31-51 | a time series' income and expense columns add up to the sum of all amounts |
| SpendingVisualization.SumsAppend | src/components/SpendingVisualization.js:31-47 | a day's income sum, its other sum and the grand total of two joined lists are the sums over each list |
| SpendingVisualization.ChartSumsPerAccount | src/components/SpendingVisualization.js:23-47 | one more account adds exactly its own history's income, other amounts and total to what the charts sum, so each history counts once |
| SpendingVisualization.GroupByCategory | src/components/SpendingVisualization.js:67-74 | after the loop, the map is the spending map and the names are its keys, each appearing once |
| SpendingVisualization.Entries | src/components/SpendingVisualization.js:77-80 | one name/value entry per name, in order, carrying the map's value |
| SpendingVisualization.EntriesAreBreakdown | src/components/SpendingVisualization.js:77-80 | the entries form the category breakdown: distinct names, each expense category present, each value its total |
| SpendingVisualization.CategoryData | src/components/SpendingVisualization.js:60-83 | the result is the category breakdown of the accounts |
| SpendingVisualization.BreakdownIsSpending | src/components/SpendingVisualization.js:60-74 | the breakdown has exactly the budget tracker's categories, with the same totals |
| SpendingVisualization.AccountData | src/components/SpendingVisualization.js:85-93 | one point per account, in store order, carrying its name and balance |
| SpendingVisualization.RefreshCharts | src/components/SpendingVisualization.js:12-19 | with no accounts, the charts are unchanged; otherwise the charts are the time series (which conserves the total), the breakdown and the snapshot |
| AppState.InitialStore | src/components/SpendingVisualization.js:183-212 | saved accounts and budgets are used when present, the defaults otherwise |
| AppState.ResetAllData | src/components/SpendingVisualization.js:225-254 | unconfirmed: unchanged; confirmed: the two default accounts and the three default budgets |
| AppState.DefaultsConsistent | src/components/SpendingVisualization.js:187-210 | the default accounts reconcile with zero openings; the default budget categories are distinct; refreshing leaves the default budgets unchanged; each spent is its category's total |
| AppState.EntryDayIsChartDay | src/components/SpendingVisualization.js:33 | a transaction entered for a day is charted under that day |
| AppState.EntryCountsTowardsBudget | src/components/BudgetTracker.js:42-61 | an accepted expense adds its amount to its category's total, and to no other |
| AppState.GroceriesScenario | src/components/TransactionEntry.js:84-106 | $1000 minus a $50 grocery expense leaves $950 and one transaction; a $300 Groceries budget then shows $50 spent, 50/3 percent |
| AccountList.AddAccount | src/App.js:16-18 | the new account is appended last and the existing ones are unchanged |
| AccountList.DeleteAccount | src/App.js:21-24 | keeps exactly the accounts with another id, never growing the list |
| AccountList.DeleteAccountAppend | src/App.js:22 | the filter distributes over concatenation, so the order is kept |
| AccountList.DeleteAccountAbsent | src/App.js:22 | deleting a missing id leaves the list equal |
| AccountList.AddThenDelete | src/App.js:16-24 | deleting an added account's id undoes the add when that id was new |
| AccountList.Merge | src/App.js:29 | each field the patch has replaces the account's; id and history are kept |
| AccountList.EditAccount | src/App.js:27-32 | length, order and ids are kept; accounts with another id are unchanged; matching ones are merged with the patch |
| AccountList.EditUnknownId | src/App.js:28-30 | editing an id no account has returns an equal list |
| AccountList.EditIdempotent | src/App.js:27-32 | saving the same edit twice equals saving it once |
| AccountList.EditThenDelete | src/App.js:21-32 | an edit never changes how many accounts a delete removes |
| AccountList.SubmitAccountForm | src/App.js:59-71 | with a name and a balance, the stamped account is appended and both fields clear; otherwise nothing changes |
| AccountList.SubmitAccountFormAdds | src/App.js:61-67 | the new last account has the stamp as id, the typed name, the parsed balance and no transactions field |
| AccountList.InitialItem | src/App.js:96-98 | an item starts out of edit mode with the account's name and balance in its fields |
| AccountList.TypeBalance | src/App.js:119 | an empty balance field reads as NaN, a filled one as its value |
| AccountList.HandleEdit | src/App.js:100-105 | the edit flag always flips; entering edit mode changes no account; leaving it saves the name and parsed balance into the accounts with that id |
| AccountList.ClearedBalanceSavesNaN | src/App.js:100-105 | opening, clearing the balance and saving stores NaN as that account's balance and leaves the others untouched |
| AccountList.EditRoundTrip | src/App.js:100-105 | two presses from rest open and then save, storing exactly the typed fields |

## Left out

- Ledger.Lookup: the spending totals are plain JavaScript objects, and the
  model reads them as dictionaries with no inherited keys. A category named
  after an `Object.prototype` property such as "toString" or "constructor"
  has no entry in the model, so its `spent` reads as 0. The source reads the
  inherited function instead.
- Ledger.TallyExpense: for the same reason, the model's "missing or zero"
  reset does not match the source for such names. For "constructor" the
  source's `!spending[category]` test is false, and `+=` joins the
  inherited function's text with the amount. For "__proto__" the source
  drops the assignment. The model adds the amount as for any other name.
  The same holds for its uses in `BudgetTracker.SpendingByCategory`,
  `BudgetTracker.WithSpent`, `BudgetTracker.AddBudget`,
  `SpendingVisualization.GroupByCategory` and
  `SpendingVisualization.CategoryData`.

- JSX, styling, icons and the recharts components are view code with no
  state to model. This includes the `toLocaleDateString` relabelling of
  chart days.
- Reading and writing `localStorage`, and `JSON.parse`, are browser I/O. A
  saved snapshot is an input. Corrupt saved data, on which `JSON.parse`
  throws, is not modelled.
- `window.confirm`, `Date.now()` and the clock behind
  `new Date().toISOString()` are inputs. Timezones are not modelled: the
  entry form's date is stored as that day's UTC midnight.
- `parseFloat` and floating-point sums are modelled with integer cents, with
  the parse abstracted as `Option<int>`. Rounding is not modelled. Text that
  `parseFloat` reads as `NaN` in a filled field is not modelled, because
  number inputs give an empty string for it.
- React's scheduling of `useState` updates and `useEffect` runs is not
  modelled. Each effect is a function applied after the change it reacts
  to.
- The budget form's own dropdown and custom-text handlers are not modelled.
  Only their effect on the form state enters through `TrackerState`.
- The ui components (src/components/ui/tabs.js,
  src/components/ui/button.js) are not part of this model.
- src/components/BalanceTracking.js is a thin form that forwards to
  callbacks whose signatures do not match src/App.js. It is not part of
  this model.
- App.js at the repository root holds only static initial state, which the
  defaults in `AppState` already cover.
- The older TransactionEntry.js has the same account-selection effect as
  the newer form. `TransactionEntry.SyncSelection` stands for both.
- Balances remain reconciled with transaction history only in the entry
  forms. The balance overwrite breaks that on purpose, so
  `LegacyBalanceTracking` states no such invariant.
- Accounts being `null` or `undefined` is not modelled; an empty list stands
  for both.
- SpendingVisualization.SortByDate: the component compares days as parsed
  dates. The model compares the "YYYY-MM-DD" text lexicographically, which
  gives the same order for well-formed days. Malformed days, on which the
  comparator yields `NaN`, are not modelled.
- FreeCategories: the contract does not state that the free categories come
  in the dropdown's order. It states which categories appear, and that each
  appears once.
- SpendingVisualization.CategoryData: the order of the entries is not
  stated. `Object.entries` puts integer-like keys first, then the rest in
  insertion order. The contract fixes the set of names and their values,
  each name once.
- Account ids made by `Date.now()` are inputs. Their uniqueness is not
  assumed, and nothing about ids created in the same millisecond is
  modelled.
