/**
 * The top-level state of the app as wired at the end of
 * src/components/SpendingVisualization.js: the default accounts and budgets,
 * the fallback to them when nothing is saved, and the confirmed reset. It
 * also states how the components fit together over one store.
 *
 * Reading and writing `localStorage` and `JSON.parse` are not modelled: a
 * saved snapshot arrives already parsed, `None` when nothing is saved.
 */
module AppState {
  import opened Ledger
  import BudgetTracker
  import TransactionEntry
  import SpendingVisualization

  datatype Store = Store(accounts: seq<Account>, budgets: seq<Budget>)

  /** Two accounts with no money and no history. */
  const DefaultAccounts: seq<Account> := [
    Account(Named("checking"), "Main Checking", 0, []),
    Account(Named("savings"), "Savings Account", 0, [])]

  /** Three budgets, limits in cents, nothing spent. */
  const DefaultBudgets: seq<Budget> := [
    Budget("Groceries", 30000, 0),
    Budget("Dining Out", 20000, 0),
    Budget("Transportation", 15000, 0)]

  /** The `useState` initialisers: the saved value when there is one, the
      defaults otherwise. */
  function InitialStore(savedAccounts: Option<seq<Account>>, savedBudgets: Option<seq<Budget>>): (s: Store)
    ensures savedAccounts.None? ==> s.accounts == DefaultAccounts
    ensures savedAccounts.Some? ==> s.accounts == savedAccounts.value
    ensures savedBudgets.None? ==> s.budgets == DefaultBudgets
    ensures savedBudgets.Some? ==> s.budgets == savedBudgets.value
  {
    Store(if savedAccounts.Some? then savedAccounts.value else DefaultAccounts,
          if savedBudgets.Some? then savedBudgets.value else DefaultBudgets)
  }

  /** `resetAllData`, with the answer of `window.confirm` as input. */
  function ResetAllData(store: Store, confirmed: bool): (r: Store)
    ensures !confirmed ==> r == store
    ensures confirmed ==> r.accounts == DefaultAccounts && r.budgets == DefaultBudgets
  {
    if confirmed then Store(DefaultAccounts, DefaultBudgets) else store
  }

  /** The defaults are a consistent state: both accounts reconcile with an
      opening balance of 0, budget categories are distinct, and the budget
      effect leaves the default budgets as they are, so after a reset nothing
      needs recomputing. */
  lemma DefaultsConsistent()
    ensures Reconciled(DefaultAccounts, [0, 0])
    ensures BudgetTracker.UniqueCategories(DefaultBudgets)
    ensures BudgetTracker.Refreshed(DefaultAccounts, DefaultBudgets) == DefaultBudgets
    ensures forall i :: 0 <= i < |DefaultBudgets| ==>
              DefaultBudgets[i].spent == TotalExpense(DefaultAccounts, DefaultBudgets[i].category)
  {
    assert AllTransactions(DefaultAccounts) == [];
    assert DefaultAccounts[..1] == [DefaultAccounts[0]];
    assert ExpenseCategories(DefaultAccounts) == {};
    forall i | 0 <= i < |DefaultBudgets|
      ensures DefaultBudgets[i].spent == TotalExpense(DefaultAccounts, DefaultBudgets[i].category)
    {
      TotalExpenseAbsent(DefaultAccounts, DefaultBudgets[i].category);
    }
  }

  /** A transaction recorded by the entry form is charted under the day
      chosen in its date field. */
  lemma EntryDayIsChartDay(day: string)
    requires 'T' !in day
    ensures SpendingVisualization.DatePrefix(TransactionEntry.IsoMidnight(day)) == day
  {
    SpendingVisualization.DatePrefixOfTimestamp(day, "00:00:00.000Z");
  }

  /** An expense recorded by the entry form adds its amount to the spent
      total of its category, and to no other category. */
  lemma EntryCountsTowardsBudget(state: TransactionEntry.EntryState, accounts: seq<Account>, stamp: int, today: string, c: string)
    requires TransactionEntry.ValidateEntry(state.form) == map[] && |accounts| > 0
    requires state.form.txType == Expense
    requires exists i :: 0 <= i < |accounts| && accounts[i].id == state.form.accountId
    requires forall i, j :: 0 <= i < j < |accounts| ==> accounts[i].id != accounts[j].id
    ensures var after := TransactionEntry.Submit(state, accounts, stamp, today).accounts;
            TotalExpense(after, c) ==
              TotalExpense(accounts, c) +
              (if CategoryKey(TransactionEntry.FinalCategory(state)) == c then state.form.amount.value else 0)
  {
    var after := TransactionEntry.Submit(state, accounts, stamp, today).accounts;
    var tx := Transaction(stamp, Expense, state.form.amount.value, TransactionEntry.FinalCategory(state),
                          state.form.description, TransactionEntry.IsoMidnight(state.form.date));
    assert after == Post(accounts, state.form.accountId, tx);
    var k :| 0 <= k < |accounts| && accounts[k].id == state.form.accountId;
    TotalExpenseAt(accounts, after, k, tx, c);
  }

  /** A worked case: a checking account holding $1000.00 records a $50.00
      grocery expense; the balance drops to $950.00, the history grows by
      one, and a $300.00 Groceries budget then shows $50.00 spent, which is
      50/3 (about 16.7) percent. */
  lemma GroceriesScenario(stamp: int, day: string, today: string)
    requires day != ""
    ensures var accounts := [Account(Named("checking"), "checking", 100000, [])];
            var state := TransactionEntry.EntryState(
              TransactionEntry.EntryForm(Named("checking"), Expense, Some(5000), "Groceries", "", day),
              false, "", map[]);
            var after := TransactionEntry.Submit(state, accounts, stamp, today).accounts;
            && |after| == 1 && after[0].balance == 95000 && |after[0].transactions| == 1
            && BudgetTracker.Refreshed(after, [Budget("Groceries", 30000, 0)]) == [Budget("Groceries", 30000, 5000)]
            && BudgetTracker.PercentUsed(Budget("Groceries", 30000, 5000)) == 50.0 / 3.0
  {
    var accounts := [Account(Named("checking"), "checking", 100000, [])];
    var state := TransactionEntry.EntryState(
      TransactionEntry.EntryForm(Named("checking"), Expense, Some(5000), "Groceries", "", day),
      false, "", map[]);
    TransactionEntry.ValidateEntryPasses(state.form);
    var after := TransactionEntry.Submit(state, accounts, stamp, today).accounts;
    TransactionEntry.SubmitRecords(state, accounts, stamp, today);
    assert AllTransactions(accounts) == [] by {
      assert accounts[..0] == [];
    }
    TotalExpenseAbsent(accounts, "Groceries");
    EntryCountsTowardsBudget(state, accounts, stamp, today, "Groceries");
    BudgetTracker.RefreshedSpent(after, [Budget("Groceries", 30000, 0)]);
  }

  /** Changing one account by appending `tx` to its history changes the
      expense total of `c` by `tx`'s share. */
  lemma {:induction false} TotalExpenseAt(before: seq<Account>, after: seq<Account>, k: nat, tx: Transaction, c: string)
    requires |after| == |before| && k < |before|
    requires forall i :: 0 <= i < |before| && i != k ==> after[i] == before[i]
    requires after[k].transactions == before[k].transactions + [tx]
    ensures TotalExpense(after, c) == TotalExpense(before, c) + ExpenseShare(tx, c)
    decreases |before|
  {
    var n := |before| - 1;
    ExpenseSumAppend(before[k].transactions, [tx], c);
    assert ExpenseSum([tx], c) == ExpenseShare(tx, c) by {
      assert [tx][..0] == [];
    }
    if k == n {
      assert after[..n] == before[..n];
    } else {
      TotalExpenseAt(before[..n], after[..n], k, tx, c);
    }
  }
}
