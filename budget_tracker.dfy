/**
 * The budget component (src/components/BudgetTracker.js): the effect that
 * folds every expense into a category-to-total map and refreshes each
 * budget's `spent`, the add-budget form with its validation, deletion, the
 * list of categories still free, and the percent-used display rules.
 */
module BudgetTracker {
  import opened Ledger

  /** The fixed category list offered by the dropdown. */
  const BudgetCategories: seq<string> := [
    "Food & Dining", "Groceries", "Transportation", "Rent/Mortgage", "Utilities",
    "Entertainment", "Shopping", "Health & Medical", "Travel", "Education",
    "Personal Care", "Gifts & Donations", "Bills & Payments", "Investments", "Other"]

  // ---------------------------------------------------------------------
  // The spending effect

  /** The `forEach` over all expense transactions that fills `spending`. */
  method SpendingByCategory(accounts: seq<Account>) returns (spending: map<string, int>)
    ensures spending == Spending(accounts)
  {
    var expenses := ExpenseTransactions(accounts);
    spending := map[];
    var i := 0;
    while i < |expenses|
      invariant 0 <= i <= |expenses|
      invariant spending == RunningTotals(expenses[..i])
    {
      var t := expenses[i];
      assert t in expenses;
      spending := TallyExpense(spending, t);
      RunningTotalsStep(expenses, i);
      i := i + 1;
    }
    assert expenses[..i] == expenses;
    FoldResult(accounts);
  }

  /** Each budget with its `spent` replaced by the map's entry for its
      category, 0 when the category has none. */
  function WithSpent(budgets: seq<Budget>, spending: map<string, int>): (r: seq<Budget>)
    ensures |r| == |budgets|
    ensures forall i :: 0 <= i < |budgets| ==>
              && r[i].category == budgets[i].category
              && r[i].limit == budgets[i].limit
              && r[i].spent == Lookup(spending, budgets[i].category)
  {
    seq(|budgets|, i requires 0 <= i < |budgets| =>
      budgets[i].(spent := Lookup(spending, budgets[i].category)))
  }

  /** The budgets after the effect has run for `accounts`: with no accounts
      the effect returns early and leaves them alone. */
  function Refreshed(accounts: seq<Account>, budgets: seq<Budget>): (r: seq<Budget>)
  {
    if |accounts| == 0 then budgets else WithSpent(budgets, Spending(accounts))
  }

  /** The whole effect: a new spending map (the component's
      `spendingByCategory` state) and the refreshed budgets. */
  method SpendingEffect(accounts: seq<Account>, budgets: seq<Budget>, spendingState: map<string, int>)
    returns (spending: map<string, int>, refreshed: seq<Budget>)
    ensures |accounts| == 0 ==> spending == spendingState && refreshed == budgets
    ensures |accounts| > 0 ==> spending == Spending(accounts)
    ensures refreshed == Refreshed(accounts, budgets)
  {
    if |accounts| == 0 {
      return spendingState, budgets;
    }
    spending := SpendingByCategory(accounts);
    refreshed := WithSpent(budgets, spending);
  }

  /** After the effect every budget's `spent` is the expense total of its
      category across all accounts; category, limit, length and order are
      kept. */
  lemma RefreshedSpent(accounts: seq<Account>, budgets: seq<Budget>)
    requires |accounts| > 0
    ensures |Refreshed(accounts, budgets)| == |budgets|
    ensures forall i :: 0 <= i < |budgets| ==>
              && Refreshed(accounts, budgets)[i].category == budgets[i].category
              && Refreshed(accounts, budgets)[i].limit == budgets[i].limit
              && Refreshed(accounts, budgets)[i].spent == TotalExpense(accounts, budgets[i].category)
  {
    forall i | 0 <= i < |budgets|
      ensures Refreshed(accounts, budgets)[i].spent == TotalExpense(accounts, budgets[i].category)
    {
      SpendingLookup(accounts, budgets[i].category);
    }
  }

  /** Running the effect twice for the same accounts gives what running it
      once gives. */
  lemma RefreshIdempotent(accounts: seq<Account>, budgets: seq<Budget>)
    ensures Refreshed(accounts, Refreshed(accounts, budgets)) == Refreshed(accounts, budgets)
  {
  }

  // ---------------------------------------------------------------------
  // The add form

  datatype BudgetField = CategoryField | LimitField

  const MissingCategoryError: string := "Please select or enter a category"
  const InvalidLimitError: string := "Please enter a valid amount"
  const DuplicateCategoryError: string := "This category already has a budget"

  datatype BudgetForm = BudgetForm(category: string, limit: Option<int>)

  /** The component's state: the form, the custom-category toggle and text,
      the field errors, and the spending map of the last effect run. */
  datatype TrackerState = TrackerState(
    form: BudgetForm,
    showCustom: bool,
    customCategory: string,
    errors: map<BudgetField, string>,
    spendingByCategory: map<string, int>)

  /** The custom text in custom mode, the dropdown choice otherwise. */
  function FinalCategory(state: TrackerState): string {
    if state.showCustom then state.customCategory else state.form.category
  }

  predicate HasBudget(budgets: seq<Budget>, category: string) {
    exists i :: 0 <= i < |budgets| && budgets[i].category == category
  }

  predicate LimitInvalid(limit: Option<int>) {
    limit.None? || limit.value <= 0
  }

  /** `validateForm`: the category check looks at both the dropdown and the
      custom text whatever the mode, and the duplicate check, made on the
      final category, overwrites its message. */
  function ValidateBudget(state: TrackerState, budgets: seq<Budget>): (errors: map<BudgetField, string>)
    ensures LimitField in errors <==> LimitInvalid(state.form.limit)
    ensures LimitField in errors ==> errors[LimitField] == InvalidLimitError
    ensures CategoryField in errors <==>
              (state.form.category == "" && state.customCategory == "") || HasBudget(budgets, FinalCategory(state))
    ensures CategoryField in errors ==>
              errors[CategoryField] ==
                if HasBudget(budgets, FinalCategory(state)) then DuplicateCategoryError else MissingCategoryError
  {
    var e0: map<BudgetField, string> := map[];
    var e1 := if state.form.category == "" && state.customCategory == "" then e0[CategoryField := MissingCategoryError] else e0;
    var e2 := if LimitInvalid(state.form.limit) then e1[LimitField := InvalidLimitError] else e1;
    if HasBudget(budgets, FinalCategory(state)) then e2[CategoryField := DuplicateCategoryError] else e2
  }

  datatype AddOutcome = AddOutcome(budgets: seq<Budget>, state: TrackerState)

  function ResetForm(state: TrackerState): TrackerState {
    TrackerState(BudgetForm("", None), false, "", map[], state.spendingByCategory)
  }

  /** `handleAddBudget` */
  function AddBudget(state: TrackerState, budgets: seq<Budget>): (r: AddOutcome)
    ensures ValidateBudget(state, budgets) != map[] ==>
              r.budgets == budgets && r.state == state.(errors := ValidateBudget(state, budgets))
    ensures ValidateBudget(state, budgets) == map[] ==>
              && r.budgets == budgets + [Budget(FinalCategory(state), state.form.limit.value,
                                                Lookup(state.spendingByCategory, FinalCategory(state)))]
              && r.state == TrackerState(BudgetForm("", None), false, "", map[], state.spendingByCategory)
  {
    var errors := ValidateBudget(state, budgets);
    if errors != map[] then
      AddOutcome(budgets, state.(errors := errors))
    else
      var category := FinalCategory(state);
      AddOutcome(budgets + [Budget(category, state.form.limit.value, Lookup(state.spendingByCategory, category))],
                 ResetForm(state))
  }

  /** An add succeeds exactly when some category is given, the limit is
      positive and the final category has no budget yet. */
  lemma AddBudgetAccepts(state: TrackerState, budgets: seq<Budget>)
    ensures |AddBudget(state, budgets).budgets| == |budgets| + 1 <==>
              && (state.form.category != "" || state.customCategory != "")
              && state.form.limit.Some? && state.form.limit.value > 0
              && !HasBudget(budgets, FinalCategory(state))
  {
  }

  /** A budget whose category is already taken is never added twice. */
  lemma AddBudgetRejectsDuplicate(state: TrackerState, budgets: seq<Budget>)
    requires HasBudget(budgets, FinalCategory(state))
    ensures AddBudget(state, budgets).budgets == budgets
    ensures AddBudget(state, budgets).state.errors[CategoryField] == DuplicateCategoryError
  {
  }

  ghost predicate UniqueCategories(budgets: seq<Budget>) {
    forall i, j :: 0 <= i < j < |budgets| ==> budgets[i].category != budgets[j].category
  }

  /** Adding keeps budget categories pairwise distinct. */
  lemma AddKeepsCategoriesUnique(state: TrackerState, budgets: seq<Budget>)
    requires UniqueCategories(budgets)
    ensures UniqueCategories(AddBudget(state, budgets).budgets)
  {
    var r := AddBudget(state, budgets).budgets;
    if r != budgets {
      forall i, j | 0 <= i < j < |r| ensures r[i].category != r[j].category {
        if j == |budgets| {
          assert budgets[i].category == r[i].category;
        }
      }
    }
  }

  /** The check on the category looks at the dropdown and the custom text in
      either mode: in custom mode an earlier dropdown choice lets an empty
      custom category through, and the budget is added under "". */
  lemma CustomModeAddsEmptyCategory(state: TrackerState, budgets: seq<Budget>)
    requires state.showCustom && state.customCategory == "" && state.form.category != ""
    requires state.form.limit.Some? && state.form.limit.value > 0
    requires !HasBudget(budgets, "")
    ensures AddBudget(state, budgets).budgets[|budgets|].category == ""
  {
  }

  // ---------------------------------------------------------------------
  // Deleting and the free categories

  /** The budgets whose category differs, in their order. */
  function Without(budgets: seq<Budget>, category: string): (r: seq<Budget>)
    ensures forall b :: b in r <==> b in budgets && b.category != category
    ensures |r| <= |budgets|
    decreases |budgets|
  {
    if |budgets| == 0 then []
    else
      var rest := Without(budgets[..|budgets| - 1], category);
      var last := budgets[|budgets| - 1];
      assert budgets == budgets[..|budgets| - 1] + [last];
      if last.category != category then rest + [last] else rest
  }

  /** The filter keeps the order of what it keeps: it distributes over
      concatenation. */
  lemma {:induction false} WithoutAppend(a: seq<Budget>, b: seq<Budget>, category: string)
    ensures Without(a + b, category) == Without(a, category) + Without(b, category)
    decreases |b|
  {
    if |b| == 0 {
      assert a + b == a;
    } else {
      var n := |b| - 1;
      var kept := if b[n].category != category then [b[n]] else [];
      assert (a + b)[..|a + b| - 1] == a + b[..n];
      assert (a + b)[|a + b| - 1] == b[n];
      assert Without(a + b, category) == Without(a + b[..n], category) + kept;
      assert Without(b, category) == Without(b[..n], category) + kept;
      WithoutAppend(a, b[..n], category);
    }
  }

  /** Deleting a category no budget has leaves the list as it is. */
  lemma {:induction false} WithoutAbsent(budgets: seq<Budget>, category: string)
    requires forall i :: 0 <= i < |budgets| ==> budgets[i].category != category
    ensures Without(budgets, category) == budgets
    decreases |budgets|
  {
    if |budgets| > 0 {
      var n := |budgets| - 1;
      assert budgets[..n] + [budgets[n]] == budgets;
      assert Without(budgets, category) == Without(budgets[..n], category) + [budgets[n]];
      WithoutAbsent(budgets[..n], category);
    }
  }

  /** `handleDeleteBudget`, with the answer of `window.confirm` as input. */
  function DeleteBudget(budgets: seq<Budget>, category: string, confirmed: bool): (r: seq<Budget>)
    ensures !confirmed ==> r == budgets
    ensures confirmed ==> !HasBudget(r, category)
    ensures forall b :: b in budgets && b.category != category ==> b in r
    ensures forall b :: b in r ==> b in budgets
    ensures confirmed ==> r == Without(budgets, category)
  {
    if confirmed then Without(budgets, category) else budgets
  }

  /** `availableCategories`: the dropdown categories no budget uses. */
  function FreeCategories(fixed: seq<string>, budgets: seq<Budget>): (r: seq<string>)
    ensures forall c :: c in r <==> c in fixed && !HasBudget(budgets, c)
    ensures |r| <= |fixed|
    ensures (forall i, j :: 0 <= i < j < |fixed| ==> fixed[i] != fixed[j]) ==>
              forall i, j :: 0 <= i < j < |r| ==> r[i] != r[j]
  {
    if fixed == [] then []
    else FreeCategories(fixed[..|fixed| - 1], budgets) +
         (if HasBudget(budgets, fixed[|fixed| - 1]) then [] else [fixed[|fixed| - 1]])
  }

  function AvailableCategories(budgets: seq<Budget>): (r: seq<string>)
    ensures forall c :: c in r <==> c in BudgetCategories && !HasBudget(budgets, c)
    ensures forall i, j :: 0 <= i < j < |r| ==> r[i] != r[j]
  {
    FreeCategories(BudgetCategories, budgets)
  }

  // ---------------------------------------------------------------------
  // Display rules

  /** Spent as a percentage of the limit, 0 for a limit that is not
      positive. */
  function PercentUsed(b: Budget): real {
    if b.limit > 0 then (b.spent as real / b.limit as real) * 100.0 else 0.0
  }

  predicate IsOverBudget(b: Budget) {
    PercentUsed(b) > 100.0
  }

  predicate IsNearLimit(b: Budget) {
    80.0 <= PercentUsed(b) <= 100.0
  }

  datatype Status = Over | Approaching | Normal

  /** The warning shown and the bar colour: red when over, yellow when near,
      green otherwise. */
  function StatusOf(b: Budget): Status {
    if IsOverBudget(b) then Over else if IsNearLimit(b) then Approaching else Normal
  }

  /** The bar width: the percentage, capped at 100. */
  function BarWidth(b: Budget): (w: real)
    ensures w <= 100.0
    ensures PercentUsed(b) < 100.0 ==> w == PercentUsed(b)
    ensures PercentUsed(b) >= 100.0 ==> w == 100.0
  {
    if PercentUsed(b) < 100.0 then PercentUsed(b) else 100.0
  }

  /** The bar in integer terms: a limit that is not positive gives an empty
      bar; otherwise the bar is full exactly when the limit is reached, is
      full whenever the budget is over, and is never negative while nothing
      negative has been spent. */
  lemma BarWidthRule(b: Budget)
    ensures b.limit <= 0 ==> BarWidth(b) == 0.0
    ensures b.limit > 0 ==> (BarWidth(b) == 100.0 <==> b.spent >= b.limit)
    ensures IsOverBudget(b) ==> BarWidth(b) == 100.0
    ensures b.spent >= 0 ==> BarWidth(b) >= 0.0
  {
    if b.limit > 0 {
      PercentScale(b.spent, b.limit, 100);
      PercentScale(b.spent, b.limit, 0);
    }
  }

  lemma PercentScale(spent: int, limit: int, k: int)
    requires limit > 0
    ensures (spent as real / limit as real) * 100.0 > k as real <==> 100 * spent > k * limit
    ensures (spent as real / limit as real) * 100.0 >= k as real <==> 100 * spent >= k * limit
  {
    var q := spent as real / limit as real;
    assert q * limit as real == spent as real;
    assert q * 100.0 * limit as real == 100.0 * spent as real;
  }

  /** The thresholds in integer terms: over exactly when spent exceeds the
      limit, approaching exactly when spent is from 80% of the limit up to the
      limit itself (so spending exactly the limit is approaching, not over),
      and a budget with no positive limit is always normal. */
  lemma StatusThresholds(b: Budget)
    ensures IsOverBudget(b) <==> b.limit > 0 && b.spent > b.limit
    ensures IsNearLimit(b) <==> b.limit > 0 && 5 * b.spent >= 4 * b.limit && b.spent <= b.limit
    ensures StatusOf(b) == Over <==> b.limit > 0 && b.spent > b.limit
    ensures StatusOf(b) == Approaching <==> b.limit > 0 && 5 * b.spent >= 4 * b.limit && b.spent <= b.limit
    ensures b.limit <= 0 ==> StatusOf(b) == Normal && BarWidth(b) == 0.0
  {
    if b.limit > 0 {
      PercentScale(b.spent, b.limit, 100);
      PercentScale(b.spent, b.limit, 80);
    }
  }
}
