/**
 * The older budget component (BudgetTracker.js at the repository root): an
 * add form that only asks for a non-empty category and limit, and a progress
 * bar whose colour and width come from `spent / limit` computed without a
 * guard against a zero limit.
 */
module LegacyBudgetTracker {
  import opened Ledger

  datatype LegacyBudgetForm = LegacyBudgetForm(category: string, limit: Option<int>)

  datatype LegacyAddOutcome = LegacyAddOutcome(budgets: seq<Budget>, form: LegacyBudgetForm)

  /** `handleAddBudget`: nothing happens unless both fields are filled; then
      the budget is appended with nothing spent and the form is cleared. */
  function LegacyAddBudget(form: LegacyBudgetForm, budgets: seq<Budget>): (r: LegacyAddOutcome)
    ensures form.category == "" || form.limit.None? ==> r == LegacyAddOutcome(budgets, form)
    ensures form.category != "" && form.limit.Some? ==>
              && |r.budgets| == |budgets| + 1
              && r.budgets[..|budgets|] == budgets
              && r.budgets[|budgets|] == Budget(form.category, form.limit.value, 0)
              && r.form == LegacyBudgetForm("", None)
  {
    if form.category == "" || form.limit.None? then LegacyAddOutcome(budgets, form)
    else LegacyAddOutcome(budgets + [Budget(form.category, form.limit.value, 0)], LegacyBudgetForm("", None))
  }

  /** There is no duplicate check: adding a category that already has a
      budget leaves two budgets with that category. */
  lemma LegacyAddAllowsDuplicate(form: LegacyBudgetForm, budgets: seq<Budget>, i: nat)
    requires form.limit.Some? && i < |budgets| && budgets[i].category == form.category != ""
    ensures var r := LegacyAddBudget(form, budgets).budgets;
            i < |budgets| < |r| && r[i].category == r[|budgets|].category == form.category
  {
  }

  // ---------------------------------------------------------------------
  // JavaScript division without a guard

  /** A JavaScript number as the bar computes it: a finite value or one of
      the IEEE special values that division by zero produces. */
  datatype JsValue = Finite(r: real) | PosInfinity | NegInfinity | NaN

  /** `spent / limit` */
  function Divide(spent: int, limit: int): (q: JsValue)
    ensures limit != 0 ==> q == Finite(spent as real / limit as real)
    ensures limit == 0 && spent > 0 ==> q == PosInfinity
    ensures limit == 0 && spent < 0 ==> q == NegInfinity
    ensures limit == 0 && spent == 0 ==> q == NaN
  {
    if limit != 0 then Finite(spent as real / limit as real)
    else if spent > 0 then PosInfinity
    else if spent < 0 then NegInfinity
    else NaN
  }

  /** `x * 100` */
  function Times100(x: JsValue): JsValue {
    match x
    case Finite(r) => Finite(r * 100.0)
    case _ => x
  }

  /** `Math.min(x, 100)`: NaN if `x` is NaN. */
  function Min100(x: JsValue): JsValue {
    match x
    case Finite(r) => Finite(if r < 100.0 then r else 100.0)
    case PosInfinity => Finite(100.0)
    case _ => x
  }

  /** `x > k`: false whenever `x` is NaN. */
  predicate Above(x: JsValue, k: real) {
    match x
    case Finite(r) => r > k
    case PosInfinity => true
    case NegInfinity => false
    case NaN => false
  }

  /** The bar is red when `spent / limit > 0.8`. */
  predicate BarIsRed(b: Budget) {
    Above(Divide(b.spent, b.limit), 0.8)
  }

  /** The bar width: the unguarded percentage, capped at 100. */
  function LegacyBarWidth(b: Budget): JsValue {
    Min100(Times100(Divide(b.spent, b.limit)))
  }

  /** The colour rule in integer terms: for a positive limit the bar is red
      exactly when more than 80% is spent; for a zero limit it is red exactly
      when anything is spent. */
  lemma BarColourRule(b: Budget)
    ensures b.limit > 0 ==> (BarIsRed(b) <==> 5 * b.spent > 4 * b.limit)
    ensures b.limit == 0 ==> (BarIsRed(b) <==> b.spent > 0)
  {
    if b.limit > 0 {
      RatioAbove(b.spent, b.limit);
    }
  }

  /** The ratio test in integer terms. */
  lemma RatioAbove(spent: int, limit: int)
    requires limit > 0
    ensures spent as real / limit as real > 0.8 <==> 5 * spent > 4 * limit
  {
    var l := limit as real;
    var d := spent as real / l - 0.8;
    assert d * l == spent as real - 0.8 * l;
    if d > 0.0 {
      assert d * l > 0.0;
    } else {
      assert d * l <= 0.0;
    }
  }

  /** The width never exceeds 100, whatever the budget. For a positive limit
      it is the percentage spent below the limit and exactly 100 from the
      limit on; for a zero limit it is 100, -Infinity or NaN according to the
      sign of spent. */
  lemma BarWidthBounded(b: Budget)
    ensures !Above(LegacyBarWidth(b), 100.0)
    ensures b.limit > 0 && b.spent < b.limit ==>
              LegacyBarWidth(b) == Finite((b.spent as real / b.limit as real) * 100.0)
    ensures b.limit > 0 && b.spent >= b.limit ==> LegacyBarWidth(b) == Finite(100.0)
    ensures b.limit == 0 && b.spent > 0 ==> LegacyBarWidth(b) == Finite(100.0)
    ensures b.limit == 0 && b.spent < 0 ==> LegacyBarWidth(b) == NegInfinity
    ensures b.limit == 0 && b.spent == 0 ==> LegacyBarWidth(b) == NaN
  {
    if b.limit > 0 {
      var q := b.spent as real / b.limit as real;
      assert q * b.limit as real == b.spent as real;
      if b.spent < b.limit {
        assert q < 1.0;
      }
    }
  }
}
