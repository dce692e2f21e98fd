/**
 * The records shared by every component of the finance tracker: accounts,
 * their transaction histories and budgets, together with the sums the
 * components derive from them.
 *
 * Money is kept in integer cents. A form field that `parseFloat` reads is an
 * `Option<int>`: `None` is the empty string (the only falsy value such a field
 * can hold), `Some(v)` a non-empty field that parses to `v`.
 */
module Ledger {

  datatype Option<+T> = None | Some(value: T)

  /** Account ids: the fixed ids of the default accounts ('checking',
      'savings') or a `Date.now()` stamp. */
  datatype AccountId = Named(name: string) | Stamp(ms: int)

  /** 'expense' and 'income' come from the entry forms, 'balance_update'
      from the balance overwrite form. */
  datatype TxType = Expense | Income | BalanceUpdate

  /** A missing `category` or `description` is the empty string. */
  datatype Transaction = Transaction(
    id: int,
    txType: TxType,
    amount: int,
    category: string,
    description: string,
    date: string)

  datatype Account = Account(
    id: AccountId,
    name: string,
    balance: int,
    transactions: seq<Transaction>)

  datatype Budget = Budget(category: string, limit: int, spent: int)

  const Uncategorized: string := "Uncategorized"

  /** The key a transaction is summed under: its category, or
      "Uncategorized" when it has none. */
  function CategoryKey(category: string): (k: string)
    ensures k != ""
    ensures category != "" ==> k == category
    ensures category == "" ==> k == Uncategorized
  {
    if category == "" then Uncategorized else category
  }

  /** A map read with a default: an absent key reads as 0. */
  function Lookup(m: map<string, int>, k: string): (v: int)
    ensures k !in m ==> v == 0
    ensures k in m ==> v == m[k]
  {
    if k in m then m[k] else 0
  }

  // ---------------------------------------------------------------------
  // The account ledger invariant

  /** The change a transaction made to its account's balance when it was
      recorded by an entry form: expenses subtract, everything else adds. */
  function Signed(t: Transaction): int {
    if t.txType == Expense then -t.amount else t.amount
  }

  function SignedSum(ts: seq<Transaction>): int {
    if ts == [] then 0 else SignedSum(ts[..|ts| - 1]) + Signed(ts[|ts| - 1])
  }

  lemma SignedSumSnoc(ts: seq<Transaction>, t: Transaction)
    ensures SignedSum(ts + [t]) == SignedSum(ts) + Signed(t)
  {
    assert (ts + [t])[..|ts|] == ts;
  }

  /** Every account's balance is its opening balance plus the signed sum of
      its history. */
  ghost predicate Reconciled(accounts: seq<Account>, openings: seq<int>) {
    && |openings| == |accounts|
    && forall i :: 0 <= i < |accounts| ==>
         accounts[i].balance == openings[i] + SignedSum(accounts[i].transactions)
  }

  // ---------------------------------------------------------------------
  // Recording one transaction (the `map` shared by both entry forms)

  /** The account update of both transaction entry forms: the account whose
      id is `id` moves by the amount and gets `tx` appended; the others are
      returned as they are. */
  function Post(accounts: seq<Account>, id: AccountId, tx: Transaction): (r: seq<Account>)
    ensures |r| == |accounts|
    ensures forall i :: 0 <= i < |accounts| && accounts[i].id != id ==> r[i] == accounts[i]
    ensures forall i :: 0 <= i < |accounts| && accounts[i].id == id ==>
              && r[i].id == id
              && r[i].name == accounts[i].name
              && r[i].balance == accounts[i].balance + Signed(tx)
              && r[i].transactions == accounts[i].transactions + [tx]
  {
    seq(|accounts|, i requires 0 <= i < |accounts| =>
      var a := accounts[i];
      if a.id == id then
        a.(balance := if tx.txType == Expense then a.balance - tx.amount else a.balance + tx.amount,
           transactions := a.transactions + [tx])
      else a)
  }

  lemma PostUnknownId(accounts: seq<Account>, id: AccountId, tx: Transaction)
    requires forall i :: 0 <= i < |accounts| ==> accounts[i].id != id
    ensures Post(accounts, id, tx) == accounts
  {
  }

  /** Recording a transaction keeps every account reconciled. */
  lemma PostReconciles(accounts: seq<Account>, openings: seq<int>, id: AccountId, tx: Transaction)
    requires Reconciled(accounts, openings)
    ensures Reconciled(Post(accounts, id, tx), openings)
  {
    var r := Post(accounts, id, tx);
    forall i | 0 <= i < |r|
      ensures r[i].balance == openings[i] + SignedSum(r[i].transactions)
    {
      if accounts[i].id == id {
        SignedSumSnoc(accounts[i].transactions, tx);
      }
    }
  }

  // ---------------------------------------------------------------------
  // Flattening and expense sums

  /** Every account's transactions, account after account. */
  function AllTransactions(accounts: seq<Account>): (r: seq<Transaction>)
    ensures forall i, t :: 0 <= i < |accounts| && t in accounts[i].transactions ==> t in r
    ensures forall t :: t in r ==> exists i :: 0 <= i < |accounts| && t in accounts[i].transactions
  {
    if accounts == [] then []
    else
      var n := |accounts| - 1;
      var front := AllTransactions(accounts[..n]);
      var r := front + accounts[n].transactions;
      assert forall t :: t in r ==> exists i :: 0 <= i < |accounts| && t in accounts[i].transactions by {
        forall t | t in r
          ensures exists i :: 0 <= i < |accounts| && t in accounts[i].transactions
        {
          if t in front {
            var i :| 0 <= i < n && t in accounts[..n][i].transactions;
            assert accounts[i] == accounts[..n][i];
          } else {
            assert t in accounts[n].transactions;
          }
        }
      }
      r
  }

  /** Flattening keeps each history whole, in account order and once: it
      maps concatenation of account lists to concatenation of histories. */
  lemma {:induction false} AllTransactionsAppend(a: seq<Account>, b: seq<Account>)
    ensures AllTransactions(a + b) == AllTransactions(a) + AllTransactions(b)
    decreases |b|
  {
    if |b| == 0 {
      assert a + b == a;
    } else {
      var n := |b| - 1;
      assert (a + b)[..|a + b| - 1] == a + b[..n];
      assert (a + b)[|a + b| - 1] == b[n];
      AllTransactionsAppend(a, b[..n]);
    }
  }

  /** A single account flattens to its own history. */
  lemma AllTransactionsSingle(account: Account)
    ensures AllTransactions([account]) == account.transactions
  {
    assert [account][..0] == [];
  }

  /** The expense transactions of `ts`, in order. */
  function ExpensesOf(ts: seq<Transaction>): (r: seq<Transaction>)
    ensures forall t :: t in r <==> t in ts && t.txType == Expense
    ensures |r| <= |ts|
  {
    if ts == [] then []
    else ExpensesOf(ts[..|ts| - 1]) + (if ts[|ts| - 1].txType == Expense then [ts[|ts| - 1]] else [])
  }

  /** Every account's expense transactions, account after account. */
  function ExpenseTransactions(accounts: seq<Account>): (r: seq<Transaction>)
    ensures forall t :: t in r ==> t.txType == Expense
  {
    if accounts == [] then []
    else ExpenseTransactions(accounts[..|accounts| - 1]) + ExpensesOf(accounts[|accounts| - 1].transactions)
  }

  /** What one transaction adds to the expense total of category `c`. */
  function ExpenseShare(t: Transaction, c: string): int {
    if t.txType == Expense && CategoryKey(t.category) == c then t.amount else 0
  }

  /** The sum of `amount` over the expense transactions of `ts` whose category
      (missing read as 'Uncategorized') is `c`. */
  function ExpenseSum(ts: seq<Transaction>, c: string): int {
    if ts == [] then 0 else ExpenseSum(ts[..|ts| - 1], c) + ExpenseShare(ts[|ts| - 1], c)
  }

  /** The categories that at least one expense transaction of `ts` falls in. */
  function ExpenseKeys(ts: seq<Transaction>): set<string> {
    if ts == [] then {}
    else ExpenseKeys(ts[..|ts| - 1]) +
         (if ts[|ts| - 1].txType == Expense then {CategoryKey(ts[|ts| - 1].category)} else {})
  }

  /** The expense total of category `c` across all accounts. */
  function TotalExpense(accounts: seq<Account>, c: string): int {
    if accounts == [] then 0
    else TotalExpense(accounts[..|accounts| - 1], c) + ExpenseSum(accounts[|accounts| - 1].transactions, c)
  }

  /** The categories used by some expense of some account. */
  function ExpenseCategories(accounts: seq<Account>): set<string> {
    if accounts == [] then {}
    else ExpenseCategories(accounts[..|accounts| - 1]) + ExpenseKeys(accounts[|accounts| - 1].transactions)
  }

  /** The spending map the budget effect computes: every expense category to
      its total across all accounts. */
  function Spending(accounts: seq<Account>): (m: map<string, int>)
    ensures m.Keys == ExpenseCategories(accounts)
  {
    map c | c in ExpenseCategories(accounts) :: TotalExpense(accounts, c)
  }

  lemma {:induction false} ExpenseSumAppend(a: seq<Transaction>, b: seq<Transaction>, c: string)
    ensures ExpenseSum(a + b, c) == ExpenseSum(a, c) + ExpenseSum(b, c)
    decreases |b|
  {
    if b == [] {
      assert a + b == a;
    } else {
      var b' := b[..|b| - 1];
      assert (a + b)[..|a + b| - 1] == a + b';
      ExpenseSumAppend(a, b', c);
    }
  }

  lemma {:induction false} ExpenseKeysAppend(a: seq<Transaction>, b: seq<Transaction>)
    ensures ExpenseKeys(a + b) == ExpenseKeys(a) + ExpenseKeys(b)
    decreases |b|
  {
    if b == [] {
      assert a + b == a;
    } else {
      var b' := b[..|b| - 1];
      assert (a + b)[..|a + b| - 1] == a + b';
      ExpenseKeysAppend(a, b');
    }
  }

  /** Dropping the non-expense transactions changes no expense total and no
      expense category. */
  lemma {:induction false} ExpensesOfKeepsSums(ts: seq<Transaction>, c: string)
    ensures ExpenseSum(ExpensesOf(ts), c) == ExpenseSum(ts, c)
    ensures ExpenseKeys(ExpensesOf(ts)) == ExpenseKeys(ts)
  {
    if ts != [] {
      var p := ts[..|ts| - 1];
      var t := ts[|ts| - 1];
      var tail := if t.txType == Expense then [t] else [];
      ExpensesOfKeepsSums(p, c);
      ExpenseSumAppend(ExpensesOf(p), tail, c);
      ExpenseKeysAppend(ExpensesOf(p), tail);
      if t.txType == Expense {
        assert [t][..0] == [];
      }
    }
  }

  /** The flattened expense list carries exactly the per-account totals. */
  lemma {:induction false} ExpenseTransactionsSums(accounts: seq<Account>, c: string)
    ensures ExpenseSum(ExpenseTransactions(accounts), c) == TotalExpense(accounts, c)
    ensures ExpenseKeys(ExpenseTransactions(accounts)) == ExpenseCategories(accounts)
  {
    if accounts != [] {
      var p := accounts[..|accounts| - 1];
      var last := accounts[|accounts| - 1].transactions;
      ExpenseTransactionsSums(p, c);
      ExpenseSumAppend(ExpenseTransactions(p), ExpensesOf(last), c);
      ExpenseKeysAppend(ExpenseTransactions(p), ExpensesOf(last));
      ExpensesOfKeepsSums(last, c);
    }
  }

  /** A category no expense falls in has total 0. */
  lemma {:induction false} ExpenseSumAbsent(ts: seq<Transaction>, c: string)
    requires c !in ExpenseKeys(ts)
    ensures ExpenseSum(ts, c) == 0
  {
    if ts != [] {
      ExpenseSumAbsent(ts[..|ts| - 1], c);
    }
  }

  lemma {:induction false} TotalExpenseAbsent(accounts: seq<Account>, c: string)
    requires c !in ExpenseCategories(accounts)
    ensures TotalExpense(accounts, c) == 0
  {
    if accounts != [] {
      TotalExpenseAbsent(accounts[..|accounts| - 1], c);
      ExpenseSumAbsent(accounts[|accounts| - 1].transactions, c);
    }
  }

  /** Reading the spending map with the `|| 0` default gives the expense
      total for every category, present in the map or not. */
  lemma SpendingLookup(accounts: seq<Account>, c: string)
    ensures Lookup(Spending(accounts), c) == TotalExpense(accounts, c)
  {
    if c !in ExpenseCategories(accounts) {
      TotalExpenseAbsent(accounts, c);
    }
  }

  /** One pass of the spending loop over `t`: an absent or zero entry for its
      category is first set to 0, then the amount is added. A transaction
      that is not an expense leaves the dictionary alone. */
  function AddExpense(m: map<string, int>, t: Transaction): map<string, int> {
    var k := CategoryKey(t.category);
    if t.txType != Expense then m
    else
      var m0 := if k !in m || m[k] == 0 then m[k := 0] else m;
      m0[k := m0[k] + t.amount]
  }

  /** The spending dictionary after the transactions of `ts`, one at a
      time. */
  function RunningTotals(ts: seq<Transaction>): map<string, int> {
    if ts == [] then map[] else AddExpense(RunningTotals(ts[..|ts| - 1]), ts[|ts| - 1])
  }

  /** The `forEach` callback shared by the two category loops: an entry
      that is missing (or 0) is first set to 0, then the expense's amount is
      added to it. */
  method TallyExpense(totals: map<string, int>, t: Transaction) returns (r: map<string, int>)
    requires t.txType == Expense
    ensures r == AddExpense(totals, t)
  {
    r := totals;
    var category := CategoryKey(t.category);
    if category !in r || r[category] == 0 {
      r := r[category := 0];
    }
    r := r[category := r[category] + t.amount];
  }

  lemma RunningTotalsStep(ts: seq<Transaction>, i: nat)
    requires i < |ts|
    ensures RunningTotals(ts[..i + 1]) == AddExpense(RunningTotals(ts[..i]), ts[i])
  {
    assert ts[..i + 1][..i] == ts[..i];
  }

  /** The keys of the running totals are the expense categories met. */
  lemma {:induction false} RunningTotalsKeys(ts: seq<Transaction>)
    ensures RunningTotals(ts).Keys == ExpenseKeys(ts)
  {
    if ts != [] {
      RunningTotalsKeys(ts[..|ts| - 1]);
    }
  }

  /** One more expense adds its category to the categories met. */
  lemma ExpenseKeysStep(ts: seq<Transaction>, i: nat)
    requires i < |ts| && ts[i].txType == Expense
    ensures ExpenseKeys(ts[..i + 1]) == ExpenseKeys(ts[..i]) + {CategoryKey(ts[i].category)}
  {
    assert ts[..i + 1][..i] == ts[..i];
  }


  /** The running totals hold a key per expense category of `ts`, valued at
      that category's total. */
  lemma {:induction false} RunningTotalsContents(ts: seq<Transaction>)
    ensures RunningTotals(ts).Keys == ExpenseKeys(ts)
    ensures forall c :: c in RunningTotals(ts) ==> RunningTotals(ts)[c] == ExpenseSum(ts, c)
  {
    if ts != [] {
      var p := ts[..|ts| - 1];
      var t := ts[|ts| - 1];
      RunningTotalsContents(p);
      if t.txType == Expense && CategoryKey(t.category) !in ExpenseKeys(p) {
        ExpenseSumAbsent(p, CategoryKey(t.category));
      }
    }
  }

  /** Folding the flattened expense list gives the spending map of the
      accounts. */
  lemma FoldResult(accounts: seq<Account>)
    ensures RunningTotals(ExpenseTransactions(accounts)) == Spending(accounts)
  {
    var m := RunningTotals(ExpenseTransactions(accounts));
    RunningTotalsContents(ExpenseTransactions(accounts));
    ExpenseTransactionsSums(accounts, "");
    forall c | c in m ensures m[c] == TotalExpense(accounts, c) {
      ExpenseTransactionsSums(accounts, c);
    }
  }
}
