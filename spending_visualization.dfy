/**
 * The chart derivations (src/components/SpendingVisualization.js): income
 * and expense totals per day, sorted by day; expense totals per category;
 * and a name/balance snapshot per account. All three are recomputed by an
 * effect that does nothing while there are no accounts.
 *
 * Days are the text of a stored date before its first 'T'. The component sorts
 * them by the difference of the parsed dates; for "YYYY-MM-DD" text that is the
 * lexicographic order of the strings, which is what `DateLess` states.
 */
module SpendingVisualization {
  import opened Ledger

  // ---------------------------------------------------------------------
  // Days and their order

  /** The day of a stored date: the text before its first 'T', or all of it. */
  function DatePrefix(s: string): (p: string)
    ensures |p| <= |s| && p == s[..|p|]
    ensures 'T' !in p
    ensures |p| < |s| ==> s[|p|] == 'T'
  {
    if s == [] then [] else if s[0] == 'T' then [] else [s[0]] + DatePrefix(s[1..])
  }

  /** A stored date of the form day + "T" + rest is bucketed under that day. */
  lemma DatePrefixOfTimestamp(day: string, rest: string)
    requires 'T' !in day
    ensures DatePrefix(day + "T" + rest) == day
  {
    var s := day + "T" + rest;
    assert s[..|day|] == day && s[|day|] == 'T';
  }

  /** Lexicographic order on strings. */
  predicate DateLess(a: string, b: string) {
    if b == [] then false
    else if a == [] then true
    else if a[0] != b[0] then a[0] < b[0]
    else DateLess(a[1..], b[1..])
  }

  lemma {:induction false} DateLessIrreflexive(a: string)
    ensures !DateLess(a, a)
  {
    if a != [] {
      DateLessIrreflexive(a[1..]);
    }
  }

  lemma {:induction false} DateLessTransitive(a: string, b: string, c: string)
    requires DateLess(a, b) && DateLess(b, c)
    ensures DateLess(a, c)
  {
    if a != [] && a[0] == b[0] && b[0] == c[0] {
      DateLessTransitive(a[1..], b[1..], c[1..]);
    }
  }

  lemma {:induction false} DateLessTotal(a: string, b: string)
    requires a != b
    ensures DateLess(a, b) || DateLess(b, a)
  {
    if a != [] && b != [] && a[0] == b[0] {
      assert a == [a[0]] + a[1..] && b == [b[0]] + b[1..];
      DateLessTotal(a[1..], b[1..]);
    }
  }

  // ---------------------------------------------------------------------
  // The time series

  datatype Bucket = Bucket(date: string, income: int, expense: int)

  /** The sums of one day: 'income' amounts, and the amounts of every other
      type (expenses and balance updates alike). */
  function IncomeOn(ts: seq<Transaction>, day: string): int {
    if ts == [] then 0
    else IncomeOn(ts[..|ts| - 1], day) +
         (var t := ts[|ts| - 1]; if t.txType == Income && DatePrefix(t.date) == day then t.amount else 0)
  }

  function OtherOn(ts: seq<Transaction>, day: string): int {
    if ts == [] then 0
    else OtherOn(ts[..|ts| - 1], day) +
         (var t := ts[|ts| - 1]; if t.txType != Income && DatePrefix(t.date) == day then t.amount else 0)
  }

  /** The days some transaction falls on. */
  function Days(ts: seq<Transaction>): set<string> {
    if ts == [] then {} else Days(ts[..|ts| - 1]) + {DatePrefix(ts[|ts| - 1].date)}
  }

  function TotalAmount(ts: seq<Transaction>): int {
    if ts == [] then 0 else TotalAmount(ts[..|ts| - 1]) + ts[|ts| - 1].amount
  }

  ghost predicate Ascending(s: seq<Bucket>) {
    forall i, j :: 0 <= i < j < |s| ==> DateLess(s[i].date, s[j].date)
  }

  ghost predicate DistinctDates(s: seq<Bucket>) {
    forall i, j :: 0 <= i < j < |s| ==> s[i].date != s[j].date
  }

  ghost predicate HasDate(s: seq<Bucket>, day: string) {
    exists i :: 0 <= i < |s| && s[i].date == day
  }

  /** What the time series of `ts` is: one bucket per day some transaction
      falls on and no other, in ascending order of day, each holding that
      day's income and other sums. */
  ghost predicate IsTimeSeries(ts: seq<Transaction>, series: seq<Bucket>) {
    && Ascending(series)
    && (forall i :: 0 <= i < |series| ==>
          && series[i].date in Days(ts)
          && series[i].income == IncomeOn(ts, series[i].date)
          && series[i].expense == OtherOn(ts, series[i].date))
    && (forall day :: day in Days(ts) ==> HasDate(series, day))
  }

  /** Insertion by date into an ascending list. */
  function InsertByDate(b: Bucket, s: seq<Bucket>): (r: seq<Bucket>)
    ensures multiset(r) == multiset(s) + multiset{b}
  {
    if s == [] || DateLess(b.date, s[0].date) then [b] + s
    else
      assert s == [s[0]] + s[1..];
      [s[0]] + InsertByDate(b, s[1..])
  }

  /** The buckets sorted by date. */
  function SortByDate(s: seq<Bucket>): (r: seq<Bucket>)
    ensures multiset(r) == multiset(s)
  {
    if s == [] then []
    else
      assert s == s[..|s| - 1] + [s[|s| - 1]];
      InsertByDate(s[|s| - 1], SortByDate(s[..|s| - 1]))
  }

  lemma {:induction false} InsertKeepsAscending(b: Bucket, s: seq<Bucket>)
    requires Ascending(s)
    requires forall i :: 0 <= i < |s| ==> s[i].date != b.date
    ensures Ascending(InsertByDate(b, s))
  {
    var r := InsertByDate(b, s);
    if s == [] {
    } else if DateLess(b.date, s[0].date) {
      forall j | 1 <= j < |r| ensures DateLess(r[0].date, r[j].date) {
        if j > 1 {
          DateLessTransitive(b.date, s[0].date, s[j - 1].date);
        }
      }
    } else {
      DateLessTotal(b.date, s[0].date);
      var tail := InsertByDate(b, s[1..]);
      InsertKeepsAscending(b, s[1..]);
      forall j | 0 <= j < |tail| ensures DateLess(s[0].date, tail[j].date) {
        assert tail[j] in multiset(tail);
        assert tail[j] in multiset(s[1..]) + multiset{b};
        if tail[j] != b {
          assert tail[j] in s[1..];
        }
      }
    }
  }

  /** Sorting a list of distinct days gives them in strictly ascending order. */
  lemma {:induction false} SortByDateAscending(s: seq<Bucket>)
    requires DistinctDates(s)
    ensures Ascending(SortByDate(s))
  {
    if s != [] {
      var p := s[..|s| - 1];
      var b := s[|s| - 1];
      SortByDateAscending(p);
      var sp := SortByDate(p);
      forall i | 0 <= i < |sp| ensures sp[i].date != b.date {
        assert sp[i] in multiset(p);
        assert sp[i] in p;
      }
      InsertKeepsAscending(b, sp);
    }
  }

  lemma {:induction false} DaySumsAbsent(ts: seq<Transaction>, day: string)
    requires day !in Days(ts)
    ensures IncomeOn(ts, day) == 0 && OtherOn(ts, day) == 0
  {
    if ts != [] {
      DaySumsAbsent(ts[..|ts| - 1], day);
    }
  }

  /** `order` lists each key of `keys` exactly once. */
  ghost predicate FirstSeen(order: seq<string>, keys: set<string>) {
    && (forall d :: d in order <==> d in keys)
    && (forall a, b :: 0 <= a < b < |order| ==> order[a] != order[b])
  }

  /** Meeting a key: a new one is appended, a known one changes nothing. */
  lemma FirstSeenStep(order: seq<string>, keys: set<string>, k: string)
    requires FirstSeen(order, keys)
    ensures FirstSeen(if k in keys then order else order + [k], keys + {k})
  {
  }

  /** One pass of the date loop over `t`: the bucket of its day is created
      empty when missing, then `t`'s amount is added to its income or to its
      expense column. */
  function AddToDay(m: map<string, Bucket>, t: Transaction): map<string, Bucket> {
    var day := DatePrefix(t.date);
    var m0 := if day !in m then m[day := Bucket(day, 0, 0)] else m;
    if t.txType == Income then m0[day := m0[day].(income := m0[day].income + t.amount)]
    else m0[day := m0[day].(expense := m0[day].expense + t.amount)]
  }

  /** The buckets built after the transactions `ts`, one at a time. */
  function DayMap(ts: seq<Transaction>): map<string, Bucket> {
    if ts == [] then map[] else AddToDay(DayMap(ts[..|ts| - 1]), ts[|ts| - 1])
  }

  /** The `forEach` callback of `prepareTimeframeData`. */
  method TallyDay(grouped: map<string, Bucket>, t: Transaction) returns (r: map<string, Bucket>)
    ensures r == AddToDay(grouped, t)
  {
    r := grouped;
    var date := DatePrefix(t.date);
    if date !in r {
      r := r[date := Bucket(date, 0, 0)];
    }
    if t.txType == Income {
      r := r[date := r[date].(income := r[date].income + t.amount)];
    } else {
      r := r[date := r[date].(expense := r[date].expense + t.amount)];
    }
  }

  lemma DayMapStep(ts: seq<Transaction>, i: nat)
    requires i < |ts|
    ensures DayMap(ts[..i + 1]) == AddToDay(DayMap(ts[..i]), ts[i])
  {
    assert ts[..i + 1][..i] == ts[..i];
  }

  /** What the buckets hold: one per day some transaction falls on, carrying
      that day's income sum and the sum of its other amounts. */
  lemma {:induction false} DayMapContents(ts: seq<Transaction>)
    ensures DayMap(ts).Keys == Days(ts)
    ensures forall d :: d in DayMap(ts) ==> DayMap(ts)[d] == Bucket(d, IncomeOn(ts, d), OtherOn(ts, d))
  {
    if ts != [] {
      var p := ts[..|ts| - 1];
      var day := DatePrefix(ts[|ts| - 1].date);
      DayMapContents(p);
      if day !in Days(p) {
        DaySumsAbsent(p, day);
      }
    }
  }

  lemma {:induction false} DayMapKeys(ts: seq<Transaction>)
    ensures DayMap(ts).Keys == Days(ts)
  {
    if ts != [] {
      DayMapKeys(ts[..|ts| - 1]);
    }
  }

  lemma DaysStep(ts: seq<Transaction>, i: nat)
    requires i < |ts|
    ensures Days(ts[..i + 1]) == Days(ts[..i]) + {DatePrefix(ts[i].date)}
  {
    assert ts[..i + 1][..i] == ts[..i];
  }

  /** The day order after one more transaction: its day is appended when no
      bucket exists for it yet. */
  lemma OrderStep(all: seq<Transaction>, i: nat, grouped: map<string, Bucket>, order: seq<string>)
    requires i < |all| && grouped == DayMap(all[..i]) && FirstSeen(order, Days(all[..i]))
    ensures var day := DatePrefix(all[i].date);
            FirstSeen(if day !in grouped then order + [day] else order, Days(all[..i + 1]))
  {
    DayMapKeys(all[..i]);
    DaysStep(all, i);
    FirstSeenStep(order, Days(all[..i]), DatePrefix(all[i].date));
  }

  /** The state the `forEach` of `prepareTimeframeData` leaves: the buckets
      of `ts` and their days in the order they were first met. */
  ghost predicate DayGrouping(ts: seq<Transaction>, grouped: map<string, Bucket>, order: seq<string>) {
    && grouped.Keys == Days(ts)
    && (forall d :: d in grouped ==> grouped[d] == Bucket(d, IncomeOn(ts, d), OtherOn(ts, d)))
    && FirstSeen(order, grouped.Keys)
  }

  /** The `forEach` that fills `groupedByDate`. */
  method GroupByDate(all: seq<Transaction>) returns (grouped: map<string, Bucket>, order: seq<string>)
    ensures DayGrouping(all, grouped, order)
  {
    grouped := map[];
    order := [];
    var i := 0;
    while i < |all|
      invariant 0 <= i <= |all|
      invariant grouped == DayMap(all[..i])
      invariant FirstSeen(order, Days(all[..i]))
    {
      var t := all[i];
      var date := DatePrefix(t.date);
      // `order` follows the object's key order: a day joins it when first set.
      OrderStep(all, i, grouped, order);
      if date !in grouped {
        order := order + [date];
      }
      grouped := TallyDay(grouped, t);
      DayMapStep(all, i);
      i := i + 1;
    }
    assert all[..i] == all;
    DayMapContents(all);
  }

  /** The grouped buckets in the order their days were first met. */
  function ValuesInOrder(grouped: map<string, Bucket>, order: seq<string>): (values: seq<Bucket>)
    requires forall d :: d in order ==> d in grouped
    ensures |values| == |order|
    ensures forall k :: 0 <= k < |order| ==> values[k] == grouped[order[k]]
  {
    seq(|order|, k requires 0 <= k < |order| => grouped[order[k]])
  }

  lemma GroupedValuesDistinct(ts: seq<Transaction>, grouped: map<string, Bucket>, order: seq<string>)
    requires DayGrouping(ts, grouped, order)
    ensures DistinctDates(ValuesInOrder(grouped, order))
  {
  }

  /** A permutation has the same elements. */
  lemma SameElements(values: seq<Bucket>, series: seq<Bucket>)
    requires multiset(series) == multiset(values)
    ensures forall k :: 0 <= k < |series| ==> series[k] in values
    ensures forall k :: 0 <= k < |values| ==> values[k] in series
  {
    forall k | 0 <= k < |series| ensures series[k] in values {
      assert series[k] in multiset(values);
    }
    forall k | 0 <= k < |values| ensures values[k] in series {
      assert values[k] in multiset(series);
    }
  }

  /** Every bucket of a permutation of the grouped values is the grouped
      bucket of its own day. */
  lemma PermutedValuesGrouped(grouped: map<string, Bucket>, order: seq<string>, series: seq<Bucket>)
    requires forall d :: d in order ==> d in grouped
    requires forall d :: d in grouped ==> grouped[d].date == d
    requires forall k :: 0 <= k < |series| ==> series[k] in ValuesInOrder(grouped, order)
    ensures forall k :: 0 <= k < |series| ==> series[k].date in grouped && series[k] == grouped[series[k].date]
  {
    var values := ValuesInOrder(grouped, order);
    forall k | 0 <= k < |series|
      ensures series[k].date in grouped && series[k] == grouped[series[k].date]
    {
      assert series[k] in values;
      var j :| 0 <= j < |values| && values[j] == series[k];
    }
  }

  /** A permutation of the grouped values has a bucket for every grouped
      day. */
  lemma PermutedValuesCover(grouped: map<string, Bucket>, order: seq<string>, series: seq<Bucket>)
    requires forall d :: d in order <==> d in grouped
    requires forall d :: d in grouped ==> grouped[d].date == d
    requires forall k :: 0 <= k < |order| ==> ValuesInOrder(grouped, order)[k] in series
    ensures forall d :: d in grouped ==> HasDate(series, d)
  {
    var values := ValuesInOrder(grouped, order);
    forall d | d in grouped ensures HasDate(series, d) {
      assert d in order;
      var k :| 0 <= k < |order| && order[k] == d;
      assert values[k] in series;
      var j :| 0 <= j < |series| && series[j] == values[k];
    }
  }

  /** An ascending list made of exactly the grouped buckets is the time
      series. */
  lemma GroupedSeries(ts: seq<Transaction>, grouped: map<string, Bucket>, series: seq<Bucket>)
    requires grouped.Keys == Days(ts)
    requires forall d :: d in grouped ==> grouped[d] == Bucket(d, IncomeOn(ts, d), OtherOn(ts, d))
    requires Ascending(series)
    requires forall k :: 0 <= k < |series| ==> series[k].date in grouped && series[k] == grouped[series[k].date]
    requires forall d :: d in grouped ==> HasDate(series, d)
    ensures IsTimeSeries(ts, series)
  {
  }

  /** Sorting the grouped buckets by date gives the time series. */
  lemma SortedGroupingIsTimeSeries(ts: seq<Transaction>, grouped: map<string, Bucket>, order: seq<string>)
    requires DayGrouping(ts, grouped, order)
    ensures IsTimeSeries(ts, SortByDate(ValuesInOrder(grouped, order)))
  {
    var values := ValuesInOrder(grouped, order);
    var series := SortByDate(values);
    GroupedValuesDistinct(ts, grouped, order);
    SortByDateAscending(values);
    SameElements(values, series);
    PermutedValuesGrouped(grouped, order, series);
    PermutedValuesCover(grouped, order, series);
    GroupedSeries(ts, grouped, series);
  }

  /** `prepareTimeframeData`: the grouping, then `Object.values` and the sort
      by date. */
  method TimeframeData(accounts: seq<Account>) returns (series: seq<Bucket>)
    ensures IsTimeSeries(AllTransactions(accounts), series)
  {
    var all := AllTransactions(accounts);
    var grouped, order := GroupByDate(all);
    series := SortByDate(ValuesInOrder(grouped, order));
    SortedGroupingIsTimeSeries(all, grouped, order);
  }

  // ---------------------------------------------------------------------
  // Conservation: the buckets add up to the total of all amounts

  function BucketTotal(series: seq<Bucket>): int {
    if series == [] then 0 else series[0].income + series[0].expense + BucketTotal(series[1..])
  }

  /** The sum, over the days of `series`, of everything `ts` has on that day. */
  function DaySums(ts: seq<Transaction>, series: seq<Bucket>): int {
    if series == [] then 0
    else IncomeOn(ts, series[0].date) + OtherOn(ts, series[0].date) + DaySums(ts, series[1..])
  }

  lemma {:induction false} DaySumsSnoc(p: seq<Transaction>, t: Transaction, series: seq<Bucket>)
    requires DistinctDates(series)
    ensures DaySums(p + [t], series) ==
              DaySums(p, series) + (if HasDate(series, DatePrefix(t.date)) then t.amount else 0)
  {
    assert (p + [t])[..|p|] == p;
    if series != [] {
      var rest := series[1..];
      DaySumsSnoc(p, t, rest);
      if series[0].date == DatePrefix(t.date) {
        assert !HasDate(rest, DatePrefix(t.date)) by {
          forall k | 0 <= k < |rest| ensures rest[k].date != DatePrefix(t.date) {
            assert rest[k] == series[k + 1];
          }
        }
      } else {
        assert HasDate(series, DatePrefix(t.date)) <==> HasDate(rest, DatePrefix(t.date)) by {
          if HasDate(series, DatePrefix(t.date)) {
            var k :| 0 <= k < |series| && series[k].date == DatePrefix(t.date);
            assert rest[k - 1] == series[k];
          }
          if HasDate(rest, DatePrefix(t.date)) {
            var k :| 0 <= k < |rest| && rest[k].date == DatePrefix(t.date);
            assert series[k + 1] == rest[k];
          }
        }
      }
    }
  }

  /** Summing day by day over a list of distinct days that covers every day
      of `ts` gives the total of all amounts of `ts`. */
  lemma {:induction false} DaySumsCover(ts: seq<Transaction>, series: seq<Bucket>)
    requires DistinctDates(series)
    requires forall day :: day in Days(ts) ==> HasDate(series, day)
    ensures DaySums(ts, series) == TotalAmount(ts)
  {
    if ts == [] {
      DaySumsEmpty(series);
    } else {
      var p := ts[..|ts| - 1];
      var t := ts[|ts| - 1];
      assert ts == p + [t];
      assert DatePrefix(t.date) in Days(ts);
      DaySumsCover(p, series);
      DaySumsSnoc(p, t, series);
    }
  }

  lemma {:induction false} DaySumsEmpty(series: seq<Bucket>)
    ensures DaySums([], series) == 0
  {
    if series != [] {
      DaySumsEmpty(series[1..]);
    }
  }

  lemma {:induction false} BucketTotalIsDaySums(ts: seq<Transaction>, series: seq<Bucket>)
    requires forall i :: 0 <= i < |series| ==>
               series[i].income == IncomeOn(ts, series[i].date) && series[i].expense == OtherOn(ts, series[i].date)
    ensures BucketTotal(series) == DaySums(ts, series)
  {
    if series != [] {
      BucketTotalIsDaySums(ts, series[1..]);
    }
  }

  /** Conservation: the income and expense columns of the time series add up
      to the sum of all transaction amounts. */
  lemma TimeSeriesConserves(ts: seq<Transaction>, series: seq<Bucket>)
    requires IsTimeSeries(ts, series)
    ensures BucketTotal(series) == TotalAmount(ts)
  {
    forall i, j | 0 <= i < j < |series| ensures series[i].date != series[j].date {
      if series[i].date == series[j].date {
        DateLessIrreflexive(series[i].date);
      }
    }
    BucketTotalIsDaySums(ts, series);
    DaySumsCover(ts, series);
  }

  /** The day sums and the total of two lists joined are the sums of each. */
  lemma {:induction false} SumsAppend(a: seq<Transaction>, b: seq<Transaction>, day: string)
    ensures IncomeOn(a + b, day) == IncomeOn(a, day) + IncomeOn(b, day)
    ensures OtherOn(a + b, day) == OtherOn(a, day) + OtherOn(b, day)
    ensures TotalAmount(a + b) == TotalAmount(a) + TotalAmount(b)
    decreases |b|
  {
    if |b| > 0 {
      var n := |b| - 1;
      assert (a + b)[..|a + b| - 1] == a + b[..n];
      assert (a + b)[|a + b| - 1] == b[n];
      SumsAppend(a, b[..n], day);
    } else {
      assert a + b == a;
    }
  }

  /** Each account's history counts once towards the charted sums: one more
      account adds exactly its own income, other amounts and total. */
  lemma ChartSumsPerAccount(accounts: seq<Account>, account: Account, day: string)
    ensures var all := AllTransactions(accounts + [account]);
            var before := AllTransactions(accounts);
            && IncomeOn(all, day) == IncomeOn(before, day) + IncomeOn(account.transactions, day)
            && OtherOn(all, day) == OtherOn(before, day) + OtherOn(account.transactions, day)
            && TotalAmount(all) == TotalAmount(before) + TotalAmount(account.transactions)
  {
    AllTransactionsAppend(accounts, [account]);
    AllTransactionsSingle(account);
    SumsAppend(AllTransactions(accounts), account.transactions, day);
  }

  // ---------------------------------------------------------------------
  // The category breakdown

  datatype CategoryEntry = CategoryEntry(name: string, value: int)

  /** What the category data of `accounts` is: one entry per expense
      category and no other, each holding that category's expense total.
      No order is promised: `Object.entries` lists integer-like keys first. */
  ghost predicate IsCategoryBreakdown(accounts: seq<Account>, entries: seq<CategoryEntry>) {
    && (forall i, j :: 0 <= i < j < |entries| ==> entries[i].name != entries[j].name)
    && (forall i :: 0 <= i < |entries| ==>
          entries[i].name in ExpenseCategories(accounts) && entries[i].value == TotalExpense(accounts, entries[i].name))
    && (forall c :: c in ExpenseCategories(accounts) ==> exists i :: 0 <= i < |entries| && entries[i].name == c)
  }

  /** The state the `forEach` of `prepareCategoryData` leaves: the spending
      map of the accounts, and its keys in the order they were first met. */
  ghost predicate CategoryGrouping(accounts: seq<Account>, grouped: map<string, int>, names: seq<string>) {
    && grouped == Spending(accounts)
    && FirstSeen(names, grouped.Keys)
  }

  /** The category names after one more expense: its category is appended
      when it has no entry yet. */
  lemma NamesStep(expenses: seq<Transaction>, i: nat, grouped: map<string, int>, names: seq<string>)
    requires i < |expenses| && expenses[i].txType == Expense
    requires grouped == RunningTotals(expenses[..i]) && FirstSeen(names, ExpenseKeys(expenses[..i]))
    ensures var category := CategoryKey(expenses[i].category);
            FirstSeen(if category !in grouped then names + [category] else names, ExpenseKeys(expenses[..i + 1]))
  {
    RunningTotalsKeys(expenses[..i]);
    ExpenseKeysStep(expenses, i);
    FirstSeenStep(names, ExpenseKeys(expenses[..i]), CategoryKey(expenses[i].category));
  }

  /** The `forEach` that fills `groupedByCategory`. */
  method GroupByCategory(accounts: seq<Account>) returns (grouped: map<string, int>, names: seq<string>)
    ensures CategoryGrouping(accounts, grouped, names)
  {
    var expenses := ExpenseTransactions(accounts);
    grouped := map[];
    names := [];
    var i := 0;
    while i < |expenses|
      invariant 0 <= i <= |expenses|
      invariant grouped == RunningTotals(expenses[..i])
      invariant FirstSeen(names, ExpenseKeys(expenses[..i]))
    {
      var t := expenses[i];
      assert t in expenses;
      var category := CategoryKey(t.category);
      // `names` follows the object's key order: a key joins it when first set.
      NamesStep(expenses, i, grouped, names);
      if category !in grouped {
        names := names + [category];
      }
      grouped := TallyExpense(grouped, t);
      RunningTotalsStep(expenses, i);
      i := i + 1;
    }
    assert expenses[..i] == expenses;
    RunningTotalsKeys(expenses);
    FoldResult(accounts);
  }

  /** One name/value entry per category, in the order of `names`. */
  function Entries(grouped: map<string, int>, names: seq<string>): (entries: seq<CategoryEntry>)
    requires forall c :: c in names ==> c in grouped
    ensures |entries| == |names|
    ensures forall k :: 0 <= k < |names| ==> entries[k] == CategoryEntry(names[k], grouped[names[k]])
  {
    seq(|names|, k requires 0 <= k < |names| => CategoryEntry(names[k], grouped[names[k]]))
  }

  lemma EntriesAreBreakdown(accounts: seq<Account>, grouped: map<string, int>, names: seq<string>)
    requires CategoryGrouping(accounts, grouped, names)
    ensures IsCategoryBreakdown(accounts, Entries(grouped, names))
  {
    var entries := Entries(grouped, names);
    forall c | c in ExpenseCategories(accounts)
      ensures exists k :: 0 <= k < |entries| && entries[k].name == c
    {
      var k :| 0 <= k < |names| && names[k] == c;
      assert entries[k].name == c;
    }
  }

  /** `prepareCategoryData` */
  method CategoryData(accounts: seq<Account>) returns (entries: seq<CategoryEntry>)
    ensures IsCategoryBreakdown(accounts, entries)
  {
    var grouped, names := GroupByCategory(accounts);
    entries := Entries(grouped, names);
    EntriesAreBreakdown(accounts, grouped, names);
  }

  /** The category breakdown holds exactly the budget tracker's spending
      map. */
  lemma BreakdownIsSpending(accounts: seq<Account>, entries: seq<CategoryEntry>)
    requires IsCategoryBreakdown(accounts, entries)
    ensures forall i :: 0 <= i < |entries| ==>
              entries[i].name in Spending(accounts) && entries[i].value == Spending(accounts)[entries[i].name]
    ensures forall c :: c in Spending(accounts) <==> exists i :: 0 <= i < |entries| && entries[i].name == c
  {
  }

  // ---------------------------------------------------------------------
  // The account snapshot and the effect

  datatype AccountPoint = AccountPoint(name: string, balance: int)

  /** `prepareAccountData` */
  function AccountData(accounts: seq<Account>): (r: seq<AccountPoint>)
    ensures |r| == |accounts|
    ensures forall i :: 0 <= i < |accounts| ==>
              r[i].name == accounts[i].name && r[i].balance == accounts[i].balance
  {
    seq(|accounts|, i requires 0 <= i < |accounts| => AccountPoint(accounts[i].name, accounts[i].balance))
  }

  datatype Charts = Charts(timeframe: seq<Bucket>, categories: seq<CategoryEntry>, balances: seq<AccountPoint>)

  /** The effect on `accounts`: with no accounts the previous chart data is
      kept; otherwise all three derivations are recomputed. */
  method RefreshCharts(accounts: seq<Account>, previous: Charts) returns (charts: Charts)
    ensures |accounts| == 0 ==> charts == previous
    ensures |accounts| > 0 ==>
              && IsTimeSeries(AllTransactions(accounts), charts.timeframe)
              && BucketTotal(charts.timeframe) == TotalAmount(AllTransactions(accounts))
              && IsCategoryBreakdown(accounts, charts.categories)
              && charts.balances == AccountData(accounts)
  {
    if |accounts| == 0 {
      return previous;
    }
    var timeframe := TimeframeData(accounts);
    TimeSeriesConserves(AllTransactions(accounts), timeframe);
    var categories := CategoryData(accounts);
    charts := Charts(timeframe, categories, AccountData(accounts));
  }
}
