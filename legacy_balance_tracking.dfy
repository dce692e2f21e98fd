/**
 * The older balance form (BalanceTracking.js at the repository root): it
 * overwrites the selected account's balance with the entered amount and logs
 * the overwrite as a 'balance_update' transaction.
 */
module LegacyBalanceTracking {
  import opened Ledger

  datatype BalanceForm = BalanceForm(accountId: AccountId, amount: Option<int>)

  datatype BalanceOutcome = BalanceOutcome(accounts: seq<Account>, form: BalanceForm)

  /** The form the component starts from and returns to: account 'checking',
      empty amount. */
  const InitialForm: BalanceForm := BalanceForm(Named("checking"), None)

  /** The log entry of an overwrite; it has no category and no description. */
  function UpdateEntry(stamp: int, amount: int, nowIso: string): Transaction {
    Transaction(stamp, BalanceUpdate, amount, "", "", nowIso)
  }

  /** The `map` of `handleBalanceUpdate`. */
  function Overwrite(accounts: seq<Account>, id: AccountId, tx: Transaction): (r: seq<Account>)
    ensures |r| == |accounts|
    ensures forall i :: 0 <= i < |accounts| && accounts[i].id != id ==> r[i] == accounts[i]
    ensures forall i :: 0 <= i < |accounts| && accounts[i].id == id ==>
              r[i] == Account(id, accounts[i].name, tx.amount, accounts[i].transactions + [tx])
  {
    seq(|accounts|, i requires 0 <= i < |accounts| =>
      if accounts[i].id == id
      then accounts[i].(balance := tx.amount, transactions := accounts[i].transactions + [tx])
      else accounts[i])
  }

  /** `handleBalanceUpdate`: `stamp` is `Date.now()`, `nowIso` is
      `new Date().toISOString()`. An empty amount changes nothing; otherwise
      the form goes back to its initial state. */
  function UpdateBalance(form: BalanceForm, accounts: seq<Account>, stamp: int, nowIso: string): (r: BalanceOutcome)
    ensures form.amount.None? ==> r == BalanceOutcome(accounts, form)
    ensures form.amount.Some? ==> r.form == InitialForm
    ensures form.amount.Some? ==>
              && |r.accounts| == |accounts|
              && (forall i :: 0 <= i < |accounts| && accounts[i].id != form.accountId ==> r.accounts[i] == accounts[i])
              && (forall i :: 0 <= i < |accounts| && accounts[i].id == form.accountId ==>
                    && r.accounts[i].id == accounts[i].id && r.accounts[i].name == accounts[i].name
                    && r.accounts[i].balance == form.amount.value
                    && r.accounts[i].transactions ==
                         accounts[i].transactions + [UpdateEntry(stamp, form.amount.value, nowIso)])
  {
    if form.amount.None? then BalanceOutcome(accounts, form)
    else BalanceOutcome(Overwrite(accounts, form.accountId, UpdateEntry(stamp, form.amount.value, nowIso)),
                        InitialForm)
  }

  /** Entering the same amount twice leaves the same balance as entering it
      once, and the history grows by two log entries. */
  lemma RepeatedUpdate(form: BalanceForm, accounts: seq<Account>, s1: int, s2: int, iso1: string, iso2: string)
    requires form.amount.Some?
    ensures var once := UpdateBalance(form, accounts, s1, iso1).accounts;
            var twice := UpdateBalance(form, once, s2, iso2).accounts;
            && |twice| == |accounts|
            && forall i :: 0 <= i < |accounts| && accounts[i].id == form.accountId ==>
                 && twice[i].balance == once[i].balance == form.amount.value
                 && twice[i].transactions == accounts[i].transactions +
                      [UpdateEntry(s1, form.amount.value, iso1), UpdateEntry(s2, form.amount.value, iso2)]
  {
    var v := form.amount.value;
    var once := UpdateBalance(form, accounts, s1, iso1).accounts;
    forall i | 0 <= i < |accounts| && accounts[i].id == form.accountId
      ensures UpdateBalance(form, once, s2, iso2).accounts[i].transactions ==
                accounts[i].transactions + [UpdateEntry(s1, v, iso1), UpdateEntry(s2, v, iso2)]
    {
      assert once[i].id == form.accountId;
      assert accounts[i].transactions + [UpdateEntry(s1, v, iso1)] + [UpdateEntry(s2, v, iso2)] ==
             accounts[i].transactions + [UpdateEntry(s1, v, iso1), UpdateEntry(s2, v, iso2)];
    }
  }
}
