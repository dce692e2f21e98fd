/**
 * The older transaction entry form (TransactionEntry.js at the repository
 * root). Its only guard is a non-empty amount and at least one account; the
 * category is stored as typed and the date is the submit time, an input here.
 */
module LegacyTransactionEntry {
  import opened Ledger

  datatype LegacyForm = LegacyForm(
    accountId: AccountId,
    txType: TxType,
    amount: Option<int>,
    category: string,
    description: string)

  datatype LegacyOutcome = LegacyOutcome(accounts: seq<Account>, form: LegacyForm)

  /** `handleTransactionSubmit`: `stamp` is `Date.now()`, `nowIso` is
      `new Date().toISOString()`. */
  function LegacySubmit(form: LegacyForm, accounts: seq<Account>, stamp: int, nowIso: string): (r: LegacyOutcome)
    ensures form.amount.None? || |accounts| == 0 ==> r == LegacyOutcome(accounts, form)
    ensures form.amount.Some? && |accounts| > 0 ==>
              r.form == LegacyForm(accounts[0].id, Expense, None, "", "")
  {
    if form.amount.None? || |accounts| == 0 then
      LegacyOutcome(accounts, form)
    else
      var tx := Transaction(stamp, form.txType, form.amount.value, form.category, form.description, nowIso);
      LegacyOutcome(Post(accounts, form.accountId, tx), LegacyForm(accounts[0].id, Expense, None, "", ""))
  }

  /** Any non-empty amount is recorded, zero and negative ones included: the
      selected account moves by the amount and gets one transaction with the
      category as typed (possibly empty) appended; every other account is
      returned as it is. */
  lemma LegacySubmitRecords(form: LegacyForm, accounts: seq<Account>, stamp: int, nowIso: string)
    requires form.amount.Some? && |accounts| > 0
    ensures var r := LegacySubmit(form, accounts, stamp, nowIso).accounts;
            var v := form.amount.value;
            && |r| == |accounts|
            && (forall i :: 0 <= i < |accounts| && accounts[i].id != form.accountId ==> r[i] == accounts[i])
            && (forall i :: 0 <= i < |accounts| && accounts[i].id == form.accountId ==>
                  && r[i].id == accounts[i].id && r[i].name == accounts[i].name
                  && r[i].balance == (if form.txType == Expense then accounts[i].balance - v
                                      else accounts[i].balance + v)
                  && r[i].transactions == accounts[i].transactions +
                       [Transaction(stamp, form.txType, v, form.category, form.description, nowIso)])
  {
  }

  /** A submit for an id no account has changes no account. */
  lemma LegacySubmitUnknownAccount(form: LegacyForm, accounts: seq<Account>, stamp: int, nowIso: string)
    requires forall i :: 0 <= i < |accounts| ==> accounts[i].id != form.accountId
    ensures LegacySubmit(form, accounts, stamp, nowIso).accounts == accounts
  {
    if form.amount.Some? && |accounts| > 0 {
      PostUnknownId(accounts, form.accountId,
                    Transaction(stamp, form.txType, form.amount.value, form.category, form.description, nowIso));
    }
  }

  /** Every submit keeps each balance equal to its opening balance plus the
      signed sum of its history. */
  lemma LegacySubmitReconciles(form: LegacyForm, accounts: seq<Account>, openings: seq<int>, stamp: int, nowIso: string)
    requires Reconciled(accounts, openings)
    ensures Reconciled(LegacySubmit(form, accounts, stamp, nowIso).accounts, openings)
  {
    if form.amount.Some? && |accounts| > 0 {
      PostReconciles(accounts, openings, form.accountId,
                     Transaction(stamp, form.txType, form.amount.value, form.category, form.description, nowIso));
    }
  }
}
