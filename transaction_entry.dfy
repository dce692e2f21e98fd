/**
 * The transaction entry form (src/components/TransactionEntry.js): field
 * validation, the submit that records one transaction against the selected
 * account, the form reset, the category dropdown handler and the effect that
 * keeps a valid account selected.
 *
 * The clock (`Date.now()` for the transaction id, today's date for the reset
 * form) is an input.
 */
module TransactionEntry {
  import opened Ledger

  datatype EntryField = AmountField | CategoryField | DateField

  const InvalidAmountError: string := "Please enter a valid amount"
  const MissingCategoryError: string := "Please select or enter a category"
  const MissingDateError: string := "Please enter a date"

  /** The form fields; `date` is the "YYYY-MM-DD" text of the date input. */
  datatype EntryForm = EntryForm(
    accountId: AccountId,
    txType: TxType,
    amount: Option<int>,
    category: string,
    description: string,
    date: string)

  datatype EntryState = EntryState(
    form: EntryForm,
    showCustom: bool,
    customCategory: string,
    errors: map<EntryField, string>)

  predicate AmountInvalid(amount: Option<int>) {
    amount.None? || amount.value <= 0
  }

  /** `validateForm`: one error per failing check, each under its own field.
      The category check reads the dropdown field even in custom mode. */
  function ValidateEntry(form: EntryForm): (errors: map<EntryField, string>)
    ensures AmountField in errors <==> AmountInvalid(form.amount)
    ensures CategoryField in errors <==> form.category == ""
    ensures DateField in errors <==> form.date == ""
    ensures AmountField in errors ==> errors[AmountField] == InvalidAmountError
    ensures CategoryField in errors ==> errors[CategoryField] == MissingCategoryError
    ensures DateField in errors ==> errors[DateField] == MissingDateError
  {
    var e0: map<EntryField, string> := map[];
    var e1 := if AmountInvalid(form.amount) then e0[AmountField := InvalidAmountError] else e0;
    var e2 := if form.category == "" then e1[CategoryField := MissingCategoryError] else e1;
    if form.date == "" then e2[DateField := MissingDateError] else e2
  }

  /** The form passes exactly when the amount is positive and the category
      and date fields are filled. */
  lemma ValidateEntryPasses(form: EntryForm)
    ensures ValidateEntry(form) == map[] <==>
              form.amount.Some? && form.amount.value > 0 && form.category != "" && form.date != ""
  {
    var e := ValidateEntry(form);
    if AmountInvalid(form.amount) { assert AmountField in e; }
    if form.category == "" { assert CategoryField in e; }
    if form.date == "" { assert DateField in e; }
    if e != map[] {
      var k :| k in e;
    }
  }

  /** `new Date(date).toISOString()` for a "YYYY-MM-DD" date, which
      ECMAScript reads as midnight UTC. */
  function IsoMidnight(date: string): (iso: string)
    ensures |date| < |iso| && iso[..|date|] == date && iso[|date|] == 'T'
  {
    date + "T00:00:00.000Z"
  }

  /** The custom text in custom mode, the dropdown choice otherwise. */
  function FinalCategory(state: EntryState): string {
    if state.showCustom then state.customCategory else state.form.category
  }

  /** The form after a submit: the first account, an expense, empty fields,
      today's date and custom mode off. */
  function ResetState(accounts: seq<Account>, today: string): EntryState {
    EntryState(
      EntryForm(if |accounts| > 0 then accounts[0].id else Named(""), Expense, None, "", "", today),
      false, "", map[])
  }

  datatype SubmitOutcome = SubmitOutcome(accounts: seq<Account>, state: EntryState)

  /** `handleTransactionSubmit`: `stamp` is `Date.now()`, `today` the date
      part of the current time. */
  function Submit(state: EntryState, accounts: seq<Account>, stamp: int, today: string): (r: SubmitOutcome)
    ensures ValidateEntry(state.form) != map[] || |accounts| == 0 ==>
              r.accounts == accounts && r.state == state.(errors := ValidateEntry(state.form))
    ensures ValidateEntry(state.form) == map[] && |accounts| > 0 ==>
              r.state == ResetState(accounts, today)
  {
    var errors := ValidateEntry(state.form);
    if errors != map[] || |accounts| == 0 then
      SubmitOutcome(accounts, state.(errors := errors))
    else
      var tx := Transaction(stamp, state.form.txType, state.form.amount.value, FinalCategory(state),
                            state.form.description, IsoMidnight(state.form.date));
      SubmitOutcome(Post(accounts, state.form.accountId, tx), ResetState(accounts, today))
  }

  /** What a successful submit does to the account list: the selected account
      moves down by the amount for an expense and up for an income, and gets
      exactly one new transaction appended after its earlier ones; every
      other account is returned as it is, and length and order are kept. */
  lemma SubmitRecords(state: EntryState, accounts: seq<Account>, stamp: int, today: string)
    requires ValidateEntry(state.form) == map[] && |accounts| > 0
    ensures var r := Submit(state, accounts, stamp, today).accounts;
            var f := state.form;
            && |r| == |accounts|
            && (forall i :: 0 <= i < |accounts| && accounts[i].id != f.accountId ==> r[i] == accounts[i])
            && (forall i :: 0 <= i < |accounts| && accounts[i].id == f.accountId ==>
                  && r[i].id == accounts[i].id && r[i].name == accounts[i].name
                  && r[i].balance == (if f.txType == Expense then accounts[i].balance - f.amount.value
                                      else accounts[i].balance + f.amount.value)
                  && |r[i].transactions| == |accounts[i].transactions| + 1
                  && r[i].transactions[..|accounts[i].transactions|] == accounts[i].transactions
                  && r[i].transactions[|accounts[i].transactions|] ==
                       Transaction(stamp, f.txType, f.amount.value, FinalCategory(state), f.description,
                                   IsoMidnight(f.date)))
  {
    var r := Submit(state, accounts, stamp, today).accounts;
    forall i | 0 <= i < |accounts| && accounts[i].id == state.form.accountId
      ensures r[i].transactions[..|accounts[i].transactions|] == accounts[i].transactions
    {
      assert r[i].transactions == accounts[i].transactions + [r[i].transactions[|accounts[i].transactions|]];
    }
  }

  /** A submit for an id no account has changes no account. */
  lemma SubmitUnknownAccount(state: EntryState, accounts: seq<Account>, stamp: int, today: string)
    requires forall i :: 0 <= i < |accounts| ==> accounts[i].id != state.form.accountId
    ensures Submit(state, accounts, stamp, today).accounts == accounts
  {
    var errors := ValidateEntry(state.form);
    if errors == map[] && |accounts| > 0 {
      var tx := Transaction(stamp, state.form.txType, state.form.amount.value, FinalCategory(state),
                            state.form.description, IsoMidnight(state.form.date));
      PostUnknownId(accounts, state.form.accountId, tx);
    }
  }

  /** Every submit, accepted or not, keeps each balance equal to its opening
      balance plus the signed sum of its history. */
  lemma SubmitReconciles(state: EntryState, accounts: seq<Account>, openings: seq<int>, stamp: int, today: string)
    requires Reconciled(accounts, openings)
    ensures Reconciled(Submit(state, accounts, stamp, today).accounts, openings)
  {
    var errors := ValidateEntry(state.form);
    if errors == map[] && |accounts| > 0 {
      var tx := Transaction(stamp, state.form.txType, state.form.amount.value, FinalCategory(state),
                            state.form.description, IsoMidnight(state.form.date));
      PostReconciles(accounts, openings, state.form.accountId, tx);
    }
  }

  // ---------------------------------------------------------------------
  // Form handlers

  /** The category dropdown's `onChange`: choosing "custom" only switches
      the input to custom mode; any other choice is stored in the form. */
  function SelectCategory(state: EntryState, value: string): (r: EntryState)
    ensures value == "custom" ==> r == state.(showCustom := true)
    ensures value != "custom" ==> r == state.(form := state.form.(category := value))
  {
    if value == "custom" then state.(showCustom := true) else state.(form := state.form.(category := value))
  }

  /** The custom text input's `onChange`. */
  function TypeCustomCategory(state: EntryState, text: string): (r: EntryState)
    ensures r.customCategory == text && r.form == state.form && r.showCustom == state.showCustom
    ensures r.errors == state.errors
  {
    state.(customCategory := text)
  }

  /** The Cancel button of the custom input: back to the dropdown, which
      again decides the category; the typed text is kept but no longer used. */
  function CancelCustomCategory(state: EntryState): (r: EntryState)
    ensures !r.showCustom && r.form == state.form && r.customCategory == state.customCategory
    ensures r.errors == state.errors
    ensures FinalCategory(r) == state.form.category
  {
    state.(showCustom := false)
  }

  /** Choosing "custom" before any dropdown category and typing a category is
      rejected with a category error, because validation reads the dropdown
      field that custom mode never sets. */
  lemma CustomCategoryWithoutDropdownFails(state: EntryState, text: string, accounts: seq<Account>, stamp: int, today: string)
    requires state.form.category == ""
    ensures var s := TypeCustomCategory(SelectCategory(state, "custom"), text);
            && s.showCustom && FinalCategory(s) == text
            && Submit(s, accounts, stamp, today).accounts == accounts
            && Submit(s, accounts, stamp, today).state.errors[CategoryField] == MissingCategoryError
  {
  }

  /** The effect on `accounts`: when the selected id is not among the
      accounts, the first account is selected. */
  function SyncSelection(selected: AccountId, accounts: seq<Account>): (id: AccountId)
    ensures (exists i :: 0 <= i < |accounts| && accounts[i].id == selected) || |accounts| == 0 ==> id == selected
    ensures |accounts| > 0 ==> exists i :: 0 <= i < |accounts| && accounts[i].id == id
    ensures |accounts| > 0 && !(exists i :: 0 <= i < |accounts| && accounts[i].id == selected) ==>
              id == accounts[0].id
  {
    if |accounts| > 0 && !(exists i :: 0 <= i < |accounts| && accounts[i].id == selected)
    then accounts[0].id else selected
  }
}
