/**
 * The account list of src/App.js: adding, deleting and editing accounts,
 * the add form's guard and the edit toggle of one listed account.
 *
 * Accounts here are looser than the ledger's: the add form builds them
 * without a `transactions` field, and `parseFloat` of an empty edit field
 * gives `NaN`, which the list then stores as the balance.
 */
module AccountList {
  import opened Ledger

  /** A JavaScript number as stored in a balance: a value in cents or `NaN`. */
  datatype JsNumber = Num(cents: int) | NaN

  /** One account of the list; `history` is `None` when the object has no
      `transactions` field. */
  datatype ListedAccount = ListedAccount(
    id: AccountId,
    name: string,
    balance: JsNumber,
    history: Option<seq<Transaction>>)

  /** The fields of an `updatedAccount` object; `None` for a field it lacks. */
  datatype AccountPatch = AccountPatch(name: Option<string>, balance: Option<JsNumber>)

  /** `addAccount`: the new account goes last. */
  function AddAccount(accounts: seq<ListedAccount>, account: ListedAccount): (r: seq<ListedAccount>)
    ensures |r| == |accounts| + 1
    ensures r[..|accounts|] == accounts && r[|accounts|] == account
  {
    accounts + [account]
  }

  /** `deleteAccount`: keep the accounts whose id differs, in order. */
  function DeleteAccount(accounts: seq<ListedAccount>, id: AccountId): (r: seq<ListedAccount>)
    ensures |r| <= |accounts|
    ensures forall a :: a in r <==> a in accounts && a.id != id
    decreases |accounts|
  {
    if |accounts| == 0 then []
    else
      var rest := DeleteAccount(accounts[..|accounts|-1], id);
      var last := accounts[|accounts|-1];
      assert accounts == accounts[..|accounts|-1] + [last];
      if last.id != id then rest + [last] else rest
  }

  /** Deleting from a concatenation deletes from each part and keeps their
      order. */
  lemma {:induction false} DeleteAccountAppend(xs: seq<ListedAccount>, ys: seq<ListedAccount>, id: AccountId)
    ensures DeleteAccount(xs + ys, id) == DeleteAccount(xs, id) + DeleteAccount(ys, id)
    decreases |ys|
  {
    if |ys| == 0 {
      assert xs + ys == xs;
    } else {
      var n := |ys| - 1;
      var kept := if ys[n].id != id then [ys[n]] else [];
      assert (xs + ys)[..|xs + ys| - 1] == xs + ys[..n];
      assert (xs + ys)[|xs + ys| - 1] == ys[n];
      assert DeleteAccount(xs + ys, id) == DeleteAccount(xs + ys[..n], id) + kept;
      assert DeleteAccount(ys, id) == DeleteAccount(ys[..n], id) + kept;
      DeleteAccountAppend(xs, ys[..n], id);
    }
  }

  /** Deleting an id no account has returns an equal list. */
  lemma {:induction false} DeleteAccountAbsent(accounts: seq<ListedAccount>, id: AccountId)
    requires forall i :: 0 <= i < |accounts| ==> accounts[i].id != id
    ensures DeleteAccount(accounts, id) == accounts
    decreases |accounts|
  {
    if |accounts| > 0 {
      var n := |accounts| - 1;
      assert accounts[..n] + [accounts[n]] == accounts;
      assert DeleteAccount(accounts, id) == DeleteAccount(accounts[..n], id) + [accounts[n]];
      DeleteAccountAbsent(accounts[..n], id);
    }
  }

  /** Adding an account and then deleting its id leaves what deleting that id
      from the old list leaves; when the id was new, that is the old list. */
  lemma AddThenDelete(accounts: seq<ListedAccount>, account: ListedAccount)
    ensures DeleteAccount(AddAccount(accounts, account), account.id) == DeleteAccount(accounts, account.id)
    ensures (forall i :: 0 <= i < |accounts| ==> accounts[i].id != account.id) ==>
              DeleteAccount(AddAccount(accounts, account), account.id) == accounts
  {
    DeleteAccountAppend(accounts, [account], account.id);
    assert DeleteAccount([account], account.id) == [] by {
      assert [account][..0] == [];
    }
    if forall i :: 0 <= i < |accounts| ==> accounts[i].id != account.id {
      DeleteAccountAbsent(accounts, account.id);
    }
  }

  /** Spreading the patch over the account: each field the patch has replaces
      the account's, the others are kept. */
  function Merge(account: ListedAccount, patch: AccountPatch): (r: ListedAccount)
    ensures r.id == account.id && r.history == account.history
    ensures r.name == (if patch.name.Some? then patch.name.value else account.name)
    ensures r.balance == (if patch.balance.Some? then patch.balance.value else account.balance)
  {
    account.(name := if patch.name.Some? then patch.name.value else account.name,
             balance := if patch.balance.Some? then patch.balance.value else account.balance)
  }

  /** `editAccount`: every account with the id is merged with the patch; the
      others, the length and the order stay. */
  function EditAccount(accounts: seq<ListedAccount>, id: AccountId, patch: AccountPatch): (r: seq<ListedAccount>)
    ensures |r| == |accounts|
    ensures forall i :: 0 <= i < |accounts| ==> r[i].id == accounts[i].id
    ensures forall i :: 0 <= i < |accounts| && accounts[i].id != id ==> r[i] == accounts[i]
    ensures forall i :: 0 <= i < |accounts| && accounts[i].id == id ==> r[i] == Merge(accounts[i], patch)
  {
    seq(|accounts|, i requires 0 <= i < |accounts| =>
      if accounts[i].id == id then Merge(accounts[i], patch) else accounts[i])
  }

  /** Editing an id no account has returns an equal list. */
  lemma EditUnknownId(accounts: seq<ListedAccount>, id: AccountId, patch: AccountPatch)
    requires forall i :: 0 <= i < |accounts| ==> accounts[i].id != id
    ensures EditAccount(accounts, id, patch) == accounts
  {
  }

  /** Saving the same edit twice gives what saving it once gives. */
  lemma EditIdempotent(accounts: seq<ListedAccount>, id: AccountId, patch: AccountPatch)
    ensures EditAccount(EditAccount(accounts, id, patch), id, patch) == EditAccount(accounts, id, patch)
  {
  }

  /** Editing never changes which accounts a delete removes: after an edit,
      deleting an id leaves as many accounts as before the edit. */
  lemma {:induction false} EditThenDelete(accounts: seq<ListedAccount>, id: AccountId, patch: AccountPatch, other: AccountId)
    ensures |DeleteAccount(EditAccount(accounts, id, patch), other)| == |DeleteAccount(accounts, other)|
    decreases |accounts|
  {
    if |accounts| > 0 {
      var n := |accounts| - 1;
      var edited := EditAccount(accounts, id, patch);
      assert edited[..n] == EditAccount(accounts[..n], id, patch);
      EditThenDelete(accounts[..n], id, patch, other);
    }
  }

  // ---------------------------------------------------------------------
  // AccountForm

  /** The add form; `balance` is the parsed number field, `None` when empty. */
  datatype AccountFormState = AccountFormState(name: string, balance: Option<int>)

  datatype AccountFormOutcome = AccountFormOutcome(accounts: seq<ListedAccount>, form: AccountFormState)

  /** `AccountForm.handleSubmit`: with a name and a balance, the account
      stamped `stamp` (`Date.now()`) is added and both fields are cleared;
      otherwise nothing happens. */
  function SubmitAccountForm(accounts: seq<ListedAccount>, form: AccountFormState, stamp: int): (r: AccountFormOutcome)
    ensures form.name == "" || form.balance.None? ==> r.accounts == accounts && r.form == form
    ensures form.name != "" && form.balance.Some? ==>
              && r.accounts == AddAccount(accounts, ListedAccount(Stamp(stamp), form.name, Num(form.balance.value), None))
              && r.form == AccountFormState("", None)
  {
    if form.name != "" && form.balance.Some? then
      AccountFormOutcome(AddAccount(accounts, ListedAccount(Stamp(stamp), form.name, Num(form.balance.value), None)),
                         AccountFormState("", None))
    else AccountFormOutcome(accounts, form)
  }

  /** A submitted account is a new last entry with the typed name, the parsed
      balance and no transaction history; a zero balance is accepted. */
  lemma SubmitAccountFormAdds(accounts: seq<ListedAccount>, form: AccountFormState, stamp: int)
    requires form.name != "" && form.balance.Some?
    ensures var r := SubmitAccountForm(accounts, form, stamp).accounts;
            && |r| == |accounts| + 1 && r[..|accounts|] == accounts
            && r[|accounts|].id == Stamp(stamp) && r[|accounts|].name == form.name
            && r[|accounts|].balance == Num(form.balance.value) && r[|accounts|].history.None?
  {
  }

  // ---------------------------------------------------------------------
  // AccountItem

  /** The local state of one listed account: the edit flag and the two edit
      fields, the balance already as `parseFloat` reads it. */
  datatype ItemState = ItemState(isEditing: bool, name: string, balance: JsNumber)

  /** The state an item starts with: not editing, fields copied from the
      account. */
  function InitialItem(account: ListedAccount): (s: ItemState)
    ensures !s.isEditing && s.name == account.name && s.balance == account.balance
  {
    ItemState(false, account.name, account.balance)
  }

  /** The balance input's `onChange`: an empty field reads as `NaN`. */
  function TypeBalance(item: ItemState, field: Option<int>): (s: ItemState)
    ensures s.isEditing == item.isEditing && s.name == item.name
    ensures s.balance == (if field.Some? then Num(field.value) else NaN)
  {
    item.(balance := if field.Some? then Num(field.value) else NaN)
  }

  datatype EditOutcome = EditOutcome(accounts: seq<ListedAccount>, item: ItemState)

  /** `handleEdit`: always flips the edit flag; on leaving edit mode it saves
      the name and balance fields into every account with the item's id. */
  function HandleEdit(accounts: seq<ListedAccount>, account: ListedAccount, item: ItemState): (r: EditOutcome)
    ensures r.item == item.(isEditing := !item.isEditing)
    ensures !item.isEditing ==> r.accounts == accounts
    ensures item.isEditing ==>
              r.accounts == EditAccount(accounts, account.id, AccountPatch(Some(item.name), Some(item.balance)))
  {
    var saved := if item.isEditing
      then EditAccount(accounts, account.id, AccountPatch(Some(item.name), Some(item.balance)))
      else accounts;
    EditOutcome(saved, item.(isEditing := !item.isEditing))
  }

  /** Pressing Edit, clearing the balance field and pressing Save stores
      `NaN` as the balance of that account and leaves the list otherwise as
      it was, with the item back out of edit mode. */
  lemma ClearedBalanceSavesNaN(accounts: seq<ListedAccount>, k: nat)
    requires k < |accounts|
    requires forall i :: 0 <= i < |accounts| && i != k ==> accounts[i].id != accounts[k].id
    ensures var account := accounts[k];
            var opening := HandleEdit(accounts, account, InitialItem(account));
            var saved := HandleEdit(opening.accounts, account, TypeBalance(opening.item, None));
            && !saved.item.isEditing
            && |saved.accounts| == |accounts|
            && saved.accounts[k] == account.(balance := NaN)
            && (forall i :: 0 <= i < |accounts| && i != k ==> saved.accounts[i] == accounts[i])
  {
  }

  /** Two presses of the button from the resting state open and save the
      edit: the list gets exactly the fields typed in between. */
  lemma EditRoundTrip(accounts: seq<ListedAccount>, account: ListedAccount, name: string, field: Option<int>)
    ensures var opening := HandleEdit(accounts, account, InitialItem(account));
            var typed := TypeBalance(opening.item.(name := name), field);
            var saved := HandleEdit(opening.accounts, account, typed);
            && opening.accounts == accounts && opening.item.isEditing
            && !saved.item.isEditing
            && saved.accounts == EditAccount(accounts, account.id,
                 AccountPatch(Some(name), Some(if field.Some? then Num(field.value) else NaN)))
  {
  }
}
