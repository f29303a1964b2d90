/**
 * The Accounts screen: the account list read back from the store, the edit dialog
 * (a rename is a delete and a set committed in one batch) and deletion. Neither edit
 * nor delete looks at the transactions that name the account.
 */
module Accounts {
  import opened Wrappers
  import opened Records
  import opened Store
  import LiveStore

  /** One document of the accounts collection: its id and the record stored under it. */
  datatype Doc = Doc(id: string, record: Account)

  function WithIds(docs: seq<Doc>): (r: seq<Account>)
    ensures |r| == |docs|
    ensures forall i :: 0 <= i < |docs| ==> r[i] == docs[i].record.(documentId := Some(docs[i].id))
  {
    if docs == [] then [] else [docs[0].record.(documentId := Some(docs[0].id))] + WithIds(docs[1..])
  }

  /**
   * The edit dialog's fields as typed: neither is trimmed. `balance` is `None` when its
   * text is empty, else the number it parses to.
   */
  datatype EditForm = EditForm(name: string, balance: Option<int>)

  datatype EditRejection = EmptyField

  datatype Edit = Edit(newName: string, newBalance: int)

  /** Only literally empty fields are refused; a name of spaces is accepted as it is. */
  function ValidateEdit(f: EditForm): (r: Result<Edit, EditRejection>)
    ensures r.Failure? <==> f.name == [] || f.balance.None?
    ensures r.Success? ==> r.value == Edit(f.name, f.balance.value)
  {
    if f.name == [] || f.balance.None? then Failure(EmptyField)
    else Success(Edit(f.name, f.balance.value))
  }

  /**
   * The store after `updateAccount`: without a user nothing happens; otherwise the batch
   * deletes the old name's document and sets the new one, both or neither as `commitOk` says.
   */
  function UpdateOn(db: Db, signedIn: bool, oldAccount: Account, e: Edit, commitOk: bool): (r: Db)
    ensures !signedIn || !commitOk ==> r == db
    ensures signedIn && commitOk ==>
      && r.accounts.Keys == (db.accounts.Keys - {oldAccount.name}) + {e.newName}
      && r.accounts[e.newName] == NewAccount(e.newName, e.newBalance)
      && (forall k :: k in db.accounts && k != oldAccount.name && k != e.newName ==> r.accounts[k] == db.accounts[k])
    ensures r.(accounts := db.accounts) == db
  {
    if !signedIn || !commitOk then db
    else SetAccount(DeleteAccount(db, oldAccount.name), e.newName, NewAccount(e.newName, e.newBalance))
  }

  /** Keeping the name only replaces the balance: the same accounts exist afterwards. */
  lemma SameNameOverwritesBalance(db: Db, oldAccount: Account, newBalance: int)
    requires oldAccount.name in db.accounts
    ensures var r := UpdateOn(db, true, oldAccount, Edit(oldAccount.name, newBalance), true);
      r.accounts.Keys == db.accounts.Keys && r.accounts[oldAccount.name].balance == newBalance
  {
  }

  /** Renaming onto the name of another account replaces that account: one account fewer remains. */
  lemma RenameOntoExistingMerges(db: Db, oldAccount: Account, e: Edit)
    requires oldAccount.name in db.accounts && e.newName in db.accounts && oldAccount.name != e.newName
    ensures var r := UpdateOn(db, true, oldAccount, e, true);
      |r.accounts| == |db.accounts| - 1 && r.accounts[e.newName].balance == e.newBalance
  {
    var r := UpdateOn(db, true, oldAccount, e, true);
    assert r.accounts.Keys == db.accounts.Keys - {oldAccount.name};
  }

  /**
   * The store after `deleteAccount`: the document named by the row's id goes, every
   * other account stays.
   */
  function DeleteOn(db: Db, signedIn: bool, account: Account, deleteOk: bool): (r: Db)
    requires account.documentId.Some?
    ensures !signedIn || !deleteOk ==> r == db
    ensures signedIn && deleteOk ==> r.accounts.Keys == db.accounts.Keys - {account.documentId.value}
    ensures forall k :: k in r.accounts ==> r.accounts[k] == db.accounts[k]
    ensures r.(accounts := db.accounts) == db
  {
    if !signedIn || !deleteOk then db else DeleteAccount(db, account.documentId.value)
  }

  class Screen {
    var accountList: seq<Account>

    constructor ()
      ensures accountList == []
    {
      accountList := [];
    }

    /** The snapshot listener: the list is rebuilt from the documents, ids filled in. */
    method OnSnapshot(docs: seq<Doc>)
      modifies this
      ensures accountList == WithIds(docs)
    {
      accountList := [];
      for i := 0 to |docs|
        invariant accountList == WithIds(docs[..i])
      {
        var a := docs[i].record.(documentId := Some(docs[i].id));
        accountList := accountList + [a];
      }
      assert docs[..|docs|] == docs;
    }

    /** The dialog's Save button followed by `updateAccount`. */
    method SaveEdit(store: LiveStore.UserStore, signedIn: bool, oldAccount: Account, f: EditForm, commitOk: bool)
      returns (r: Result<Edit, EditRejection>)
      modifies store
      ensures r == ValidateEdit(f)
      ensures r.Failure? ==> store.State() == old(store.State())
      ensures r.Success? ==> store.State() == UpdateOn(old(store.State()), signedIn, oldAccount, r.value, commitOk)
    {
      r := ValidateEdit(f);
      if r.Failure? || !signedIn {
        return;
      }
      if commitOk {
        store.CommitRename(oldAccount.name, r.value.newName, NewAccount(r.value.newName, r.value.newBalance));
      }
    }

    method Delete(store: LiveStore.UserStore, signedIn: bool, account: Account, deleteOk: bool)
      requires account.documentId.Some?
      modifies store
      ensures store.State() == DeleteOn(old(store.State()), signedIn, account, deleteOk)
    {
      if signedIn && deleteOk {
        store.DeleteAccount(account.documentId.value);
      }
    }
  }
}
