/**
 * The "add account" sheet: an account stored under its name and, when the opening
 * balance is positive, an Income transaction that records it.
 */
module AddAccount {
  import opened Wrappers
  import opened Text
  import opened Records
  import opened Store
  import LiveStore

  const INITIAL_BALANCE_CATEGORY: string := "Initial Balance"
  const INITIAL_BALANCE_TITLE_PREFIX: string := "Initial Balance for "

  /** `balance` is `None` when the trimmed balance text is empty, else the number it parses to. */
  datatype Form = Form(name: string, balance: Option<int>)

  datatype Rejection = NotSignedIn | EmptyName

  /** An accepted form: the trimmed name and the opening balance, 0 when none was typed. */
  datatype Entry = Entry(name: string, balance: int)

  function Validate(signedIn: bool, f: Form): (r: Result<Entry, Rejection>)
    ensures r.Success? <==> signedIn && !IsBlank(f.name)
    ensures r == Failure(NotSignedIn) <==> !signedIn
    ensures r == Failure(EmptyName) <==> signedIn && IsBlank(f.name)
    ensures r.Success? ==> r.value.name == Trim(f.name) && r.value.name != []
    ensures r.Success? && f.balance.None? ==> r.value.balance == 0
    ensures r.Success? && f.balance.Some? ==> r.value.balance == f.balance.value
  {
    if !signedIn then Failure(NotSignedIn)
    else if Trim(f.name) == [] then Failure(EmptyName)
    else Success(Entry(Trim(f.name), f.balance.GetOr(0)))
  }

  /** The transaction that records a positive opening balance, dated `now`. */
  function InitialBalanceTransaction(e: Entry, now: int): (t: Transaction)
    ensures t.title == INITIAL_BALANCE_TITLE_PREFIX + e.name && t.category == INITIAL_BALANCE_CATEGORY
    ensures t.amount == e.balance && t.kind == INCOME && t.account == Some(e.name) && t.date == now
  {
    NewAccountTransaction(INITIAL_BALANCE_TITLE_PREFIX + e.name, INITIAL_BALANCE_CATEGORY, e.balance, INCOME, e.name, now)
  }

  /**
   * The store after `saveAccount`. `accountOk` says whether the account `set` succeeded;
   * the transaction is added only in its success callback, and `txOk` says whether that
   * `add` succeeded.
   */
  function SaveOn(db: Db, signedIn: bool, f: Form, now: int, accountOk: bool, txOk: bool): (r: Db)
    requires WellFormed(db)
    ensures WellFormed(r)
    ensures Validate(signedIn, f).Failure? || !accountOk ==> r == db
    ensures Validate(signedIn, f).Success? && accountOk ==>
      var e := Validate(signedIn, f).value;
      && r.accounts.Keys == db.accounts.Keys + {e.name}
      && r.accounts[e.name] == NewAccount(e.name, e.balance)
      && (forall k :: k in db.accounts && k != e.name ==> r.accounts[k] == db.accounts[k])
      && (if e.balance > 0 && txOk
          then r.transactions == db.transactions[db.nextId := InitialBalanceTransaction(e, now)]
          else r.transactions == db.transactions)
      && r.nextId == db.nextId + (if e.balance > 0 && txOk then 1 else 0)
    ensures r.budgets == db.budgets && r.goals == db.goals && r.categories == db.categories && r.profile == db.profile
  {
    match Validate(signedIn, f)
    case Failure(_) => db
    case Success(e) =>
      if !accountOk then db
      else
        var withAccount := SetAccount(db, e.name, NewAccount(e.name, e.balance));
        if e.balance > 0 && txOk then AddTransaction(withAccount, InitialBalanceTransaction(e, now))
        else withAccount
  }

  /** A zero or negative opening balance stores the account and no transaction. */
  lemma NoTransactionWithoutPositiveBalance(db: Db, signedIn: bool, f: Form, now: int, txOk: bool)
    requires WellFormed(db)
    requires Validate(signedIn, f).Success? && Validate(signedIn, f).value.balance <= 0
    ensures SaveOn(db, signedIn, f, now, true, txOk).transactions == db.transactions
    ensures Trim(f.name) in SaveOn(db, signedIn, f, now, true, txOk).accounts
  {
  }

  /** `saveAccount` as the sheet runs it. */
  method Save(store: LiveStore.UserStore, signedIn: bool, f: Form, now: int, accountOk: bool, txOk: bool)
    returns (r: Result<Entry, Rejection>)
    requires WellFormed(store.State())
    modifies store
    ensures r == Validate(signedIn, f)
    ensures store.State() == SaveOn(old(store.State()), signedIn, f, now, accountOk, txOk)
  {
    r := Validate(signedIn, f);
    if r.Failure? || !accountOk {
      return;
    }
    var e := r.value;
    store.SetAccount(e.name, NewAccount(e.name, e.balance));
    if e.balance > 0 && txOk {
      var _ := store.AddTransaction(InitialBalanceTransaction(e, now));
    }
  }
}
