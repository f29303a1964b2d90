/**
 * What the screens do to the books together: the budget bookkeeping across saving and
 * deleting a transaction, a budget saved over an existing one, an account opened with
 * a balance as the dashboard then counts it, and an edit that saves a copy.
 */
module Ledger {
  import opened Wrappers
  import opened Records
  import opened Text
  import opened Totals
  import opened Store
  import AddTransaction
  import TransactionsList
  import AddBudget
  import AddAccount
  import Home

  /** The row the list shows for a saved transaction: the stored record with its id filled in. */
  function SavedRow(db: Db, signedIn: bool, f: AddTransaction.Form, kind: string, date: int): (t: Transaction)
    requires AddTransaction.Validate(signedIn, f, kind, date).Success?
    ensures t.documentId == Some(db.nextId)
    ensures t.(documentId := None) == AddTransaction.Validate(signedIn, f, kind, date).value
  {
    AddTransaction.Validate(signedIn, f, kind, date).value.(documentId := Some(db.nextId))
  }

  /**
   * Saving a transaction and then deleting its row gives back the store exactly as it
   * was, budgets included, except that the id counter has moved on.
   */
  lemma SaveThenDeleteRestores(db: Db, f: AddTransaction.Form, kind: string, date: int)
    requires WellFormed(db)
    requires AddTransaction.Validate(true, f, kind, date).Success?
    ensures var saved := AddTransaction.SaveOn(db, true, f, kind, date, true);
      TransactionsList.DeleteOn(saved, true, SavedRow(db, true, f, kind, date), true) == db.(nextId := db.nextId + 1)
  {
    var v := AddTransaction.Validate(true, f, kind, date).value;
    var t := SavedRow(db, true, f, kind, date);
    SaveOnUnfolds(db, f, kind, date);
    DeleteSavedRestores(db, v, AddTransaction.SaveOn(db, true, f, kind, date, true), t);
  }

  /** Deleting the row of the transaction `v` just saved into `db`, with the store primitives. */
  lemma DeleteSavedRestores(db: Db, v: Transaction, saved: Db, t: Transaction)
    requires WellFormed(db)
    requires saved == if v.kind == EXPENSE then IncrementSpent(Store.AddTransaction(db, v), v.category, v.amount) else Store.AddTransaction(db, v)
    requires t.documentId == Some(db.nextId) && t.kind == v.kind && t.category == v.category && t.amount == v.amount
    ensures WellFormed(saved)
    ensures TransactionsList.DeleteOn(saved, true, t, true) == db.(nextId := db.nextId + 1)
  {
    DeleteOnUnfolds(saved, t, db.nextId, v.category, v.amount);
    if v.kind == EXPENSE {
      AddSpendDeleteRefund(db, v);
    } else {
      AddThenDeleteTransaction(db, v);
    }
  }

  /** A successful save, in terms of the store primitives. */
  lemma SaveOnUnfolds(db: Db, f: AddTransaction.Form, kind: string, date: int)
    requires WellFormed(db)
    requires AddTransaction.Validate(true, f, kind, date).Success?
    ensures var v := AddTransaction.Validate(true, f, kind, date).value;
      AddTransaction.SaveOn(db, true, f, kind, date, true)
      == if kind == EXPENSE then IncrementSpent(Store.AddTransaction(db, v), v.category, v.amount) else Store.AddTransaction(db, v)
  {
  }

  /** A successful delete of a row, in terms of the store primitives. */
  lemma DeleteOnUnfolds(db: Db, t: Transaction, id: Id, c: string, a: int)
    requires WellFormed(db) && t.documentId == Some(id) && t.category == c && t.amount == a
    ensures TransactionsList.DeleteOn(db, true, t, true)
      == if t.kind == EXPENSE then IncrementSpent(DeleteTransaction(db, id), c, -a) else DeleteTransaction(db, id)
  {
  }

  /** Add an Expense, raise its budget, delete it, lower the budget: all undone but the counter. */
  lemma AddSpendDeleteRefund(db: Db, v: Transaction)
    requires WellFormed(db)
    ensures var id := db.nextId;
      IncrementSpent(DeleteTransaction(IncrementSpent(Store.AddTransaction(db, v), v.category, v.amount), id), v.category, -v.amount)
      == db.(nextId := db.nextId + 1)
  {
    var added := Store.AddTransaction(db, v);
    var id := db.nextId;
    assert DeleteTransaction(IncrementSpent(added, v.category, v.amount), id)
        == IncrementSpent(DeleteTransaction(added, id), v.category, v.amount);
    AddThenDeleteTransaction(db, v);
    IncrementUndone(db.(nextId := db.nextId + 1), v.category, v.amount);
  }

  /** Deleting the transaction just added leaves the store as it was but for the counter. */
  lemma AddThenDeleteTransaction(db: Db, v: Transaction)
    requires WellFormed(db)
    ensures DeleteTransaction(Store.AddTransaction(db, v), db.nextId) == db.(nextId := db.nextId + 1)
  {
    assert db.nextId !in db.transactions;
    assert db.transactions[db.nextId := v.(documentId := None)] - {db.nextId} == db.transactions;
  }

  /** An increment followed by the opposite one restores the budgets. */
  lemma IncrementUndone(db: Db, c: string, a: int)
    ensures IncrementSpent(IncrementSpent(db, c, a), c, -a) == db
  {
    if c in db.budgets {
      var b := db.budgets[c];
      assert db.budgets[c := b.(spentAmount := b.spentAmount + a)][c := b] == db.budgets;
    }
  }

  /**
   * Saving a budget over an existing one sets its spent amount to 0 while the stored
   * expenses of its category stay: the budget forgets what was already spent.
   */
  lemma SavingBudgetForgetsSpending(db: Db, f: AddBudget.Form)
    requires AddBudget.Validate(true, f).Success?
    ensures var r := AddBudget.SaveOn(db, true, f, true);
      var c := Trim(f.category);
      r.budgets[c].spentAmount == 0 && ExpenseTotal(r, c) == ExpenseTotal(db, c)
  {
  }

  /**
   * An account opened with a positive balance, in the current month, raises the
   * dashboard total by twice that balance: once as the account's balance and once as
   * the month's Income.
   */
  lemma InitialBalanceCountsTwice(balances: seq<Option<int>>, month: seq<Transaction>, e: AddAccount.Entry, now: int)
    requires e.balance > 0
    ensures var t := AddAccount.InitialBalanceTransaction(e, now);
      var after := month + [t];
      Home.DisplayedTotal(Home.BalanceSum(balances + [Some(e.balance)]), IncomeTotal(after), NonIncomeTotal(after))
      == Home.DisplayedTotal(Home.BalanceSum(balances), IncomeTotal(month), NonIncomeTotal(month)) + 2 * e.balance
  {
    var t := AddAccount.InitialBalanceTransaction(e, now);
    Home.BalanceSumAppend(balances, [Some(e.balance)]);
    assert Home.BalanceSum([Some(e.balance)]) == e.balance by {
      assert [Some(e.balance)][..0] == [];
    }
    IncomeTotalAppend(month, [t]);
    NonIncomeTotalAppend(month, [t]);
    assert IncomeTotal([t]) == e.balance && NonIncomeTotal([t]) == 0 by {
      assert [t][..0] == [];
    }
  }

  /**
   * Editing a row opens the add screen, whose save adds a new transaction: the original
   * stays stored, and an edited Expense is counted in its budget a second time.
   */
  lemma EditSavesCopy(db: Db, id: Id, f: AddTransaction.Form, date: int)
    requires WellFormed(db) && id in db.transactions
    requires AddTransaction.Validate(true, f, EXPENSE, date).Success?
    requires Trim(f.category) in db.budgets
    ensures var r := AddTransaction.SaveOn(db, true, f, EXPENSE, date, true);
      var c := Trim(f.category);
      && id in r.transactions && r.transactions[id] == db.transactions[id]
      && |r.transactions| == |db.transactions| + 1
      && r.budgets[c].spentAmount == db.budgets[c].spentAmount + f.amount.value
  {
    assert db.nextId != id;
  }

  /**
   * Deleting the same row twice gives its Expense back to the budget twice, though the
   * record is removed only once.
   */
  lemma DoubleDeleteDecrementsTwice(db: Db, t: Transaction)
    requires WellFormed(db)
    requires t.documentId.Some? && t.documentId.value in db.transactions
    requires db.transactions[t.documentId.value] == t.(documentId := None)
    requires t.kind == EXPENSE && t.category in db.budgets
    ensures var once := TransactionsList.DeleteOn(db, true, t, true);
      var twice := TransactionsList.DeleteOn(once, true, t, true);
      && twice.transactions == db.transactions - {t.documentId.value}
      && ExpenseTotal(twice, t.category) == ExpenseTotal(db, t.category) - t.amount
      && twice.budgets[t.category].spentAmount == db.budgets[t.category].spentAmount - 2 * t.amount
  {
    var once := TransactionsList.DeleteOn(db, true, t, true);
    ExpenseTotalAfterDelete(db, t.documentId.value, t.category);
    assert SpentBy(db.transactions[t.documentId.value], t.category) == t.amount;
    TransactionsList.StaleDeleteDecrementsAgain(once, t);
  }
}
