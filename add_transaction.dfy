/**
 * The "add transaction" screen: an Income/Expense toggle, a validation cascade over
 * the trimmed form, one `add` to the transactions collection and, for an expense,
 * an increment of the budget named after the category.
 */
module AddTransaction {
  import opened Wrappers
  import opened Text
  import opened Records
  import opened Store
  import LiveStore

  datatype TypeButton = IncomeButton | ExpenseButton

  /**
   * The raw form. `title` and `category` are the text as typed; `amount` is `None`
   * when the trimmed amount text is empty and otherwise the number it parses to.
   */
  datatype Form = Form(title: string, amount: Option<int>, category: string)

  /** Why a save was refused, in the order the checks run. */
  datatype Rejection = NotSignedIn | EmptyTitle | NonPositiveAmount | EmptyCategory

  datatype Outcome = Rejected(reason: Rejection) | WriteFailed | Saved(id: Id)

  /** What selecting a toggle button does to the current type; an unchecked event changes nothing. */
  function Toggle(current: string, button: TypeButton, isChecked: bool): (r: string)
    ensures !isChecked ==> r == current
    ensures isChecked ==> (r == INCOME <==> button == IncomeButton) && (r == EXPENSE <==> button == ExpenseButton)
  {
    KindsDiffer();
    if !isChecked then current
    else match button
      case IncomeButton => INCOME
      case ExpenseButton => EXPENSE
  }

  /**
   * The checks, first failure wins: no user, blank title, missing or non-positive
   * amount, blank category. A form that passes becomes the transaction to store.
   */
  function Validate(signedIn: bool, f: Form, kind: string, date: int): (r: Result<Transaction, Rejection>)
    ensures r.Success? <==> signedIn && !IsBlank(f.title) && f.amount.Some? && f.amount.value > 0 && !IsBlank(f.category)
    ensures r == Failure(NotSignedIn) <==> !signedIn
    ensures r == Failure(EmptyTitle) <==> signedIn && IsBlank(f.title)
    ensures r == Failure(NonPositiveAmount) <==> signedIn && !IsBlank(f.title) && (f.amount.None? || f.amount.value <= 0)
    ensures r == Failure(EmptyCategory) <==> signedIn && !IsBlank(f.title) && f.amount.Some? && f.amount.value > 0 && IsBlank(f.category)
    ensures r.Success? ==> r.value == NewTransaction(Trim(f.title), Trim(f.category), f.amount.value, kind, date)
  {
    if !signedIn then Failure(NotSignedIn)
    else if Trim(f.title) == [] then Failure(EmptyTitle)
    else if f.amount.None? || f.amount.value <= 0 then Failure(NonPositiveAmount)
    else if Trim(f.category) == [] then Failure(EmptyCategory)
    else Success(NewTransaction(Trim(f.title), Trim(f.category), f.amount.value, kind, date))
  }

  /**
   * The writes of a save that passed the checks and whose `add` succeeded: the record
   * under a fresh id, and for an Expense the increment of the budget of its category.
   */
  function SaveValidated(db: Db, t: Transaction): (r: Db)
    requires WellFormed(db) && t.documentId == None
    ensures WellFormed(r)
    ensures r.transactions == db.transactions[db.nextId := t] && |r.transactions| == |db.transactions| + 1
    ensures r.nextId == db.nextId + 1
    ensures r.accounts == db.accounts && r.goals == db.goals && r.categories == db.categories && r.profile == db.profile
    ensures r.budgets.Keys == db.budgets.Keys
    ensures t.kind != EXPENSE ==> r.budgets == db.budgets
    ensures forall c :: c in db.budgets && c != t.category ==> r.budgets[c] == db.budgets[c]
    ensures t.kind == EXPENSE && t.category in db.budgets ==>
      var b := db.budgets[t.category];
      r.budgets[t.category] == b.(spentAmount := b.spentAmount + t.amount)
  {
    var added := AddTransaction(db, t);
    if t.kind == EXPENSE then IncrementSpent(added, t.category, t.amount) else added
  }

  /**
   * The store after a save. `writeOk` says whether the `add` succeeded; the budget is
   * incremented only in its success callback and only for the type "Expense".
   */
  function SaveOn(db: Db, signedIn: bool, f: Form, kind: string, date: int, writeOk: bool): (r: Db)
    requires WellFormed(db)
    ensures WellFormed(r)
    ensures r.budgets.Keys == db.budgets.Keys
    ensures Validate(signedIn, f, kind, date).Failure? || !writeOk ==> r == db
    ensures Validate(signedIn, f, kind, date).Success? && writeOk ==>
      var t := Validate(signedIn, f, kind, date).value;
      && r.transactions == db.transactions[db.nextId := t]
      && |r.transactions| == |db.transactions| + 1 && r.nextId == db.nextId + 1
      && (kind == EXPENSE && Trim(f.category) in db.budgets ==>
            var b := db.budgets[Trim(f.category)];
            r.budgets[Trim(f.category)] == b.(spentAmount := b.spentAmount + t.amount))
    ensures r.accounts == db.accounts && r.goals == db.goals && r.categories == db.categories && r.profile == db.profile
    ensures kind != EXPENSE ==> r.budgets == db.budgets
    ensures forall c :: c in db.budgets && c != Trim(f.category) ==> r.budgets[c] == db.budgets[c]
  {
    match Validate(signedIn, f, kind, date)
    case Failure(_) => db
    case Success(t) => if writeOk then SaveValidated(db, t) else db
  }

  /** No save moves a budget's limit: only the spent amount is incremented. */
  lemma SaveKeepsLimits(db: Db, signedIn: bool, f: Form, kind: string, date: int, writeOk: bool, c: string)
    requires WellFormed(db) && c in db.budgets
    ensures SaveOn(db, signedIn, f, kind, date, writeOk).budgets[c].limitAmount == db.budgets[c].limitAmount
  {
  }

  /**
   * A save raises each budget's spent amount by exactly what it adds to that category's
   * stored expenses, so the gap between the two is the same before and after.
   */
  lemma SaveKeepsBudgetGap(db: Db, signedIn: bool, f: Form, kind: string, date: int, writeOk: bool, c: string)
    requires WellFormed(db) && c in db.budgets
    ensures var r := SaveOn(db, signedIn, f, kind, date, writeOk);
      r.budgets[c].spentAmount - ExpenseTotal(r, c) == db.budgets[c].spentAmount - ExpenseTotal(db, c)
  {
    var v := Validate(signedIn, f, kind, date);
    if v.Success? && writeOk {
      ExpenseTotalAfterAdd(db, v.value, c);
    }
  }

  /** An expense in a category without a budget is stored and leaves every budget as it was. */
  lemma UnbudgetedExpenseTouchesNoBudget(db: Db, signedIn: bool, f: Form, date: int)
    requires WellFormed(db)
    requires Validate(signedIn, f, EXPENSE, date).Success? && Trim(f.category) !in db.budgets
    ensures SaveOn(db, signedIn, f, EXPENSE, date, true).budgets == db.budgets
    ensures db.nextId in SaveOn(db, signedIn, f, EXPENSE, date, true).transactions
  {
  }

  /** The screen's only state: the selected type, "Expense" until the toggle says otherwise. */
  class Screen {
    var transactionType: string

    constructor ()
      ensures transactionType == EXPENSE
    {
      transactionType := EXPENSE;
    }

    method OnButtonChecked(button: TypeButton, isChecked: bool)
      modifies this
      ensures transactionType == Toggle(old(transactionType), button, isChecked)
    {
      if isChecked {
        if button == IncomeButton {
          transactionType := INCOME;
        } else {
          transactionType := EXPENSE;
        }
      }
    }

    /** `saveTransaction`, with the store calls made in the order the screen makes them. */
    method Save(store: LiveStore.UserStore, signedIn: bool, f: Form, date: int, writeOk: bool) returns (outcome: Outcome)
      requires WellFormed(store.State())
      modifies store
      ensures store.State() == SaveOn(old(store.State()), signedIn, f, transactionType, date, writeOk)
      ensures outcome == match Validate(signedIn, f, transactionType, date)
        case Failure(e) => Rejected(e)
        case Success(_) => if writeOk then Saved(old(store.nextId)) else WriteFailed
    {
      var v := Validate(signedIn, f, transactionType, date);
      if v.Failure? {
        return Rejected(v.error);
      }
      if !writeOk {
        return WriteFailed;
      }
      var t := v.value;
      var id := store.AddTransaction(t);
      if transactionType == EXPENSE {
        store.IncrementSpent(t.category, t.amount);
      }
      outcome := Saved(id);
    }
  }
}
