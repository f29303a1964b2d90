/**
 * The records FinTrack keeps in its store: transactions, budgets, accounts, saving
 * goals, and the read-only savings suggestions.
 *
 * Amounts are whole cents (one hundredth of a rupee); dates are timestamps in whole
 * seconds. The setters of the records are datatype updates `r.(field := v)`, which by
 * construction change that one field and nothing else.
 */
module Records {
  import opened Wrappers

  /** The two values the screens give to a transaction's unvalidated `type` string. */
  const INCOME: string := "Income"
  const EXPENSE: string := "Expense"

  lemma KindsDiffer()
    ensures INCOME != EXPENSE
  {
    assert INCOME[0] != EXPENSE[0];
  }

  /** Store-assigned identifier of a transaction document. */
  type Id = nat

  /**
   * A transaction. `documentId` is not part of the stored record: it is `None` in the
   * store and filled in when a list is read back. `account` is the extra field written
   * by the two screens that call a six-argument constructor; every other write leaves
   * it out.
   */
  datatype Transaction = Transaction(
    documentId: Option<Id>,
    title: string,
    category: string,
    amount: int,
    kind: string,
    date: int,
    account: Option<string>)

  /** The five-argument constructor: the document id is left unset and no account is recorded. */
  function NewTransaction(title: string, category: string, amount: int, kind: string, date: int): (t: Transaction)
    ensures t.documentId == None && t.account == None
    ensures t.title == title && t.category == category && t.amount == amount
    ensures t.kind == kind && t.date == date
  {
    Transaction(None, title, category, amount, kind, date, None)
  }

  /** The six-argument form called when an account is opened or a goal receives money. */
  function NewAccountTransaction(title: string, category: string, amount: int, kind: string, account: string, date: int): (t: Transaction)
    ensures t.documentId == None && t.account == Some(account)
    ensures t.title == title && t.category == category && t.amount == amount
    ensures t.kind == kind && t.date == date
  {
    Transaction(None, title, category, amount, kind, date, Some(account))
  }

  /** Newest first, as the queries ordered by date, descending, return them. */
  ghost predicate DateDescending(s: seq<Transaction>) {
    forall i, j :: 0 <= i < j < |s| ==> s[i].date >= s[j].date
  }

  /** A spending limit for one category; neither amount is validated. */
  datatype Budget = Budget(category: string, limitAmount: int, spentAmount: int)

  /** The constructor Firestore uses before filling a budget in field by field. */
  function EmptyBudget(): (b: Budget)
    ensures b.limitAmount == 0 && b.spentAmount == 0
  {
    Budget("", 0, 0)
  }

  /** A money account with a signed, unconstrained balance. Its `documentId` is not stored. */
  datatype Account = Account(documentId: Option<string>, name: string, balance: int)

  /** The two-argument constructor: name and balance, document id unset. */
  function NewAccount(name: string, balance: int): (a: Account)
    ensures a.documentId == None && a.name == name && a.balance == balance
  {
    Account(None, name, balance)
  }

  /** A savings goal; nothing keeps `savedAmount` at or below `targetAmount`. */
  datatype SavingGoal = SavingGoal(goalName: string, targetAmount: int, savedAmount: int)

  function EmptyGoal(): (g: SavingGoal)
    ensures g.targetAmount == 0 && g.savedAmount == 0
  {
    SavingGoal("", 0, 0)
  }

  /** An immutable suggestion of something to save for. */
  datatype Suggestion = Suggestion(title: string, description: string, amountRequired: int)

  /** A saved goal can run past its target: the record keeps no bound between the two amounts. */
  lemma GoalMayExceedTarget()
    ensures exists g: SavingGoal :: g.savedAmount > g.targetAmount
  {
    var g := SavingGoal("Laptop", 100, 150);
    assert g.savedAmount > g.targetAmount;
  }
}
