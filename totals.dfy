/**
 * Income and expense totals over a list of transactions, as the dashboard and the
 * yearly report count them: a transaction is income when its type is exactly
 * "Income", and every other transaction counts as an expense.
 */
module Totals {
  import opened Records

  predicate IsIncome(t: Transaction) {
    t.kind == INCOME
  }

  /** The amounts of the Income transactions, added front to back. */
  function IncomeTotal(s: seq<Transaction>): int {
    if s == [] then 0
    else IncomeTotal(s[..|s| - 1]) + (if IsIncome(s[|s| - 1]) then s[|s| - 1].amount else 0)
  }

  /** The amounts of all the other transactions, whatever their type. */
  function NonIncomeTotal(s: seq<Transaction>): int {
    if s == [] then 0
    else NonIncomeTotal(s[..|s| - 1]) + (if IsIncome(s[|s| - 1]) then 0 else s[|s| - 1].amount)
  }

  /** The amounts of all transactions. */
  function AmountTotal(s: seq<Transaction>): int {
    if s == [] then 0 else AmountTotal(s[..|s| - 1]) + s[|s| - 1].amount
  }

  /** Each transaction is counted on exactly one side. */
  lemma {:induction false} TotalsSplitEveryAmount(s: seq<Transaction>)
    ensures IncomeTotal(s) + NonIncomeTotal(s) == AmountTotal(s)
  {
    if s != [] {
      TotalsSplitEveryAmount(s[..|s| - 1]);
    }
  }

  lemma {:induction false} IncomeTotalAppend(a: seq<Transaction>, b: seq<Transaction>)
    ensures IncomeTotal(a + b) == IncomeTotal(a) + IncomeTotal(b)
    decreases |b|
  {
    if b == [] {
      assert a + b == a;
    } else {
      assert (a + b)[..|a + b| - 1] == a + b[..|b| - 1];
      IncomeTotalAppend(a, b[..|b| - 1]);
    }
  }

  lemma {:induction false} NonIncomeTotalAppend(a: seq<Transaction>, b: seq<Transaction>)
    ensures NonIncomeTotal(a + b) == NonIncomeTotal(a) + NonIncomeTotal(b)
    decreases |b|
  {
    if b == [] {
      assert a + b == a;
    } else {
      assert (a + b)[..|a + b| - 1] == a + b[..|b| - 1];
      NonIncomeTotalAppend(a, b[..|b| - 1]);
    }
  }

  /** With no negative amounts, each total lies between 0 and the total of all amounts. */
  lemma {:induction false} TotalsBounded(s: seq<Transaction>)
    requires forall i :: 0 <= i < |s| ==> s[i].amount >= 0
    ensures 0 <= IncomeTotal(s) <= AmountTotal(s)
    ensures 0 <= NonIncomeTotal(s) <= AmountTotal(s)
  {
    if s != [] {
      TotalsBounded(s[..|s| - 1]);
    }
  }

  /** A list without Income transactions has no income. */
  lemma {:induction false} NoIncomeTotal(s: seq<Transaction>)
    requires forall i :: 0 <= i < |s| ==> !IsIncome(s[i])
    ensures IncomeTotal(s) == 0 && NonIncomeTotal(s) == AmountTotal(s)
  {
    if s != [] {
      NoIncomeTotal(s[..|s| - 1]);
    }
  }

  /** Totals over a list of Income transactions only. */
  lemma {:induction false} AllIncomeTotals(s: seq<Transaction>)
    requires forall i :: 0 <= i < |s| ==> IsIncome(s[i])
    ensures NonIncomeTotal(s) == 0 && IncomeTotal(s) == AmountTotal(s)
  {
    if s != [] {
      AllIncomeTotals(s[..|s| - 1]);
    }
  }
}
