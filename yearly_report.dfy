/**
 * The yearly report: the current year's transactions split into twelve monthly
 * buckets, income on one line and everything else on the other.
 *
 * Where each month begins is calendar arithmetic, taken as given: a `Year` lists the
 * first second of January through December and the year's last second, 23:59:59 on
 * December 31.
 */
module YearlyReport {
  import opened Records
  import opened Totals
  import Seqs
  import Home

  const MONTHS: nat := 12

  datatype Year = Year(monthStarts: seq<int>, lastSecond: int)

  /** Twelve months, each starting after the one before, all before the year's last second. */
  predicate ValidYear(y: Year) {
    && |y.monthStarts| == MONTHS
    && (forall i :: 0 <= i < MONTHS - 1 ==> y.monthStarts[i] < y.monthStarts[i + 1])
    && y.monthStarts[MONTHS - 1] <= y.lastSecond
  }

  /** The query's range: January 1 00:00:00 to December 31 23:59:59, both inclusive. */
  function YearWindow(y: Year): (w: Home.Window)
    requires ValidYear(y)
    ensures forall t :: Home.InWindow(w, t) <==> y.monthStarts[0] <= t <= y.lastSecond
  {
    Home.Window(y.monthStarts[0], y.lastSecond)
  }

  /** The transactions the query returns: the stored ones dated inside the year, in stored order. */
  function InYear(stored: seq<Transaction>, y: Year): (r: seq<Transaction>)
    requires ValidYear(y)
    ensures forall t :: t in r <==> t in stored && y.monthStarts[0] <= t.date <= y.lastSecond
    ensures Seqs.IsSubsequence(r, stored)
  {
    Seqs.FilterIsSubsequence(stored, (t: Transaction) => Home.InWindow(YearWindow(y), t.date));
    Seqs.Filter(stored, (t: Transaction) => Home.InWindow(YearWindow(y), t.date))
  }

  /** The month index the calendar gives a date: the last month starting at or before it (0 when none does). */
  function MonthOf(starts: seq<int>, date: int): (m: nat)
    ensures |starts| > 0 ==> m < |starts|
  {
    if |starts| <= 1 then 0
    else if starts[|starts| - 1] <= date then |starts| - 1
    else MonthOf(starts[..|starts| - 1], date)
  }

  predicate Increasing(starts: seq<int>) {
    forall i, j :: 0 <= i < j < |starts| ==> starts[i] < starts[j]
  }

  /** A date from the first month on falls into exactly the month whose range holds it. */
  lemma {:induction false} MonthOfIsCalendarMonth(starts: seq<int>, date: int)
    requires Increasing(starts) && |starts| > 0 && starts[0] <= date
    ensures var m := MonthOf(starts, date);
      starts[m] <= date && (m + 1 < |starts| ==> date < starts[m + 1])
  {
    if |starts| > 1 && starts[|starts| - 1] > date {
      var front := starts[..|starts| - 1];
      MonthOfIsCalendarMonth(front, date);
      var m := MonthOf(front, date);
      if m + 1 < |front| {
        assert starts[m + 1] == front[m + 1];
      } else {
        assert m + 1 == |starts| - 1;
      }
    }
  }

  lemma ValidYearIncreasing(y: Year)
    requires ValidYear(y)
    ensures Increasing(y.monthStarts)
  {
    var s := y.monthStarts;
    forall i, j | 0 <= i < j < |s|
      ensures s[i] < s[j]
    {
      var k := i;
      while k < j
        invariant i <= k <= j
        invariant s[i] <= s[k]
        invariant k > i ==> s[i] < s[k]
      {
        k := k + 1;
      }
    }
  }

  /** Month `m`'s income: the amounts of the Income transactions dated in that month. */
  function MonthIncome(s: seq<Transaction>, starts: seq<int>, m: int): int {
    if s == [] then 0
    else
      var t := s[|s| - 1];
      MonthIncome(s[..|s| - 1], starts, m) + (if IsIncome(t) && MonthOf(starts, t.date) == m then t.amount else 0)
  }

  /** Month `m`'s expenses: the amounts of all other transactions dated in that month. */
  function MonthExpense(s: seq<Transaction>, starts: seq<int>, m: int): int {
    if s == [] then 0
    else
      var t := s[|s| - 1];
      MonthExpense(s[..|s| - 1], starts, m) + (if !IsIncome(t) && MonthOf(starts, t.date) == m then t.amount else 0)
  }

  /** A chart line: the twelve buckets in month order. */
  function IncomeLine(s: seq<Transaction>, starts: seq<int>): (r: seq<int>)
    ensures |r| == MONTHS
  {
    seq(MONTHS, m => MonthIncome(s, starts, m))
  }

  function ExpenseLine(s: seq<Transaction>, starts: seq<int>): (r: seq<int>)
    ensures |r| == MONTHS
  {
    seq(MONTHS, m => MonthExpense(s, starts, m))
  }

  function Sum(xs: seq<int>): int {
    if xs == [] then 0 else Sum(xs[..|xs| - 1]) + xs[|xs| - 1]
  }

  lemma {:induction false} SumOfZeros(n: nat)
    ensures Sum(seq(n, m => 0)) == 0
  {
    if n > 0 {
      assert seq(n, m => 0)[..n - 1] == seq(n - 1, m => 0);
      SumOfZeros(n - 1);
    }
  }

  /** Raising one bucket raises the line's sum by the same amount. */
  lemma {:induction false} SumRaiseOne(xs: seq<int>, k: nat, d: int)
    requires k < |xs|
    ensures Sum(xs[k := xs[k] + d]) == Sum(xs) + d
  {
    var ys := xs[k := xs[k] + d];
    if k == |xs| - 1 {
      assert ys[..|ys| - 1] == xs[..|xs| - 1];
    } else {
      assert ys[..|ys| - 1] == xs[..|xs| - 1][k := xs[k] + d];
      SumRaiseOne(xs[..|xs| - 1], k, d);
    }
  }

  /** Every transaction lands in one bucket: the income line adds up to the Income total. */
  lemma {:induction false} IncomeLineSumsToIncome(s: seq<Transaction>, starts: seq<int>)
    requires |starts| == MONTHS
    ensures Sum(IncomeLine(s, starts)) == IncomeTotal(s)
  {
    if s == [] {
      assert IncomeLine(s, starts) == seq(MONTHS, m => 0);
      SumOfZeros(MONTHS);
    } else {
      var front := s[..|s| - 1];
      var t := s[|s| - 1];
      IncomeLineSumsToIncome(front, starts);
      var k := MonthOf(starts, t.date);
      if IsIncome(t) {
        assert IncomeLine(s, starts) == IncomeLine(front, starts)[k := IncomeLine(front, starts)[k] + t.amount];
        SumRaiseOne(IncomeLine(front, starts), k, t.amount);
      } else {
        assert IncomeLine(s, starts) == IncomeLine(front, starts);
      }
    }
  }

  /** And the expense line adds up to the total of every non-Income transaction. */
  lemma {:induction false} ExpenseLineSumsToNonIncome(s: seq<Transaction>, starts: seq<int>)
    requires |starts| == MONTHS
    ensures Sum(ExpenseLine(s, starts)) == NonIncomeTotal(s)
  {
    if s == [] {
      assert ExpenseLine(s, starts) == seq(MONTHS, m => 0);
      SumOfZeros(MONTHS);
    } else {
      var front := s[..|s| - 1];
      var t := s[|s| - 1];
      ExpenseLineSumsToNonIncome(front, starts);
      var k := MonthOf(starts, t.date);
      if !IsIncome(t) {
        assert ExpenseLine(s, starts) == ExpenseLine(front, starts)[k := ExpenseLine(front, starts)[k] + t.amount];
        SumRaiseOne(ExpenseLine(front, starts), k, t.amount);
      } else {
        assert ExpenseLine(s, starts) == ExpenseLine(front, starts);
      }
    }
  }

  /** The two lines together account for every amount exactly once. */
  lemma LinesSplitEveryAmount(s: seq<Transaction>, starts: seq<int>)
    requires |starts| == MONTHS
    ensures Sum(IncomeLine(s, starts)) + Sum(ExpenseLine(s, starts)) == AmountTotal(s)
  {
    IncomeLineSumsToIncome(s, starts);
    ExpenseLineSumsToNonIncome(s, starts);
    TotalsSplitEveryAmount(s);
  }

  /** A month no transaction falls into stays at 0 on both lines. */
  lemma {:induction false} EmptyMonthStaysZero(s: seq<Transaction>, starts: seq<int>, m: int)
    requires forall i :: 0 <= i < |s| ==> MonthOf(starts, s[i].date) != m
    ensures MonthIncome(s, starts, m) == 0 && MonthExpense(s, starts, m) == 0
  {
    if s != [] {
      EmptyMonthStaysZero(s[..|s| - 1], starts, m);
    }
  }

  /** With no negative amounts, one month's bucket never exceeds the year's total of its kind. */
  lemma {:induction false} MonthWithinTotals(s: seq<Transaction>, starts: seq<int>, m: int)
    requires forall i :: 0 <= i < |s| ==> s[i].amount >= 0
    ensures 0 <= MonthIncome(s, starts, m) <= IncomeTotal(s)
    ensures 0 <= MonthExpense(s, starts, m) <= NonIncomeTotal(s)
  {
    if s != [] {
      MonthWithinTotals(s[..|s| - 1], starts, m);
    }
  }

  /** What the screen ends with. */
  datatype Report = NotSignedIn | QueryFailed | NoData | Chart(income: seq<int>, expenses: seq<int>)

  /** The expected report, as a function of the signed-in user, the query's success and the stored transactions. */
  function ReportOf(signedIn: bool, queryOk: bool, y: Year, stored: seq<Transaction>): (r: Report)
    requires ValidYear(y)
    ensures r.Chart? <==> signedIn && queryOk && InYear(stored, y) != []
    ensures r.Chart? ==> |r.income| == MONTHS && |r.expenses| == MONTHS
  {
    if !signedIn then NotSignedIn
    else if !queryOk then QueryFailed
    else if InYear(stored, y) == [] then NoData
    else Chart(IncomeLine(InYear(stored, y), y.monthStarts), ExpenseLine(InYear(stored, y), y.monthStarts))
  }

  /**
   * The bucketing loop: two fresh twelve-entry arrays, and each transaction's amount
   * added to its month's entry in the one its type selects.
   */
  method Bucket(docs: seq<Transaction>, starts: seq<int>) returns (income: seq<int>, expenses: seq<int>)
    requires |starts| == MONTHS
    ensures income == IncomeLine(docs, starts) && expenses == ExpenseLine(docs, starts)
  {
    var monthlyIncome := new int[MONTHS];
    var monthlyExpenses := new int[MONTHS];
    forall m | 0 <= m < MONTHS {
      monthlyIncome[m] := 0;
    }
    forall m | 0 <= m < MONTHS {
      monthlyExpenses[m] := 0;
    }
    for i := 0 to |docs|
      invariant forall m :: 0 <= m < MONTHS ==> monthlyIncome[m] == MonthIncome(docs[..i], starts, m)
      invariant forall m :: 0 <= m < MONTHS ==> monthlyExpenses[m] == MonthExpense(docs[..i], starts, m)
    {
      var t := docs[i];
      var month := MonthOf(starts, t.date);
      assert docs[..i + 1][..i] == docs[..i];
      if t.kind == INCOME {
        monthlyIncome[month] := monthlyIncome[month] + t.amount;
      } else {
        monthlyExpenses[month] := monthlyExpenses[month] + t.amount;
      }
    }
    assert docs[..|docs|] == docs;
    income := monthlyIncome[..];
    expenses := monthlyExpenses[..];
  }

  /** `fetchYearlyData`: refuses without a user, stops on a failed or empty query, else buckets. */
  method FetchYearlyData(signedIn: bool, queryOk: bool, y: Year, stored: seq<Transaction>) returns (r: Report)
    requires ValidYear(y)
    ensures r == ReportOf(signedIn, queryOk, y, stored)
  {
    if !signedIn {
      return NotSignedIn;
    }
    if !queryOk {
      return QueryFailed;
    }
    var docs := InYear(stored, y);
    if docs == [] {
      return NoData;
    }
    var income, expenses := Bucket(docs, y.monthStarts);
    r := Chart(income, expenses);
  }

  /**
   * In a chart, a transaction of the year counts in the month whose range holds its
   * date, and the two lines add up to the year's Income and non-Income totals.
   */
  lemma ChartMatchesYearTotals(signedIn: bool, queryOk: bool, y: Year, stored: seq<Transaction>)
    requires ValidYear(y)
    requires ReportOf(signedIn, queryOk, y, stored).Chart?
    ensures var r := ReportOf(signedIn, queryOk, y, stored);
      Sum(r.income) == IncomeTotal(InYear(stored, y)) && Sum(r.expenses) == NonIncomeTotal(InYear(stored, y))
  {
    IncomeLineSumsToIncome(InYear(stored, y), y.monthStarts);
    ExpenseLineSumsToNonIncome(InYear(stored, y), y.monthStarts);
  }

  /** Each transaction of the year is bucketed into the calendar month that contains its date. */
  lemma YearTransactionMonth(y: Year, t: Transaction)
    requires ValidYear(y) && y.monthStarts[0] <= t.date <= y.lastSecond
    ensures var m := MonthOf(y.monthStarts, t.date);
      m < MONTHS && y.monthStarts[m] <= t.date && (m < MONTHS - 1 ==> t.date < y.monthStarts[m + 1])
  {
    ValidYearIncreasing(y);
    MonthOfIsCalendarMonth(y.monthStarts, t.date);
  }
}
