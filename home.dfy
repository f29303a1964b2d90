/**
 * The dashboard: the sum of the account balances, this month's income and expense
 * with the expense split by category, the displayed total, and the five most recent
 * transactions.
 *
 * A day number `d` covers the timestamps `d * 86400` to `d * 86400 + 86399`. Which day
 * numbers begin and end the current month is calendar arithmetic, taken as given.
 */
module Home {
  import opened Wrappers
  import opened Records
  import opened Totals
  import Seqs

  const SECONDS_PER_DAY: int := 86400
  const RECENT_LIMIT: nat := 5

  /** A date range, inclusive at both ends, as `whereGreaterThanOrEqualTo`/`whereLessThanOrEqualTo` apply it. */
  datatype Window = Window(start: int, end: int)

  predicate InWindow(w: Window, t: int) {
    w.start <= t <= w.end
  }

  function TimeOfDay(t: int): (r: int)
    ensures 0 <= r < SECONDS_PER_DAY
  {
    t % SECONDS_PER_DAY
  }

  function DayOf(t: int): int {
    t / SECONDS_PER_DAY
  }

  lemma DayOfBounds(t: int)
    ensures DayOf(t) * SECONDS_PER_DAY <= t < DayOf(t) * SECONDS_PER_DAY + SECONDS_PER_DAY
    ensures t == DayOf(t) * SECONDS_PER_DAY + TimeOfDay(t)
  {
  }

  /**
   * The window as the dashboard builds it: the calendar set to "now" and moved to day 1
   * and then to the last day of the month keeps now's time of day in both bounds.
   */
  function AsWrittenMonthWindow(now: int, firstDay: int, lastDay: int): (w: Window)
    ensures w.start - firstDay * SECONDS_PER_DAY == w.end - lastDay * SECONDS_PER_DAY == TimeOfDay(now)
  {
    Window(firstDay * SECONDS_PER_DAY + TimeOfDay(now), lastDay * SECONDS_PER_DAY + TimeOfDay(now))
  }

  /** The window the month's totals are meant to cover: from the first day's midnight to the last day's final second. */
  function MonthWindow(firstDay: int, lastDay: int): (w: Window)
    ensures w.start <= w.end <==> firstDay <= lastDay
  {
    Window(firstDay * SECONDS_PER_DAY, lastDay * SECONDS_PER_DAY + SECONDS_PER_DAY - 1)
  }

  /** The intended window holds a timestamp exactly when its day is one of the month's days. */
  lemma MonthWindowIsWholeDays(firstDay: int, lastDay: int, t: int)
    ensures InWindow(MonthWindow(firstDay, lastDay), t) <==> firstDay <= DayOf(t) <= lastDay
  {
    DayOfBounds(t);
    if firstDay <= DayOf(t) {
      assert firstDay * SECONDS_PER_DAY <= DayOf(t) * SECONDS_PER_DAY;
    } else {
      assert DayOf(t) + 1 <= firstDay;
      assert (DayOf(t) + 1) * SECONDS_PER_DAY <= firstDay * SECONDS_PER_DAY;
    }
    if DayOf(t) <= lastDay {
      assert DayOf(t) * SECONDS_PER_DAY <= lastDay * SECONDS_PER_DAY;
    } else {
      assert lastDay + 1 <= DayOf(t);
      assert (lastDay + 1) * SECONDS_PER_DAY <= DayOf(t) * SECONDS_PER_DAY;
    }
  }

  /**
   * Whenever the dashboard is opened after midnight, the as-written window misses the
   * start of day 1: a transaction dated at that midnight is in the month but not counted.
   */
  lemma AsWrittenWindowMissesMonthStart(now: int, firstDay: int, lastDay: int)
    requires firstDay <= lastDay && TimeOfDay(now) > 0
    ensures InWindow(MonthWindow(firstDay, lastDay), firstDay * SECONDS_PER_DAY)
    ensures !InWindow(AsWrittenMonthWindow(now, firstDay, lastDay), firstDay * SECONDS_PER_DAY)
  {
    MonthWindowIsWholeDays(firstDay, lastDay, firstDay * SECONDS_PER_DAY);
  }

  /** Likewise, before the day's last second, the last second of the month is cut off. */
  lemma AsWrittenWindowMissesMonthEnd(now: int, firstDay: int, lastDay: int)
    requires firstDay <= lastDay && TimeOfDay(now) < SECONDS_PER_DAY - 1
    ensures InWindow(MonthWindow(firstDay, lastDay), lastDay * SECONDS_PER_DAY + SECONDS_PER_DAY - 1)
    ensures !InWindow(AsWrittenMonthWindow(now, firstDay, lastDay), lastDay * SECONDS_PER_DAY + SECONDS_PER_DAY - 1)
  {
  }

  /**
   * A concrete case: opened at 10:00 on the 15th of a 30-day month starting on day 100,
   * an expense made at 09:00 on the 1st is left out of the month's totals.
   */
  lemma AsWrittenWindowExample()
    ensures var now := (100 + 14) * SECONDS_PER_DAY + 10 * 3600;
      var spent := 100 * SECONDS_PER_DAY + 9 * 3600;
      DayOf(spent) == 100
      && !InWindow(AsWrittenMonthWindow(now, 100, 129), spent)
      && InWindow(MonthWindow(100, 129), spent)
  {
    var now := (100 + 14) * SECONDS_PER_DAY + 10 * 3600;
    assert TimeOfDay(now) == 10 * 3600;
  }

  /** The month's transactions: the stored ones dated inside the window, in stored order. */
  function InMonth(stored: seq<Transaction>, w: Window): (r: seq<Transaction>)
    ensures forall t :: t in r <==> t in stored && InWindow(w, t.date)
  {
    Seqs.Filter(stored, (t: Transaction) => InWindow(w, t.date))
  }

  // ---------------------------------------------------------------- balances

  /** The balance sum: each account document's `balance`, when it has that field. */
  function BalanceSum(docs: seq<Option<int>>): (r: int)
    ensures (forall i :: 0 <= i < |docs| ==> docs[i].None?) ==> r == 0
    ensures (forall i :: 0 <= i < |docs| ==> docs[i].GetOr(0) >= 0) ==> r >= 0
  {
    if docs == [] then 0 else BalanceSum(docs[..|docs| - 1]) + docs[|docs| - 1].GetOr(0)
  }

  lemma {:induction false} BalanceSumAppend(a: seq<Option<int>>, b: seq<Option<int>>)
    ensures BalanceSum(a + b) == BalanceSum(a) + BalanceSum(b)
    decreases |b|
  {
    if b == [] {
      assert a + b == a;
    } else {
      assert (a + b)[..|a + b| - 1] == a + b[..|b| - 1];
      BalanceSumAppend(a, b[..|b| - 1]);
    }
  }

  /** Documents without a balance field add nothing: the sum is that of the others alone. */
  lemma {:induction false} BalanceSumSkipsMissing(docs: seq<Option<int>>)
    ensures BalanceSum(docs) == BalanceSum(Seqs.Filter(docs, (d: Option<int>) => d.Some?))
  {
    if docs != [] {
      var rest := docs[1..];
      assert docs == [docs[0]] + rest;
      BalanceSumAppend([docs[0]], rest);
      BalanceSumSkipsMissing(rest);
      if docs[0].Some? {
        BalanceSumAppend([docs[0]], Seqs.Filter(rest, (d: Option<int>) => d.Some?));
      } else {
        assert BalanceSum([docs[0]]) == BalanceSum([]) + 0;
      }
    }
  }

  // ---------------------------------------------------------------- expense by category

  /** The `expenseByCategory` map: each non-Income amount added to the entry of its category. */
  function ByCategory(s: seq<Transaction>): map<string, int> {
    if s == [] then map[]
    else
      var m := ByCategory(s[..|s| - 1]);
      var t := s[|s| - 1];
      if IsIncome(t) then m
      else m[t.category := (if t.category in m then m[t.category] else 0) + t.amount]
  }

  /** One more transaction, as the dashboard's loop takes it: the three figures after it in terms of those before. */
  lemma MonthStep(s: seq<Transaction>, i: nat)
    requires i < |s|
    ensures var t := s[i];
      && IncomeTotal(s[..i + 1]) == IncomeTotal(s[..i]) + (if IsIncome(t) then t.amount else 0)
      && NonIncomeTotal(s[..i + 1]) == NonIncomeTotal(s[..i]) + (if IsIncome(t) then 0 else t.amount)
      && ByCategory(s[..i + 1]) == (if IsIncome(t) then ByCategory(s[..i])
           else var m := ByCategory(s[..i]); m[t.category := (if t.category in m then m[t.category] else 0) + t.amount])
  {
    assert s[..i + 1][..i] == s[..i];
  }

  /** The non-Income amounts of category `c`. */
  function CategoryTotal(s: seq<Transaction>, c: string): int {
    if s == [] then 0
    else CategoryTotal(s[..|s| - 1], c) + (if !IsIncome(s[|s| - 1]) && s[|s| - 1].category == c then s[|s| - 1].amount else 0)
  }

  /**
   * The map's keys are exactly the categories of the non-Income transactions, and each
   * value is that category's total.
   */
  lemma {:induction false} ByCategoryContents(s: seq<Transaction>, c: string)
    ensures c in ByCategory(s) <==> exists i :: 0 <= i < |s| && !IsIncome(s[i]) && s[i].category == c
    ensures c in ByCategory(s) ==> ByCategory(s)[c] == CategoryTotal(s, c)
    ensures c !in ByCategory(s) ==> CategoryTotal(s, c) == 0
  {
    if s != [] {
      var init := s[..|s| - 1];
      ByCategoryContents(init, c);
      assert forall i :: 0 <= i < |init| ==> init[i] == s[i];
      if exists i :: 0 <= i < |s| && !IsIncome(s[i]) && s[i].category == c {
        var i :| 0 <= i < |s| && !IsIncome(s[i]) && s[i].category == c;
        if i < |init| {
          assert init[i] == s[i];
        }
      }
    }
  }

  /** The sum of a map's values. */
  ghost function MapSum(m: map<string, int>): int
    decreases |m|
  {
    if m == map[] then 0
    else
      var k :| k in m;
      m[k] + MapSum(m - {k})
  }

  /** Any entry may be taken out first. */
  lemma {:induction false} MapSumRemove(m: map<string, int>, k: string)
    requires k in m
    ensures MapSum(m) == m[k] + MapSum(m - {k})
    decreases |m|
  {
    var j :| j in m && MapSum(m) == m[j] + MapSum(m - {j});
    if j != k {
      var mj, mk := m - {j}, m - {k};
      assert |mj| < |m|;
      MapSumRemove(mj, k);
      MapSumRemove(mk, j);
      assert mj - {k} == mk - {j};
    }
  }

  lemma MapSumUpdate(m: map<string, int>, k: string, v: int)
    ensures MapSum(m[k := v]) == MapSum(m) - (if k in m then m[k] else 0) + v
  {
    var u := m[k := v];
    MapSumRemove(u, k);
    assert u - {k} == m - {k};
    if k in m {
      MapSumRemove(m, k);
    } else {
      assert m - {k} == m;
    }
  }

  /** The per-category values add up to the month's expense. */
  lemma {:induction false} ByCategorySumsToExpense(s: seq<Transaction>)
    ensures MapSum(ByCategory(s)) == NonIncomeTotal(s)
  {
    if s != [] {
      var init := s[..|s| - 1];
      ByCategorySumsToExpense(init);
      var t := s[|s| - 1];
      if !IsIncome(t) {
        var m := ByCategory(init);
        MapSumUpdate(m, t.category, (if t.category in m then m[t.category] else 0) + t.amount);
      }
    }
  }

  // ---------------------------------------------------------------- recent transactions and the total

  function Min(a: int, b: int): int {
    if a <= b then a else b
  }

  /** The `orderBy(date, DESCENDING).limit(5)` query over the newest-first list. */
  function Recent(newestFirst: seq<Transaction>): (r: seq<Transaction>)
    ensures |r| <= RECENT_LIMIT && (|newestFirst| <= RECENT_LIMIT ==> r == newestFirst)
    ensures |r| == RECENT_LIMIT || |r| == |newestFirst|
    ensures forall i :: 0 <= i < |r| ==> r[i] == newestFirst[i]
  {
    newestFirst[..Min(RECENT_LIMIT, |newestFirst|)]
  }

  /** At most five, all of them from the front, and only fewer when there are fewer. */
  lemma RecentIsNewest(newestFirst: seq<Transaction>)
    requires DateDescending(newestFirst)
    ensures var r := Recent(newestFirst);
      |r| <= RECENT_LIMIT && (|r| < RECENT_LIMIT ==> r == newestFirst)
      && DateDescending(r)
      && forall i, j :: 0 <= i < |r| <= j < |newestFirst| ==> r[i].date >= newestFirst[j].date
  {
  }

  /** The second listener's loop over the month's transactions: income, expense and expense by category. */
  method Aggregate(month: seq<Transaction>) returns (monthlyIncome: int, monthlyExpense: int, byCategory: map<string, int>)
    ensures monthlyIncome == IncomeTotal(month) && monthlyExpense == NonIncomeTotal(month)
    ensures byCategory == ByCategory(month)
  {
    monthlyIncome, monthlyExpense, byCategory := 0, 0, map[];
    for i := 0 to |month|
      invariant monthlyIncome == IncomeTotal(month[..i])
      invariant monthlyExpense == NonIncomeTotal(month[..i])
      invariant byCategory == ByCategory(month[..i])
    {
      var t := month[i];
      MonthStep(month, i);
      if t.kind == INCOME {
        monthlyIncome := monthlyIncome + t.amount;
      } else {
        monthlyExpense := monthlyExpense + t.amount;
        var sofar := if t.category in byCategory then byCategory[t.category] else 0;
        byCategory := byCategory[t.category := sofar + t.amount];
      }
    }
    assert month[..|month|] == month;
  }

  /** The figure `updateTotalBalance` shows: balances plus this month's income minus its expense. */
  function DisplayedTotal(balanceSum: int, monthIncome: int, monthExpense: int): int {
    balanceSum + monthIncome - monthExpense
  }

  // ---------------------------------------------------------------- the fragment

  class Dashboard {
    var totalAccountBalance: int
    var currentMonthIncome: int
    var currentMonthExpense: int
    var expenseByCategory: map<string, int>
    var recentTransactionList: seq<Transaction>
    var shownTotal: int

    /** The shown total always agrees with the three figures it is built from. */
    ghost predicate TotalAgrees()
      reads this
    {
      shownTotal == DisplayedTotal(totalAccountBalance, currentMonthIncome, currentMonthExpense)
    }

    constructor ()
      ensures totalAccountBalance == 0 && currentMonthIncome == 0 && currentMonthExpense == 0
      ensures expenseByCategory == map[] && recentTransactionList == []
      ensures TotalAgrees()
    {
      totalAccountBalance, currentMonthIncome, currentMonthExpense := 0, 0, 0;
      expenseByCategory, recentTransactionList := map[], [];
      shownTotal := 0;
    }

    method UpdateTotalBalance()
      modifies this
      ensures TotalAgrees()
      ensures totalAccountBalance == old(totalAccountBalance) && currentMonthIncome == old(currentMonthIncome)
      ensures currentMonthExpense == old(currentMonthExpense) && expenseByCategory == old(expenseByCategory)
      ensures recentTransactionList == old(recentTransactionList)
    {
      shownTotal := totalAccountBalance + currentMonthIncome - currentMonthExpense;
    }

    /** Listener 1: add up the balances of the account documents. */
    method OnAccountsSnapshot(docs: seq<Option<int>>)
      modifies this
      ensures totalAccountBalance == BalanceSum(docs)
      ensures currentMonthIncome == old(currentMonthIncome) && currentMonthExpense == old(currentMonthExpense)
      ensures expenseByCategory == old(expenseByCategory) && recentTransactionList == old(recentTransactionList)
      ensures TotalAgrees()
    {
      var balanceSum := 0;
      for i := 0 to |docs|
        invariant balanceSum == BalanceSum(docs[..i])
      {
        if docs[i].Some? {
          balanceSum := balanceSum + docs[i].value;
        }
        assert docs[..i + 1][..i] == docs[..i];
      }
      assert docs[..|docs|] == docs;
      totalAccountBalance := balanceSum;
      UpdateTotalBalance();
    }

    /** Listener 2: income, expense and expense by category over the month's transactions. */
    method OnMonthSnapshot(stored: seq<Transaction>, firstDay: int, lastDay: int)
      modifies this
      ensures var month := InMonth(stored, MonthWindow(firstDay, lastDay));
        && currentMonthIncome == IncomeTotal(month)
        && currentMonthExpense == NonIncomeTotal(month)
        && expenseByCategory == ByCategory(month)
      ensures totalAccountBalance == old(totalAccountBalance) && recentTransactionList == old(recentTransactionList)
      ensures TotalAgrees()
    {
      var month := InMonth(stored, MonthWindow(firstDay, lastDay));
      currentMonthIncome, currentMonthExpense, expenseByCategory := Aggregate(month);
      UpdateTotalBalance();
    }

    /** Listener 3: the recent list is cleared and refilled from the limited query. */
    method OnRecentSnapshot(newestFirst: seq<Transaction>)
      modifies this
      ensures recentTransactionList == Recent(newestFirst)
      ensures totalAccountBalance == old(totalAccountBalance) && currentMonthIncome == old(currentMonthIncome)
      ensures currentMonthExpense == old(currentMonthExpense) && expenseByCategory == old(expenseByCategory)
      ensures shownTotal == old(shownTotal)
    {
      var value := Recent(newestFirst);
      var list := [];
      for i := 0 to |value|
        invariant list == value[..i]
      {
        list := list + [value[i]];
      }
      assert value[..|value|] == value;
      recentTransactionList := list;
    }
  }
}
