/**
 * The Transactions tab: the list read back from the store newest first, the tab and
 * search filters over it, and deletion with the matching budget decrement. Choosing
 * a row for editing opens the add screen, which saves a new transaction.
 */
module TransactionsList {
  import opened Wrappers
  import opened Text
  import opened Records
  import opened Store
  import Seqs
  import LiveStore

  const ALL_TAB: string := "All"

  /** One document of a query result: its id and the record stored under it. */
  datatype Doc = Doc(id: Id, record: Transaction)

  /**
   * `docs` is what the `orderBy("date", DESCENDING)` query returns for `db`: every
   * stored transaction once, under its own id, newest first.
   */
  ghost predicate IsDateQuery(db: Db, docs: seq<Doc>) {
    && (forall i :: 0 <= i < |docs| ==> docs[i].id in db.transactions && docs[i].record == db.transactions[docs[i].id])
    && (forall id :: id in db.transactions ==> exists i :: 0 <= i < |docs| && docs[i].id == id)
    && (forall i, j :: 0 <= i < j < |docs| ==> docs[i].id != docs[j].id)
    && (forall i, j :: 0 <= i < j < |docs| ==> docs[i].record.date >= docs[j].record.date)
  }

  /** Each record as the list holds it: with its document id filled in. */
  function WithIds(docs: seq<Doc>): (r: seq<Transaction>)
    ensures |r| == |docs|
    ensures forall i :: 0 <= i < |docs| ==> r[i] == docs[i].record.(documentId := Some(docs[i].id))
  {
    if docs == [] then [] else [docs[0].record.(documentId := Some(docs[0].id))] + WithIds(docs[1..])
  }

  /** Filling in ids keeps the newest-first order of the query. */
  lemma WithIdsDescending(db: Db, docs: seq<Doc>)
    requires IsDateQuery(db, docs)
    ensures DateDescending(WithIds(docs))
  {
  }

  predicate MatchesTab(t: Transaction, tab: string) {
    tab == ALL_TAB || t.kind == tab
  }

  /** The search text is lower-cased and trimmed; a blank one matches every title. */
  predicate MatchesQuery(t: Transaction, query: string) {
    var q := Trim(ToLower(query));
    q == [] || Contains(ToLower(t.title), q)
  }

  /**
   * `applyFilters`: the tab filter unless the tab is "All", then the title search unless
   * the query is blank, each keeping the order of the list.
   */
  function ApplyFilters(all: seq<Transaction>, tab: string, query: string): (r: seq<Transaction>)
    ensures Seqs.IsSubsequence(r, all)
  {
    var byTab := if tab == ALL_TAB then all else Seqs.Filter(all, (t: Transaction) => t.kind == tab);
    var r := if Trim(ToLower(query)) == [] then byTab else Seqs.Filter(byTab, (t: Transaction) => MatchesQuery(t, query));
    FiltersKeepOrder(all, tab, query, byTab, r);
    r
  }

  /**
   * A transaction is shown exactly when it is in the list, its type is the tab's (or
   * the tab is "All"), and the query is blank or occurs in its title, ignoring case.
   */
  lemma ApplyFiltersKeepsExactly(all: seq<Transaction>, tab: string, query: string, t: Transaction)
    ensures t in ApplyFilters(all, tab, query) <==>
      t in all && (tab == ALL_TAB || t.kind == tab)
      && (IsBlank(query) || exists i :: OccursAt(ToLower(t.title), ToLower(Trim(query)), i))
  {
    TrimToLowerCommute(query);
    ToLowerPreservesBlank(query);
    assert Trim(ToLower(query)) == [] <==> IsBlank(query);
  }

  lemma ToLowerPreservesBlank(s: string)
    ensures IsBlank(ToLower(s)) <==> IsBlank(s)
  {
    forall k | 0 <= k < |s| {
      ToLowerKeepsTrimmable(s[k]);
    }
  }

  lemma FiltersKeepOrder(all: seq<Transaction>, tab: string, query: string, byTab: seq<Transaction>, r: seq<Transaction>)
    requires byTab == if tab == ALL_TAB then all else Seqs.Filter(all, (t: Transaction) => t.kind == tab)
    requires r == if Trim(ToLower(query)) == [] then byTab else Seqs.Filter(byTab, (t: Transaction) => MatchesQuery(t, query))
    ensures Seqs.IsSubsequence(r, all)
  {
    assert Seqs.IsSubsequence(byTab, all) by {
      if tab == ALL_TAB {
        Seqs.FilterKeepsAll(all, (t: Transaction) => true);
        Seqs.FilterIsSubsequence(all, (t: Transaction) => true);
      } else {
        Seqs.FilterIsSubsequence(all, (t: Transaction) => t.kind == tab);
      }
    }
    if Trim(ToLower(query)) == [] {
    } else {
      Seqs.FilterIsSubsequence(byTab, (t: Transaction) => MatchesQuery(t, query));
      Seqs.SubsequenceTransitive(r, byTab, all);
    }
  }

  /** With the "All" tab and a blank query the whole list is shown, unchanged. */
  lemma AllTabBlankQueryShowsEverything(all: seq<Transaction>, query: string)
    requires IsBlank(query)
    ensures ApplyFilters(all, ALL_TAB, query) == all
  {
    TrimToLowerCommute(query);
  }

  /** A subsequence of a newest-first list is newest first. */
  lemma {:induction false} SubsequenceDescending(a: seq<Transaction>, b: seq<Transaction>)
    requires Seqs.IsSubsequence(a, b) && DateDescending(b)
    ensures DateDescending(a)
    decreases |b|
  {
    if a != [] {
      if a[0] == b[0] && Seqs.IsSubsequence(a[1..], b[1..]) {
        SubsequenceDescending(a[1..], b[1..]);
        Seqs.SubsequenceMembers(a[1..], b[1..]);
        forall j | 0 < j < |a|
          ensures a[0].date >= a[j].date
        {
          assert a[j] in b[1..];
          var k :| 0 <= k < |b[1..]| && b[1..][k] == a[j];
          assert b[k + 1] == a[j];
        }
      } else {
        SubsequenceDescending(a, b[1..]);
      }
    }
  }

  /** The filtered list of a freshly read query is newest first. */
  lemma FilteredIsDescending(db: Db, docs: seq<Doc>, tab: string, query: string)
    requires IsDateQuery(db, docs)
    ensures DateDescending(ApplyFilters(WithIds(docs), tab, query))
  {
    WithIdsDescending(db, docs);
    SubsequenceDescending(ApplyFilters(WithIds(docs), tab, query), WithIds(docs));
  }

  /**
   * The store after deleting the list row `t`: nothing without a user or a document id
   * or when the delete fails; otherwise the record goes, and an Expense then gives its
   * amount back to the budget of its category.
   */
  function DeleteOn(db: Db, signedIn: bool, t: Transaction, deleteOk: bool): (r: Db)
    requires WellFormed(db)
    ensures WellFormed(r)
    ensures !signedIn || t.documentId.None? || !deleteOk ==> r == db
    ensures signedIn && t.documentId.Some? && deleteOk ==> r.transactions == db.transactions - {t.documentId.value}
    ensures r.nextId == db.nextId && r.accounts == db.accounts && r.goals == db.goals
    ensures r.categories == db.categories && r.profile == db.profile
    ensures r.budgets.Keys == db.budgets.Keys
    ensures t.kind != EXPENSE ==> r.budgets == db.budgets
    ensures forall c :: c in db.budgets ==> r.budgets[c].limitAmount == db.budgets[c].limitAmount
    ensures forall c :: c in db.budgets ==>
      r.budgets[c].spentAmount == db.budgets[c].spentAmount - (if signedIn && t.documentId.Some? && deleteOk then SpentBy(t, c) else 0)
  {
    if !signedIn || t.documentId.None? || !deleteOk then db
    else
      var removed := DeleteTransaction(db, t.documentId.value);
      if t.kind == EXPENSE then IncrementSpent(removed, t.category, -t.amount) else removed
  }

  /**
   * Deleting the row of a record that is still stored keeps, for every budget, the gap
   * between its spent amount and its category's stored expenses.
   */
  lemma DeleteKeepsBudgetGap(db: Db, signedIn: bool, t: Transaction, deleteOk: bool, c: string)
    requires WellFormed(db) && c in db.budgets
    requires t.documentId.Some? && t.documentId.value in db.transactions
    requires db.transactions[t.documentId.value] == t.(documentId := None)
    ensures var r := DeleteOn(db, signedIn, t, deleteOk);
      r.budgets[c].spentAmount - ExpenseTotal(r, c) == db.budgets[c].spentAmount - ExpenseTotal(db, c)
  {
    if signedIn && deleteOk {
      ExpenseTotalAfterDelete(db, t.documentId.value, c);
      assert SpentBy(db.transactions[t.documentId.value], c) == SpentBy(t, c);
    }
  }

  /**
   * Deleting a row whose record is already gone still succeeds, so an Expense is given
   * back to its budget a second time while the stored expenses stay the same.
   */
  lemma StaleDeleteDecrementsAgain(db: Db, t: Transaction)
    requires WellFormed(db)
    requires t.documentId.Some? && t.documentId.value !in db.transactions
    requires t.kind == EXPENSE && t.category in db.budgets
    ensures var r := DeleteOn(db, true, t, true);
      r.transactions == db.transactions
      && ExpenseTotal(r, t.category) == ExpenseTotal(db, t.category)
      && r.budgets[t.category].spentAmount == db.budgets[t.category].spentAmount - t.amount
  {
    ExpenseTotalAfterDelete(db, t.documentId.value, t.category);
  }

  /** The fragment's lists and filter state. */
  class Screen {
    var allTransactionsList: seq<Transaction>
    var filteredTransactionList: seq<Transaction>
    var currentFilter: string
    var searchQuery: string

    constructor ()
      ensures allTransactionsList == [] && filteredTransactionList == []
      ensures currentFilter == ALL_TAB && searchQuery == ""
    {
      allTransactionsList, filteredTransactionList := [], [];
      currentFilter, searchQuery := ALL_TAB, "";
    }

    /** `applyFilters`: the shown list is replaced wholesale by the filtered copy. */
    method Refilter()
      modifies this
      ensures filteredTransactionList == ApplyFilters(allTransactionsList, currentFilter, searchQuery)
      ensures allTransactionsList == old(allTransactionsList)
      ensures currentFilter == old(currentFilter) && searchQuery == old(searchQuery)
    {
      var shown := ApplyFilters(allTransactionsList, currentFilter, searchQuery);
      filteredTransactionList := shown;
    }

    /** The snapshot listener: rebuild the full list from the query, ids filled in, then refilter. */
    method OnSnapshot(docs: seq<Doc>)
      modifies this
      ensures allTransactionsList == WithIds(docs)
      ensures filteredTransactionList == ApplyFilters(WithIds(docs), currentFilter, searchQuery)
      ensures currentFilter == old(currentFilter) && searchQuery == old(searchQuery)
    {
      allTransactionsList := [];
      var i := 0;
      while i < |docs|
        invariant 0 <= i <= |docs|
        invariant allTransactionsList == WithIds(docs[..i])
        invariant currentFilter == old(currentFilter) && searchQuery == old(searchQuery)
      {
        var t := docs[i].record;
        t := t.(documentId := Some(docs[i].id));
        allTransactionsList := allTransactionsList + [t];
        i := i + 1;
      }
      assert docs[..|docs|] == docs;
      Refilter();
    }

    method OnTabSelected(tabText: string)
      modifies this
      ensures currentFilter == tabText && searchQuery == old(searchQuery)
      ensures allTransactionsList == old(allTransactionsList)
      ensures filteredTransactionList == ApplyFilters(allTransactionsList, tabText, searchQuery)
    {
      currentFilter := tabText;
      Refilter();
    }

    method OnQueryTextChange(newText: string)
      modifies this
      ensures searchQuery == newText && currentFilter == old(currentFilter)
      ensures allTransactionsList == old(allTransactionsList)
      ensures filteredTransactionList == ApplyFilters(allTransactionsList, currentFilter, newText)
    {
      searchQuery := newText;
      Refilter();
    }

    /** `deleteTransaction` followed, on success, by `updateBudgetOnDelete`. */
    method Delete(store: LiveStore.UserStore, signedIn: bool, t: Transaction, deleteOk: bool)
      requires WellFormed(store.State())
      modifies store
      ensures store.State() == DeleteOn(old(store.State()), signedIn, t, deleteOk)
    {
      if !signedIn || t.documentId.None? {
        return;
      }
      if deleteOk {
        store.DeleteTransaction(t.documentId.value);
        if t.kind == EXPENSE {
          store.IncrementSpent(t.category, -t.amount);
        }
      }
    }
  }
}
