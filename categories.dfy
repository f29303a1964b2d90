/**
 * The Categories screen: the user-defined income and expense names kept in the arrays
 * of one document, shown income first, and edited with `arrayUnion`/`arrayRemove`.
 */
module Categories {
  import opened Wrappers
  import opened Text
  import opened Store
  import LiveStore

  /** The dialog's radio buttons start on Income exactly for a category typed income. */
  function DefaultSelection(kind: Option<ListKind>): (r: ListKind)
    ensures r == IncomeList <==> kind == Some(IncomeList)
  {
    if kind == Some(IncomeList) then IncomeList else ExpenseList
  }

  datatype Rejection = EmptyName

  /** The dialog's Save button: the trimmed name, refused when blank. */
  function ValidateName(text: string): (r: Result<string, Rejection>)
    ensures r.Failure? <==> IsBlank(text)
    ensures r.Success? ==> r.value == Trim(text) && r.value != []
  {
    if Trim(text) == [] then Failure(EmptyName) else Success(Trim(text))
  }

  /** The list a name is taken to belong to: expense if the expense list holds it, else income. */
  function InferKind(expenseCategories: seq<string>, name: string): (k: ListKind)
    ensures k == ExpenseList <==> name in expenseCategories
  {
    if name in expenseCategories then ExpenseList else IncomeList
  }

  /** The contents of a list field once fetched: an absent field reads as empty. */
  function ListOf(doc: Option<CategoriesDoc>, k: ListKind): seq<string> {
    if doc.Some? then Field(doc.value, k).GetOr([]) else []
  }

  /**
   * The store after `saveCategory`. A rename first removes the old name from the list
   * the screen infers for it; then the new name is unioned into the chosen list, and
   * when that update fails because the document is missing, the document is created
   * holding only that list.
   */
  function SaveOn(db: Db, signedIn: bool, expenseCategories: seq<string>, oldName: Option<string>, newName: string, k: ListKind): (r: Db)
    ensures !signedIn ==> r == db
    ensures r.(categories := db.categories) == db
    ensures signedIn ==> r.categories.Some? && newName in ListOf(r.categories, k)
    ensures signedIn && db.categories.None? ==> r.categories == Some(WithField(CategoriesDoc(None, None), k, [newName]))
    ensures signedIn && newName in ListOf(db.categories, k) && (oldName.None? || oldName == Some(newName)) ==> r == db
    ensures signedIn && oldName.Some? && oldName.value != newName ==>
      oldName.value !in ListOf(r.categories, InferKind(expenseCategories, oldName.value))
    ensures signedIn && (oldName.None? || oldName == Some(newName)) && db.categories.Some? ==>
      ListOf(r.categories, Other(k)) == ListOf(db.categories, Other(k))
    ensures signedIn && db.categories.Some? ==>
      forall j: ListKind, x: string :: x != newName && Some(x) != oldName ==>
        (x in ListOf(r.categories, j) <==> x in ListOf(db.categories, j))
  {
    if !signedIn then db
    else
      var afterRemove :=
        if oldName.Some? && oldName.value != newName
        then RemoveCategory(db, InferKind(expenseCategories, oldName.value), oldName.value).GetOr(db)
        else db;
      match UnionCategory(afterRemove, k, newName)
      case Some(d) => d
      case None => SetSingleCategory(afterRemove, k, newName)
  }

  /**
   * Editing a name without changing it but switching its list adds it to the new list
   * and leaves it in the old one.
   */
  lemma RetypeKeepsBothEntries(db: Db, expenseCategories: seq<string>, name: string)
    requires db.categories.Some? && name in ListOf(db.categories, ExpenseList)
    ensures var r := SaveOn(db, true, expenseCategories, Some(name), name, IncomeList);
      name in ListOf(r.categories, IncomeList) && name in ListOf(r.categories, ExpenseList)
  {
  }

  /** The store after `deleteCategory`: every occurrence goes from the given list only. */
  function DeleteOn(db: Db, signedIn: bool, name: string, k: ListKind): (r: Db)
    ensures !signedIn || db.categories.None? ==> r == db
    ensures r.(categories := db.categories) == db
    ensures signedIn ==> name !in ListOf(r.categories, k)
    ensures ListOf(r.categories, Other(k)) == ListOf(db.categories, Other(k))
    ensures forall x :: x != name ==> (x in ListOf(r.categories, k) <==> x in ListOf(db.categories, k))
  {
    if !signedIn then db else RemoveCategory(db, k, name).GetOr(db)
  }

  class Screen {
    var incomeCategories: seq<string>
    var expenseCategories: seq<string>
    var customCategoryList: seq<string>

    constructor ()
      ensures incomeCategories == [] && expenseCategories == [] && customCategoryList == []
    {
      incomeCategories, expenseCategories, customCategoryList := [], [], [];
    }

    /** The list a long-pressed category is taken to belong to. */
    function TypeOf(name: string): ListKind
      reads this
    {
      InferKind(expenseCategories, name)
    }

    /** The snapshot listener: both lists from the document (empty when absent), income shown first. */
    method OnSnapshot(doc: Option<CategoriesDoc>)
      modifies this
      ensures incomeCategories == ListOf(doc, IncomeList)
      ensures expenseCategories == ListOf(doc, ExpenseList)
      ensures customCategoryList == incomeCategories + expenseCategories
    {
      customCategoryList, incomeCategories, expenseCategories := [], [], [];
      if doc.Some? {
        if doc.value.income.Some? {
          incomeCategories := doc.value.income.value;
        }
        if doc.value.expense.Some? {
          expenseCategories := doc.value.expense.value;
        }
        customCategoryList := customCategoryList + incomeCategories;
        customCategoryList := customCategoryList + expenseCategories;
      }
    }

    method SaveCategory(store: LiveStore.UserStore, signedIn: bool, oldName: Option<string>, newName: string, k: ListKind)
      modifies store
      ensures store.State() == SaveOn(old(store.State()), signedIn, expenseCategories, oldName, newName, k)
    {
      if !signedIn {
        return;
      }
      if oldName.Some? && oldName.value != newName {
        var _ := store.RemoveCategory(TypeOf(oldName.value), oldName.value);
      }
      var ok := store.UnionCategory(k, newName);
      if !ok {
        store.SetSingleCategory(k, newName);
      }
    }

    method DeleteCategory(store: LiveStore.UserStore, signedIn: bool, name: string, k: ListKind)
      modifies store
      ensures store.State() == DeleteOn(old(store.State()), signedIn, name, k)
    {
      if signedIn {
        var _ := store.RemoveCategory(k, name);
      }
    }
  }
}
