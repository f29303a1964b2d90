/**
 * The "add budget" sheet: a category and a limit, checked in order, stored under the
 * category's name with nothing spent yet.
 */
module AddBudget {
  import opened Wrappers
  import opened Text
  import opened Records
  import opened Store
  import LiveStore

  /** The dropdown's suggestions; the field itself accepts any text. */
  const SUGGESTED_CATEGORIES: seq<string> := ["Food", "Transport", "Housing", "Utilities", "Entertainment", "Shopping", "Health"]

  /** `limit` is `None` when the trimmed limit text is empty, else the number it parses to. */
  datatype Form = Form(category: string, limit: Option<int>)

  datatype Rejection = NotSignedIn | EmptyCategory | NonPositiveLimit

  /** First failure wins: no user, blank category, missing or non-positive limit. */
  function Validate(signedIn: bool, f: Form): (r: Result<Budget, Rejection>)
    ensures r.Success? <==> signedIn && !IsBlank(f.category) && f.limit.Some? && f.limit.value > 0
    ensures r == Failure(NotSignedIn) <==> !signedIn
    ensures r == Failure(EmptyCategory) <==> signedIn && IsBlank(f.category)
    ensures r == Failure(NonPositiveLimit) <==> signedIn && !IsBlank(f.category) && (f.limit.None? || f.limit.value <= 0)
    ensures r.Success? ==> r.value == Budget(Trim(f.category), f.limit.value, 0)
  {
    if !signedIn then Failure(NotSignedIn)
    else if Trim(f.category) == [] then Failure(EmptyCategory)
    else if f.limit.None? || f.limit.value <= 0 then Failure(NonPositiveLimit)
    else Success(Budget(Trim(f.category), f.limit.value, 0))
  }

  /** The store after `saveBudget`; `writeOk` says whether the `set` succeeded. */
  function SaveOn(db: Db, signedIn: bool, f: Form, writeOk: bool): (r: Db)
    ensures Validate(signedIn, f).Failure? || !writeOk ==> r == db
    ensures Validate(signedIn, f).Success? && writeOk ==>
      var key := Trim(f.category);
      && r.budgets.Keys == db.budgets.Keys + {key}
      && r.budgets[key] == Budget(key, f.limit.value, 0)
      && r.budgets[key].spentAmount == 0
    ensures forall c :: c in db.budgets && c != Trim(f.category) ==> c in r.budgets && r.budgets[c] == db.budgets[c]
    ensures r.(budgets := db.budgets) == db
  {
    match Validate(signedIn, f)
    case Failure(_) => db
    case Success(b) => if writeOk then SetBudget(db, b.category, b) else db
  }

  /** The category is free text: a name the dropdown does not offer is accepted as it is. */
  lemma CategoryIsFreeText()
    ensures "Pets" !in SUGGESTED_CATEGORIES
    ensures Validate(true, Form(" Pets ", Some(100))) == Success(Budget("Pets", 100, 0))
  {
    assert "Pets"[0] == 'P';
    assert Trim(" Pets ") == "Pets" by {
      assert TrimStart(" Pets ") == "Pets ";
      assert TrimEnd("Pets ") == "Pets";
    }
  }

  /** `saveBudget` as the sheet runs it. */
  method Save(store: LiveStore.UserStore, signedIn: bool, f: Form, writeOk: bool) returns (r: Result<Budget, Rejection>)
    modifies store
    ensures r == Validate(signedIn, f)
    ensures store.State() == SaveOn(old(store.State()), signedIn, f, writeOk)
  {
    r := Validate(signedIn, f);
    if r.Success? && writeOk {
      store.SetBudget(r.value.category, r.value);
    }
  }
}
