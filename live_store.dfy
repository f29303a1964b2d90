/**
 * The store as the screens see it: one object whose collections each write replaces
 * in place. Each method performs one store call and leaves the object in the state
 * the corresponding `Store` function describes.
 */
module LiveStore {
  import opened Wrappers
  import opened Records
  import Store

  class UserStore {
    var transactions: map<Id, Transaction>
    var nextId: Id
    var budgets: map<string, Budget>
    var accounts: map<string, Account>
    var goals: map<string, SavingGoal>
    var categories: Option<Store.CategoriesDoc>
    var profile: Option<Store.Profile>

    /** The documents currently held, as a value. */
    function State(): Store.Db
      reads this
    {
      Store.Db(transactions, nextId, budgets, accounts, goals, categories, profile)
    }

    constructor ()
      ensures State() == Store.EmptyDb()
    {
      transactions, nextId := map[], 0;
      budgets, accounts, goals := map[], map[], map[];
      categories, profile := None, None;
    }

    method AddTransaction(t: Transaction) returns (id: Id)
      modifies this
      ensures id == old(nextId)
      ensures State() == Store.AddTransaction(old(State()), t)
    {
      id := nextId;
      transactions := transactions[id := t.(documentId := None)];
      nextId := nextId + 1;
    }

    method DeleteTransaction(id: Id)
      modifies this
      ensures State() == Store.DeleteTransaction(old(State()), id)
    {
      transactions := transactions - {id};
    }

    method IncrementSpent(category: string, delta: int)
      modifies this
      ensures State() == Store.IncrementSpent(old(State()), category, delta)
    {
      if category in budgets {
        var b := budgets[category];
        budgets := budgets[category := b.(spentAmount := b.spentAmount + delta)];
      }
    }

    method SetBudget(key: string, b: Budget)
      modifies this
      ensures State() == Store.SetBudget(old(State()), key, b)
    {
      budgets := budgets[key := b];
    }

    method SetAccount(key: string, a: Account)
      modifies this
      ensures State() == Store.SetAccount(old(State()), key, a)
    {
      accounts := accounts[key := a.(documentId := None)];
    }

    method DeleteAccount(key: string)
      modifies this
      ensures State() == Store.DeleteAccount(old(State()), key)
    {
      accounts := accounts - {key};
    }

    /** A batch holding one delete and one set, applied in that order when it commits. */
    method CommitRename(oldKey: string, newKey: string, a: Account)
      modifies this
      ensures State() == Store.SetAccount(Store.DeleteAccount(old(State()), oldKey), newKey, a)
    {
      accounts := (accounts - {oldKey})[newKey := a.(documentId := None)];
    }

    method SetGoal(key: string, g: SavingGoal)
      modifies this
      ensures State() == Store.SetGoal(old(State()), key, g)
    {
      goals := goals[key := g];
    }

    method IncrementSaved(key: string, delta: int)
      modifies this
      ensures State() == Store.IncrementSaved(old(State()), key, delta)
    {
      if key in goals {
        var g := goals[key];
        goals := goals[key := g.(savedAmount := g.savedAmount + delta)];
      }
    }

    /** Returns false, writing nothing, when the categories document does not exist. */
    method UnionCategory(k: Store.ListKind, x: string) returns (ok: bool)
      modifies this
      ensures ok <==> old(categories).Some?
      ensures ok ==> State() == Store.UnionCategory(old(State()), k, x).value
      ensures !ok ==> State() == old(State())
    {
      match categories
      case None => ok := false;
      case Some(doc) =>
        categories := Some(Store.WithField(doc, k, Store.ArrayUnion(Store.Field(doc, k).GetOr([]), x)));
        ok := true;
    }

    method RemoveCategory(k: Store.ListKind, x: string) returns (ok: bool)
      modifies this
      ensures ok <==> old(categories).Some?
      ensures ok ==> State() == Store.RemoveCategory(old(State()), k, x).value
      ensures !ok ==> State() == old(State())
    {
      match categories
      case None => ok := false;
      case Some(doc) =>
        categories := Some(Store.WithField(doc, k, Store.ArrayRemove(Store.Field(doc, k).GetOr([]), x)));
        ok := true;
    }

    method SetSingleCategory(k: Store.ListKind, x: string)
      modifies this
      ensures State() == Store.SetSingleCategory(old(State()), k, x)
    {
      categories := Some(Store.WithField(Store.CategoriesDoc(None, None), k, [x]));
    }

    method SetProfile(p: Store.Profile)
      modifies this
      ensures State() == Store.SetProfile(old(State()), p)
    {
      profile := Some(p);
    }

    method ClearCollection(c: Store.Collection)
      modifies this
      ensures State() == Store.ClearCollection(old(State()), c)
    {
      match c
      case Transactions => transactions := map[];
      case Budgets => budgets := map[];
      case SavingGoals => goals := map[];
      case Accounts => accounts := map[];
      case Categories => categories := None;
    }

    method DeleteProfile()
      modifies this
      ensures State() == Store.DeleteProfile(old(State()))
    {
      profile := None;
    }
  }
}
