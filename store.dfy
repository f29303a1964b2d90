/**
 * One user's documents in the cloud store, as a value, and the store operations the
 * screens issue: `add`, `set`, `delete`, `update` with `FieldValue.increment`,
 * `arrayUnion` and `arrayRemove`, and batch commits.
 *
 * `increment` and `update` on a missing document fail without writing, which the
 * screens ignore: the model makes them no-ops. `set` overwrites the whole document.
 * Deleting a missing document succeeds and changes nothing.
 */
module Store {
  import opened Wrappers
  import opened Records
  import Seqs

  /** The two array fields of the `categories/user_defined` document. */
  datatype ListKind = IncomeList | ExpenseList

  /** `categories/user_defined`: each array field may be absent. */
  datatype CategoriesDoc = CategoriesDoc(income: Option<seq<string>>, expense: Option<seq<string>>)

  /** The `users/{uid}` profile document written at sign-up. */
  datatype Profile = Profile(name: string, email: string, currency: string)

  /** The sub-collections and documents held under `users/{uid}`. */
  datatype Db = Db(
    transactions: map<Id, Transaction>,
    nextId: Id,
    budgets: map<string, Budget>,
    accounts: map<string, Account>,
    goals: map<string, SavingGoal>,
    categories: Option<CategoriesDoc>,
    profile: Option<Profile>)

  function EmptyDb(): (db: Db)
    ensures WellFormed(db)
  {
    Db(map[], 0, map[], map[], map[], None, None)
  }

  /**
   * Every stored transaction has an id below the next one to be handed out, and no
   * stored record carries its document id (that field is excluded from the record).
   */
  ghost predicate WellFormed(db: Db) {
    forall id :: id in db.transactions ==> id < db.nextId && db.transactions[id].documentId == None
  }

  // ---------------------------------------------------------------- transactions

  /** `collection("transactions").add(t)`: a fresh document holding `t` without its id. */
  function AddTransaction(db: Db, t: Transaction): (r: Db)
    ensures db.nextId !in db.transactions ==> r.transactions.Keys == db.transactions.Keys + {db.nextId}
    ensures db.nextId in r.transactions && r.transactions[db.nextId] == t.(documentId := None)
    ensures forall id :: id in db.transactions && id != db.nextId ==> id in r.transactions && r.transactions[id] == db.transactions[id]
    ensures r.(transactions := db.transactions, nextId := db.nextId) == db
    ensures WellFormed(db) ==> WellFormed(r) && db.nextId !in db.transactions
  {
    db.(transactions := db.transactions[db.nextId := t.(documentId := None)], nextId := db.nextId + 1)
  }

  /** `document(id).delete()`: succeeds, without effect, when the document is already gone. */
  function DeleteTransaction(db: Db, id: Id): (r: Db)
    ensures r.transactions.Keys == db.transactions.Keys - {id}
    ensures forall k :: k in r.transactions ==> r.transactions[k] == db.transactions[k]
    ensures id !in db.transactions ==> r == db
    ensures r.(transactions := db.transactions) == db
    ensures WellFormed(db) ==> WellFormed(r)
  {
    db.(transactions := db.transactions - {id})
  }

  // ---------------------------------------------------------------- budgets

  /** `budgets/{category}.update("spentAmount", increment(delta))`; a missing budget is left missing. */
  function IncrementSpent(db: Db, category: string, delta: int): (r: Db)
    ensures r.budgets.Keys == db.budgets.Keys
    ensures category in db.budgets ==> r.budgets[category] == db.budgets[category].(spentAmount := db.budgets[category].spentAmount + delta)
    ensures forall c :: c in db.budgets && c != category ==> r.budgets[c] == db.budgets[c]
    ensures category !in db.budgets ==> r == db
    ensures r.(budgets := db.budgets) == db
  {
    if category in db.budgets then
      var b := db.budgets[category];
      db.(budgets := db.budgets[category := b.(spentAmount := b.spentAmount + delta)])
    else db
  }

  /** `budgets/{key}.set(b)`: replaces whatever budget was stored under that key. */
  function SetBudget(db: Db, key: string, b: Budget): (r: Db)
    ensures r.budgets.Keys == db.budgets.Keys + {key}
    ensures r.budgets[key] == b
    ensures forall c :: c in db.budgets && c != key ==> r.budgets[c] == db.budgets[c]
    ensures r.(budgets := db.budgets) == db
  {
    db.(budgets := db.budgets[key := b])
  }

  // ---------------------------------------------------------------- accounts

  /** `accounts/{key}.set(a)`, storing the record without its document id. */
  function SetAccount(db: Db, key: string, a: Account): (r: Db)
    ensures r.accounts.Keys == db.accounts.Keys + {key}
    ensures r.accounts[key] == a.(documentId := None)
    ensures forall k :: k in db.accounts && k != key ==> r.accounts[k] == db.accounts[k]
    ensures r.(accounts := db.accounts) == db
  {
    db.(accounts := db.accounts[key := a.(documentId := None)])
  }

  /** `accounts/{key}.delete()`. */
  function DeleteAccount(db: Db, key: string): (r: Db)
    ensures r.accounts.Keys == db.accounts.Keys - {key}
    ensures forall k :: k in r.accounts ==> r.accounts[k] == db.accounts[k]
    ensures r.(accounts := db.accounts) == db
  {
    db.(accounts := db.accounts - {key})
  }

  // ---------------------------------------------------------------- saving goals

  /** `saving_goals/{key}.set(g)`. */
  function SetGoal(db: Db, key: string, g: SavingGoal): (r: Db)
    ensures r.goals.Keys == db.goals.Keys + {key}
    ensures r.goals[key] == g
    ensures forall k :: k in db.goals && k != key ==> r.goals[k] == db.goals[k]
    ensures r.(goals := db.goals) == db
  {
    db.(goals := db.goals[key := g])
  }

  /** `saving_goals/{key}.update("savedAmount", increment(delta))`; a missing goal is left missing. */
  function IncrementSaved(db: Db, key: string, delta: int): (r: Db)
    ensures r.goals.Keys == db.goals.Keys
    ensures key in db.goals ==> r.goals[key] == db.goals[key].(savedAmount := db.goals[key].savedAmount + delta)
    ensures forall k :: k in db.goals && k != key ==> r.goals[k] == db.goals[k]
    ensures key !in db.goals ==> r == db
    ensures r.(goals := db.goals) == db
  {
    if key in db.goals then
      var g := db.goals[key];
      db.(goals := db.goals[key := g.(savedAmount := g.savedAmount + delta)])
    else db
  }

  // ---------------------------------------------------------------- categories

  function Field(doc: CategoriesDoc, k: ListKind): Option<seq<string>> {
    match k
    case IncomeList => doc.income
    case ExpenseList => doc.expense
  }

  function WithField(doc: CategoriesDoc, k: ListKind, v: seq<string>): (r: CategoriesDoc)
    ensures Field(r, k) == Some(v)
    ensures forall j :: j != k ==> Field(r, j) == Field(doc, j)
  {
    match k
    case IncomeList => doc.(income := Some(v))
    case ExpenseList => doc.(expense := Some(v))
  }

  /** `FieldValue.arrayUnion(x)`: appends `x` unless it is already present. */
  function ArrayUnion(list: seq<string>, x: string): (r: seq<string>)
    ensures x in r
    ensures forall y :: y in r <==> y in list || y == x
    ensures x in list ==> r == list
    ensures x !in list ==> r == list + [x]
  {
    if x in list then list else list + [x]
  }

  /** `FieldValue.arrayRemove(x)`: removes every occurrence of `x`, keeping the rest in order. */
  function ArrayRemove(list: seq<string>, x: string): (r: seq<string>)
    ensures x !in r
    ensures forall y :: y in r <==> y in list && y != x
    ensures |r| <= |list|
  {
    Seqs.Filter(list, (y: string) => y != x)
  }

  /** `arrayUnion` leaves a list that already holds the value as it was. */
  lemma ArrayUnionIdempotent(list: seq<string>, x: string)
    ensures ArrayUnion(ArrayUnion(list, x), x) == ArrayUnion(list, x)
  {
  }

  /** `arrayRemove` keeps the other elements in their order, and removing twice is removing once. */
  lemma ArrayRemoveProperties(list: seq<string>, x: string)
    ensures Seqs.IsSubsequence(ArrayRemove(list, x), list)
    ensures ArrayRemove(ArrayRemove(list, x), x) == ArrayRemove(list, x)
    ensures x !in list ==> ArrayRemove(list, x) == list
  {
    Seqs.FilterIsSubsequence(list, (y: string) => y != x);
    Seqs.FilterKeepsAll(ArrayRemove(list, x), (y: string) => y != x);
    if x !in list {
      Seqs.FilterKeepsAll(list, (y: string) => y != x);
    }
  }

  /**
   * `update(field, arrayUnion(x))`: fails (`None`) when the document does not exist;
   * an absent field becomes `[x]`.
   */
  function UnionCategory(db: Db, k: ListKind, x: string): (r: Option<Db>)
    ensures r.None? <==> db.categories.None?
    ensures r.Some? ==> r.value.(categories := db.categories) == db
    ensures r.Some? ==> var doc := r.value.categories;
      doc.Some? && Field(doc.value, k) == Some(ArrayUnion(Field(db.categories.value, k).GetOr([]), x))
      && Field(doc.value, Other(k)) == Field(db.categories.value, Other(k))
  {
    match db.categories
    case None => None
    case Some(doc) => Some(db.(categories := Some(WithField(doc, k, ArrayUnion(Field(doc, k).GetOr([]), x)))))
  }

  /**
   * `update(field, arrayRemove(x))`: fails (`None`) when the document does not exist;
   * an absent field becomes the empty list.
   */
  function RemoveCategory(db: Db, k: ListKind, x: string): (r: Option<Db>)
    ensures r.None? <==> db.categories.None?
    ensures r.Some? ==> r.value.(categories := db.categories) == db
    ensures r.Some? ==> var doc := r.value.categories;
      doc.Some? && Field(doc.value, k) == Some(ArrayRemove(Field(db.categories.value, k).GetOr([]), x))
      && Field(doc.value, Other(k)) == Field(db.categories.value, Other(k))
  {
    match db.categories
    case None => None
    case Some(doc) => Some(db.(categories := Some(WithField(doc, k, ArrayRemove(Field(doc, k).GetOr([]), x)))))
  }

  function Other(k: ListKind): (o: ListKind)
    ensures o != k
  {
    if k == IncomeList then ExpenseList else IncomeList
  }

  /** `categories/user_defined.set({field: [x]})`: the document is replaced by one holding only that list. */
  function SetSingleCategory(db: Db, k: ListKind, x: string): (r: Db)
    ensures r.categories.Some? && Field(r.categories.value, k) == Some([x])
    ensures Field(r.categories.value, Other(k)) == None
    ensures r.(categories := db.categories) == db
  {
    db.(categories := Some(WithField(CategoriesDoc(None, None), k, [x])))
  }

  // ---------------------------------------------------------------- profile and collections

  /** `users/{uid}.set(profile)`. */
  function SetProfile(db: Db, p: Profile): (r: Db)
    ensures r.profile == Some(p) && r.(profile := db.profile) == db
  {
    db.(profile := Some(p))
  }

  /** The user-owned collections, in the order the account deletion empties them. */
  datatype Collection = Transactions | Budgets | SavingGoals | Accounts | Categories

  function CollectionSize(db: Db, c: Collection): nat {
    match c
    case Transactions => |db.transactions|
    case Budgets => |db.budgets|
    case SavingGoals => |db.goals|
    case Accounts => |db.accounts|
    case Categories => if db.categories.Some? then 1 else 0
  }

  /** Collection `c` holds the same documents in `a` as in `b`. */
  predicate SameCollection(a: Db, b: Db, c: Collection) {
    match c
    case Transactions => a.transactions == b.transactions
    case Budgets => a.budgets == b.budgets
    case SavingGoals => a.goals == b.goals
    case Accounts => a.accounts == b.accounts
    case Categories => a.categories == b.categories
  }

  /** A committed batch that deletes every document of collection `c`, and nothing else. */
  function ClearCollection(db: Db, c: Collection): (r: Db)
    ensures CollectionSize(r, c) == 0
    ensures forall d :: d != c ==> SameCollection(r, db, d)
    ensures r.profile == db.profile && r.nextId == db.nextId
  {
    match c
    case Transactions => db.(transactions := map[])
    case Budgets => db.(budgets := map[])
    case SavingGoals => db.(goals := map[])
    case Accounts => db.(accounts := map[])
    case Categories => db.(categories := None)
  }

  /** `users/{uid}.delete()`. */
  function DeleteProfile(db: Db): (r: Db)
    ensures r.profile == None && r.(profile := db.profile) == db
  {
    db.(profile := None)
  }

  // ---------------------------------------------------------------- expense totals

  /** What transaction `t` contributes to the expenses of category `c`. */
  function SpentBy(t: Transaction, c: string): int {
    if t.kind == EXPENSE && t.category == c then t.amount else 0
  }

  /** The amounts of the stored Expense transactions of category `c` with an id below `n`. */
  function ExpenseSum(m: map<Id, Transaction>, c: string, n: nat): int {
    if n == 0 then 0
    else ExpenseSum(m, c, n - 1) + (if n - 1 in m then SpentBy(m[n - 1], c) else 0)
  }

  /** All the Expense transactions of category `c` in the store, summed. */
  function ExpenseTotal(db: Db, c: string): int {
    ExpenseSum(db.transactions, c, db.nextId)
  }

  /** The sum only looks at ids below `n`. */
  lemma {:induction false} ExpenseSumFrame(m: map<Id, Transaction>, m': map<Id, Transaction>, c: string, n: nat)
    requires forall i :: 0 <= i < n ==> (i in m <==> i in m') && (i in m ==> m[i] == m'[i])
    ensures ExpenseSum(m, c, n) == ExpenseSum(m', c, n)
  {
    if n > 0 {
      ExpenseSumFrame(m, m', c, n - 1);
    }
  }

  /** Ids at or beyond `n` do not count. */
  lemma {:induction false} ExpenseSumAbove(m: map<Id, Transaction>, c: string, n: nat, k: nat)
    requires n <= k
    ensures ExpenseSum(m, c, n) == ExpenseSum(m - {k}, c, n)
  {
    ExpenseSumFrame(m, m - {k}, c, n);
  }

  /** Removing one stored transaction takes exactly its contribution off the sum. */
  lemma {:induction false} ExpenseSumRemove(m: map<Id, Transaction>, c: string, n: nat, k: Id)
    requires k in m && k < n
    ensures ExpenseSum(m - {k}, c, n) == ExpenseSum(m, c, n) - SpentBy(m[k], c)
  {
    if n - 1 == k {
      ExpenseSumAbove(m, c, n - 1, k);
    } else {
      ExpenseSumRemove(m, c, n - 1, k);
    }
  }

  /** Adding a transaction adds exactly its contribution to the expense total of every category. */
  lemma ExpenseTotalAfterAdd(db: Db, t: Transaction, c: string)
    requires WellFormed(db)
    ensures ExpenseTotal(AddTransaction(db, t), c) == ExpenseTotal(db, c) + SpentBy(t, c)
  {
    var r := AddTransaction(db, t);
    ExpenseSumFrame(db.transactions, r.transactions, c, db.nextId);
  }

  /** Deleting takes the stored transaction's contribution off; deleting a missing id changes nothing. */
  lemma ExpenseTotalAfterDelete(db: Db, id: Id, c: string)
    requires WellFormed(db)
    ensures id in db.transactions ==> ExpenseTotal(DeleteTransaction(db, id), c) == ExpenseTotal(db, c) - SpentBy(db.transactions[id], c)
    ensures id !in db.transactions ==> ExpenseTotal(DeleteTransaction(db, id), c) == ExpenseTotal(db, c)
  {
    if id in db.transactions {
      ExpenseSumRemove(db.transactions, c, db.nextId, id);
    }
  }
}
