/**
 * The Savings Goals screen: the goal list and its total, the suggestions that total
 * can afford, and contributions to a goal. A contribution raises the goal and records
 * an Expense in the category "Savings", but gives no budget a matching increment.
 */
module SavingsGoals {
  import opened Wrappers
  import opened Records
  import opened Store
  import Seqs
  import LiveStore

  /** One rupee in cents. */
  const LKR: int := 100

  const SAVINGS_CATEGORY: string := "Savings"
  const DEFAULT_ACCOUNT: string := "Default Account"
  const CONTRIBUTION_TITLE_PREFIX: string := "Contribution to "

  /** The fixed catalogue of suggestions, in the order the screen lists them. */
  const CATALOGUE: seq<Suggestion> := [
    Suggestion("A Nice Dinner", "Treat yourself to a meal at a fancy restaurant.", 5000 * LKR),
    Suggestion("New Pair of Shoes", "Upgrade your footwear.", 10000 * LKR),
    Suggestion("Weekend Getaway to Ella", "Explore the scenic beauty of Ella.", 20000 * LKR),
    Suggestion("Budget Smartphone", "Get a new modern smartphone.", 40000 * LKR),
    Suggestion("Trip to Galle", "Enjoy the historic Galle Fort and beautiful beaches.", 50000 * LKR),
    Suggestion("High-Tea Buffet", "Enjoy an evening high-tea experience at a Colombo hotel.", 7500 * LKR),
    Suggestion("New Cricket Bat", "Get a quality bat for your evening matches.", 8000 * LKR),
    Suggestion("Bluetooth Speaker", "Listen to your favorite music anywhere.", 9000 * LKR),
    Suggestion("Branded Watch", "Get a stylish new watch.", 15000 * LKR),
    Suggestion("Day Trip to Sigiriya", "Visit and climb the historic Sigiriya rock fortress.", 25000 * LKR),
    Suggestion("Designer Saree or Suit", "Purchase a high-quality outfit for a special occasion.", 30000 * LKR),
    Suggestion("Gaming Headset", "Upgrade your gaming experience.", 35000 * LKR),
    Suggestion("Down Payment for a Scooter", "Start saving for your own two-wheeler.", 60000 * LKR),
    Suggestion("New Television", "Upgrade your home entertainment system.", 75000 * LKR),
    Suggestion("Gold Jewellery", "Invest in a timeless piece of gold.", 85000 * LKR),
    Suggestion("Professional Camera Lens", "Enhance your photography skills.", 100000 * LKR),
    Suggestion("High-End Laptop", "Get a powerful new computer for work or study.", 150000 * LKR),
    Suggestion("International Trip to Thailand", "Save up for a vacation abroad.", 200000 * LKR),
    Suggestion("Down Payment for a Motorbike", "Save for a more powerful bike.", 250000 * LKR),
    Suggestion("Invest in a Tuk-Tuk", "Start a small business or generate extra income.", 500000 * LKR)
  ]

  /** The catalogue's prices in rupees, entry by entry. */
  const PRICES_IN_RUPEES: seq<int> := [
    5000, 10000, 20000, 40000, 50000, 7500, 8000, 9000, 15000, 25000,
    30000, 35000, 60000, 75000, 85000, 100000, 150000, 200000, 250000, 500000]

  /** Twenty suggestions at these prices, the cheapest being 5000 rupees. */
  lemma CatalogueShape()
    ensures |CATALOGUE| == |PRICES_IN_RUPEES| == 20
    ensures forall i :: 0 <= i < 20 ==> CATALOGUE[i].amountRequired == PRICES_IN_RUPEES[i] * LKR
    ensures forall s :: s in CATALOGUE ==> s.amountRequired >= 5000 * LKR
  {
  }

  /** The savings of the goals in list order, added up the way the listener's loop does. */
  function TotalSaved(goals: seq<SavingGoal>): (r: int)
    ensures (forall i :: 0 <= i < |goals| ==> goals[i].savedAmount >= 0) ==> r >= 0
    ensures (forall i :: 0 <= i < |goals| ==> goals[i].savedAmount == 0) ==> r == 0
  {
    if goals == [] then 0 else TotalSaved(goals[..|goals| - 1]) + goals[|goals| - 1].savedAmount
  }

  /** `updateSuggestions`: the catalogue entries the total covers, in catalogue order. */
  function Affordable(all: seq<Suggestion>, totalSaved: int): (r: seq<Suggestion>)
    ensures forall s :: s in r <==> s in all && s.amountRequired <= totalSaved
    ensures Seqs.IsSubsequence(r, all)
  {
    Seqs.FilterIsSubsequence(all, (s: Suggestion) => totalSaved >= s.amountRequired);
    Seqs.Filter(all, (s: Suggestion) => totalSaved >= s.amountRequired)
  }

  /** Saving more never hides a suggestion: the affordable list only grows, keeping its order. */
  lemma AffordableMonotone(all: seq<Suggestion>, t1: int, t2: int)
    requires t1 <= t2
    ensures Seqs.IsSubsequence(Affordable(all, t1), Affordable(all, t2))
  {
    Seqs.FilterMonotone(all, (s: Suggestion) => t1 >= s.amountRequired, (s: Suggestion) => t2 >= s.amountRequired);
  }

  /** The suggestion section is shown exactly when the goals hold at least the cheapest entry's price. */
  lemma SuggestionsShownIffCheapestAffordable(totalSaved: int)
    ensures Affordable(CATALOGUE, totalSaved) != [] <==> totalSaved >= 5000 * LKR
  {
    CatalogueShape();
    if totalSaved >= 5000 * LKR {
      assert CATALOGUE[0] in Affordable(CATALOGUE, totalSaved);
    }
  }

  datatype Rejection = NotPositiveAmount

  /** The add-money dialog: `amount` is `None` when the text (not trimmed) is empty. */
  function ValidateAmount(amount: Option<int>): (r: Result<int, Rejection>)
    ensures r.Success? <==> amount.Some? && amount.value > 0
    ensures r.Success? ==> r.value == amount.value
  {
    if amount.None? || amount.value <= 0 then Failure(NotPositiveAmount) else Success(amount.value)
  }

  /** The Expense a contribution records, dated `now`. */
  function ContributionTransaction(goalName: string, amount: int, now: int): (t: Transaction)
    ensures t.title == CONTRIBUTION_TITLE_PREFIX + goalName && t.category == SAVINGS_CATEGORY
    ensures t.amount == amount && t.kind == EXPENSE && t.account == Some(DEFAULT_ACCOUNT) && t.date == now
  {
    NewAccountTransaction(CONTRIBUTION_TITLE_PREFIX + goalName, SAVINGS_CATEGORY, amount, EXPENSE, DEFAULT_ACCOUNT, now)
  }

  /**
   * The store after `addMoneyToGoal`: two independent writes, the goal increment
   * (`goalOk`) and the transaction `add` (`txOk`). No budget and no account is written.
   */
  function ContributeOn(db: Db, signedIn: bool, goalName: string, amount: int, now: int, goalOk: bool, txOk: bool): (r: Db)
    requires WellFormed(db)
    ensures WellFormed(r)
    ensures r.budgets == db.budgets && r.accounts == db.accounts
    ensures r.categories == db.categories && r.profile == db.profile
    ensures !signedIn ==> r == db
    ensures r.goals.Keys == db.goals.Keys
    ensures forall k :: k in db.goals ==>
      r.goals[k].savedAmount == db.goals[k].savedAmount + (if signedIn && goalOk && k == goalName then amount else 0)
      && r.goals[k].targetAmount == db.goals[k].targetAmount
    ensures forall k :: k in db.goals ==> r.goals[k].goalName == db.goals[k].goalName
    ensures r.nextId == db.nextId + (if signedIn && txOk then 1 else 0)
    ensures signedIn && txOk ==> r.transactions == db.transactions[db.nextId := ContributionTransaction(goalName, amount, now)]
    ensures !(signedIn && txOk) ==> r.transactions == db.transactions
  {
    if !signedIn then db
    else
      var raised := if goalOk then IncrementSaved(db, goalName, amount) else db;
      if txOk then AddTransaction(raised, ContributionTransaction(goalName, amount, now)) else raised
  }

  /**
   * A recorded contribution adds to the "Savings" expenses while the "Savings" budget's
   * spent amount stays where it was: the gap between them widens by the amount.
   */
  lemma ContributionWidensSavingsGap(db: Db, goalName: string, amount: int, now: int, goalOk: bool)
    requires WellFormed(db) && SAVINGS_CATEGORY in db.budgets
    ensures var r := ContributeOn(db, true, goalName, amount, now, goalOk, true);
      && r.budgets[SAVINGS_CATEGORY].spentAmount == db.budgets[SAVINGS_CATEGORY].spentAmount
      && ExpenseTotal(r, SAVINGS_CATEGORY) == ExpenseTotal(db, SAVINGS_CATEGORY) + amount
  {
    var raised := if goalOk then IncrementSaved(db, goalName, amount) else db;
    ExpenseTotalAfterAdd(raised, ContributionTransaction(goalName, amount, now), SAVINGS_CATEGORY);
    assert ExpenseTotal(raised, SAVINGS_CATEGORY) == ExpenseTotal(db, SAVINGS_CATEGORY);
  }

  class Screen {
    var goalList: seq<SavingGoal>
    var affordableSuggestions: seq<Suggestion>
    var suggestionsVisible: bool

    constructor ()
      ensures goalList == [] && affordableSuggestions == [] && !suggestionsVisible
    {
      goalList, affordableSuggestions, suggestionsVisible := [], [], false;
    }

    /** `updateSuggestions`: the section is hidden exactly when nothing is affordable. */
    method UpdateSuggestions(totalSaved: int)
      modifies this
      ensures affordableSuggestions == Affordable(CATALOGUE, totalSaved)
      ensures suggestionsVisible <==> affordableSuggestions != []
      ensures goalList == old(goalList)
    {
      affordableSuggestions := Affordable(CATALOGUE, totalSaved);
      suggestionsVisible := affordableSuggestions != [];
    }

    /** The snapshot listener: refill the list, add up the savings, update the suggestions. */
    method OnSnapshot(goals: seq<SavingGoal>) returns (totalSaved: int)
      modifies this
      ensures goalList == goals
      ensures totalSaved == TotalSaved(goals)
      ensures affordableSuggestions == Affordable(CATALOGUE, totalSaved)
      ensures suggestionsVisible <==> affordableSuggestions != []
    {
      goalList := [];
      totalSaved := 0;
      for i := 0 to |goals|
        invariant goalList == goals[..i]
        invariant totalSaved == TotalSaved(goals[..i])
      {
        var goal := goals[i];
        goalList := goalList + [goal];
        totalSaved := totalSaved + goal.savedAmount;
        assert goals[..i + 1][..i] == goals[..i];
      }
      assert goals[..|goals|] == goals;
      UpdateSuggestions(totalSaved);
    }

    /** The add-money dialog's button, then `addMoneyToGoal` for a valid amount. */
    method OnAddMoney(store: LiveStore.UserStore, signedIn: bool, goal: SavingGoal, amount: Option<int>, now: int, goalOk: bool, txOk: bool)
      returns (r: Result<int, Rejection>)
      requires WellFormed(store.State())
      modifies store
      ensures r == ValidateAmount(amount)
      ensures r.Failure? ==> store.State() == old(store.State())
      ensures r.Success? ==> store.State() == ContributeOn(old(store.State()), signedIn, goal.goalName, r.value, now, goalOk, txOk)
    {
      r := ValidateAmount(amount);
      if r.Failure? || !signedIn {
        return;
      }
      if goalOk {
        store.IncrementSaved(goal.goalName, r.value);
      }
      if txOk {
        var _ := store.AddTransaction(ContributionTransaction(goal.goalName, r.value, now));
      }
    }
  }
}
