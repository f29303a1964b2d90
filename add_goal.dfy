/**
 * The "add goal" sheet: a name and a target, checked in order, stored under the
 * goal's name with nothing saved yet.
 */
module AddGoal {
  import opened Wrappers
  import opened Text
  import opened Records
  import opened Store
  import LiveStore

  /** `target` is `None` when the trimmed target text is empty, else the number it parses to. */
  datatype Form = Form(goalName: string, target: Option<int>)

  datatype Rejection = NotSignedIn | EmptyName | NonPositiveTarget

  /** First failure wins: no user, blank name, missing or non-positive target. */
  function Validate(signedIn: bool, f: Form): (r: Result<SavingGoal, Rejection>)
    ensures r.Success? <==> signedIn && !IsBlank(f.goalName) && f.target.Some? && f.target.value > 0
    ensures r == Failure(NotSignedIn) <==> !signedIn
    ensures r == Failure(EmptyName) <==> signedIn && IsBlank(f.goalName)
    ensures r == Failure(NonPositiveTarget) <==> signedIn && !IsBlank(f.goalName) && (f.target.None? || f.target.value <= 0)
    ensures r.Success? ==> r.value == SavingGoal(Trim(f.goalName), f.target.value, 0)
  {
    if !signedIn then Failure(NotSignedIn)
    else if Trim(f.goalName) == [] then Failure(EmptyName)
    else if f.target.None? || f.target.value <= 0 then Failure(NonPositiveTarget)
    else Success(SavingGoal(Trim(f.goalName), f.target.value, 0))
  }

  /** The store after `saveGoal`; `writeOk` says whether the `set` succeeded. */
  function SaveOn(db: Db, signedIn: bool, f: Form, writeOk: bool): (r: Db)
    ensures Validate(signedIn, f).Failure? || !writeOk ==> r == db
    ensures Validate(signedIn, f).Success? && writeOk ==>
      var key := Trim(f.goalName);
      && r.goals.Keys == db.goals.Keys + {key}
      && r.goals[key] == SavingGoal(key, f.target.value, 0)
      && r.goals[key].savedAmount == 0
    ensures forall k :: k in db.goals && k != Trim(f.goalName) ==> k in r.goals && r.goals[k] == db.goals[k]
    ensures r.(goals := db.goals) == db
  {
    match Validate(signedIn, f)
    case Failure(_) => db
    case Success(g) => if writeOk then SetGoal(db, g.goalName, g) else db
  }

  /** `saveGoal` as the sheet runs it. */
  method Save(store: LiveStore.UserStore, signedIn: bool, f: Form, writeOk: bool) returns (r: Result<SavingGoal, Rejection>)
    modifies store
    ensures r == Validate(signedIn, f)
    ensures store.State() == SaveOn(old(store.State()), signedIn, f, writeOk)
  {
    r := Validate(signedIn, f);
    if r.Success? && writeOk {
      store.SetGoal(r.value.goalName, r.value);
    }
  }
}
