/**
 * The Sign Up screen's email and password flow: the checks on the trimmed inputs, the
 * account creation, and the profile document written for the new account.
 */
module SignUp {
  import opened Wrappers
  import opened Text
  import Store

  const DEFAULT_CURRENCY: string := "LKR"

  datatype Rejection = FieldsRequired | PasswordsDiffer

  /** What passed the checks: the trimmed name, email and password. */
  datatype Form = Form(fullName: string, email: string, password: string)

  /** `createAccount` up to the call that creates the account: the first failing check, in order. */
  function Validate(fullName: string, email: string, password: string, confirm: string): (r: Result<Form, Rejection>)
    ensures r == Failure(FieldsRequired) <==> IsBlank(fullName) || IsBlank(email) || IsBlank(password)
    ensures r == Failure(PasswordsDiffer) <==>
              !IsBlank(fullName) && !IsBlank(email) && !IsBlank(password) && Trim(password) != Trim(confirm)
    ensures r.Success? ==> r.value == Form(Trim(fullName), Trim(email), Trim(password))
  {
    if Trim(fullName) == [] || Trim(email) == [] || Trim(password) == [] then Failure(FieldsRequired)
    else if Trim(password) != Trim(confirm) then Failure(PasswordsDiffer)
    else Success(Form(Trim(fullName), Trim(email), Trim(password)))
  }

  /** `saveUserData`: the profile holds the name, the email and the default currency, and nothing else. */
  function NewProfile(fullName: string, email: string): (p: Store.Profile)
    ensures p.name == fullName && p.email == email && p.currency == DEFAULT_CURRENCY
  {
    Store.Profile(fullName, email, DEFAULT_CURRENCY)
  }

  datatype Outcome = Rejected(reason: Rejection) | AuthFailed | SaveFailed | SignedUp

  datatype SignUpResult = SignUpResult(outcome: Outcome, db: Store.Db)

  /**
   * The whole attempt on the new account's store `db`: `authOk` is whether the account is
   * created, `saveOk` whether the profile write that follows succeeds.
   */
  function SignUpOn(db: Store.Db, fullName: string, email: string, password: string, confirm: string, authOk: bool, saveOk: bool): (r: SignUpResult)
    ensures r.outcome == SignedUp <==> Validate(fullName, email, password, confirm).Success? && authOk && saveOk
    ensures r.outcome.Rejected? <==> Validate(fullName, email, password, confirm).Failure?
    ensures r.outcome.Rejected? ==> r.outcome.reason == Validate(fullName, email, password, confirm).error
    ensures r.outcome == SignedUp ==> r.db == Store.SetProfile(db, NewProfile(Trim(fullName), Trim(email)))
    ensures r.outcome != SignedUp ==> r.db == db
  {
    match Validate(fullName, email, password, confirm)
    case Failure(reason) => SignUpResult(Rejected(reason), db)
    case Success(form) =>
      if !authOk then SignUpResult(AuthFailed, db)
      else if !saveOk then SignUpResult(SaveFailed, db)
      else SignUpResult(SignedUp, Store.SetProfile(db, NewProfile(form.fullName, form.email)))
  }

  /** A signed-up account's profile is the trimmed name and email, in rupees. */
  lemma SignedUpProfile(db: Store.Db, fullName: string, email: string, password: string, confirm: string)
    requires SignUpOn(db, fullName, email, password, confirm, true, true).outcome == SignedUp
    ensures SignUpOn(db, fullName, email, password, confirm, true, true).db.profile
            == Some(Store.Profile(Trim(fullName), Trim(email), "LKR"))
  {
  }

  /** No strength rule at sign-up: a one-character password, confirmed, is accepted. */
  lemma WeakPasswordAccepted()
    ensures Validate("A", "a@b", "1", "1").Success?
  {
    assert !IsTrimmable("A"[0]) && !IsTrimmable("a@b"[0]) && !IsTrimmable("1"[0]);
  }

  /**
   * Empty fields are reported before a mismatch: with a blank name, differing passwords
   * still give `FieldsRequired`.
   */
  lemma EmptinessBeforeMismatch(email: string, password: string, confirm: string)
    ensures Validate("", email, password, confirm) == Failure(FieldsRequired)
  {
  }
}
