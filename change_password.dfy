/**
 * The Change Password screen: the strength pattern, the order of the checks over the
 * trimmed inputs, and the re-authentication that must succeed before the password is
 * updated. The two sign-in calls are modelled by whether each of them succeeds.
 */
module ChangePassword {
  import opened Wrappers
  import opened Text

  // ---------------------------------------------------------------- the pattern

  /** The characters `.` does not match without DOTALL: Java's line terminators. */
  predicate IsLineTerminator(c: char) {
    c == '\n' || c == '\r' || c == '\U{0085}' || c == '\U{2028}' || c == '\U{2029}'
  }

  predicate IsAsciiDigit(c: char) {
    '0' <= c <= '9'
  }

  predicate IsAsciiUpper(c: char) {
    'A' <= c <= 'Z'
  }

  /** `[0-9]` or `[A-Z]`, the two classes the lookaheads look for. */
  datatype CharClass = Digits | Uppers

  predicate InClass(cls: CharClass, c: char) {
    match cls
    case Digits => IsAsciiDigit(c)
    case Uppers => IsAsciiUpper(c)
  }

  /** `(?=.*X)` at the start: some position holds an `X` and everything before it matches `.`. */
  predicate LookaheadHolds(s: string, cls: CharClass) {
    exists k :: 0 <= k < |s| && InClass(cls, s[k]) && forall i :: 0 <= i < k ==> !IsLineTerminator(s[i])
  }

  /** `.{8,}$` over the whole input, as `matches()` requires: eight or more characters, none a line terminator. */
  predicate DotsAtLeast(s: string, n: nat) {
    |s| >= n && forall i :: 0 <= i < |s| ==> !IsLineTerminator(s[i])
  }

  /** `^(?=.*[0-9])(?=.*[A-Z]).{8,}$` matched against the whole password. */
  predicate MatchesPasswordPattern(s: string) {
    LookaheadHolds(s, Digits) && LookaheadHolds(s, Uppers) && DotsAtLeast(s, 8)
  }

  /** The policy in plain words: at least 8 characters, no line break, a digit and an uppercase letter. */
  predicate MeetsPolicy(s: string) {
    && |s| >= 8
    && (forall c :: c in s ==> !IsLineTerminator(c))
    && (exists c :: c in s && IsAsciiDigit(c))
    && (exists c :: c in s && IsAsciiUpper(c))
  }

  /** The pattern accepts exactly the passwords the policy describes. */
  lemma PatternIsPolicy(s: string)
    ensures MatchesPasswordPattern(s) <==> MeetsPolicy(s)
  {
    if MeetsPolicy(s) {
      var d :| d in s && IsAsciiDigit(d);
      var u :| u in s && IsAsciiUpper(u);
      var kd :| 0 <= kd < |s| && s[kd] == d;
      var ku :| 0 <= ku < |s| && s[ku] == u;
      assert InClass(Digits, s[kd]);
      assert InClass(Uppers, s[ku]);
    }
    if MatchesPasswordPattern(s) {
      var kd :| 0 <= kd < |s| && InClass(Digits, s[kd]);
      var ku :| 0 <= ku < |s| && InClass(Uppers, s[ku]);
      assert s[kd] in s && s[ku] in s;
    }
  }

  /** Eight characters with a digit and a capital pass, however simple. */
  lemma SimplePasswordPasses()
    ensures MatchesPasswordPattern("Password1")
  {
    var s := "Password1";
    assert InClass(Digits, s[8]);
    assert InClass(Uppers, s[0]);
  }

  /** Without an uppercase ASCII letter nothing passes, whatever its length. */
  lemma NoUppercaseFails(s: string)
    requires forall i :: 0 <= i < |s| ==> !IsAsciiUpper(s[i])
    ensures !MatchesPasswordPattern(s)
  {
  }

  // ---------------------------------------------------------------- the checks

  datatype Rejection = NotSignedIn | CurrentRequired | NewRequired | Mismatch | TooWeak

  /** The inputs that passed every check: the trimmed current and new passwords. */
  datatype Change = Change(currentPassword: string, newPassword: string)

  /**
   * `changePassword` up to the sign-in calls: without a user or an email, stop; then, on
   * the trimmed texts, the first failing check in order.
   */
  function Validate(signedIn: bool, hasEmail: bool, current: string, newPassword: string, confirm: string): (r: Result<Change, Rejection>)
    ensures r == Failure(NotSignedIn) <==> !signedIn || !hasEmail
    ensures r == Failure(CurrentRequired) <==> signedIn && hasEmail && IsBlank(current)
    ensures r == Failure(NewRequired) <==> signedIn && hasEmail && !IsBlank(current) && IsBlank(newPassword)
    ensures r == Failure(Mismatch) <==> signedIn && hasEmail && !IsBlank(current) && !IsBlank(newPassword) && Trim(newPassword) != Trim(confirm)
    ensures r == Failure(TooWeak) <==>
              signedIn && hasEmail && !IsBlank(current) && !IsBlank(newPassword) && Trim(newPassword) == Trim(confirm)
              && !MeetsPolicy(Trim(newPassword))
    ensures r.Success? ==> r.value == Change(Trim(current), Trim(newPassword)) && MeetsPolicy(r.value.newPassword)
  {
    PatternIsPolicy(Trim(newPassword));
    if !signedIn || !hasEmail then Failure(NotSignedIn)
    else if Trim(current) == [] then Failure(CurrentRequired)
    else if Trim(newPassword) == [] then Failure(NewRequired)
    else if Trim(newPassword) != Trim(confirm) then Failure(Mismatch)
    else if !MatchesPasswordPattern(Trim(newPassword)) then Failure(TooWeak)
    else Success(Change(Trim(current), Trim(newPassword)))
  }

  /** How the attempt ends. */
  datatype Outcome = Rejected(reason: Rejection) | WrongCurrentPassword | UpdateFailed | Updated(password: string)

  /**
   * The whole attempt: `reauthOk` is whether re-authentication with the current password
   * succeeds, `updateOk` whether the update that follows it does.
   */
  function ChangePasswordOn(signedIn: bool, hasEmail: bool, current: string, newPassword: string, confirm: string, reauthOk: bool, updateOk: bool): (o: Outcome)
    ensures o.Updated? <==> Validate(signedIn, hasEmail, current, newPassword, confirm).Success? && reauthOk && updateOk
    ensures o.Updated? ==> o.password == Trim(newPassword) && MeetsPolicy(o.password)
    ensures o == WrongCurrentPassword <==> Validate(signedIn, hasEmail, current, newPassword, confirm).Success? && !reauthOk
    ensures o.Rejected? <==> Validate(signedIn, hasEmail, current, newPassword, confirm).Failure?
    ensures o.Rejected? ==> o.reason == Validate(signedIn, hasEmail, current, newPassword, confirm).error
  {
    match Validate(signedIn, hasEmail, current, newPassword, confirm)
    case Failure(reason) => Rejected(reason)
    case Success(change) =>
      if !reauthOk then WrongCurrentPassword
      else if !updateOk then UpdateFailed
      else Updated(change.newPassword)
  }

  /** The account's password afterwards: replaced only by an update that succeeded. */
  function PasswordAfter(password: string, o: Outcome): (p: string)
    ensures !o.Updated? ==> p == password
  {
    if o.Updated? then o.password else password
  }

  /** A failed re-authentication leaves the password as it was, however valid the new one. */
  lemma WrongCurrentPasswordKeepsPassword(password: string, current: string, newPassword: string, updateOk: bool)
    ensures PasswordAfter(password, ChangePasswordOn(true, true, current, newPassword, newPassword, false, updateOk)) == password
  {
  }
}
