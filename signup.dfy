/** The sign-up form of src/pages/SignupPage.tsx (lines 133-168 and the
    bindings that use them): the e-mail and password validators, form
    validity, and the `update` and `handleSubmit` handlers. */
module Signup {
  import opened Common
  import opened Navigation

  /** A character of the class `[^\s@]`. */
  predicate EmailChar(c: char) {
    !IsSpace(c) && c != '@'
  }

  /** The reference reading of `/^[^\s@]+@[^\s@]+\.[^\s@]+$/`: some `@` at `i`
      and `.` at `j` split the string into three non-empty runs of `[^\s@]`. */
  ghost predicate MatchesEmailPattern(s: string) {
    exists i, j :: 0 < i && i + 1 < j && j + 1 < |s| && s[i] == '@' && s[j] == '.' &&
      forall k :: 0 <= k < |s| && k != i ==> EmailChar(s[k])
  }

  /** The index of the first `c` in `s`, or -1. */
  function IndexOf(s: string, c: char): (r: int)
    ensures -1 <= r < |s|
    ensures r >= 0 ==> s[r] == c && forall k :: 0 <= k < r ==> s[k] != c
    ensures r == -1 ==> forall k :: 0 <= k < |s| ==> s[k] != c
  {
    if s == [] then -1
    else if s[0] == c then 0
    else var r := IndexOf(s[1..], c); if r == -1 then -1 else r + 1
  }

  /** The e-mail shape stated directly: no whitespace, exactly one `@` with
      something before it, and a `.` strictly inside the part after it. */
  predicate EmailShape(s: string) {
    var i := IndexOf(s, '@');
    && i > 0
    && NoSpace(s)
    && (forall k :: i < k < |s| ==> s[k] != '@')
    && exists j :: i + 1 < j < |s| - 1 && s[j] == '.'
  }

  /** The direct statement of the shape agrees with the pattern. */
  lemma EmailShapeIffPattern(s: string)
    ensures EmailShape(s) <==> MatchesEmailPattern(s)
  {
    if EmailShape(s) {
      var i := IndexOf(s, '@');
      var j :| i + 1 < j < |s| - 1 && s[j] == '.';
      assert forall k :: 0 <= k < |s| && k != i ==> EmailChar(s[k]);
    }
    if MatchesEmailPattern(s) {
      var i, j :| 0 < i && i + 1 < j && j + 1 < |s| && s[i] == '@' && s[j] == '.' &&
        forall k :: 0 <= k < |s| && k != i ==> EmailChar(s[k]);
      var r := IndexOf(s, '@');
      assert r == i;
      assert forall k :: 0 <= k < |s| ==> !IsSpace(s[k]);
    }
  }

  /** `isEmailValid`: only judged once something has been typed. */
  predicate IsEmailValid(username: string) {
    username == "" || EmailShape(username)
  }

  predicate IsAsciiLetter(c: char) { 'A' <= c <= 'Z' || 'a' <= c <= 'z' }
  predicate IsDigit(c: char) { '0' <= c <= '9' }
  predicate IsSpecial(c: char) { c == '!' || c == '%' || c == '*' || c == '#' || c == '?' || c == '&' }

  /** `passwordRules`. */
  datatype PasswordRules = PasswordRules(length: bool, letter: bool, number: bool, special: bool)

  function Rules(password: string): PasswordRules {
    PasswordRules(
      Utf16Length(password) >= 8,
      exists i :: 0 <= i < |password| && IsAsciiLetter(password[i]),
      exists i :: 0 <= i < |password| && IsDigit(password[i]),
      exists i :: 0 <= i < |password| && IsSpecial(password[i]))
  }

  /** `Object.values(passwordRules).every(Boolean)`. */
  predicate IsPasswordValid(password: string) {
    var r := Rules(password);
    r.length && r.letter && r.number && r.special
  }

  datatype SignupForm = SignupForm(username: string, name: string, password: string, confirmPassword: string)

  const EmptyForm := SignupForm("", "", "", "")

  /** `isPasswordMatch`: the mismatch warning is suppressed while the confirmation is empty. */
  predicate IsPasswordMatch(f: SignupForm) {
    f.confirmPassword == "" || f.password == f.confirmPassword
  }

  /** `isFormValid`. */
  predicate IsFormValid(f: SignupForm) {
    && Trim(f.username) != ""
    && IsEmailValid(f.username)
    && Trim(f.name) != ""
    && IsPasswordValid(f.password)
    && f.confirmPassword != ""
    && f.password == f.confirmPassword
  }

  /** The username checks of `isFormValid` together accept exactly the
      e-mail pattern: the empty username that `isEmailValid` lets through is
      refused by the trim check. */
  lemma UsernameAcceptedIffPattern(u: string)
    ensures Trim(u) != "" && IsEmailValid(u) <==> MatchesEmailPattern(u)
  {
    TrimEmptyIffBlank(u);
    EmailShapeIffPattern(u);
    if MatchesEmailPattern(u) {
      assert !IsSpace(u[0]);
    }
  }

  /** A submittable form has a username of e-mail shape, a name with a
      non-blank character, a password of at least eight characters with a
      letter, a digit and a special character, and a matching confirmation;
      no warning is shown on it. */
  lemma ValidFormSpec(f: SignupForm)
    ensures IsFormValid(f) <==>
      && MatchesEmailPattern(f.username)
      && !IsBlank(f.name)
      && IsPasswordValid(f.password)
      && f.confirmPassword == f.password
    ensures IsFormValid(f) ==> IsEmailValid(f.username) && IsPasswordMatch(f)
  {
    UsernameAcceptedIffPattern(f.username);
    TrimEmptyIffBlank(f.name);
  }

  /** A checklist item, once met, stays met however the password is extended
      at either end: typing more never unticks a rule, so a valid password
      stays valid. */
  lemma PasswordRulesPersist(p: string, before: string, after: string)
    ensures var q := before + p + after;
      && (Rules(p).length ==> Rules(q).length)
      && (Rules(p).letter ==> Rules(q).letter)
      && (Rules(p).number ==> Rules(q).number)
      && (Rules(p).special ==> Rules(q).special)
      && (IsPasswordValid(p) ==> IsPasswordValid(q))
  {
    var q := before + p + after;
    Utf16LengthConcat(before, p);
    Utf16LengthConcat(before + p, after);
    assert forall i :: 0 <= i < |p| ==> q[|before| + i] == p[i];
    if Rules(p).letter {
      var i :| 0 <= i < |p| && IsAsciiLetter(p[i]);
      assert IsAsciiLetter(q[|before| + i]);
    }
    if Rules(p).number {
      var i :| 0 <= i < |p| && IsDigit(p[i]);
      assert IsDigit(q[|before| + i]);
    }
    if Rules(p).special {
      var i :| 0 <= i < |p| && IsSpecial(p[i]);
      assert IsSpecial(q[|before| + i]);
    }
  }

  /** The length rule counts UTF-16 code units, as `String.length` does: four
      emoji, a letter, a digit and `!` are seven characters yet eleven units,
      so the password passes every rule. */
  lemma AstralPasswordLength()
    ensures var p := "\U{1F600}\U{1F600}\U{1F600}\U{1F600}a1!";
      |p| == 7 && Utf16Length(p) == 11 && IsPasswordValid(p)
  {
    var p := "\U{1F600}\U{1F600}\U{1F600}\U{1F600}a1!";
    assert IsAsciiLetter(p[4]) && IsDigit(p[5]) && IsSpecial(p[6]);
  }

  /** The submit button's `disabled`. */
  predicate SubmitDisabled(f: SignupForm, pending: bool) {
    !IsFormValid(f) || pending
  }

  /** The rule checklist is rendered while `form.password` is truthy. */
  predicate ShowRuleList(f: SignupForm) {
    f.password != ""
  }

  /** The checklist is only shown once a password has been typed, and the
      button is enabled exactly when the form is valid and no request is pending. */
  lemma BindingsSpec(f: SignupForm, pending: bool)
    ensures !SubmitDisabled(f, pending) <==> IsFormValid(f) && !pending
    ensures IsFormValid(f) ==> ShowRuleList(f)
  {
    if IsFormValid(f) {
      assert Utf16Length(f.password) >= 8;
    }
  }

  datatype Field = Username | Name | Password | ConfirmPassword

  function WithField(f: SignupForm, field: Field, value: string): SignupForm {
    match field
    case Username => f.(username := value)
    case Name => f.(name := value)
    case Password => f.(password := value)
    case ConfirmPassword => f.(confirmPassword := value)
  }

  const SignupFailed := "Sign up failed. Please try again."

  class SignupPage {
    var form: SignupForm
    var error: string

    constructor ()
      ensures form == EmptyForm && error == ""
    {
      form := EmptyForm;
      error := "";
    }

    /** `update(field)(e)`: one field takes the typed value. */
    method Update(field: Field, value: string)
      modifies this
      ensures form == WithField(old(form), field, value)
      ensures error == old(error)
    {
      form := WithField(form, field, value);
    }

    /** `handleSubmit`: an invalid form changes nothing and sends nothing;
        a valid one clears the error and sends the whole form. */
    method HandleSubmit() returns (request: Option<SignupForm>)
      modifies this
      ensures form == old(form)
      ensures request == if IsFormValid(old(form)) then Some(old(form)) else None
      ensures error == if request.Some? then "" else old(error)
    {
      var valid := IsFormValid(form);
      request := if valid then Some(form) else None;
      if valid {
        error := "";
      }
    }

    /** The mutation's `onError`. */
    method OnSignupError()
      modifies this
      ensures error == SignupFailed && form == old(form)
    {
      error := SignupFailed;
    }

    /** The mutation's `onSuccess`: go to the login page (pushing a history entry). */
    method OnSignupSuccess() returns (nav: Effect)
      ensures nav == Navigate(LoginPath, false)
    {
      nav := Navigate(LoginPath, false);
    }
  }
}
