/**
 * The sign-in page: the `.edu` email validator, the password rules of the
 * form, the redirect for a signed-in user, and the submit and tab handlers.
 */
module AuthPage {
  import opened Wrappers
  import opened Session
  import opened Text
  import opened AuthContext

  const EduSuffix: string := ".edu"
  const EmailRequired: string := "Email is required"
  const EduOnly: string := "Only .edu email addresses are allowed"
  const InvalidFormat: string := "Invalid email format"
  const PasswordRequired: string := "Password is required"
  const PasswordTooShort: string := "Password must be at least 6 characters"

  const LoginTab: string := "login"
  const SignupTab: string := "signup"
  const ExplorePath: string := "/explore"

  /** `[^\s@]`: any character but whitespace and '@'. */
  predicate PlainChar(c: char) {
    !IsJsWhitespace(c) && c != '@'
  }

  /** `[^\s@]+`. */
  predicate PlainRun(t: string) {
    |t| > 0 && forall k :: 0 <= k < |t| ==> PlainChar(t[k])
  }

  /**
   * The regular expression `^[^\s@]+@[^\s@]+\.[^\s@]+$` read literally: a
   * run, '@', a run, '.', a run, with nothing before or after.
   */
  ghost predicate MatchesEmailPattern(s: string)
    ensures MatchesEmailPattern(s) ==> |s| >= 5 && s[0] != '@' && s[|s| - 1] != '@'
  {
    exists i, j :: 0 <= i < j < |s| && s[i] == '@' && s[j] == '.' &&
      PlainRun(s[..i]) && PlainRun(s[i + 1..j]) && PlainRun(s[j + 1..])
  }

  /**
   * The same language described by its shape: no whitespace, exactly one
   * '@', a non-empty local part, and a '.' in the domain with text on both sides.
   */
  predicate WellFormedEmail(s: string) {
    && (forall k :: 0 <= k < |s| ==> !IsJsWhitespace(s[k]))
    && exists i :: 0 < i < |s| && s[i] == '@' &&
         (forall k :: 0 <= k < |s| && s[k] == '@' ==> k == i) &&
         (exists j :: i + 1 < j < |s| - 1 && s[j] == '.')
  }

  lemma ShapeGivesPattern(s: string, i: int, j: int)
    requires forall k :: 0 <= k < |s| ==> !IsJsWhitespace(s[k])
    requires 0 < i && i + 1 < j < |s| - 1 && s[i] == '@' && s[j] == '.'
    requires forall k :: 0 <= k < |s| && s[k] == '@' ==> k == i
    ensures MatchesEmailPattern(s)
  {
    var a, b, c := s[..i], s[i + 1..j], s[j + 1..];
    assert forall k :: 0 <= k < |a| ==> a[k] == s[k];
    assert forall k :: 0 <= k < |b| ==> b[k] == s[i + 1 + k];
    assert forall k :: 0 <= k < |c| ==> c[k] == s[j + 1 + k];
    assert PlainRun(a) && PlainRun(b) && PlainRun(c);
  }

  lemma PatternGivesShape(s: string, i: int, j: int)
    requires 0 <= i < j < |s| && s[i] == '@' && s[j] == '.'
    requires PlainRun(s[..i]) && PlainRun(s[i + 1..j]) && PlainRun(s[j + 1..])
    ensures WellFormedEmail(s)
  {
    var a, b, c := s[..i], s[i + 1..j], s[j + 1..];
    forall k | 0 <= k < |s|
      ensures PlainChar(s[k]) || k == i || k == j
    {
      if k < i {
        assert s[k] == a[k];
      } else if i < k < j {
        assert s[k] == b[k - i - 1];
      } else if j < k {
        assert s[k] == c[k - j - 1];
      }
    }
    assert !IsJsWhitespace('@') && !IsJsWhitespace('.');
    assert forall k :: 0 <= k < |s| && s[k] == '@' ==> k == i;
    assert i + 1 < j < |s| - 1;
  }

  /** The shape description and the regular expression accept the same strings. */
  lemma EmailPatternEquivalence(s: string)
    ensures WellFormedEmail(s) <==> MatchesEmailPattern(s)
  {
    if WellFormedEmail(s) {
      var i :| 0 < i < |s| && s[i] == '@' &&
        (forall k :: 0 <= k < |s| && s[k] == '@' ==> k == i) &&
        (exists j :: i + 1 < j < |s| - 1 && s[j] == '.');
      var j :| i + 1 < j < |s| - 1 && s[j] == '.';
      ShapeGivesPattern(s, i, j);
    }
    if MatchesEmailPattern(s) {
      var i, j :| 0 <= i < j < |s| && s[i] == '@' && s[j] == '.' &&
        PlainRun(s[..i]) && PlainRun(s[i + 1..j]) && PlainRun(s[j + 1..]);
      PatternGivesShape(s, i, j);
    }
  }

  datatype EmailCheck = Valid | Invalid(message: string)

  /**
   * `validateEmail`: emptiness first, then the `.edu` suffix, then the
   * pattern; the first failing check decides the message.
   */
  function ValidateEmail(email: string): (r: EmailCheck)
    ensures email == [] ==> r == Invalid(EmailRequired)
    ensures email != [] && !EndsWith(email, EduSuffix) ==> r == Invalid(EduOnly)
    ensures EndsWith(email, EduSuffix) && !MatchesEmailPattern(email) ==> r == Invalid(InvalidFormat)
    ensures r == Valid <==> EndsWith(email, EduSuffix) && MatchesEmailPattern(email)
    ensures r == Valid ==> WellFormedEmail(email)
  {
    EmailPatternEquivalence(email);
    if email == [] then Invalid(EmailRequired)
    else if !EndsWith(email, EduSuffix) then Invalid(EduOnly)
    else if !WellFormedEmail(email) then Invalid(InvalidFormat)
    else Valid
  }

  /** The email field's rules: `required`, then `validate: validateEmail`. */
  function EmailFieldError(email: string): (r: Option<string>)
    ensures r.None? <==> ValidateEmail(email) == Valid
    ensures r.Some? ==> r == Some(ValidateEmail(email).message)
  {
    if email == [] then Some(EmailRequired)
    else match ValidateEmail(email)
      case Valid => None
      case Invalid(message) => Some(message)
  }

  /** The password field's rules on both tabs: `required`, then `minLength: 6`. */
  function PasswordFieldError(password: string): (r: Option<string>)
    ensures r.None? <==> PasswordAccepted(password)
    ensures password == [] ==> r == Some(PasswordRequired)
    ensures password != [] && r.Some? ==> r == Some(PasswordTooShort)
  {
    if password == [] then Some(PasswordRequired)
    else if Utf16Length(password) < MinPasswordLength then Some(PasswordTooShort)
    else None
  }

  /** The form values; `name` is registered only on the sign-up tab. */
  datatype FormData = FormData(email: string, password: string, name: Option<string>)

  const EmptyForm: FormData := FormData("", "", None)

  datatype FieldErrors = FieldErrors(email: Option<string>, password: Option<string>) {
    predicate None() { email.None? && password.None? }
  }

  function FormErrors(data: FormData): FieldErrors {
    FieldErrors(EmailFieldError(data.email), PasswordFieldError(data.password))
  }

  /** What `onSubmit` asks of the auth provider: `login` on the login tab, `signup` on any other. */
  function Attempt(tab: string, data: FormData, now: nat): (r: Option<User>)
    ensures tab == LoginTab ==> r == AttemptLogin(data.email, data.password, now)
    ensures tab != LoginTab ==> r == AttemptSignup(data.email, data.password, data.name, now)
  {
    if tab == LoginTab then AttemptLogin(data.email, data.password, now)
    else AttemptSignup(data.email, data.password, data.name, now)
  }

  /** A form that passes its own validation is always accepted by the provider, on either tab. */
  lemma ValidFormIsAccepted(tab: string, data: FormData, now: nat)
    requires FormErrors(data).None()
    ensures Attempt(tab, data, now).Some?
  {
  }

  datatype AuthView = RedirectTo(path: string, replace: bool) | ShowForm

  /** A signed-in user never sees the form: they are sent to /explore, replacing the history entry. */
  function View(user: Option<User>): (v: AuthView)
    ensures v.ShowForm? <==> user.None?
    ensures v.RedirectTo? ==> v == RedirectTo(ExplorePath, true)
  {
    if user.Some? then RedirectTo(ExplorePath, true) else ShowForm
  }

  class AuthScreen {
    var activeTab: string
    var isSubmitting: bool
    var error: Option<string>
    /** The values react-hook-form holds for the registered inputs. */
    var values: FormData

    constructor ()
      ensures activeTab == LoginTab && !isSubmitting && error == None && values == EmptyForm
    {
      activeTab := LoginTab;
      isSubmitting := false;
      error := None;
      values := EmptyForm;
    }

    /** Typing into the registered inputs. */
    method EnterValues(data: FormData)
      modifies this`values
      ensures values == data
    {
      values := data;
    }

    /** `handleTabChange`: switch tab, clear the error, reset the form. */
    method HandleTabChange(value: string)
      modifies this`activeTab, this`error, this`values
      ensures activeTab == value && error == None && values == EmptyForm
    {
      activeTab := value;
      error := None;
      values := EmptyForm;
    }

    /** `onSubmit`: dispatch on the tab, navigate to /explore only on success. */
    method OnSubmit(auth: AuthProvider, data: FormData, now: nat) returns (navigateTo: Option<string>)
      modifies this`error, this`isSubmitting, auth`user, auth.storage
      ensures error == None && !isSubmitting
      ensures navigateTo == (if Attempt(activeTab, data, now).Some? then Some(ExplorePath) else None)
      ensures var attempt := Attempt(activeTab, data, now);
        && auth.user == (if attempt.Some? then attempt else old(auth.user))
        && auth.storage.entries ==
             (if attempt.Some? then old(auth.storage.entries)[UserKey := UserRecord(attempt.value)]
              else old(auth.storage.entries))
    {
      error := None;
      isSubmitting := true;
      var success;
      if activeTab == LoginTab {
        success := auth.Login(data.email, data.password, now);
      } else {
        success := auth.Signup(data.email, data.password, data.name, now);
      }
      navigateTo := if success then Some(ExplorePath) else None;
      isSubmitting := false;
    }

    /** `handleSubmit(onSubmit)`: field rules first; `onSubmit` runs only when every field passes. */
    method HandleSubmit(auth: AuthProvider, now: nat) returns (errors: FieldErrors, navigateTo: Option<string>)
      modifies this`error, this`isSubmitting, auth`user, auth.storage
      ensures errors == FormErrors(values)
      ensures !errors.None() ==>
        (navigateTo == None && auth.user == old(auth.user) &&
         auth.storage.entries == old(auth.storage.entries) && error == old(error) &&
         isSubmitting == old(isSubmitting))
      ensures errors.None() ==>
        (navigateTo == Some(ExplorePath) && error == None && !isSubmitting &&
         auth.user == Attempt(activeTab, values, now) &&
         auth.storage.entries == old(auth.storage.entries)[UserKey := UserRecord(auth.user.value)])
    {
      errors := FormErrors(values);
      if !errors.None() {
        navigateTo := None;
        return;
      }
      ValidFormIsAccepted(activeTab, values, now);
      navigateTo := OnSubmit(auth, values, now);
    }
  }

  lemma EmailExamples()
    ensures ValidateEmail("") == Invalid(EmailRequired)
    ensures ValidateEmail("not an address") == Invalid(EduOnly)
    ensures ValidateEmail("ann@uci.com") == Invalid(EduOnly)
    ensures ValidateEmail("ann lee@uci.edu") == Invalid(InvalidFormat)
    ensures ValidateEmail("ann@uci.edu") == Valid
  {
    assert EndsWith("ann@uci.edu", EduSuffix);
    assert WellFormedEmail("ann@uci.edu") by {
      var s := "ann@uci.edu";
      assert s[3] == '@' && s[7] == '.';
      assert forall k :: 0 <= k < |s| && s[k] == '@' ==> k == 3;
    }
    assert !WellFormedEmail("ann lee@uci.edu") by {
      assert IsJsWhitespace("ann lee@uci.edu"[3]);
    }
  }
}
