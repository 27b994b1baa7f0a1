/** The sign-up form (src/pages/Signup.tsx): four fields, each validated
    on submit, and each error cleared as soon as its field is edited. */
module Signup {
  import opened Text

  datatype Form = Form(name: string, email: string, password: string, confirmPassword: string)

  /** One message per field; "" means no error. */
  datatype Errors = Errors(name: string, email: string, password: string, confirmPassword: string)

  datatype Field = NameField | EmailField | PasswordField | ConfirmPasswordField

  const NoErrors := Errors("", "", "", "")

  const NameRequired := "Name is required"
  const EmailRequired := "Email is required"
  const EmailInvalid := "Email is invalid"
  const PasswordRequired := "Password is required"
  const PasswordTooShort := "Password must be at least 8 characters"
  const ConfirmRequired := "Please confirm your password"
  const PasswordsDiffer := "Passwords do not match"

  /** `s[lo..hi]` lies within `s` and holds no whitespace (`\S*`). */
  predicate NonSpaceRun(s: string, lo: int, hi: int) {
    0 <= lo <= hi <= |s| && forall k :: lo <= k < hi ==> !IsSpace(s[k])
  }

  /** `\S+@\S+\.\S+` matches `s[i..e]`, with the `@` at `at` and the `.` at `dot`. */
  ghost predicate EmailRegexMatchesAt(s: string, i: int, at: int, dot: int, e: int) {
    && i < at && at + 1 < dot && dot + 1 < e
    && NonSpaceRun(s, i, at) && NonSpaceRun(s, at + 1, dot) && NonSpaceRun(s, dot + 1, e)
    && s[at] == '@' && s[dot] == '.'
  }

  /** The regular expression, unanchored, matches somewhere in `s`. */
  ghost predicate EmailRegexMatches(s: string) {
    exists i, at, dot, e :: EmailRegexMatchesAt(s, i, at, dot, e)
  }

  /** After the `@` at `at`: a non-space run up to a `.` followed by one
      more non-space character. */
  predicate DomainAfter(s: string, at: int) {
    exists dot :: 0 <= at && at + 1 < dot < |s| - 1 && s[dot] == '.' && NonSpaceRun(s, at + 1, dot + 2)
  }

  /** The shortest-match form used to evaluate the pattern: one non-space
      character before an `@`, then `DomainAfter`. */
  predicate LooksLikeEmail(s: string) {
    exists at :: 1 <= at < |s| && s[at] == '@' && NonSpaceRun(s, at - 1, at) && DomainAfter(s, at)
  }

  lemma {:induction false} LooksLikeEmailIsRegex(s: string)
    ensures LooksLikeEmail(s) <==> EmailRegexMatches(s)
  {
    if LooksLikeEmail(s) {
      var at :| 1 <= at < |s| && s[at] == '@' && NonSpaceRun(s, at - 1, at) && DomainAfter(s, at);
      var dot :| 0 <= at && at + 1 < dot < |s| - 1 && s[dot] == '.' && NonSpaceRun(s, at + 1, dot + 2);
      assert EmailRegexMatchesAt(s, at - 1, at, dot, dot + 2);
    }
    if EmailRegexMatches(s) {
      var i, at, dot, e :| EmailRegexMatchesAt(s, i, at, dot, e);
      assert !IsSpace(s[at - 1]) && !IsSpace(s[dot + 1]);
      assert NonSpaceRun(s, at + 1, dot + 2);
      assert DomainAfter(s, at);
    }
  }

  function NameError(name: string): (m: string)
    ensures m == NameRequired <==> forall i :: 0 <= i < |name| ==> IsSpace(name[i])
    ensures m == "" <==> exists i :: 0 <= i < |name| && !IsSpace(name[i])
  {
    if Trim(name) == "" then NameRequired else ""
  }

  function EmailError(email: string): (m: string)
    ensures email == "" ==> m == EmailRequired
    ensures email != "" ==> (m == EmailInvalid <==> !EmailRegexMatches(email))
    ensures m == "" <==> EmailRegexMatches(email)
  {
    LooksLikeEmailIsRegex(email);
    if email == "" then EmailRequired
    else if !LooksLikeEmail(email) then EmailInvalid
    else ""
  }

  function PasswordError(password: string): (m: string)
    ensures password == "" ==> m == PasswordRequired
    ensures 0 < |password| < 8 ==> m == PasswordTooShort
    ensures m == "" <==> |password| >= 8
  {
    if password == "" then PasswordRequired
    else if |password| < 8 then PasswordTooShort
    else ""
  }

  /** The "required" check takes precedence over the mismatch check. */
  function ConfirmPasswordError(password: string, confirm: string): (m: string)
    ensures confirm == "" ==> m == ConfirmRequired
    ensures confirm != "" && confirm != password ==> m == PasswordsDiffer
    ensures m == "" <==> confirm != "" && confirm == password
  {
    if confirm == "" then ConfirmRequired
    else if password != confirm then PasswordsDiffer
    else ""
  }

  datatype Validation = Validation(errors: Errors, valid: bool)

  /** `validateForm`: every field is checked, with no short circuit; the form
      is valid exactly when all four messages are empty. */
  function ValidateForm(f: Form): (v: Validation)
    ensures v.errors.name == NameError(f.name)
    ensures v.errors.email == EmailError(f.email)
    ensures v.errors.password == PasswordError(f.password)
    ensures v.errors.confirmPassword == ConfirmPasswordError(f.password, f.confirmPassword)
    ensures v.valid <==> v.errors == NoErrors
  {
    var errors := Errors(NameError(f.name), EmailError(f.email), PasswordError(f.password),
                         ConfirmPasswordError(f.password, f.confirmPassword));
    Validation(errors, errors == NoErrors)
  }

  /** A valid form has a non-blank name, a matching email, a password of at
      least eight characters, and an identical confirmation. */
  lemma ValidIff(f: Form)
    ensures ValidateForm(f).valid <==>
              && (exists i :: 0 <= i < |f.name| && !IsSpace(f.name[i]))
              && EmailRegexMatches(f.email)
              && |f.password| >= 8
              && f.confirmPassword == f.password
  {
  }

  /** The component state: what has been typed and the errors shown. */
  datatype FormState = FormState(form: Form, errors: Errors)

  function SetField(f: Form, field: Field, value: string): Form {
    match field
    case NameField => f.(name := value)
    case EmailField => f.(email := value)
    case PasswordField => f.(password := value)
    case ConfirmPasswordField => f.(confirmPassword := value)
  }

  function GetError(e: Errors, field: Field): string {
    match field
    case NameField => e.name
    case EmailField => e.email
    case PasswordField => e.password
    case ConfirmPasswordField => e.confirmPassword
  }

  function ClearError(e: Errors, field: Field): Errors {
    match field
    case NameField => e.(name := "")
    case EmailField => e.(email := "")
    case PasswordField => e.(password := "")
    case ConfirmPasswordField => e.(confirmPassword := "")
  }

  /** `handleChange`: stores the typed value and clears that field's error,
      leaving the other three errors as they were. */
  function HandleChange(s: FormState, field: Field, value: string): (r: FormState)
    ensures GetError(r.errors, field) == ""
    ensures forall g :: g != field ==> GetError(r.errors, g) == GetError(s.errors, g)
    ensures r.form == SetField(s.form, field, value)
  {
    FormState(SetField(s.form, field, value), ClearError(s.errors, field))
  }
}
