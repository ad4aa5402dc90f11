/** The register screen's form validator: field rules applied in order into an error
    dictionary, where a later rule for the same field overwrites an earlier message. */
module Register {
  import opened Strings

  datatype RegisterForm = RegisterForm(username: string, email: string, password: string,
                                       confirmPassword: string)

  /** The keys `validate()` may set in its error dictionary. */
  datatype Field = Username | Email | Password | ConfirmPassword

  const UsernameRequired: string := "Username is required"
  const EmailRequired: string := "Email is required"
  const EmailInvalid: string := "Email is invalid"
  const PasswordRequired: string := "Password is required"
  const PasswordTooShort: string := "Password must be at least 6 characters"
  const PasswordsDiffer: string := "Passwords do not match"

  /** A match of the regular-expression term `\S+`: one or more non-white-space characters. */
  predicate IsNonBlankRun(s: string) {
    s != [] && forall i :: 0 <= i < |s| ==> !IsWhitespace(s[i])
  }

  /** `s[start..end]` is a run, an '@' at `at`, a run, a '.' at `dot`, and a run. */
  predicate IsEmailMatchAt(s: string, start: int, at: int, dot: int, end: int) {
    && 0 <= start < at < dot < end <= |s|
    && IsNonBlankRun(s[start..at])
    && s[at] == '@'
    && IsNonBlankRun(s[at + 1..dot])
    && s[dot] == '.'
    && IsNonBlankRun(s[dot + 1..end])
  }

  /** `/\S+@\S+\.\S+/.test(s)`. The pattern is not anchored, so `s` matches when some
      substring of it has that shape. */
  predicate MatchesEmailPattern(s: string) {
    exists start, at, dot, end | 0 <= start < at < dot < end <= |s| :: IsEmailMatchAt(s, start, at, dot, end)
  }

  /** A blank string never matches the pattern: the "required" message for a blank email
      is always overwritten by the "invalid" one. */
  lemma BlankFailsEmailPattern(s: string)
    ensures Trim(s) == "" ==> !MatchesEmailPattern(s)
  {
    TrimEmptyIffBlank(s);
  }

  /** A matching string contains an '@' followed, later on, by a '.'. */
  lemma EmailPatternHasAtThenDot(s: string)
    requires MatchesEmailPattern(s)
    ensures exists at, dot :: 0 <= at < dot < |s| && s[at] == '@' && s[dot] == '.'
  {
    var start, at, dot, end :| IsEmailMatchAt(s, start, at, dot, end);
  }

  /** The match need not cover the whole string: any text around a matching string
      still matches. */
  lemma UnanchoredMatch(p: string, s: string, q: string)
    requires MatchesEmailPattern(s)
    ensures MatchesEmailPattern(p + s + q)
  {
    var start, at, dot, end := PickMatch(s);
    MatchAtShifts(p, s, q, start, at, dot, end);
    MatchAtMatches(p + s + q, |p| + start, |p| + at, |p| + dot, |p| + end);
  }

  /** The positions of some match of a matching string. */
  lemma PickMatch(s: string) returns (start: int, at: int, dot: int, end: int)
    requires MatchesEmailPattern(s)
    ensures IsEmailMatchAt(s, start, at, dot, end)
  {
    start, at, dot, end :| 0 <= start < at < dot < end <= |s| && IsEmailMatchAt(s, start, at, dot, end);
  }

  /** A string with a match at some positions matches the pattern. */
  lemma MatchAtMatches(s: string, start: int, at: int, dot: int, end: int)
    requires IsEmailMatchAt(s, start, at, dot, end)
    ensures MatchesEmailPattern(s)
  {
  }

  /** A match at given positions of `s` is a match of `p + s + q`, shifted by `|p|`. */
  lemma MatchAtShifts(p: string, s: string, q: string, start: int, at: int, dot: int, end: int)
    requires IsEmailMatchAt(s, start, at, dot, end)
    ensures IsEmailMatchAt(p + s + q, |p| + start, |p| + at, |p| + dot, |p| + end)
  {
    var t, n := p + s + q, |p|;
    InfixSlice(p, s, q, start, at);
    InfixSlice(p, s, q, at + 1, dot);
    InfixSlice(p, s, q, dot + 1, end);
    assert t[n + at] == s[at] && t[n + dot] == s[dot];
  }

  /** A slice of `s` is the same slice of `p + s + q`, shifted by `|p|`. */
  lemma InfixSlice(p: string, s: string, q: string, i: int, j: int)
    requires 0 <= i <= j <= |s|
    ensures |p + s + q| == |p| + |s| + |q|
    ensures (p + s + q)[|p| + i..|p| + j] == s[i..j]
  {
    var t := p + s + q;
    assert forall k :: 0 <= k < j - i ==> t[|p| + i..|p| + j][k] == s[i..j][k];
  }

  /** For instance, text with a space before the address still passes. */
  lemma SpacedTextMatches()
    ensures MatchesEmailPattern("my mail@site.org")
  {
    assert IsEmailMatchAt("my mail@site.org", 3, 7, 12, 16);
  }

  /** Every rule of `validate()` passes. */
  predicate PassesAllRules(form: RegisterForm) {
    && Trim(form.username) != ""
    && MatchesEmailPattern(form.email)
    && Utf16Length(form.password) >= 6
    && form.password == form.confirmPassword
  }

  /** What a form that passes validation looks like. */
  lemma PassingFormShape(form: RegisterForm)
    requires PassesAllRules(form)
    ensures exists i :: 0 <= i < |form.username| && !IsWhitespace(form.username[i])
    ensures exists at, dot :: 0 <= at < dot < |form.email| && form.email[at] == '@' && form.email[dot] == '.'
    ensures |form.password| >= 3 && Utf16Length(form.password) >= 6
    ensures form.password == form.confirmPassword
  {
    TrimEmptyIffBlank(form.username);
    EmailPatternHasAtThenDot(form.email);
  }

  /** The body of `validate()` once each rule's test has been evaluated: the rules are
      applied in order, each setting its field's message, so a later message for the same
      field replaces an earlier one. A blank email never matches and an empty password is
      always short, so the "required" messages for those two fields never survive. */
  method ApplyRules(usernameBlank: bool, emailBlank: bool, emailMatches: bool,
                    passwordEmpty: bool, passwordShort: bool, passwordsDiffer: bool)
    returns (valid: bool, errors: map<Field, string>)
    requires emailBlank ==> !emailMatches
    requires passwordEmpty ==> passwordShort
    ensures valid <==> errors == map[]
    ensures Username in errors <==> usernameBlank
    ensures Username in errors ==> errors[Username] == UsernameRequired
    ensures Email in errors <==> !emailMatches
    ensures Email in errors ==> errors[Email] == EmailInvalid
    ensures Password in errors <==> passwordShort
    ensures Password in errors ==> errors[Password] == PasswordTooShort
    ensures ConfirmPassword in errors <==> passwordsDiffer
    ensures ConfirmPassword in errors ==> errors[ConfirmPassword] == PasswordsDiffer
    ensures valid <==> !usernameBlank && emailMatches && !passwordShort && !passwordsDiffer
  {
    var newErrors: map<Field, string> := map[];
    if usernameBlank {
      newErrors := newErrors[Username := UsernameRequired];
    }
    if emailBlank {
      newErrors := newErrors[Email := EmailRequired];
    }
    if !emailMatches {
      newErrors := newErrors[Email := EmailInvalid];
    }
    if passwordEmpty {
      newErrors := newErrors[Password := PasswordRequired];
    }
    if passwordShort {
      newErrors := newErrors[Password := PasswordTooShort];
    }
    if passwordsDiffer {
      newErrors := newErrors[ConfirmPassword := PasswordsDiffer];
    }
    errors := newErrors;
    valid := |newErrors| == 0;
  }

  /** `validate()`: the username fails exactly when it trims to nothing; the email exactly
      when it does not match the pattern, always with the "invalid" message; the password
      exactly when it is shorter than six UTF-16 code units, always with the length
      message; the confirmation exactly when it differs from the password. The form is
      valid exactly when no message was recorded, that is when it passes every rule. */
  method Validate(form: RegisterForm) returns (valid: bool, errors: map<Field, string>)
    ensures valid <==> errors == map[]
    ensures Username in errors <==> Trim(form.username) == ""
    ensures Username in errors ==> errors[Username] == UsernameRequired
    ensures Email in errors <==> !MatchesEmailPattern(form.email)
    ensures Email in errors ==> errors[Email] == EmailInvalid
    ensures Password in errors <==> Utf16Length(form.password) < 6
    ensures Password in errors ==> errors[Password] == PasswordTooShort
    ensures ConfirmPassword in errors <==> form.password != form.confirmPassword
    ensures ConfirmPassword in errors ==> errors[ConfirmPassword] == PasswordsDiffer
    ensures valid <==> PassesAllRules(form)
  {
    var emailBlank := Trim(form.email) == "";
    if emailBlank {
      BlankFailsEmailPattern(form.email);
    }
    valid, errors := ApplyRules(Trim(form.username) == "", emailBlank,
                                MatchesEmailPattern(form.email), form.password == "",
                                Utf16Length(form.password) < 6,
                                form.password != form.confirmPassword);
  }
}
