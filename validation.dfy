/**
 * The three field rules of the form (validationRules in
 * src/components/Form/DynamicForm.tsx). Each maps the raw text of a field to
 * an error message, or to None for `null` (valid).
 */
module Validation {
  import opened Wrappers
  import opened Types

  const NameRequired := "Name is required"
  const NameTooShort := "Name must be at least 2 characters"
  const EmailRequired := "Email is required"
  const EmailInvalid := "Email is invalid"
  const PasswordRequired := "Password is required"
  const PasswordTooShort := "Password must be at least 6 characters"
  const PasswordNoDigit := "Password must contain at least one number"

  /** The regular-expression class `\s`, restricted to ASCII. */
  predicate IsWhitespace(c: char)
  {
    c == ' ' || c == '\t' || c == '\n' || c == '\r' || c == '\U{B}' || c == '\U{C}'
  }

  /** The regular-expression class `\d`: an ASCII digit. */
  predicate IsDigit(c: char)
  {
    '0' <= c <= '9'
  }

  /** `/\d/.test(s)` */
  predicate HasDigit(s: string)
  {
    exists i :: 0 <= i < |s| && IsDigit(s[i])
  }

  /**
   * An occurrence of `\S+@\S+\.\S+` in `s` with its `@` at `a` and its `.` at
   * `b`: a non-whitespace character before `a`, a non-empty run of
   * non-whitespace between them and a non-whitespace character after `b`.
   * Longer runs on either side add nothing to whether the pattern occurs.
   */
  predicate EmailAt(s: string, a: int, b: int)
  {
    0 < a && a + 1 < b && b + 1 < |s| &&
    s[a] == '@' && !IsWhitespace(s[a - 1]) &&
    (forall i :: a < i < b ==> !IsWhitespace(s[i])) &&
    s[b] == '.' && !IsWhitespace(s[b + 1])
  }

  /** `/\S+@\S+\.\S+/.test(s)`: the pattern is not anchored, so it may occur anywhere. */
  predicate ContainsEmailPattern(s: string)
  {
    exists a, b :: 0 <= a < b < |s| && EmailAt(s, a, b)
  }

  /**
   * Reference reading of the pattern: `t` as a whole is non-whitespace text
   * `x@y.z` with `x`, `y` and `z` non-empty.
   */
  predicate IsEmailShaped(t: string)
  {
    (forall i :: 0 <= i < |t| ==> !IsWhitespace(t[i])) &&
    exists a, b :: 0 < a < b < |t| - 1 && a + 1 < b && t[a] == '@' && t[b] == '.'
  }

  function ValidateName(value: string): (error: Option<string>)
    ensures error == Some(NameRequired) <==> value == ""
    ensures error == Some(NameTooShort) <==> |value| == 1
    ensures error == None <==> |value| >= 2
  {
    if value == "" then Some(NameRequired)
    else if |value| < 2 then Some(NameTooShort)
    else None
  }

  function ValidateEmail(value: string): (error: Option<string>)
    ensures error == Some(EmailRequired) <==> value == ""
    ensures error == Some(EmailInvalid) <==> value != "" && !ContainsEmailPattern(value)
    ensures error == None <==> ContainsEmailPattern(value)
  {
    if value == "" then Some(EmailRequired)
    else if !ContainsEmailPattern(value) then Some(EmailInvalid)
    else None
  }

  function ValidatePassword(value: string): (error: Option<string>)
    ensures error == Some(PasswordRequired) <==> value == ""
    ensures error == Some(PasswordTooShort) <==> 0 < |value| < 6
    ensures error == Some(PasswordNoDigit) <==> |value| >= 6 && !HasDigit(value)
    ensures error == None <==> |value| >= 6 && HasDigit(value)
  {
    if value == "" then Some(PasswordRequired)
    else if |value| < 6 then Some(PasswordTooShort)
    else if !HasDigit(value) then Some(PasswordNoDigit)
    else None
  }

  /** `validateField`: every field has a rule, and every message is a non-empty (truthy) string. */
  function Validate(field: Field, value: string): (error: Option<string>)
    ensures error.Some? ==> error.value != ""
    ensures error == None <==>
      match field
      case Name => |value| >= 2
      case Email => ContainsEmailPattern(value)
      case Password => |value| >= 6 && HasDigit(value)
  {
    match field
    case Name => ValidateName(value)
    case Email => ValidateEmail(value)
    case Password => ValidatePassword(value)
  }

  /**
   * The unanchored search agrees with its reference reading: the pattern occurs
   * in `s` exactly when some slice of `s` is email-shaped.
   */
  lemma {:induction false} EmailSearchFindsShapedSlice(s: string)
    ensures ContainsEmailPattern(s) <==>
      exists i, j :: 0 <= i <= j <= |s| && IsEmailShaped(s[i..j])
  {
    if ContainsEmailPattern(s) {
      var a, b :| 0 <= a < b < |s| && EmailAt(s, a, b);
      var t := s[a - 1..b + 2];
      forall k | 0 <= k < |t| ensures !IsWhitespace(t[k]) {
        assert t[k] == s[a - 1 + k];
      }
      assert t[1] == '@' && t[b - a + 1] == '.';
      assert IsEmailShaped(t);
    }
    if exists i, j :: 0 <= i <= j <= |s| && IsEmailShaped(s[i..j]) {
      var i, j :| 0 <= i <= j <= |s| && IsEmailShaped(s[i..j]);
      var t := s[i..j];
      var a, b :| 0 < a < b < |t| - 1 && a + 1 < b && t[a] == '@' && t[b] == '.';
      assert t[a - 1] == s[i + a - 1] && t[b + 1] == s[i + b + 1];
      forall k | i + a < k < i + b ensures !IsWhitespace(s[k]) {
        assert s[k] == t[k - i];
      }
      assert EmailAt(s, i + a, i + b);
    }
  }

  /** Once the pattern occurs, surrounding text cannot remove it. */
  lemma {:induction false} EmailSearchIgnoresSurroundings(p: string, s: string, q: string)
    requires ContainsEmailPattern(s)
    ensures ContainsEmailPattern(p + s + q)
  {
    var a, b :| 0 <= a < b < |s| && EmailAt(s, a, b);
    var u := p + s + q;
    forall k | 0 <= k < |s| ensures u[|p| + k] == s[k] { }
    assert EmailAt(u, |p| + a, |p| + b);
  }

  /** Examples of the email rule: "a@b.co" is accepted, "not-an-email" is not. */
  lemma EmailExamples()
    ensures ValidateEmail("a@b.co") == None
    ensures ValidateEmail("not-an-email") == Some(EmailInvalid)
    ensures ValidateEmail("a @b.co") == Some(EmailInvalid)
    ensures ValidateEmail("") == Some(EmailRequired)
  {
    assert EmailAt("a@b.co", 1, 3);
    var s := "a @b.co";
    forall a, b | 0 <= a < b < |s| ensures !EmailAt(s, a, b) { }
  }

  /** Examples of the password rule, in its check order. */
  lemma PasswordExamples()
    ensures ValidatePassword("abc123") == None
    ensures ValidatePassword("abc12") == Some(PasswordTooShort)
    ensures ValidatePassword("abcdef") == Some(PasswordNoDigit)
  {
    assert IsDigit("abc123"[3]);
  }
}
