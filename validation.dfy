/** The client-side validators: the e-mail shape `^[^\s@]+@[^\s@]+\.[^\s@]+$`
    (used by the settings save and the contact form), the contact form's
    10-digit mobile rule `^[0-9]{10}$`, and the settings-save gate. */
module Validation {
  import opened Wrappers
  import opened Text

  /** The character class `[^\s@]`. */
  predicate InEmailClass(c: char) {
    !IsJsWhitespace(c) && c != '@'
  }

  /** A whole-string match of `[^\s@]+@[^\s@]+\.[^\s@]+`: an `@` at `a` and a
      `.` at `b` split the string into three non-empty runs of `[^\s@]`
      (the `.` itself belongs to that class). */
  predicate EmailMatchAt(s: string, a: int, b: int) {
    && 0 < a && a + 1 < b && b + 1 < |s|
    && s[a] == '@' && s[b] == '.'
    && forall k :: 0 <= k < |s| && k != a ==> InEmailClass(s[k])
  }

  /** `emailRegex.test(s)`. */
  predicate IsValidEmail(s: string) {
    exists a, b :: 0 < a < b < |s| && EmailMatchAt(s, a, b)
  }

  predicate NoWhitespace(s: string) {
    forall k :: 0 <= k < |s| ==> !IsJsWhitespace(s[k])
  }

  /** `s[a]` is the one and only `@` of `s`. */
  predicate OnlyAtSign(s: string, a: int) {
    0 <= a < |s| && s[a] == '@' && forall k :: 0 <= k < |s| && s[k] == '@' ==> k == a
  }

  /** `d` contains a `.` that is neither its first nor its last character. */
  predicate HasInnerDot(d: string) {
    exists j :: 0 < j < |d| - 1 && d[j] == '.'
  }

  /** The reading of the e-mail rule in plain terms: no white space, exactly
      one `@`, a non-empty local part before it, and a domain after it with an
      inner dot. */
  predicate IsEmailShape(s: string) {
    NoWhitespace(s) && exists a :: 0 < a < |s| && OnlyAtSign(s, a) && a > 0 && HasInnerDot(s[a + 1..])
  }

  /** The regular expression accepts exactly the strings of that shape. */
  lemma EmailRegexMeansShape(s: string)
    ensures IsValidEmail(s) <==> IsEmailShape(s)
  {
    if IsValidEmail(s) {
      var a, b :| 0 < a < b < |s| && EmailMatchAt(s, a, b);
      assert OnlyAtSign(s, a);
      assert s[a + 1..][b - a - 1] == '.';
      assert HasInnerDot(s[a + 1..]);
    }
    if IsEmailShape(s) {
      var a :| 0 < a < |s| && OnlyAtSign(s, a) && a > 0 && HasInnerDot(s[a + 1..]);
      var d := s[a + 1..];
      var j :| 0 < j < |d| - 1 && d[j] == '.';
      assert s[a + 1 + j] == '.';
      assert EmailMatchAt(s, a, a + 1 + j);
    }
  }

  /** Three concrete cases of the rule. */
  lemma EmailExamples()
    ensures IsValidEmail("a@b.co")
    ensures !IsValidEmail("a@b")
    ensures !IsValidEmail("a b@c.d")
  {
    assert EmailMatchAt("a@b.co", 1, 3);
    EmailRegexMeansShape("a@b");
    var s := "a b@c.d";
    assert !InEmailClass(s[1]);
  }

  /** `^[0-9]{10}$`. */
  predicate IsValidMobile(s: string) {
    |s| == 10 && AllDigits(s)
  }

  /** `^\d*$` (JavaScript's `\d` is exactly `[0-9]`). */
  predicate IsDigitString(s: string) {
    AllDigits(s)
  }

  /** Why a settings save is refused before anything is written. */
  datatype SettingsError = NoContactField | InvalidEmail

  /** The settings save gate: at least one of e-mail, phone and address must
      be non-empty, and a non-empty e-mail must have the e-mail shape. */
  function CheckSettings(email: Option<string>, phone: Option<string>,
                         address: Option<string>): (r: Option<SettingsError>)
    ensures r == Some(NoContactField) <==> !Truthy(email) && !Truthy(phone) && !Truthy(address)
    ensures r == Some(InvalidEmail) <==> Truthy(email) && !IsEmailShape(email.value)
    ensures r == None <==>
      (Truthy(email) || Truthy(phone) || Truthy(address)) &&
      (Truthy(email) ==> IsEmailShape(email.value))
  {
    EmailRegexMeansShape(email.GetOr(""));
    if !Truthy(email) && !Truthy(phone) && !Truthy(address) then Some(NoContactField)
    else if Truthy(email) && !IsValidEmail(email.value) then Some(InvalidEmail)
    else None
  }
}
