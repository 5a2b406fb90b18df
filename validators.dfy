/** The mini-program's form validation (validators.ts): four single-field rules, a
    first-failure combinator over a list of rules, and a whole-form check that
    collects one message per failing field. */
module Validators {
  import opened Wire

  datatype ValidationResult = ValidationResult(valid: bool, message: Option<string>)

  /** A rule maps a field's text to its verdict. */
  type Rule = string -> ValidationResult

  datatype FormField = FormField(value: string, rules: seq<Rule>)

  datatype FormValidationResult = FormValidationResult(valid: bool, errors: map<string, string>)

  const RequiredMessage: string := "此字段为必填项"
  const Min8Message: string := "最少需要8个字符"
  const LoginMessage: string := "登录名只能包含字母、数字、下划线、点和横杠"
  const SpacesMessage: string := "不能包含空格"
  const DefaultMessage: string := "验证失败"

  const Pass: ValidationResult := ValidationResult(true, None)

  function Fail(message: string): ValidationResult
  {
    ValidationResult(false, Some(message))
  }

  /** ECMAScript white space and line terminators: what `trim` removes and what `\s`
      matches. */
  predicate IsWhitespace(c: char)
  {
    var n := c as int;
    n == 0x09 || n == 0x0A || n == 0x0B || n == 0x0C || n == 0x0D || n == 0x20 ||
    n == 0xA0 || n == 0x1680 || (0x2000 <= n <= 0x200A) || n == 0x2028 || n == 0x2029 ||
    n == 0x202F || n == 0x205F || n == 0x3000 || n == 0xFEFF
  }

  predicate AllWhitespace(s: string)
  {
    forall i :: 0 <= i < |s| ==> IsWhitespace(s[i])
  }

  /** `s` without its leading white space. */
  function TrimStart(s: string): (r: string)
    ensures |r| <= |s| && r == s[|s| - |r|..]
    ensures AllWhitespace(s[..|s| - |r|])
    ensures r != [] ==> !IsWhitespace(r[0])
  {
    if |s| > 0 && IsWhitespace(s[0]) then TrimStart(s[1..]) else s
  }

  /** `s` without its trailing white space. */
  function TrimEnd(s: string): (r: string)
    ensures |r| <= |s| && r == s[..|r|]
    ensures AllWhitespace(s[|r|..])
    ensures r != [] ==> !IsWhitespace(r[|r| - 1])
  {
    if |s| > 0 && IsWhitespace(s[|s| - 1]) then TrimEnd(s[..|s| - 1]) else s
  }

  /** `String.prototype.trim`: a run of `s` that neither starts nor ends with white
      space, and it is empty exactly when `s` is all white space. */
  function Trim(s: string): (r: string)
    ensures r != [] ==> !IsWhitespace(r[0]) && !IsWhitespace(r[|r| - 1])
    ensures r == [] <==> AllWhitespace(s)
  {
    var t := TrimStart(s);
    assert s == s[..|s| - |t|] + t;
    TrimEnd(t)
  }

  /** `required`: valid exactly when some character is not white space. */
  function Required(value: string): (r: ValidationResult)
    ensures r.valid <==> exists i :: 0 <= i < |value| && !IsWhitespace(value[i])
    ensures r.valid <==> r.message.None?
    ensures !r.valid ==> r.message == Some(RequiredMessage)
  {
    if |value| > 0 && Trim(value) != [] then Pass else Fail(RequiredMessage)
  }

  /** `min8`: valid exactly when the text has at least eight characters. */
  function Min8(value: string): (r: ValidationResult)
    ensures r.valid <==> |value| >= 8
    ensures r.valid <==> r.message.None?
    ensures !r.valid ==> r.message == Some(Min8Message)
  {
    if |value| >= 8 then Pass else Fail(Min8Message)
  }

  /** The character class `[a-zA-Z0-9_.-]`. */
  predicate LoginChar(c: char)
  {
    ('a' <= c <= 'z') || ('A' <= c <= 'Z') || ('0' <= c <= '9') || c == '_' || c == '.' || c == '-'
  }

  predicate NotWhitespace(c: char)
  {
    !IsWhitespace(c)
  }

  /** The pattern `^[class]*$`, matched one character at a time from the left. */
  predicate MatchesStar(s: string, inClass: char -> bool)
  {
    |s| == 0 || (inClass(s[0]) && MatchesStar(s[1..], inClass))
  }

  /** The pattern `^[class]+$`. */
  predicate MatchesPlus(s: string, inClass: char -> bool)
  {
    |s| > 0 && MatchesStar(s, inClass)
  }

  /** `^[class]*$` matches exactly the texts made only of the class's characters. */
  lemma {:induction false} MatchesStarIff(s: string, inClass: char -> bool)
    ensures MatchesStar(s, inClass) <==> forall i :: 0 <= i < |s| ==> inClass(s[i])
    decreases |s|
  {
    if |s| > 0 {
      MatchesStarIff(s[1..], inClass);
      assert forall i :: 1 <= i < |s| ==> s[i] == s[1..][i - 1];
    }
  }

  /** `login`: valid exactly when the text is non-empty and made only of letters,
      digits, `_`, `.` and `-`. */
  function Login(value: string): (r: ValidationResult)
    ensures r.valid <==> |value| > 0 && forall i :: 0 <= i < |value| ==> LoginChar(value[i])
    ensures r.valid <==> r.message.None?
    ensures !r.valid ==> r.message == Some(LoginMessage)
  {
    MatchesStarIff(value, LoginChar);
    if MatchesPlus(value, LoginChar) then Pass else Fail(LoginMessage)
  }

  /** `spacesForbidden` (`/^\S+$/`): valid exactly when the text is non-empty and
      has no white space. */
  function SpacesForbidden(value: string): (r: ValidationResult)
    ensures r.valid <==> |value| > 0 && forall i :: 0 <= i < |value| ==> !IsWhitespace(value[i])
    ensures r.valid <==> r.message.None?
    ensures !r.valid ==> r.message == Some(SpacesMessage)
  {
    MatchesStarIff(value, NotWhitespace);
    if MatchesPlus(value, NotWhitespace) then Pass else Fail(SpacesMessage)
  }

  /** A valid login name has no white space, and a text without white space is
      filled in: `login` passing implies `spacesForbidden` and `required` pass. */
  lemma LoginImpliesOthers(value: string)
    requires Login(value).valid
    ensures SpacesForbidden(value).valid && Required(value).valid
  {
    assert LoginChar(value[0]);
  }

  /** The position of the first rule that `value` fails, or -1 when it passes all. */
  function FailingIndex(value: string, rules: seq<Rule>): (k: int)
    ensures -1 <= k < |rules|
    ensures k == -1 <==> forall i :: 0 <= i < |rules| ==> rules[i](value).valid
    ensures k != -1 ==> !rules[k](value).valid && forall i :: 0 <= i < k ==> rules[i](value).valid
    decreases |rules|
  {
    if |rules| == 0 then -1
    else if !rules[0](value).valid then 0
    else
      var k := FailingIndex(value, rules[1..]);
      if k == -1 then -1 else k + 1
  }

  /** The verdict of `validateAll`: the first failing rule's result, or a pass. */
  function Verdict(value: string, rules: seq<Rule>): ValidationResult
  {
    var k := FailingIndex(value, rules);
    if k == -1 then Pass else rules[k](value)
  }

  /** `validateAll`: the rules run in order and the first failure is returned as the
      rule gave it; with no failure, a pass. */
  method ValidateAll(value: string, rules: seq<Rule>) returns (r: ValidationResult)
    ensures r == Verdict(value, rules)
    ensures r.valid <==> forall i :: 0 <= i < |rules| ==> rules[i](value).valid
  {
    for i := 0 to |rules|
      invariant forall j :: 0 <= j < i ==> rules[j](value).valid
    {
      var result := rules[i](value);
      if !result.valid {
        return result;
      }
    }
    return Pass;
  }

  /** `result.message || '验证失败'`: a missing or empty message gives the default. */
  function MessageOrDefault(message: Option<string>): (m: string)
    ensures m != ""
    ensures message.Some? && message.value != "" ==> m == message.value
    ensures message.None? || message.value == "" ==> m == DefaultMessage
  {
    if message.Some? && message.value != "" then message.value else DefaultMessage
  }

  /** The field fails some rule. */
  predicate FieldFails(field: FormField)
  {
    !Verdict(field.value, field.rules).valid
  }

  /** `validateForm`: every field is checked; the form is valid exactly when no field
      fails; the errors name exactly the failing fields, each with its first failing
      rule's message or the default. */
  method ValidateForm(fields: map<string, FormField>) returns (r: FormValidationResult)
    ensures r.valid <==> forall name :: name in fields ==> !FieldFails(fields[name])
    ensures r.valid <==> r.errors == map[]
    ensures forall name :: name in r.errors <==> name in fields && FieldFails(fields[name])
    ensures forall name :: name in r.errors ==>
      r.errors[name] == MessageOrDefault(Verdict(fields[name].value, fields[name].rules).message)
  {
    var errors: map<string, string> := map[];
    var valid := true;
    var todo := fields.Keys;
    while todo != {}
      invariant todo <= fields.Keys
      invariant forall name :: name in errors <==> name in fields && name !in todo && FieldFails(fields[name])
      invariant forall name :: name in errors ==>
        errors[name] == MessageOrDefault(Verdict(fields[name].value, fields[name].rules).message)
      invariant valid <==> errors == map[]
      decreases todo
    {
      var name :| name in todo;
      var field := fields[name];
      var result := ValidateAll(field.value, field.rules);
      if !result.valid {
        errors := errors[name := MessageOrDefault(result.message)];
        valid := false;
      }
      todo := todo - {name};
    }
    r := FormValidationResult(valid, errors);
  }
}
