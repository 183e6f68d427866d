/** `loginSchema`: the phone-number length rule and the password pattern. */
module LoginSchemas {
  import Js
  import opened Zod

  const PHONE_NUMBER_MESSAGE: string := "Please input valid phone number."
  const PASSWORD_TYPE_MESSAGE: string := "Please input valid password."
  const PASSWORD_PATTERN_MESSAGE: string := "Password must have at least one character and 1 number."

  /** `phoneNumber: z.string().min(6).max(12)`, every failure with the same message. */
  function PhoneNumberIssues(v: Js.Value): (r: seq<Issue>)
    ensures r == [] <==> v.Str? && 6 <= |v.s| <= 12
    ensures r != [] ==> r == [Issue("phoneNumber", PHONE_NUMBER_MESSAGE)]
  {
    match v
    case Str(s) =>
      (if |s| < 6 then [Issue("phoneNumber", PHONE_NUMBER_MESSAGE)] else [])
      + (if |s| > 12 then [Issue("phoneNumber", PHONE_NUMBER_MESSAGE)] else [])
    case _ => [Issue("phoneNumber", PHONE_NUMBER_MESSAGE)]
  }

  /** `(?=.*\d)` at the start: a digit preceded only by characters `.` matches. */
  predicate LookaheadDigit(s: string) {
    exists k :: 0 <= k < |s| && Js.IsAsciiDigit(s[k]) && forall m :: 0 <= m < k ==> !Js.IsLineTerminator(s[m])
  }

  /** `(?=.*[a-zA-Z])` at the start. */
  predicate LookaheadLetter(s: string) {
    exists k :: 0 <= k < |s| && Js.IsAsciiLetter(s[k]) && forall m :: 0 <= m < k ==> !Js.IsLineTerminator(s[m])
  }

  /** `.{8,}$` from the start: eight or more characters, none a line terminator. */
  predicate DotsToEnd(s: string) {
    |s| >= 8 && forall m :: 0 <= m < |s| ==> !Js.IsLineTerminator(s[m])
  }

  /** `/^(?=.*\d)(?=.*[a-zA-Z]).{8,}$/.test(s)`. */
  predicate MatchesPasswordPattern(s: string)
    ensures MatchesPasswordPattern(s) ==> |s| >= 8
  {
    LookaheadDigit(s) && LookaheadLetter(s) && DotsToEnd(s)
  }

  /** The pattern, read directly: at least 8 characters, no line terminator, an ASCII digit and an ASCII letter. */
  lemma PasswordPatternMeaning(s: string)
    ensures MatchesPasswordPattern(s) <==>
      && |s| >= 8
      && (forall m :: 0 <= m < |s| ==> !Js.IsLineTerminator(s[m]))
      && (exists k :: 0 <= k < |s| && Js.IsAsciiDigit(s[k]))
      && (exists k :: 0 <= k < |s| && Js.IsAsciiLetter(s[k]))
  {
  }

  /** `password: z.string().regex(...)`. */
  function PasswordIssues(v: Js.Value): (r: seq<Issue>)
    ensures r == [] <==> v.Str? && MatchesPasswordPattern(v.s)
    ensures v.Str? && !MatchesPasswordPattern(v.s) ==> r == [Issue("password", PASSWORD_PATTERN_MESSAGE)]
    ensures !v.Str? ==> r == [Issue("password", PASSWORD_TYPE_MESSAGE)]
  {
    match v
    case Str(s) => if MatchesPasswordPattern(s) then [] else [Issue("password", PASSWORD_PATTERN_MESSAGE)]
    case _ => [Issue("password", PASSWORD_TYPE_MESSAGE)]
  }

  /** `loginSchema` on an object `{phoneNumber, password}`: the issues of both fields, phone number first. */
  function LoginSchemaIssues(phoneNumber: Js.Value, password: Js.Value): (r: seq<Issue>)
    ensures r == [] <==> phoneNumber.Str? && 6 <= |phoneNumber.s| <= 12 && password.Str? && MatchesPasswordPattern(password.s)
    ensures |r| <= 2
    ensures forall i :: 0 <= i < |r| ==> r[i].path in {"phoneNumber", "password"}
    ensures forall i, j :: 0 <= i < j < |r| ==> r[i].path != r[j].path
    ensures forall i, j :: 0 <= i < |r| && 0 <= j < |r| && r[i].path == "password" && r[j].path == "phoneNumber" ==> j < i
    ensures (exists i :: 0 <= i < |r| && r[i].path == "phoneNumber") <==> !(phoneNumber.Str? && 6 <= |phoneNumber.s| <= 12)
    ensures forall i :: 0 <= i < |r| && r[i].path == "phoneNumber" ==> r[i].message == PHONE_NUMBER_MESSAGE
    ensures (exists i :: 0 <= i < |r| && r[i].path == "password") <==> !(password.Str? && MatchesPasswordPattern(password.s))
    ensures forall i :: 0 <= i < |r| && r[i].path == "password" ==>
      r[i].message == if password.Str? then PASSWORD_PATTERN_MESSAGE else PASSWORD_TYPE_MESSAGE
  {
    var phone := PhoneNumberIssues(phoneNumber);
    var pass := PasswordIssues(password);
    var r := phone + pass;
    assert phone != [] ==> r[0] == phone[0];
    assert pass != [] ==> r[|phone|] == pass[0];
    r
  }

  /** The phone rule looks at length only: any twelve characters pass. */
  lemma PhoneNumberIgnoresCharacters()
    ensures PhoneNumberIssues(Js.Str("abc def ghi!")) == []
    ensures PhoneNumberIssues(Js.Str("12345")) == [Issue("phoneNumber", PHONE_NUMBER_MESSAGE)]
    ensures PhoneNumberIssues(Js.Str("1234567890123")) == [Issue("phoneNumber", PHONE_NUMBER_MESSAGE)]
  {
  }

  /** The credentials `60123456789` / `Passw0rd` pass the schema; the letters-only `Password` does not. */
  lemma ScenarioCredentials()
    ensures LoginSchemaIssues(Js.Str("60123456789"), Js.Str("Passw0rd")) == []
    ensures PasswordIssues(Js.Str("Password")) == [Issue("password", PASSWORD_PATTERN_MESSAGE)]
  {
    var p := "Passw0rd";
    assert Js.IsAsciiDigit(p[5]) && Js.IsAsciiLetter(p[0]);
    assert LookaheadDigit(p) && LookaheadLetter(p);
    var q := "Password";
    assert !LookaheadDigit(q);
  }
}
