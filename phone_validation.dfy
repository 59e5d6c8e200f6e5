/**
 * The custom validator of the phone field: a missing or empty value is
 * reported as "required"; otherwise the value must match `^0[0-9]{9}$`.
 */
module PhoneValidation {
  import opened Wrappers

  /** What the validator's promise settles to. */
  datatype PhoneCheck =
    | PhoneAccepted
    | PhoneRequired   // rejected: no value entered
    | PhoneMalformed  // rejected: not ten digits starting with 0

  predicate IsDigit(c: char)
  {
    '0' <= c <= '9'
  }

  /** The regular-expression tail `[0-9]{n}$`: exactly `n` digits and nothing after. */
  function MatchDigits(s: string, n: nat): (matched: bool)
    ensures matched <==> |s| == n && forall i :: 0 <= i < |s| ==> IsDigit(s[i])
  {
    if n == 0 then s == []
    else |s| > 0 && IsDigit(s[0]) && MatchDigits(s[1..], n - 1)
  }

  /** The whole anchored pattern `^0[0-9]{9}$`. */
  predicate MatchesPhonePattern(s: string): (matched: bool)
    ensures matched <==> IsPhoneNumber(s)
  {
    |s| > 0 && s[0] == '0' && MatchDigits(s[1..], 9)
  }

  /** The shape the pattern describes, stated independently of how it is matched. */
  ghost predicate IsPhoneNumber(s: string)
  {
    |s| == 10 && s[0] == '0' && forall i :: 0 <= i < |s| ==> IsDigit(s[i])
  }

  /** JavaScript's `!value` on the field value: absent or the empty string. */
  predicate IsBlank(value: Option<string>): (blank: bool)
    ensures blank <==> value.None? || |value.value| == 0
  {
    value.None? || value.value == ""
  }

  function ValidatePhoneNumber(value: Option<string>): (check: PhoneCheck)
    ensures check == PhoneRequired <==> IsBlank(value)
    ensures check == PhoneAccepted <==> value.Some? && IsPhoneNumber(value.value)
  {
    if IsBlank(value) then PhoneRequired
    else if !MatchesPhonePattern(value.value) then PhoneMalformed
    else PhoneAccepted
  }

  /** Nine digits are rejected with the ten-digit message, ten are accepted. */
  lemma PhoneExamples()
    ensures ValidatePhoneNumber(Some("081234567")) == PhoneMalformed
    ensures ValidatePhoneNumber(Some("0812345678")) == PhoneAccepted
    ensures ValidatePhoneNumber(Some("1812345678")) == PhoneMalformed
    ensures ValidatePhoneNumber(Some("08123456a8")) == PhoneMalformed
    ensures ValidatePhoneNumber(Some("")) == PhoneRequired
  {
    assert "081234567"[0] == '0' && |"081234567"| == 9;
    assert !IsDigit("08123456a8"[8]);
    assert IsPhoneNumber("0812345678");
  }
}
