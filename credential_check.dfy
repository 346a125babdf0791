/**
 * The credential diagnostics script: masking of secrets, the login customer id
 * format check, the status symbol and the all-credentials-present test.
 */
module CredentialCheck {
  import opened Wrappers
  import opened Credentials

  /** `"*" * n`. */
  function Stars(n: nat): (r: string)
    ensures |r| == n
    ensures forall i :: 0 <= i < n ==> r[i] == '*'
  {
    if n == 0 then "" else Stars(n - 1) + "*"
  }

  /** Python's `text[-k:]` for a non-negative `k`. Note that `-0` is `0`, so `k == 0` yields ALL of `text`. */
  function PyTail(text: string, k: nat): (r: string)
  {
    if k == 0 || k >= |text| then text else text[|text| - k..]
  }

  /**
   * `mask_string` exactly as written: the suffix is taken with `text[-visibleEnd:]`,
   * which is the whole text when `visibleEnd` is 0.
   */
  function MaskStringAsWritten(text: string, visibleStart: nat, visibleEnd: nat): (r: string)
    ensures visibleEnd > 0 || |text| <= visibleStart ==> |r| == |text|
    ensures visibleEnd == 0 && |text| > visibleStart ==> |r| == 2 * |text|
  {
    if text == "" then ""
    else if |text| <= visibleStart + visibleEnd then Stars(|text|)
    else Head(text, visibleStart) + Stars(|text| - visibleStart - visibleEnd) + PyTail(text, visibleEnd)
  }

  /** With `visibleEnd == 0` the written code appends the entire secret after the stars. */
  lemma MaskZeroSuffixRevealsText(text: string, visibleStart: nat)
    requires |text| > visibleStart
    ensures MaskStringAsWritten(text, visibleStart, 0) == text[..visibleStart] + Stars(|text| - visibleStart) + text
    ensures |MaskStringAsWritten(text, visibleStart, 0)| == 2 * |text|
  {
  }

  /** A concrete instance: eight secret characters come back in full. */
  lemma MaskZeroSuffixExample()
    ensures MaskStringAsWritten("abcdefgh", 4, 0) == "abcd****abcdefgh"
  {
    assert Stars(4) == "****" by {
      assert Stars(1) == "*";
      assert Stars(2) == "**";
      assert Stars(3) == "***";
    }
  }

  /**
   * `mask_string` as intended: keep `visibleStart` leading and `visibleEnd` trailing
   * characters (none when 0) and star the rest; the length is always kept.
   */
  function MaskString(text: string, visibleStart: nat, visibleEnd: nat): (r: string)
    ensures |r| == |text|
    ensures text == "" ==> r == ""
    ensures |text| <= visibleStart + visibleEnd ==> forall i :: 0 <= i < |r| ==> r[i] == '*'
    ensures |text| > visibleStart + visibleEnd ==>
      forall i :: 0 <= i < |r| ==>
        r[i] == (if i < visibleStart || i >= |text| - visibleEnd then text[i] else '*')
  {
    if text == "" then ""
    else if |text| <= visibleStart + visibleEnd then Stars(|text|)
    else text[..visibleStart] + Stars(|text| - visibleStart - visibleEnd) + text[|text| - visibleEnd..]
  }

  /** The written code and the intended one agree whenever a suffix is shown at all. */
  lemma MaskAgreesWhenSuffixShown(text: string, visibleStart: nat, visibleEnd: nat)
    requires visibleEnd > 0
    ensures MaskStringAsWritten(text, visibleStart, visibleEnd) == MaskString(text, visibleStart, visibleEnd)
  {
  }

  /** The script's call `mask_string(text)` with its default widths. */
  function MaskDefault(text: string): (r: string)
    ensures r == MaskString(text, 4, 4) && r == MaskStringAsWritten(text, 4, 4)
  {
    MaskAgreesWhenSuffixShown(text, 4, 4);
    MaskString(text, 4, 4)
  }

  predicate IsDigit(c: char)
  {
    '0' <= c <= '9'
  }

  /** The login customer id format: ten digits once every dash is removed. */
  predicate IsValidCustomerId(raw: string): (r: bool)
    ensures r ==> |raw| >= 10 && forall i :: 0 <= i < |raw| ==> raw[i] == '-' || IsDigit(raw[i])
  {
    DigitsSurviveStripping(raw);
    var id := StripDashes(raw);
    |id| == 10 && forall i :: 0 <= i < |id| ==> IsDigit(id[i])
  }

  /** When all that is left after removing the dashes is digits, the input was digits and dashes. */
  lemma DigitsSurviveStripping(s: string)
    ensures (forall j :: 0 <= j < |StripDashes(s)| ==> IsDigit(StripDashes(s)[j])) ==>
            forall i :: 0 <= i < |s| ==> s[i] == '-' || IsDigit(s[i])
  {
    var r := StripDashes(s);
    if forall j :: 0 <= j < |r| ==> IsDigit(r[j]) {
      forall i | 0 <= i < |s|
        ensures s[i] == '-' || IsDigit(s[i])
      {
        assert s[i] in s;
        if s[i] != '-' {
          assert s[i] in r;
        }
      }
    }
  }

  /** The number of ASCII digits in `s`. */
  function DigitCount(s: string): nat
  {
    if s == "" then 0 else (if IsDigit(s[0]) then 1 else 0) + DigitCount(s[1..])
  }

  /** Over digits and dashes, removing the dashes leaves exactly the digits. */
  lemma {:induction false} StripDashesLeavesDigits(s: string)
    requires forall i :: 0 <= i < |s| ==> s[i] == '-' || IsDigit(s[i])
    ensures |StripDashes(s)| == DigitCount(s)
    ensures forall j :: 0 <= j < |StripDashes(s)| ==> IsDigit(StripDashes(s)[j])
  {
    if s != "" {
      assert forall i :: 0 <= i < |s[1..]| ==> s[1..][i] == s[i + 1];
      StripDashesLeavesDigits(s[1..]);
    }
  }

  /** An id made of digits and dashes is valid exactly when it holds ten digits. */
  lemma DigitsAndDashesValidity(raw: string)
    requires forall i :: 0 <= i < |raw| ==> raw[i] == '-' || IsDigit(raw[i])
    ensures IsValidCustomerId(raw) <==> DigitCount(raw) == 10
  {
    StripDashesLeavesDigits(raw);
  }

  /** The conventional dashed form `XXX-XXX-XXXX` of ten digits passes the check. */
  lemma DashedCustomerIdValid(digits: string)
    requires |digits| == 10
    requires forall i :: 0 <= i < |digits| ==> IsDigit(digits[i])
    ensures IsValidCustomerId(digits[..3] + "-" + digits[3..6] + "-" + digits[6..])
  {
    var a, b, c := digits[..3], digits[3..6], digits[6..];
    assert '-' !in a by { assert forall i :: 0 <= i < |a| ==> a[i] == digits[i]; }
    assert '-' !in b by { assert forall i :: 0 <= i < |b| ==> b[i] == digits[i + 3]; }
    assert '-' !in c by { assert forall i :: 0 <= i < |c| ==> c[i] == digits[i + 6]; }
    assert a + "-" + b + "-" + c == a + "-" + (b + "-" + c);
    StripDashesSkipsDash(a, b + "-" + c);
    StripDashesSkipsDash(b, c);
    StripDashesNoDash(c);
    assert a + (b + c) == digits;
  }

  /** A character that is neither a digit nor a dash makes any id invalid. */
  lemma CustomerIdRejectsOtherCharacters(raw: string, i: nat)
    requires i < |raw| && !IsDigit(raw[i]) && raw[i] != '-'
    ensures !IsValidCustomerId(raw)
  {
    var id := StripDashes(raw);
    assert raw[i] in raw;
    assert raw[i] in id;
  }

  /**
   * The "Customer ID Format" line: printed only when a login customer id is set,
   * and then valid or not according to IsValidCustomerId.
   */
  function CustomerIdFormat(loginCustomerId: string): (r: Option<bool>)
    ensures r.None? <==> loginCustomerId == ""
    ensures r.Some? ==> (r.value <==> IsValidCustomerId(loginCustomerId))
  {
    if loginCustomerId == "" then None else Some(IsValidCustomerId(loginCustomerId))
  }

  const CheckMark := "\U{2705}"
  const CrossMark := "\U{274C}"

  /** The symbol `print_status` puts after a value: none, a check mark or a cross. */
  function StatusSymbol(isValid: Option<bool>): (r: string)
    ensures r == "" <==> isValid.None?
    ensures r == CheckMark <==> isValid == Some(true)
    ensures r == CrossMark <==> isValid == Some(false)
  {
    match isValid
    case None => ""
    case Some(valid) => if valid then CheckMark else CrossMark
  }

  /**
   * `has_all_credentials`: the script has already replaced the login customer id by
   * its dash-free form, so an id made only of dashes counts as missing here.
   */
  predicate HasAllCredentials(c: CredentialSet): (r: bool)
    ensures r <==> c.clientId != "" && c.clientSecret != "" && c.developerToken != "" && c.refreshToken != ""
                   && exists i :: 0 <= i < |c.loginCustomerId| && c.loginCustomerId[i] != '-'
  {
    StripDashesEmpty(c.loginCustomerId);
    c.clientId != "" && c.clientSecret != "" && c.developerToken != ""
    && StripDashes(c.loginCustomerId) != "" && c.refreshToken != ""
  }

  /** Every credential present and a well-formed customer id: the script reports success. */
  lemma ValidIdCompletesCredentials(c: CredentialSet)
    requires c.clientId != "" && c.clientSecret != "" && c.developerToken != "" && c.refreshToken != ""
    requires IsValidCustomerId(c.loginCustomerId)
    ensures HasAllCredentials(c)
  {
  }

  /** A set login customer id made only of dashes is missing for the script and has the wrong format. */
  lemma DashesOnlyIdIsMissing(c: CredentialSet)
    requires c.loginCustomerId != ""
    requires forall i :: 0 <= i < |c.loginCustomerId| ==> c.loginCustomerId[i] == '-'
    ensures !HasAllCredentials(c) && CustomerIdFormat(c.loginCustomerId) == Some(false)
  {
    StripDashesEmpty(c.loginCustomerId);
  }
}
