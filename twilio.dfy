/** The E.164 normaliser of the verification-service helper, and the targets its
    two provider calls are addressed to.  The provider calls themselves are not
    modelled: `sendOtp` and `verifyOtp` are "normalise, then call". */
module Twilio {
  import opened Text

  /** `formatPhoneNumber(phone)`: remove all whitespace, then prefix "+91" unless
      the result already starts with '+'.  No input is refused. */
  function FormatPhoneNumber(phone: string): (r: string)
    ensures |r| > 0 && r[0] == '+'
    ensures NoSpaces(r)
    ensures StartsWith(RemoveSpaces(phone), "+") ==> r == RemoveSpaces(phone)
    ensures !StartsWith(RemoveSpaces(phone), "+") ==> r == "+91" + RemoveSpaces(phone)
  {
    var p := RemoveSpaces(phone);
    if !StartsWith(p, "+") then "+91" + p else p
  }

  /** Every character that is not whitespace survives, at least as often as in
      the input; one that the "+91" prefix cannot add occurs exactly as often. */
  lemma FormatPhoneNumberKeepsCharacters(phone: string, c: char)
    requires !IsSpace(c)
    ensures multiset(FormatPhoneNumber(phone))[c] >= multiset(phone)[c]
    ensures c != '+' && c != '9' && c != '1' ==> multiset(FormatPhoneNumber(phone))[c] == multiset(phone)[c]
  {
    RemoveSpacesKeepsOthers(phone, c);
    var p := RemoveSpaces(phone);
    if !StartsWith(p, "+") {
      assert multiset("+91" + p) == multiset("+91") + multiset(p);
      assert multiset("+91") == multiset{'+', '9', '1'};
    }
  }

  /** Normalising a normalised number changes nothing, so the double
      normalisation on the way into the provider calls is harmless. */
  lemma FormatPhoneNumberIdempotent(phone: string)
    ensures FormatPhoneNumber(FormatPhoneNumber(phone)) == FormatPhoneNumber(phone)
  {
    var r := FormatPhoneNumber(phone);
    assert RemoveSpaces(r) == r;
  }

  /** A number written with digits only never starts with '+', so it always gets
      the Indian country code in front. */
  lemma FormatPhoneNumberOfDigits(s: string)
    requires AllDigits(s)
    ensures FormatPhoneNumber(s) == "+91" + s
  {
    forall i | 0 <= i < |s| ensures !IsSpace(s[i]) {
      assert IsDigit(s[i]);
    }
    assert RemoveSpaces(s) == s;
    if |s| >= 1 {
      assert s[..1][0] == s[0] != '+';
    }
  }

  /** A bare ten-digit number gets the Indian country code. */
  lemma FormatPhoneNumberExample()
    ensures FormatPhoneNumber("9876543210") == "+919876543210"
  {
    var s := "9876543210";
    assert "+91" + s == "+919876543210";
    FormatPhoneNumberOfDigits(s);
  }

  /** The number `sendOtp(phone)` and `verifyOtp(phone, code)` hand to the
      provider: both normalise first, so it is always in normal form. */
  function ProviderTarget(phone: string): (to: string)
    ensures to == FormatPhoneNumber(phone)
    ensures FormatPhoneNumber(to) == to
  {
    FormatPhoneNumberIdempotent(phone);
    FormatPhoneNumber(phone)
  }

  /** A caller that normalised first, as the OTP handlers do, addresses the
      same number as one that did not. */
  lemma TargetsAgreeOnNormalisedInput(phone: string)
    ensures ProviderTarget(FormatPhoneNumber(phone)) == ProviderTarget(phone)
  {
    FormatPhoneNumberIdempotent(phone);
  }
}
