/** The Indian phone-number normaliser of the SMS utility and the two SMS senders
    built on it.  Both senders run in a development mode that only logs; the log
    lines are output and are not modelled, the values they return are. */
module Fast2Sms {
  import opened Common
  import opened Text

  /** The two exceptions `formatIndianPhone` throws. */
  datatype PhoneError = PhoneRequired | InvalidIndianPhone

  /** `formatIndianPhone(phone)`: drop every non-digit, then a leading "91" of a
      12-digit string, then a leading "0" of an 11-digit string; what is left must
      be exactly ten digits.  A missing or empty argument is refused first. */
  function FormatIndianPhone(phone: Option<string>): (r: Result<string, PhoneError>)
    ensures r.Success? ==> |r.value| == 10 && AllDigits(r.value)
    ensures r == Failure(PhoneRequired) <==> phone.None? || phone.value == ""
  {
    if phone.None? || phone.value == "" then Failure(PhoneRequired)
    else
      var digits := DigitsOnly(phone.value);
      var noCountry := if StartsWith(digits, "91") && |digits| == 12 then digits[2..] else digits;
      var noTrunk := if StartsWith(noCountry, "0") && |noCountry| == 11 then noCountry[1..] else noCountry;
      if |noTrunk| != 10 then Failure(InvalidIndianPhone) else Success(noTrunk)
  }

  /** The digit strings the normaliser accepts: ten digits, "91" and ten digits,
      or "0" and ten digits. */
  predicate AcceptedDigits(d: string) {
    || |d| == 10
    || (|d| == 12 && StartsWith(d, "91"))
    || (|d| == 11 && StartsWith(d, "0"))
  }

  /** A present, non-empty phone is accepted exactly when its digits have one of the
      three accepted shapes, and the result is then the last ten of those digits. */
  lemma FormatIndianPhoneAccepts(phone: Option<string>)
    ensures FormatIndianPhone(phone).Success? <==>
      phone.Some? && phone.value != "" && AcceptedDigits(DigitsOnly(phone.value))
    ensures FormatIndianPhone(phone).Success? ==>
      var d := DigitsOnly(phone.value);
      FormatIndianPhone(phone).value == d[|d| - 10..]
  {
    if phone.Some? && phone.value != "" {
      var d := DigitsOnly(phone.value);
      if |d| == 12 && StartsWith(d, "91") {
        assert |d[2..]| == 10;
      } else if |d| == 11 && StartsWith(d, "0") {
        assert |d[1..]| == 10;
      } else {
        assert d[|d| - |d|..] == d;
      }
    }
  }

  /** Separators such as spaces, dashes, brackets and a leading '+' make no difference. */
  lemma FormatIndianPhoneIgnoresSeparators(a: string, b: string)
    requires a != "" && b != ""
    requires DigitsOnly(a) == DigitsOnly(b)
    ensures FormatIndianPhone(Some(a)) == FormatIndianPhone(Some(b))
  {
  }

  /** Formatting an already formatted number gives it back unchanged. */
  lemma FormatIndianPhoneIdempotent(phone: Option<string>)
    requires FormatIndianPhone(phone).Success?
    ensures FormatIndianPhone(Some(FormatIndianPhone(phone).value)) == FormatIndianPhone(phone)
  {
    var v := FormatIndianPhone(phone).value;
    assert DigitsOnly(v) == v;
  }

  /** A number written with the trunk prefix '0' is accepted without it. */
  lemma FormatIndianPhoneTrunkExample()
    ensures FormatIndianPhone(Some("09876543210")) == Success("9876543210")
  {
    var s := "09876543210";
    assert AllDigits(s);
    assert s[..1] == "0";
    FormatIndianPhoneAccepts(Some(s));
    assert s[1..] == "9876543210";
  }

  /** Too few digits is a refusal, not a padding. */
  lemma FormatIndianPhoneShortExample()
    ensures FormatIndianPhone(Some("12345")) == Failure(InvalidIndianPhone)
  {
    assert AllDigits("12345");
  }

  datatype PhoneVariants = PhoneVariants(local: string, e164: string)

  /** `getPhoneVariants(phone)`: the local ten digits and their E.164 spelling. */
  function GetPhoneVariants(phone: Option<string>): (r: Result<PhoneVariants, PhoneError>)
    ensures r.Success? <==> FormatIndianPhone(phone).Success?
    ensures r.Failure? ==> r.error == FormatIndianPhone(phone).error
    ensures r.Success? ==>
      && r.value.local == FormatIndianPhone(phone).value
      && r.value.e164 == "+91" + r.value.local
      && |r.value.e164| == 13
  {
    match FormatIndianPhone(phone)
    case Failure(e) => Failure(e)
    case Success(local) => Success(PhoneVariants(local, "+91" + local))
  }

  datatype OtpSmsReply = OtpSmsReply(success: bool, message: string, phone: string)

  /** `sendOtpSMS(phone, otp)`: the OTP is only logged; the reply reports the local number. */
  function SendOtpSms(phone: Option<string>, otp: string): (r: Result<OtpSmsReply, PhoneError>)
    ensures r.Success? <==> FormatIndianPhone(phone).Success?
    ensures r.Failure? ==> r.error == FormatIndianPhone(phone).error
    ensures r.Success? ==> r.value.success && r.value.phone == FormatIndianPhone(phone).value
  {
    match FormatIndianPhone(phone)
    case Failure(e) => Failure(e)
    case Success(local) => Success(OtpSmsReply(true, "OTP generated in DEV mode", local))
  }

  datatype StatusSmsReply = StatusSmsReply(success: bool, message: string, phone: string, orderId: string, status: string)

  /** `sendOrderStatusSMS({phone, orderId, amount, status})`: the message is only
      logged; the reply echoes the local number, order id and status. */
  function SendOrderStatusSms(phone: Option<string>, orderId: string, amount: real, status: string)
    : (r: Result<StatusSmsReply, PhoneError>)
    ensures r.Success? <==> FormatIndianPhone(phone).Success?
    ensures r.Failure? ==> r.error == FormatIndianPhone(phone).error
    ensures r.Success? ==>
      && r.value.success && r.value.phone == FormatIndianPhone(phone).value
      && r.value.orderId == orderId && r.value.status == status
  {
    match FormatIndianPhone(phone)
    case Failure(e) => Failure(e)
    case Success(local) =>
      Success(StatusSmsReply(true, "Order status SMS bypassed in DEV mode", local, orderId, status))
  }
}
