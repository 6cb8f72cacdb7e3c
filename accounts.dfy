/** The two documents the sign-up and OTP flows read and write: users and OTP
    entries.  Only what the core relies on is kept; password hashing is left to
    an abstract comparison supplied by the caller. */
module Accounts {
  import opened Common
  import opened Text

  /** A user document.  `password` stands for the stored bcrypt hash.  `phone` is
      not a path of the current user schema: it is present only on documents
      written some other way (the schema says e-mail replaced phone), and the
      OTP flow still filters on it. */
  datatype User = User(name: string, email: string, password: string, role: string, phone: Option<string>)

  const Roles: set<string> := {"user", "admin"}

  /** The e-mail pattern `^\S+@\S+\.\S+$`: no whitespace, an '@' after at least
      one character, and a '.' after at least one further character and before
      at least one more. */
  predicate EmailShape(s: string) {
    && NoSpaces(s)
    && exists i, j :: 0 < i && i + 1 < j && j + 1 < |s| && s[i] == '@' && s[j] == '.'
  }

  /** The user schema's validators: name required after trimming, e-mail shape,
      password of at least six characters, role from the enum. */
  predicate ValidUser(u: User) {
    && u.name != "" && Trimmed(u.name)
    && EmailShape(u.email)
    && |u.password| >= 6
    && u.role in Roles
  }

  /** `toLowerCase().trim()`, the e-mail normalisation both sign-up and sign-in apply. */
  function NormaliseEmail(email: string): (r: string)
    ensures Trimmed(r)
    ensures forall i :: 0 <= i < |r| ==> !('A' <= r[i] <= 'Z')
  {
    var l := Lower(email);
    assert forall k :: 0 <= k < |Trim(l)| ==> Trim(l)[k] == l[StartOfText(l, 0) + k];
    forall k | 0 <= k < |l| ensures !('A' <= l[k] <= 'Z') {
      LowerCharIsNotUpper(email[k]);
    }
    Trim(l)
  }

  /** Normalising a normalised address changes nothing, so the schema's
      `lowercase` and `trim` setters, run again on the controllers' already
      normalised value, on a write and on a filter alike, leave it as it is. */
  lemma NormaliseEmailIdempotent(email: string)
    ensures NormaliseEmail(NormaliseEmail(email)) == NormaliseEmail(email)
  {
    var r := NormaliseEmail(email);
    var l := Lower(r);
    assert l == r by {
      forall i | 0 <= i < |r| ensures l[i] == r[i] {
        assert l[i] == LowerChar(r[i]);
      }
    }
    TrimFixedIffTrimmed(r);
  }

  /** The user schema's setters: `name` trimmed, `email` lower-cased and trimmed. */
  function UserSetters(u: User): (s: User)
    ensures s.name == Trim(u.name) && s.email == NormaliseEmail(u.email)
    ensures s.(name := u.name, email := u.email) == u
  {
    u.(name := Trim(u.name), email := NormaliseEmail(u.email))
  }

  /** The token goes into the response body only outside production (it is
      always set as a cookie, which is not modelled). */
  function TokenInBody(token: string, isProduction: bool): (r: Option<string>)
    ensures r.Some? <==> !isProduction
    ensures r.Some? ==> r.value == token
  {
    if isProduction then None else Some(token)
  }

  /** The OTP statuses of the OTP schema. */
  const OtpStatuses: set<string> := {"pending", "verified", "expired"}

  /** An OTP entry, with the paths of the OTP schema.  The OTP controller writes
      only `phone` and `status`: the `verified` flag it also sets is no path of
      the schema, so strict mode drops it.  `purpose`, `otp` and `expiresAt` are
      required yet never written by the controller; `email` is no path of the
      schema either, yet sign-up filters on it. */
  datatype OtpEntry = OtpEntry(phone: string, status: string, email: Option<string>, purpose: Option<string>,
                               otp: Option<string>, expiresAt: Option<int>)

  /** The purposes the OTP schema's enum admits. */
  const OtpPurposes: set<string> := {"signup", "login", "forgot"}

  /** What the OTP schema's validators accept on `save()`: every required path
      present (a required string also non-empty) and the enums respected. */
  predicate ValidOtp(e: OtpEntry) {
    && e.phone != ""
    && e.purpose.Some? && e.purpose.value in OtpPurposes
    && e.otp.Some? && e.otp.value != ""
    && e.expiresAt.Some?
    && e.status in OtpStatuses
  }

}
