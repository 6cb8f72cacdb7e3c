/** The phone OTP handlers: send and resend a code through the verification
    service, and verify one, which for 'login' and 'forgot' also signs the user
    in.  The service's answers are inputs: whether the send went through, and
    what the check returned. */
module OtpController {
  import opened Common
  import opened Accounts
  import opened Twilio
  import opened Store

  /** `VALID_PURPOSES`. */
  const ValidPurposes: set<string> := {"signup", "login", "forgot"}

  /** What `verifyOtp` gave back: it threw, it returned nothing, or it returned
      a verification with this status. */
  datatype Verdict = ProviderError | NoVerification | Checked(status: string)

  /** The success body of verify: nothing more for 'signup'; the user (without
      the password) and, outside production, the token for 'login' and 'forgot'. */
  datatype VerifyBody =
    | SignupVerified
    | SignedIn(name: string, phone: Option<string>, role: string, token: Option<string>)

  /** `User.findOne({ phone })` matches some user. */
  predicate PhoneKnown(users: map<Id, User>, phone: string) {
    exists a :: a in users && users[a].phone == Some(phone)
  }

  /** `u` is what `User.findOne({ phone })` may return: some user with the
      phone, or nothing when no user has it.  Which of several it returns is
      not modelled. */
  predicate UserLookup(users: map<Id, User>, phone: string, u: Option<User>) {
    && (u.None? <==> !PhoneKnown(users, phone))
    && (u.Some? ==> u.value.phone == Some(phone) && exists a :: a in users && users[a] == u.value)
  }

  /** Every stored id was handed out before `nextId`. */
  predicate Fresh(otps: map<Id, OtpEntry>, nextId: nat) {
    forall a :: a in otps ==> a < nextId
  }

  // ------------------------------------------------------------ send / resend

  /** sendOtpController on the OTP entries; `phone` and `purpose` are "" when
      absent, `sent` says whether the provider accepted the send. */
  ghost function SendOn(otps: map<Id, OtpEntry>, nextId: nat, users: map<Id, User>,
                        phone: string, purpose: string, sent: bool): (Reply<string>, map<Id, OtpEntry>, nat)
    requires Fresh(otps, nextId)
  {
    if phone == "" || purpose !in ValidPurposes then (Fail(400, "Invalid phone or purpose"), otps, nextId)
    else
      var p := FormatPhoneNumber(phone);
      if purpose == "signup" && PhoneKnown(users, p) then (Fail(400, "User already exists"), otps, nextId)
      else if purpose != "signup" && !PhoneKnown(users, p) then (Fail(404, "User not found"), otps, nextId)
      else if !sent then (Fail(500, "Failed to send OTP"), otps, nextId)
      else
        var (otps', nextId', _) := UpsertPending(otps, nextId, p);
        (Ok(200, "OTP sent successfully", purpose), otps', nextId')
  }

  /** `sendOtpController`. */
  method SendOtp(db: Database, phone: string, purpose: string, sent: bool) returns (reply: Reply<string>)
    requires db.Valid()
    modifies db`otps, db`nextId
    ensures db.Valid()
    ensures (reply, db.otps, db.nextId) == SendOn(old(db.otps), old(db.nextId), db.users, phone, purpose, sent)
  {
    if phone == "" || purpose !in ValidPurposes {
      return Fail(400, "Invalid phone or purpose");
    }
    var p := FormatPhoneNumber(phone);
    var existing := db.FindUserByPhone(p);
    if purpose == "signup" && existing.Some? {
      return Fail(400, "User already exists");
    }
    if (purpose == "login" || purpose == "forgot") && existing.None? {
      return Fail(404, "User not found");
    }
    if !sent {
      return Fail(500, "Failed to send OTP");
    }
    var _ := db.UpsertPendingOtp(p);
    reply := Ok(200, "OTP sent successfully", purpose);
  }

  /** resendOtpController on the OTP entries: only a phone is needed. */
  ghost function ResendOn(otps: map<Id, OtpEntry>, nextId: nat, phone: string, sent: bool)
    : (Reply<()>, map<Id, OtpEntry>, nat)
    requires Fresh(otps, nextId)
  {
    if phone == "" then (Fail(400, "Phone number is required"), otps, nextId)
    else if !sent then (Fail(500, "Failed to resend OTP"), otps, nextId)
    else
      var (otps', nextId', _) := UpsertPending(otps, nextId, FormatPhoneNumber(phone));
      (Ok(200, "OTP resent successfully", ()), otps', nextId')
  }

  /** `resendOtpController`.  The update names no phone, but an upsert on the
      filter `{ phone }` writes it into an inserted entry all the same. */
  method ResendOtp(db: Database, phone: string, sent: bool) returns (reply: Reply<()>)
    requires db.Valid()
    modifies db`otps, db`nextId
    ensures db.Valid()
    ensures (reply, db.otps, db.nextId) == ResendOn(old(db.otps), old(db.nextId), phone, sent)
  {
    if phone == "" {
      return Fail(400, "Phone number is required");
    }
    var p := FormatPhoneNumber(phone);
    if !sent {
      return Fail(500, "Failed to resend OTP");
    }
    var _ := db.UpsertPendingOtp(p);
    reply := Ok(200, "OTP resent successfully", ());
  }

  // ------------------------------------------------------------ verify

  /** verifyOtpController on the OTP entries; `user` is what the user lookup
      by phone returns (see `UserLookup`). */
  ghost function VerifyOn(otps: map<Id, OtpEntry>, phone: string, code: string, purpose: string,
                          verdict: Verdict, user: Option<User>, token: string, isProduction: bool)
    : (Reply<VerifyBody>, map<Id, OtpEntry>)
  {
    if phone == "" || code == "" || purpose !in ValidPurposes then (Fail(400, "Invalid request"), otps)
    else
      var p := FormatPhoneNumber(phone);
      if verdict.ProviderError? then (Fail(500, "OTP verification failed"), otps)
      else if verdict != Checked("approved") then (Fail(400, "Invalid OTP"), otps)
      else if forall a :: a in otps ==> otps[a].phone != p then (Fail(404, "OTP not found"), otps)
      else
        var id :| id in otps && otps[id].phone == p;
        if !ValidOtp(Marked(otps[id])) then (Fail(500, "OTP verification failed"), otps)
        else (ApprovalReply(purpose, user, token, isProduction), otps[id := Marked(otps[id])])
  }

  /** The entry as verify saves it: `status` set to 'verified' (the `verified`
      flag set beside it is no path of the schema and is dropped). */
  function Marked(e: OtpEntry): OtpEntry {
    e.(status := "verified")
  }

  /** The answer to an approved code, once its entry is marked verified: a signup
      only learns that, a login or a reset signs the user in. */
  function ApprovalReply(purpose: string, user: Option<User>, token: string, isProduction: bool): Reply<VerifyBody> {
    if purpose == "signup" then Ok(200, "OTP verified successfully", SignupVerified)
    else if user.None? then Fail(404, "User not found")
    else
      var u := user.value;
      Ok(200, "OTP verified successfully", SignedIn(u.name, u.phone, u.role, TokenInBody(token, isProduction)))
  }

  /** With the checks passed and one entry for the phone, verification saves
      that entry marked verified and answers with `ApprovalReply` when the schema
      accepts the marked entry; otherwise the save throws, the answer is a 500
      and no entry changes. */
  lemma VerifyOnApproved(otps: map<Id, OtpEntry>, phone: string, code: string, purpose: string,
                         user: Option<User>, token: string, isProduction: bool, id: Id)
    requires phone != "" && code != "" && purpose in ValidPurposes
    requires id in otps && otps[id].phone == FormatPhoneNumber(phone)
    requires forall a :: a in otps && otps[a].phone == FormatPhoneNumber(phone) ==> a == id
    ensures ValidOtp(Marked(otps[id])) ==>
      VerifyOn(otps, phone, code, purpose, Checked("approved"), user, token, isProduction)
        == (ApprovalReply(purpose, user, token, isProduction), otps[id := Marked(otps[id])])
    ensures !ValidOtp(Marked(otps[id])) ==>
      VerifyOn(otps, phone, code, purpose, Checked("approved"), user, token, isProduction)
        == (Fail(500, "OTP verification failed"), otps)
  {
  }

  /** `verifyOtpController`. */
  method VerifyOtp(db: Database, phone: string, code: string, purpose: string, verdict: Verdict,
                   token: string, isProduction: bool) returns (reply: Reply<VerifyBody>)
    requires db.Valid()
    modifies db`otps
    ensures db.Valid()
    ensures exists u ::
      (UserLookup(db.users, FormatPhoneNumber(phone), u) &&
       (reply, db.otps) == VerifyOn(old(db.otps), phone, code, purpose, verdict, u, token, isProduction))
  {
    var p := FormatPhoneNumber(phone);
    ghost var u: Option<User> := None;
    if PhoneKnown(db.users, p) {
      var a :| a in db.users && db.users[a].phone == Some(p);
      u := Some(db.users[a]);
    }
    assert UserLookup(db.users, p, u);
    if phone == "" || code == "" || purpose !in ValidPurposes {
      return Fail(400, "Invalid request");
    }
    if verdict.ProviderError? {
      return Fail(500, "OTP verification failed");
    }
    if verdict.NoVerification? || verdict.status != "approved" {
      return Fail(400, "Invalid OTP");
    }
    var found := db.FindOtpByPhone(p);
    if found.None? {
      return Fail(404, "OTP not found");
    }
    var id := found.value;
    assert forall a :: a in db.otps && db.otps[a].phone == p ==> a == id;
    assert verdict == Checked("approved");
    ghost var before := db.otps;
    reply := Approve(db, id, purpose, token, isProduction);
    if ValidOtp(Marked(before[id])) {
      ghost var w :| UserLookup(db.users, p, w) && reply == ApprovalReply(purpose, w, token, isProduction);
      VerifyOnApproved(old(db.otps), phone, code, purpose, w, token, isProduction, id);
    } else {
      VerifyOnApproved(old(db.otps), phone, code, purpose, u, token, isProduction, id);
    }
  }

  /** The steps after an approved check: save entry `id` marked verified (the
      validators may refuse it), then look the user up by phone for a login or
      a reset. */
  method Approve(db: Database, id: Id, purpose: string, token: string, isProduction: bool)
    returns (reply: Reply<VerifyBody>)
    requires db.Valid() && id in db.otps && purpose in ValidPurposes
    modifies db`otps
    ensures db.Valid()
    ensures !ValidOtp(Marked(old(db.otps)[id])) ==>
      reply == Fail(500, "OTP verification failed") && db.otps == old(db.otps)
    ensures ValidOtp(Marked(old(db.otps)[id])) ==>
      && db.otps == old(db.otps)[id := Marked(old(db.otps)[id])]
      && exists u :: UserLookup(db.users, old(db.otps)[id].phone, u) && reply == ApprovalReply(purpose, u, token, isProduction)
  {
    var p := db.otps[id].phone;
    var saved := db.SaveOtp(id, Marked(db.otps[id]));
    if saved.Failure? {
      return Fail(500, "OTP verification failed");
    }
    if purpose == "login" || purpose == "forgot" {
      assert purpose != "signup" by {
        if purpose == "login" { assert |purpose| == 5; } else { assert purpose[0] == 'f'; }
      }
      var user := db.FindUserByPhone(p);
      if user.None? {
        reply := Fail(404, "User not found");
        assert UserLookup(db.users, p, None);
      } else {
        var v := db.users[user.value];
        reply := Ok(200, "OTP verified successfully", SignedIn(v.name, v.phone, v.role, TokenInBody(token, isProduction)));
        assert UserLookup(db.users, p, Some(v));
        assert reply == ApprovalReply(purpose, Some(v), token, isProduction);
      }
    } else {
      assert purpose == "signup";
      reply := Ok(200, "OTP verified successfully", SignupVerified);
      ghost var u: Option<User> := None;
      if PhoneKnown(db.users, p) {
        var a :| a in db.users && db.users[a].phone == Some(p);
        u := Some(db.users[a]);
      }
      assert UserLookup(db.users, p, u);
      assert reply == ApprovalReply(purpose, u, token, isProduction);
    }
  }

  // ------------------------------------------------------------ properties

  /** No OTP entry carries an e-mail address: the OTP handlers never write one. */
  predicate NoEmails(otps: map<Id, OtpEntry>) {
    forall a :: a in otps ==> otps[a].email.None?
  }

  /** A send is refused for a missing phone or an unknown purpose, for
      'signup' exactly when a user already has the phone, and for 'login' and
      'forgot' exactly when none has it; a refusal writes nothing. */
  lemma SendPurposeRules(otps: map<Id, OtpEntry>, nextId: nat, users: map<Id, User>,
                         phone: string, purpose: string, sent: bool)
    requires Fresh(otps, nextId)
    ensures var (reply, otps', nextId') := SendOn(otps, nextId, users, phone, purpose, sent);
      && (reply.Fail? ==> otps' == otps && nextId' == nextId)
      && (reply.Ok? <==>
            && phone != "" && purpose in ValidPurposes && sent
            && (purpose == "signup" <==> !PhoneKnown(users, FormatPhoneNumber(phone))))
  {
  }

  /** After a successful send the phone has exactly one entry, it is pending,
      and every other entry is as it was. */
  lemma SentCodeIsPending(otps: map<Id, OtpEntry>, nextId: nat, users: map<Id, User>,
                          phone: string, purpose: string, sent: bool)
    requires Fresh(otps, nextId) && PhonesUnique(otps)
    ensures var (reply, otps', nextId') := SendOn(otps, nextId, users, phone, purpose, sent);
      var p := FormatPhoneNumber(phone);
      reply.Ok? ==>
        && PhonesUnique(otps') && Fresh(otps', nextId')
        && (exists id :: id in otps' && otps'[id].phone == p && otps'[id].status == "pending")
        && (forall a :: a in otps && otps[a].phone != p ==> a in otps' && otps'[a] == otps[a])
  {
    var (reply, otps', nextId') := SendOn(otps, nextId, users, phone, purpose, sent);
    if reply.Ok? {
      var p := FormatPhoneNumber(phone);
      UpsertKeepsPhonesUnique(otps, nextId, p);
      var r := UpsertPending(otps, nextId, p);
      assert otps' == r.0 && nextId' == r.1;
      assert r.2 in otps' && otps'[r.2].phone == p;
    }
  }

  /** Resend checks neither the purpose nor the users: with a phone and an
      accepted send it always succeeds, and it leaves the entries exactly as a
      successful send for the same phone does. */
  lemma ResendIgnoresPurposeAndUsers(otps: map<Id, OtpEntry>, nextId: nat, users: map<Id, User>,
                                     phone: string, purpose: string)
    requires Fresh(otps, nextId)
    ensures ResendOn(otps, nextId, phone, true).0.Ok? <==> phone != ""
    ensures var (sendReply, otps', nextId') := SendOn(otps, nextId, users, phone, purpose, true);
      sendReply.Ok? ==> ResendOn(otps, nextId, phone, true) == (Ok(200, "OTP resent successfully", ()), otps', nextId')
  {
  }

  /** A malformed request, a provider error or a verdict other than 'approved'
      leaves every entry as it was. */
  lemma UnapprovedVerifyWritesNothing(otps: map<Id, OtpEntry>, phone: string, code: string, purpose: string,
                                      verdict: Verdict, user: Option<User>, token: string, isProduction: bool)
    requires phone == "" || code == "" || purpose !in ValidPurposes || verdict != Checked("approved")
    ensures var (reply, otps') := VerifyOn(otps, phone, code, purpose, verdict, user, token, isProduction);
      reply.Fail? && otps' == otps
      && (phone == "" || code == "" || purpose !in ValidPurposes ==> reply == Fail(400, "Invalid request"))
  {
  }

  /** An approved code marks the phone's entry verified, and only that entry,
      when the schema accepts the marked entry; the entry stays verified even
      when the user lookup that follows fails.  When the schema refuses it, the
      answer is a 500 and nothing changes.  Without an entry the answer is 404. */
  lemma ApprovedVerifyMarksEntry(otps: map<Id, OtpEntry>, phone: string, code: string, purpose: string,
                                 user: Option<User>, token: string, isProduction: bool)
    requires PhonesUnique(otps)
    requires phone != "" && code != "" && purpose in ValidPurposes
    ensures var (reply, otps') := VerifyOn(otps, phone, code, purpose, Checked("approved"), user, token, isProduction);
      var p := FormatPhoneNumber(phone);
      && ((forall a :: a in otps ==> otps[a].phone != p) ==> reply == Fail(404, "OTP not found") && otps' == otps)
      && (forall id :: id in otps && otps[id].phone == p && ValidOtp(Marked(otps[id])) ==>
            && otps' == otps[id := Marked(otps[id])]
            && (reply.Ok? || reply == Fail(404, "User not found")))
      && (forall id :: id in otps && otps[id].phone == p && !ValidOtp(Marked(otps[id])) ==>
            reply == Fail(500, "OTP verification failed") && otps' == otps)
  {
  }

  /** 'signup' answers with no user and no token.  'login' and 'forgot' sign in
      exactly when the lookup found a user, answering with that user, and the
      token is in the body exactly outside production. */
  lemma VerifyIssuesTokenOnlyForKnownUser(otps: map<Id, OtpEntry>, phone: string, code: string, purpose: string,
                                          verdict: Verdict, user: Option<User>, token: string, isProduction: bool)
    ensures var (reply, _) := VerifyOn(otps, phone, code, purpose, verdict, user, token, isProduction);
      && (reply.Ok? && purpose == "signup" ==> reply.body == SignupVerified)
      && (reply.Ok? && purpose != "signup" ==>
            && user.Some? && reply.body.SignedIn?
            && reply.body.name == user.value.name && reply.body.role == user.value.role
            && (reply.body.token.Some? <==> !isProduction)
            && (reply.body.token.Some? ==> reply.body.token.value == token))
  {
  }

  /** No entry holds a code: the handlers never write the `otp` path. */
  predicate Codeless(otps: map<Id, OtpEntry>) {
    forall a :: a in otps ==> otps[a].otp.None?
  }

  /** Send and resend write no code, and verify writes nothing at all to a
      codeless store, so the entries stay codeless. */
  lemma OtpHandlersKeepCodeless(otps: map<Id, OtpEntry>, nextId: nat, users: map<Id, User>,
                                phone: string, purpose: string, sent: bool, code: string,
                                verdict: Verdict, user: Option<User>, token: string, isProduction: bool)
    requires Fresh(otps, nextId) && Codeless(otps)
    ensures Codeless(SendOn(otps, nextId, users, phone, purpose, sent).1)
    ensures Codeless(ResendOn(otps, nextId, phone, sent).1)
    ensures Codeless(VerifyOn(otps, phone, code, purpose, verdict, user, token, isProduction).1)
  {
    if phone != "" {
      var r := UpsertPending(otps, nextId, FormatPhoneNumber(phone));
      forall a | a in r.0 ensures r.0[a].otp.None? {
        if a != r.2 { assert r.0[a] == otps[a]; }
      }
    }
    CodelessVerifyFails(otps, phone, code, purpose, verdict, user, token, isProduction);
  }

  /** On a codeless store verify never succeeds and never writes: an approved
      code whose entry exists gets a 500, because the schema refuses to save
      an entry without its required `otp`, `purpose` and `expiresAt`. */
  lemma CodelessVerifyFails(otps: map<Id, OtpEntry>, phone: string, code: string, purpose: string,
                            verdict: Verdict, user: Option<User>, token: string, isProduction: bool)
    requires Codeless(otps)
    ensures var (reply, otps') := VerifyOn(otps, phone, code, purpose, verdict, user, token, isProduction);
      && reply.Fail? && otps' == otps
      && (phone != "" && code != "" && purpose in ValidPurposes && verdict == Checked("approved")
          && (exists a :: a in otps && otps[a].phone == FormatPhoneNumber(phone))
          ==> reply == Fail(500, "OTP verification failed"))
  {
    var p := FormatPhoneNumber(phone);
    if && phone != "" && code != "" && purpose in ValidPurposes && verdict == Checked("approved")
       && exists a :: a in otps && otps[a].phone == p
    {
      var r := VerifyOn(otps, phone, code, purpose, verdict, user, token, isProduction);
      assert exists id :: (id in otps && otps[id].phone == p && !ValidOtp(Marked(otps[id]))
                           && r == (Fail(500, "OTP verification failed"), otps));
    }
  }

  /** Sending a code and then verifying it with the provider's approval never
      succeeds on a store the handlers wrote: the entry is found (never "OTP not
      found"), yet its save is refused, so the answer is a 500 and the entries
      stay as the send left them. */
  lemma SentThenApprovedFails(otps: map<Id, OtpEntry>, nextId: nat, users: map<Id, User>,
                              phone: string, purpose: string, code: string,
                              user: Option<User>, token: string, isProduction: bool)
    requires Fresh(otps, nextId) && Codeless(otps) && code != ""
    ensures var (sendReply, otps', _) := SendOn(otps, nextId, users, phone, purpose, true);
      sendReply.Ok? ==>
        VerifyOn(otps', phone, code, purpose, Checked("approved"), user, token, isProduction)
          == (Fail(500, "OTP verification failed"), otps')
  {
    var (sendReply, otps', nextId') := SendOn(otps, nextId, users, phone, purpose, true);
    if sendReply.Ok? {
      var p := FormatPhoneNumber(phone);
      var r := UpsertPending(otps, nextId, p);
      assert otps' == r.0 && r.2 in otps' && otps'[r.2].phone == p;
      OtpHandlersKeepCodeless(otps, nextId, users, phone, purpose, true, code, Checked("approved"), user, token, isProduction);
      CodelessVerifyFails(otps', phone, code, purpose, Checked("approved"), user, token, isProduction);
    }
  }

  /** The OTP handlers never write an e-mail address into an entry. */
  lemma OtpHandlersWriteNoEmail(otps: map<Id, OtpEntry>, nextId: nat, users: map<Id, User>,
                                phone: string, purpose: string, sent: bool, code: string,
                                verdict: Verdict, user: Option<User>, token: string, isProduction: bool)
    requires Fresh(otps, nextId) && NoEmails(otps)
    ensures NoEmails(SendOn(otps, nextId, users, phone, purpose, sent).1)
    ensures NoEmails(ResendOn(otps, nextId, phone, sent).1)
    ensures NoEmails(VerifyOn(otps, phone, code, purpose, verdict, user, token, isProduction).1)
  {
    if phone != "" {
      UpsertKeepsNoEmails(otps, nextId, FormatPhoneNumber(phone));
    }
    VerifyKeepsNoEmails(otps, phone, code, purpose, verdict, user, token, isProduction);
  }

  /** Marking an entry verified writes no e-mail address. */
  lemma VerifyKeepsNoEmails(otps: map<Id, OtpEntry>, phone: string, code: string, purpose: string,
                            verdict: Verdict, user: Option<User>, token: string, isProduction: bool)
    requires NoEmails(otps)
    ensures NoEmails(VerifyOn(otps, phone, code, purpose, verdict, user, token, isProduction).1)
  {
    var p := FormatPhoneNumber(phone);
    if && phone != "" && code != "" && purpose in ValidPurposes && verdict == Checked("approved")
       && exists a :: a in otps && otps[a].phone == p
    {
      var m := VerifyOn(otps, phone, code, purpose, verdict, user, token, isProduction).1;
      assert exists id :: id in otps && (m == otps || m == otps[id := Marked(otps[id])]);
      var id :| id in otps && (m == otps || m == otps[id := Marked(otps[id])]);
      forall a | a in m ensures m[a].email.None? {
        if a != id { assert m[a] == otps[a]; }
      }
    }
  }

  /** The upsert writes no e-mail address. */
  lemma UpsertKeepsNoEmails(otps: map<Id, OtpEntry>, nextId: nat, p: string)
    requires Fresh(otps, nextId) && NoEmails(otps)
    ensures NoEmails(UpsertPending(otps, nextId, p).0)
  {
    var r := UpsertPending(otps, nextId, p);
    forall a | a in r.0 ensures r.0[a].email.None? {
      if a != r.2 { assert r.0[a] == otps[a]; }
    }
  }
}
