/** The e-mail account handlers: sign-up, gated on a verified sign-up OTP entry
    for the address, and sign-in with a password.  The bcrypt comparison and the
    token are inputs. */
module UserController {
  import opened Common
  import opened Text
  import opened Accounts
  import opened Store

  /** The success body: the user's name, e-mail and role and, outside
      production, the token. */
  datatype Session = Session(name: string, email: string, role: string, token: Option<string>)

  /** `e` is what `Otp.findOne({ email, purpose: 'signup', status: 'verified' })`
      may return: some matching entry, or nothing when none matches.  Which of
      several it returns is not modelled. */
  predicate SignupLookup(otps: map<Id, OtpEntry>, email: string, e: Option<Id>) {
    && (e.None? ==> forall a :: a in otps ==> !SignupOtp(otps[a], email))
    && (e.Some? ==> e.value in otps && SignupOtp(otps[e.value], email))
  }

  /** Some user holds the address. */
  predicate EmailTaken(users: map<Id, User>, email: string) {
    exists a :: a in users && users[a].email == email
  }

  /** The user document sign-up creates, after the schema's setters. */
  function NewUser(name: string, email: string, password: string): (u: User)
    ensures u.name == Trim(name) && u.email == NormaliseEmail(email) && u.password == password
    ensures u.role == "user" && u.phone.None?
  {
    UserSetters(User(name, email, password, "user", None))
  }

  // ------------------------------------------------------------ sign-up

  /** signup on the users and OTP entries; the strings are "" when absent and
      `entry` is what the OTP lookup returns (see `SignupLookup`). */
  function SignupOn(users: map<Id, User>, otps: map<Id, OtpEntry>, nextId: nat,
                    name: string, email: string, password: string, entry: Option<Id>,
                    token: string, isProduction: bool)
    : (Reply<Session>, map<Id, User>, map<Id, OtpEntry>, nat)
  {
    if name == "" || email == "" || password == "" then (Fail(400, "All fields are required"), users, otps, nextId)
    else
      var e := NormaliseEmail(email);
      if entry.None? then (Fail(400, "OTP not verified"), users, otps, nextId)
      else if EmailTaken(users, NormaliseEmail(e)) then (Fail(400, "User already exists"), users, otps, nextId)
      else
        var u := NewUser(name, e, password);
        if !ValidUser(u) then (Fail(500, "Signup failed"), users, otps, nextId)
        else Registered(users, otps, nextId, u, entry.value, token, isProduction)
  }

  /** The 201 reply, the users with `u` under the next id, and the entries
      without the one sign-up consumed. */
  function Registered(users: map<Id, User>, otps: map<Id, OtpEntry>, nextId: nat, u: User, entry: Id,
                      token: string, isProduction: bool)
    : (r: (Reply<Session>, map<Id, User>, map<Id, OtpEntry>, nat))
    ensures r.0 == Ok(201, "User created successfully", Session(u.name, u.email, u.role, TokenInBody(token, isProduction)))
    ensures r.1 == users[nextId := u] && r.2 == otps - {entry} && r.3 == nextId + 1
  {
    (Ok(201, "User created successfully", Session(u.name, u.email, u.role, TokenInBody(token, isProduction))),
     users[nextId := u], otps - {entry}, nextId + 1)
  }

  /** `signup`. */
  method Signup(db: Database, name: string, email: string, password: string, token: string, isProduction: bool)
    returns (reply: Reply<Session>)
    requires db.Valid()
    modifies db`users, db`otps, db`nextId
    ensures db.Valid()
    ensures exists entry ::
      (SignupLookup(old(db.otps), NormaliseEmail(email), entry) &&
       (reply, db.users, db.otps, db.nextId) ==
         SignupOn(old(db.users), old(db.otps), old(db.nextId), name, email, password, entry, token, isProduction))
  {
    var e := NormaliseEmail(email);
    ghost var entry: Option<Id> := None;
    if exists a :: a in db.otps && SignupOtp(db.otps[a], e) {
      var a :| a in db.otps && SignupOtp(db.otps[a], e);
      entry := Some(a);
    }
    assert SignupLookup(db.otps, e, entry);
    if name == "" || email == "" || password == "" {
      return Fail(400, "All fields are required");
    }
    var found := db.FindVerifiedSignupOtp(e);
    entry := found;
    assert SignupLookup(db.otps, e, entry);
    if found.None? {
      return Fail(400, "OTP not verified");
    }
    var existing := db.FindUserByEmail(NormaliseEmail(e));
    if existing.Some? {
      return Fail(400, "User already exists");
    }
    reply := Register(db, NewUser(name, e, password), found.value, token, isProduction);
  }

  /** The `User.create` and `Otp.deleteOne` steps of signup, once the entry is
      found and the address is known to be free. */
  method Register(db: Database, u: User, entry: Id, token: string, isProduction: bool)
    returns (reply: Reply<Session>)
    requires db.Valid()
    requires !EmailTaken(db.users, u.email)
    modifies db`users, db`otps, db`nextId
    ensures db.Valid()
    ensures (reply, db.users, db.otps, db.nextId) ==
      if !ValidUser(u) then (Fail(500, "Signup failed"), old(db.users), old(db.otps), old(db.nextId))
      else Registered(old(db.users), old(db.otps), old(db.nextId), u, entry, token, isProduction)
  {
    ghost var users, otps, nextId := db.users, db.otps, db.nextId;
    assert !EmailClash(db.users, db.nextId, u.email);
    var created := db.InsertUser(u);
    if created.Failure? {
      assert created.error == ValidationError;
      return Fail(500, "Signup failed");
    }
    db.DeleteOtp(entry);
    reply := Ok(201, "User created successfully", Session(u.name, u.email, u.role, TokenInBody(token, isProduction)));
    assert (reply, db.users, db.otps, db.nextId) == Registered(users, otps, nextId, u, entry, token, isProduction);
  }

  // ------------------------------------------------------------ sign-in

  /** signin on the users; `matches(entered, stored)` is bcrypt's comparison. */
  ghost function SigninOn(users: map<Id, User>, email: string, password: string,
                          matches: (string, string) -> bool, token: string, isProduction: bool): Reply<Session>
  {
    if email == "" || password == "" then Fail(400, "Email and password are required")
    else
      var e := NormaliseEmail(email);
      if !EmailTaken(users, NormaliseEmail(e)) then Fail(400, "Invalid email or password")
      else
        var a :| a in users && users[a].email == NormaliseEmail(e);
        var u := users[a];
        if !matches(password, u.password) then Fail(400, "Invalid email or password")
        else Ok(200, "Login successful", Session(u.name, u.email, u.role, TokenInBody(token, isProduction)))
  }

  /** `signin`: reads the users only. */
  method Signin(db: Database, email: string, password: string,
                matches: (string, string) -> bool, token: string, isProduction: bool)
    returns (reply: Reply<Session>)
    requires db.Valid()
    ensures reply == SigninOn(db.users, email, password, matches, token, isProduction)
  {
    if email == "" || password == "" {
      return Fail(400, "Email and password are required");
    }
    var e := NormaliseEmail(email);
    var found := db.FindUserByEmail(NormaliseEmail(e));
    if found.None? {
      return Fail(400, "Invalid email or password");
    }
    var u := db.users[found.value];
    assert forall a :: a in db.users && db.users[a].email == NormaliseEmail(e) ==> a == found.value by {
      forall a | a in db.users && db.users[a].email == NormaliseEmail(e) ensures a == found.value {
        assert !EmailClash(db.users, a, db.users[a].email);
      }
    }
    if !matches(password, u.password) {
      return Fail(400, "Invalid email or password");
    }
    reply := Ok(200, "Login successful", Session(u.name, u.email, u.role, TokenInBody(token, isProduction)));
  }

  // ------------------------------------------------------------ logout

  /** `logout` on the `token` cookie the client holds: whatever it held, the
      cookie is cleared and the answer is 200. */
  function Logout(cookie: Option<string>): (r: (Reply<()>, Option<string>))
    ensures r.0.Ok? && r.0.status == 200 && r.1.None?
  {
    (Ok(200, "Logged out successfully", ()), None)
  }

  // ------------------------------------------------------------ properties

  /** Addresses are unique. */
  predicate EmailsUnique(users: map<Id, User>) {
    forall a, b :: a in users && b in users && users[a].email == users[b].email ==> a == b
  }

  /** A successful sign-up needed a verified sign-up entry for the normalised
      address and an address no user held; it adds one user with role 'user'
      and the normalised address under a fresh id, and deletes exactly that
      entry.  Any refusal writes nothing. */
  lemma SignupGate(users: map<Id, User>, otps: map<Id, OtpEntry>, nextId: nat,
                   name: string, email: string, password: string, entry: Option<Id>,
                   token: string, isProduction: bool)
    requires forall a :: a in users ==> a < nextId
    requires SignupLookup(otps, NormaliseEmail(email), entry)
    ensures var (reply, users', otps', nextId') :=
      SignupOn(users, otps, nextId, name, email, password, entry, token, isProduction);
      && (reply.Fail? ==> users' == users && otps' == otps && nextId' == nextId)
      && (reply.Ok? ==>
            && name != "" && email != "" && password != ""
            && entry.Some? && SignupOtp(otps[entry.value], NormaliseEmail(email))
            && !EmailTaken(users, NormaliseEmail(email))
            && nextId !in users && users' == users[nextId := users'[nextId]] && nextId' == nextId + 1
            && users'[nextId].role == "user" && users'[nextId].email == NormaliseEmail(email)
            && ValidUser(users'[nextId])
            && otps' == otps - {entry.value})
  {
    var e := NormaliseEmail(email);
    NormaliseEmailIdempotent(email);
    if name != "" && email != "" && password != "" && entry.Some? && !EmailTaken(users, e) {
      var u := NewUser(name, e, password);
      if ValidUser(u) {
        assert SignupOn(users, otps, nextId, name, email, password, entry, token, isProduction)
            == Registered(users, otps, nextId, u, entry.value, token, isProduction);
      }
    }
  }

  /** Sign-up keeps addresses unique. */
  lemma SignupKeepsEmailsUnique(users: map<Id, User>, otps: map<Id, OtpEntry>, nextId: nat,
                                name: string, email: string, password: string, entry: Option<Id>,
                                token: string, isProduction: bool)
    requires forall a :: a in users ==> a < nextId
    requires EmailsUnique(users) && SignupLookup(otps, NormaliseEmail(email), entry)
    ensures EmailsUnique(SignupOn(users, otps, nextId, name, email, password, entry, token, isProduction).1)
  {
    SignupGate(users, otps, nextId, name, email, password, entry, token, isProduction);
    var (reply, users', otps', nextId') := SignupOn(users, otps, nextId, name, email, password, entry, token, isProduction);
    if reply.Ok? {
      forall a, b | a in users' && b in users' && users'[a].email == users'[b].email
        ensures a == b
      {
        if a != nextId && b != nextId {
          assert users[a].email == users[b].email;
        }
      }
    }
  }

  /** An address some user already holds is never signed up again. */
  lemma TakenEmailIsRefused(users: map<Id, User>, otps: map<Id, OtpEntry>, nextId: nat,
                            name: string, email: string, password: string, entry: Option<Id>,
                            token: string, isProduction: bool)
    requires EmailTaken(users, NormaliseEmail(email))
    ensures SignupOn(users, otps, nextId, name, email, password, entry, token, isProduction).0.Fail?
  {
    NormaliseEmailIdempotent(email);
  }

  /** A second sign-up for an address just signed up, in any letter case and
      with any surrounding whitespace, is refused. */
  lemma SecondSignupIsRefused(users: map<Id, User>, otps: map<Id, OtpEntry>, nextId: nat,
                              name: string, email: string, password: string, entry: Option<Id>,
                              name2: string, email2: string, password2: string, entry2: Option<Id>,
                              token: string, isProduction: bool)
    requires forall a :: a in users ==> a < nextId
    requires SignupLookup(otps, NormaliseEmail(email), entry)
    requires NormaliseEmail(email2) == NormaliseEmail(email)
    ensures var (reply, users', otps', nextId') :=
      SignupOn(users, otps, nextId, name, email, password, entry, token, isProduction);
      reply.Ok? ==> SignupOn(users', otps', nextId', name2, email2, password2, entry2, token, isProduction).0.Fail?
  {
    SignupGate(users, otps, nextId, name, email, password, entry, token, isProduction);
    var (reply, users', otps', nextId') := SignupOn(users, otps, nextId, name, email, password, entry, token, isProduction);
    if reply.Ok? {
      assert users'[nextId].email == NormaliseEmail(email2);
      TakenEmailIsRefused(users', otps', nextId', name2, email2, password2, entry2, token, isProduction);
    }
  }

  /** Entries the OTP handlers write carry no e-mail address, so while every
      entry is such an entry sign-up is always refused: it never gets past the
      OTP lookup. */
  lemma SignupNeedsEmailEntry(users: map<Id, User>, otps: map<Id, OtpEntry>, nextId: nat,
                              name: string, email: string, password: string, entry: Option<Id>,
                              token: string, isProduction: bool)
    requires SignupLookup(otps, NormaliseEmail(email), entry)
    requires forall a :: a in otps ==> otps[a].email.None?
    ensures SignupOn(users, otps, nextId, name, email, password, entry, token, isProduction).0.Fail?
  {
  }

  /** An unknown address and a wrong password get the identical answer, and a
      sign-in succeeds only for the stored user whose password matches. */
  lemma SigninRefusalsAlike(users: map<Id, User>, email: string, password: string,
                            matches: (string, string) -> bool, token: string, isProduction: bool)
    requires EmailsUnique(users) && email != "" && password != ""
    ensures var reply := SigninOn(users, email, password, matches, token, isProduction);
      var e := NormaliseEmail(email);
      && (!EmailTaken(users, e) ==> reply == Fail(400, "Invalid email or password"))
      && (forall a :: a in users && users[a].email == e && !matches(password, users[a].password) ==>
            reply == Fail(400, "Invalid email or password"))
      && (reply.Ok? <==> exists a :: a in users && users[a].email == e && matches(password, users[a].password))
  {
    NormaliseEmailIdempotent(email);
  }

  /** Sign-in answers with the stored user's name, address and role, and with
      the token in the body exactly outside production. */
  lemma SigninSession(users: map<Id, User>, email: string, password: string,
                      matches: (string, string) -> bool, token: string, isProduction: bool)
    ensures var reply := SigninOn(users, email, password, matches, token, isProduction);
      reply.Ok? ==>
        && (exists a :: a in users && users[a].name == reply.body.name && users[a].email == reply.body.email
                        && users[a].role == reply.body.role)
        && (reply.body.token.Some? <==> !isProduction)
  {
  }

  /** The address is normalised before every lookup: spellings that differ only
      in letter case or surrounding whitespace sign in alike. */
  lemma SigninIgnoresCaseAndSpaces(users: map<Id, User>, email: string, email2: string, password: string,
                                   matches: (string, string) -> bool, token: string, isProduction: bool)
    requires email != "" && email2 != "" && NormaliseEmail(email) == NormaliseEmail(email2)
    ensures SigninOn(users, email, password, matches, token, isProduction)
         == SigninOn(users, email2, password, matches, token, isProduction)
  {
  }
}
