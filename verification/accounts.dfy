/**
 * The server's account state machine (service/AuthService.java):
 * registration, e-mail verification with a six-digit code that expires
 * after fifteen minutes, onboarding, login and code re-issue, over an
 * in-memory user table keyed by the normalised e-mail address.
 */
module Accounts {
  import opened Wrappers
  import opened Text
  import opened Types

  // ---------------------------------------------------------------------
  // Records, requests and messages
  // ---------------------------------------------------------------------

  /** The onboarding answers; the enum-valued fields hold the enum constant's name. */
  datatype OnboardingRequest = OnboardingRequest(
    goal: string,
    activityLevel: string,
    currentWeight: real,
    targetWeight: Option<real>,
    height: int,
    age: int,
    gender: string)

  /** One row of the user table. `password` holds the encoded password. */
  datatype UserRecord = UserRecord(
    id: nat,
    email: string,
    password: string,
    firstName: string,
    lastName: string,
    emailVerified: bool,
    profileCompleted: bool,
    enabled: bool,
    verificationCode: Option<string>,
    codeExpiresAt: Option<int>,
    profile: Option<OnboardingRequest>)

  /** A verification e-mail that was handed to the mail server. */
  datatype Mail = Mail(to: string, code: string)

  /**
   * How a service call fails: a `RuntimeException` with its message, the
   * authentication manager rejecting the credentials, or the table refusing
   * a second row for an address it already holds.
   */
  datatype ServiceError = Thrown(message: string) | AuthenticationRejected | SaveRejected

  const EMAIL_TAKEN: string := "Email is already registered!"
  const REGISTERED: string := "Registration successful! Please check your email for verification code."
  const USER_NOT_FOUND: string := "User not found"
  const ALREADY_VERIFIED: string := "Email is already verified"
  const NO_CODE: string := "No verification code found. Please request a new one."
  const CODE_EXPIRED: string := "Verification code has expired. Please request a new one."
  const INVALID_CODE: string := "Invalid verification code"
  const MUST_VERIFY_FIRST: string := "Email must be verified before completing onboarding"
  const VERIFY_BEFORE_LOGIN: string := "Please verify your email before logging in"
  const MAIL_FAILED: string := "Failed to send verification email"

  /** `random.nextInt(1000000)` draws below this bound. */
  const CODE_RANGE: nat := 1000000
  const CODE_DIGITS: nat := 6
  /** Fifteen minutes, in seconds: the lifetime of a verification code. */
  const CODE_TTL: int := 15 * 60

  // ---------------------------------------------------------------------
  // Verification codes
  // ---------------------------------------------------------------------

  predicate IsCode(c: string) {
    |c| == CODE_DIGITS && AllDigits(c)
  }

  /** `generateVerificationCode()` for the draw `draw`: `String.format("%06d", draw)`. */
  function GenerateVerificationCode(draw: nat): (c: string)
    requires draw < CODE_RANGE
    ensures IsCode(c) && DecimalValue(c) == draw
  {
    assert Pow10(CODE_DIGITS) == CODE_RANGE;
    ZeroPaddedExact(draw, CODE_DIGITS);
    ZeroPadded(draw, CODE_DIGITS)
  }

  /** Different draws give different codes, so every one of the 10^6 codes is reachable exactly once. */
  lemma GenerateInjective(a: nat, b: nat)
    requires a < CODE_RANGE && b < CODE_RANGE
    ensures GenerateVerificationCode(a) == GenerateVerificationCode(b) <==> a == b
  {
    if GenerateVerificationCode(a) == GenerateVerificationCode(b) {
      assert DecimalValue(GenerateVerificationCode(a)) == DecimalValue(GenerateVerificationCode(b));
    }
  }

  /** A code never carries blanks at its ends, so Java's `trim` leaves it as it is. */
  lemma CodeUntrimmed(c: string)
    requires IsCode(c)
    ensures JavaTrim(c) == c && c != ""
  {
    TrimUntrimmed(c, IsJavaSpace);
  }

  // ---------------------------------------------------------------------
  // Record transitions
  // ---------------------------------------------------------------------

  /** The row `register` saves. */
  function NewRecord(id: nat, req: RegisterData, hash: string, code: string, now: int): UserRecord {
    UserRecord(id, NormaliseEmail(req.email), hash, JavaTrim(req.firstName), JavaTrim(req.lastName),
               false, false, false, Some(code), Some(now + CODE_TTL), None)
  }

  /** The row after a successful `verifyEmail`. */
  function MarkedVerified(u: UserRecord): UserRecord {
    u.(emailVerified := true, enabled := true, verificationCode := None, codeExpiresAt := None)
  }

  /** The row after `resendVerificationCode` issued `code` at `now`. */
  function Reissued(u: UserRecord, code: string, now: int): UserRecord {
    u.(verificationCode := Some(code), codeExpiresAt := Some(now + CODE_TTL))
  }

  /** The row after `completeOnboarding`. */
  function Onboarded(u: UserRecord, req: OnboardingRequest): UserRecord {
    u.(profile := Some(req), profileCompleted := true)
  }

  /** The reply body built from a saved row. */
  function ResponseOf(jwt: string, u: UserRecord): AuthResponse {
    AuthResponse(jwt, BEARER, u.id, u.email, u.firstName, u.lastName, u.emailVerified, u.profileCompleted)
  }

  /**
   * The invariant of every row: a verified account is enabled and holds no
   * code; an unverified one is disabled and holds one; a code, always six digits, comes
   * with an expiry; only a verified account has completed its profile.
   */
  predicate RowOk(u: UserRecord, nextId: nat) {
    && u.id < nextId
    && u.enabled == u.emailVerified
    && (u.emailVerified <==> u.verificationCode.None?)
    && (u.verificationCode.Some? <==> u.codeExpiresAt.Some?)
    && (u.verificationCode.Some? ==> IsCode(u.verificationCode.value))
    && (u.profileCompleted <==> u.profile.Some?)
    && (u.profileCompleted ==> u.emailVerified)
  }

  /** A row is stored under its own address, which is in normal form. */
  predicate RecordOk(key: string, u: UserRecord, nextId: nat) {
    u.email == key && NormaliseEmail(key) == key && RowOk(u, nextId)
  }

  predicate TableOk(users: map<string, UserRecord>, nextId: nat) {
    forall k :: k in users ==> RecordOk(k, users[k], nextId)
  }

  /** Storing a well-formed row under a normalised key that is its own address keeps the table well formed. */
  lemma StoreRow(users: map<string, UserRecord>, nextId: nat, key: string, u: UserRecord)
    requires TableOk(users, nextId)
    requires u.email == key && NormaliseEmail(key) == key && RowOk(u, nextId)
    ensures TableOk(users[key := u], nextId)
  {
  }

  /** Reserving a further identifier keeps the table well formed. */
  lemma NextIdGrows(users: map<string, UserRecord>, nextId: nat)
    requires TableOk(users, nextId)
    ensures TableOk(users, nextId + 1)
  {
    forall k | k in users ensures RecordOk(k, users[k], nextId + 1) {
      assert RecordOk(k, users[k], nextId);
    }
  }

  // ---------------------------------------------------------------------
  // The verification decision
  // ---------------------------------------------------------------------

  /** The checks `verifyEmail` makes on a found row, in order: the message it throws, or `None`. */
  function CheckCode(u: UserRecord, given: string, now: int): (r: Option<string>)
    ensures u.emailVerified ==> r == Some(ALREADY_VERIFIED)
    ensures r == None <==>
              !u.emailVerified && u.verificationCode == Some(given) && JavaTrim(given) != ""
              && u.codeExpiresAt.Some? && now <= u.codeExpiresAt.value
    ensures r.Some? ==> r.value in {ALREADY_VERIFIED, NO_CODE, CODE_EXPIRED, INVALID_CODE}
  {
    if u.emailVerified then Some(ALREADY_VERIFIED)
    else if u.verificationCode.None? || JavaTrim(u.verificationCode.value) == "" then Some(NO_CODE)
    else if u.codeExpiresAt.None? || now > u.codeExpiresAt.value then Some(CODE_EXPIRED)
    else if given != u.verificationCode.value then Some(INVALID_CODE)
    else None
  }

  /** The message `verifyEmail` throws, or `None` when it succeeds. */
  function VerifyFailure(users: map<string, UserRecord>, email: string, code: string, now: int): (r: Option<string>)
    ensures r == Some(USER_NOT_FOUND) <==> NormaliseEmail(email) !in users
    ensures r == None ==>
              NormaliseEmail(email) in users && users[NormaliseEmail(email)].verificationCode == Some(JavaTrim(code))
  {
    var key := NormaliseEmail(email);
    if key !in users then Some(USER_NOT_FOUND) else CheckCode(users[key], JavaTrim(code), now)
  }

  /**
   * On a well-formed row the checks pass exactly when the account is
   * unverified, its code has not expired (a code is still good at the very
   * second it expires) and equals the code given; "no code" is never the
   * reason for a failure.
   */
  lemma CheckCodeIff(u: UserRecord, nextId: nat, given: string, now: int)
    requires RowOk(u, nextId)
    ensures CheckCode(u, given, now) == None <==>
              !u.emailVerified && u.verificationCode == Some(given) && now <= u.codeExpiresAt.value
    ensures CheckCode(u, given, now) != Some(NO_CODE)
  {
    if u.verificationCode.Some? {
      CodeUntrimmed(u.verificationCode.value);
    }
  }

  /** On a well-formed table a verification succeeds exactly when the account exists and the checks pass. */
  lemma VerifySucceedsIff(users: map<string, UserRecord>, nextId: nat, email: string, code: string, now: int)
    requires TableOk(users, nextId)
    ensures VerifyFailure(users, email, code, now) == None <==>
              var key := NormaliseEmail(email);
              && key in users
              && !users[key].emailVerified
              && users[key].verificationCode == Some(JavaTrim(code))
              && now <= users[key].codeExpiresAt.value
    ensures VerifyFailure(users, email, code, now) != Some(NO_CODE)
  {
    var key := NormaliseEmail(email);
    if key in users {
      assert RecordOk(key, users[key], nextId);
      CheckCodeIff(users[key], nextId, JavaTrim(code), now);
    }
  }

  /** Once an account is verified, every further attempt fails with "already verified", whatever code and time. */
  lemma VerifyOnce(users: map<string, UserRecord>, email: string, code: string, now: int)
    requires NormaliseEmail(email) in users
    ensures VerifyFailure(users[NormaliseEmail(email) := MarkedVerified(users[NormaliseEmail(email)])], email, code, now)
              == Some(ALREADY_VERIFIED)
  {
  }

  /**
   * A freshly issued code verifies, under any spelling of the address that
   * normalises to the account's, up to and including fifteen minutes after
   * it was issued, and is reported expired after that.
   */
  lemma FreshCodeWindow(users: map<string, UserRecord>, email: string, code: string, issued: int, now: int)
    requires NormaliseEmail(email) in users && !users[NormaliseEmail(email)].emailVerified
    requires IsCode(code)
    ensures var key := NormaliseEmail(email);
            VerifyFailure(users[key := Reissued(users[key], code, issued)], email, code, now)
              == if now > issued + CODE_TTL then Some(CODE_EXPIRED) else None
  {
    CodeUntrimmed(code);
  }

  /** The message a registration attempt gets back, for a request whose address the table already holds. */
  function RegisterFailure(users: map<string, UserRecord>, req: RegisterData): (r: Option<ServiceError>)
    ensures r == None <==> req.email !in users && NormaliseEmail(req.email) !in users
    ensures r == Some(Thrown(EMAIL_TAKEN)) <==> req.email in users
    ensures r == Some(SaveRejected) <==> req.email !in users && NormaliseEmail(req.email) in users
  {
    if req.email in users then Some(Thrown(EMAIL_TAKEN))
    else if NormaliseEmail(req.email) in users then Some(SaveRejected)
    else None
  }

  /**
   * The duplicate check looks up the address as typed, not normalised: a
   * spelling of a registered address with a leading space passes it and only
   * the table's own uniqueness stops the second row, without the
   * "already registered" message.
   */
  lemma DuplicateCheckUsesRawAddress(users: map<string, UserRecord>, u: UserRecord)
    requires users == map["ann@fit.io" := u]
    ensures RegisterFailure(users, RegisterData(" ann@fit.io", "pw", "Ann", "Lee")) == Some(SaveRejected)
    ensures RegisterFailure(users, RegisterData("ann@fit.io", "pw", "Ann", "Lee")) == Some(Thrown(EMAIL_TAKEN))
  {
    var raw := " ann@fit.io";
    var lower := LowerAscii(raw);
    assert lower == raw;
    var t := JavaTrim(lower);
    assert LeadingCount(lower, IsJavaSpace) == 1;
    assert !IsJavaSpace(lower[|lower| - 1]);
    assert t == lower[1..];
    assert NormaliseEmail(raw) == "ann@fit.io";
    assert raw !in users;
  }

  // ---------------------------------------------------------------------
  // The service
  // ---------------------------------------------------------------------

  /**
   * `AuthService` with its repository replaced by `users` (keyed by e-mail)
   * and `nextId` (the next generated primary key), and its mail server by
   * `outbox`, the verification e-mails handed over so far. Randomness, the
   * clock (`now`, in seconds), the password encoder, the token issuer and the
   * authentication manager are parameters of the operations.
   */
  class AuthService {
    var users: map<string, UserRecord>
    var nextId: nat
    var outbox: seq<Mail>

    ghost predicate Valid()
      reads this
    {
      TableOk(users, nextId)
    }

    constructor ()
      ensures Valid()
      ensures users == map[] && nextId == 1 && outbox == []
    {
      users := map[];
      nextId := 1;
      outbox := [];
    }

    /**
     * `register(request)`: `hash` is the encoder's output for the password,
     * `draw` the random draw, `mailOk` whether the mail server accepted the
     * message (a failure is swallowed).
     */
    method Register(req: RegisterData, hash: string, draw: nat, now: int, mailOk: bool)
      returns (r: Result<RegisterReply, ServiceError>)
      requires Valid() && draw < CODE_RANGE
      modifies this
      ensures Valid()
      ensures RegisterFailure(old(users), req).Some? ==>
                && r == Err(RegisterFailure(old(users), req).value)
                && users == old(users) && nextId == old(nextId) && outbox == old(outbox)
      ensures RegisterFailure(old(users), req).None? ==>
                var key := NormaliseEmail(req.email);
                var code := GenerateVerificationCode(draw);
                && r == Ok(RegisterReply(REGISTERED, key))
                && users == old(users)[key := NewRecord(old(nextId), req, hash, code, now)]
                && nextId == old(nextId) + 1
                && outbox == old(outbox) + (if mailOk then [Mail(key, code)] else [])
    {
      if req.email in users {
        return Err(Thrown(EMAIL_TAKEN));
      }
      var key := NormaliseEmail(req.email);
      if key in users {
        return Err(SaveRejected);
      }
      var code := GenerateVerificationCode(draw);
      var user := NewRecord(nextId, req, hash, code, now);
      NormaliseIdempotent(req.email);
      NextIdGrows(users, nextId);
      StoreRow(users, nextId + 1, key, user);
      users := users[key := user];
      nextId := nextId + 1;
      if mailOk {
        outbox := outbox + [Mail(user.email, code)];
      }
      r := Ok(RegisterReply(REGISTERED, user.email));
    }

    /** `verifyEmail(request)`: `jwt` is the token the issuer signs for the account. */
    method VerifyEmail(email: string, code: string, now: int, jwt: string)
      returns (r: Result<AuthResponse, ServiceError>)
      requires Valid()
      modifies this
      ensures Valid()
      ensures nextId == old(nextId) && outbox == old(outbox)
      ensures VerifyFailure(old(users), email, code, now).Some? ==>
                r == Err(Thrown(VerifyFailure(old(users), email, code, now).value)) && users == old(users)
      ensures VerifyFailure(old(users), email, code, now).None? ==>
                var key := NormaliseEmail(email);
                && users == old(users)[key := MarkedVerified(old(users)[key])]
                && r == Ok(ResponseOf(jwt, users[key]))
                && r.value.emailVerified && r.value.profileCompleted == old(users)[key].profileCompleted
    {
      var key := NormaliseEmail(email);
      var given := JavaTrim(code);
      if key !in users {
        return Err(Thrown(USER_NOT_FOUND));
      }
      var user := users[key];
      if user.emailVerified {
        return Err(Thrown(ALREADY_VERIFIED));
      }
      if user.verificationCode.None? || JavaTrim(user.verificationCode.value) == "" {
        return Err(Thrown(NO_CODE));
      }
      if user.codeExpiresAt.None? || now > user.codeExpiresAt.value {
        return Err(Thrown(CODE_EXPIRED));
      }
      if given != user.verificationCode.value {
        return Err(Thrown(INVALID_CODE));
      }
      assert CheckCode(user, given, now) == None;
      var saved := MarkedVerified(user);
      assert RecordOk(key, user, nextId);
      StoreRow(users, nextId, key, saved);
      users := users[key := saved];
      r := Ok(ResponseOf(jwt, saved));
    }

    /** `completeOnboarding(request, userEmail)`: `userEmail` is the authenticated principal's name. */
    method CompleteOnboarding(req: OnboardingRequest, userEmail: string, jwt: string)
      returns (r: Result<AuthResponse, ServiceError>)
      requires Valid()
      modifies this
      ensures Valid()
      ensures nextId == old(nextId) && outbox == old(outbox)
      ensures var key := NormaliseEmail(userEmail);
              && (key !in old(users) ==> r == Err(Thrown(USER_NOT_FOUND)) && users == old(users))
              && (key in old(users) && !old(users)[key].emailVerified ==>
                    r == Err(Thrown(MUST_VERIFY_FIRST)) && users == old(users))
              && (key in old(users) && old(users)[key].emailVerified ==>
                    && users == old(users)[key := Onboarded(old(users)[key], req)]
                    && r == Ok(ResponseOf(jwt, users[key]))
                    && r.value.emailVerified && r.value.profileCompleted)
    {
      var key := NormaliseEmail(userEmail);
      if key !in users {
        return Err(Thrown(USER_NOT_FOUND));
      }
      var user := users[key];
      if !user.emailVerified {
        return Err(Thrown(MUST_VERIFY_FIRST));
      }
      var saved := Onboarded(user, req);
      assert RecordOk(key, user, nextId);
      StoreRow(users, nextId, key, saved);
      users := users[key := saved];
      r := Ok(ResponseOf(jwt, saved));
    }

    /**
     * `login(request)`: `authenticate` stands for the authentication manager,
     * given the normalised address and the password; it yields the
     * principal's user name or rejects. Nothing is stored.
     */
    method Login(credentials: LoginCredentials, authenticate: (string, string) -> Option<string>, jwt: string)
      returns (r: Result<AuthResponse, ServiceError>)
      requires Valid()
      ensures var principal := authenticate(NormaliseEmail(credentials.email), credentials.password);
              && (principal.None? ==> r == Err(AuthenticationRejected))
              && (principal.Some? && principal.value !in users ==> r == Err(Thrown(USER_NOT_FOUND)))
              && (principal.Some? && principal.value in users && !users[principal.value].emailVerified ==>
                    r == Err(Thrown(VERIFY_BEFORE_LOGIN)))
              && (r.Ok? <==> principal.Some? && principal.value in users && users[principal.value].emailVerified)
              && (r.Ok? ==> r == Ok(ResponseOf(jwt, users[principal.value])))
              && (r.Ok? ==> r.value.emailVerified && r.value.email == principal.value)
    {
      var email := NormaliseEmail(credentials.email);
      var principal := authenticate(email, credentials.password);
      if principal.None? {
        return Err(AuthenticationRejected);
      }
      var name := principal.value;
      if name !in users {
        return Err(Thrown(USER_NOT_FOUND));
      }
      var user := users[name];
      if !user.emailVerified {
        return Err(Thrown(VERIFY_BEFORE_LOGIN));
      }
      r := Ok(ResponseOf(jwt, user));
    }

    /**
     * `resendVerificationCode(email)`: the new code is saved before the
     * e-mail is sent, so a mail failure still replaces the code.
     */
    method ResendVerificationCode(email: string, draw: nat, now: int, mailOk: bool)
      returns (r: Result<(), ServiceError>)
      requires Valid() && draw < CODE_RANGE
      modifies this
      ensures Valid()
      ensures nextId == old(nextId)
      ensures var key := NormaliseEmail(email);
              && (key !in old(users) ==> r == Err(Thrown(USER_NOT_FOUND)) && users == old(users) && outbox == old(outbox))
              && (key in old(users) && old(users)[key].emailVerified ==>
                    r == Err(Thrown(ALREADY_VERIFIED)) && users == old(users) && outbox == old(outbox))
              && (key in old(users) && !old(users)[key].emailVerified ==>
                    var code := GenerateVerificationCode(draw);
                    && users == old(users)[key := Reissued(old(users)[key], code, now)]
                    && (mailOk ==> r == Ok(()) && outbox == old(outbox) + [Mail(key, code)])
                    && (!mailOk ==> r == Err(Thrown(MAIL_FAILED)) && outbox == old(outbox)))
    {
      var key := NormaliseEmail(email);
      if key !in users {
        return Err(Thrown(USER_NOT_FOUND));
      }
      var user := users[key];
      if user.emailVerified {
        return Err(Thrown(ALREADY_VERIFIED));
      }
      var code := GenerateVerificationCode(draw);
      assert RecordOk(key, user, nextId);
      StoreRow(users, nextId, key, Reissued(user, code, now));
      users := users[key := Reissued(user, code, now)];
      if !mailOk {
        return Err(Thrown(MAIL_FAILED));
      }
      outbox := outbox + [Mail(user.email, code)];
      r := Ok(());
    }
  }

  /** Registering and then verifying with the mailed code, in time, verifies the account. */
  method RegisterThenVerify(service: AuthService, req: RegisterData, hash: string, draw: nat, now: int, later: int, jwt: string)
    returns (r: Result<AuthResponse, ServiceError>)
    requires service.Valid() && draw < CODE_RANGE
    requires RegisterFailure(service.users, req).None?
    requires now <= later <= now + CODE_TTL
    modifies service
    ensures service.Valid()
    ensures r.Ok? && r.value.emailVerified && !r.value.profileCompleted
    ensures r.value.email == NormaliseEmail(req.email)
  {
    var registered := service.Register(req, hash, draw, now, true);
    var key := NormaliseEmail(req.email);
    var code := GenerateVerificationCode(draw);
    assert service.outbox[|service.outbox| - 1] == Mail(key, code);
    CodeUntrimmed(code);
    assert VerifyFailure(service.users, req.email, code, later) == None;
    r := service.VerifyEmail(req.email, code, later, jwt);
  }
}
