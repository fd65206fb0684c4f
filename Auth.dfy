/**
  The newer backend's account routes (`routes/auth_routes.py`): registration,
  login, password change and reset, and e-mail verification by a six-digit
  code kept in the in-memory `OTP_STORE`.

  The `users` collection is a map keyed by e-mail. Password hashing, password
  checking, token issue and token decoding are functions the service is
  built with; the random code is a parameter drawn from its range.
*/
module Auth {
  import opened Common

  /** A stored user document. */
  datatype User = User(fullName: string, email: string, password: string, emailVerified: bool)

  /** What `decode_token` gives: a `JWTError`, no (or an empty) payload, or a payload and its `"sub"` claim. */
  datatype Decoded = JwtError | NoPayload | Payload(sub: Option<string>)

  /** The body of a successful login. */
  datatype LoginReply = LoginReply(accessToken: string, tokenType: string)

  /** The body of `forgot_password`. */
  datatype ResetGrant = ResetGrant(message: string, resetToken: string)

  /** How long a reset token lives, in minutes. */
  const ResetMinutes: nat := 15

  const UserExists := HttpError(400, "User already exists.")
  const InvalidCredentials := HttpError(401, "Invalid credentials")
  const NotVerified := HttpError(403, "Please verify your email before logging in.")
  const UserNotFound := HttpError(404, "User not found.")
  const WrongPassword := HttpError(401, "Current password is incorrect.")
  const EmailNotRegistered := HttpError(404, "Email not registered")
  const BadToken := HttpError(403, "Invalid or expired token")
  const ResetUserNotFound := HttpError(404, "User not found")
  const BadCode := HttpError(400, "Invalid or expired verification code.")

  const Registered := "User registered"
  const PasswordUpdated := "Password updated successfully."
  const ResetGenerated := "Password reset token generated."
  const PasswordReset := "Password reset successful."
  const CodeSent := "Verification code sent to email."
  const EmailVerified := "Email verified successfully."

  /** The lowest and highest code `random.randint(100000, 999999)` draws. */
  const LowestCode: nat := 100000
  const HighestCode: nat := 999999

  predicate IsDigit(c: char) {
    '0' <= c <= '9'
  }

  predicate AllDigits(s: string) {
    forall i :: 0 <= i < |s| ==> IsDigit(s[i])
  }

  function Digit(d: nat): (c: char)
    requires d < 10
    ensures IsDigit(c)
  {
    ('0' as int + d) as char
  }

  /** `str(n)` for a natural number: its decimal digits, no leading zero. */
  function DecimalString(n: nat): (s: string)
    ensures s != [] && AllDigits(s)
    ensures |s| > 1 ==> s[0] != '0'
  {
    if n < 10 then [Digit(n)] else DecimalString(n / 10) + [Digit(n % 10)]
  }

  /** The number a string of decimal digits denotes. */
  function DecimalValue(s: string): nat
    requires AllDigits(s)
  {
    if s == [] then 0 else 10 * DecimalValue(s[..|s| - 1]) + (s[|s| - 1] as int - '0' as int)
  }

  /** Reading the digits back gives the number, so different codes are different strings. */
  lemma {:induction false} DecimalRoundTrip(n: nat)
    ensures DecimalValue(DecimalString(n)) == n
  {
    if n >= 10 {
      DecimalRoundTrip(n / 10);
      var s := DecimalString(n);
      assert s[..|s| - 1] == DecimalString(n / 10);
    }
  }

  function Pow10(k: nat): nat {
    if k == 0 then 1 else 10 * Pow10(k - 1)
  }

  /** A number has `k` digits exactly when it lies in `[10^(k-1), 10^k)`. */
  lemma {:induction false} DecimalLength(n: nat, k: nat)
    requires 1 <= k && (k == 1 || Pow10(k - 1) <= n) && n < Pow10(k)
    ensures |DecimalString(n)| == k
  {
    if k > 1 {
      DecimalLength(n / 10, k - 1);
    }
  }

  /** A verification code: six digits, the first not zero. */
  predicate IsCode(s: string) {
    |s| == 6 && AllDigits(s) && s[0] != '0'
  }

  /** Every draw gives a code, and each code comes from exactly one draw. */
  lemma DrawIsCode(n: nat)
    requires LowestCode <= n <= HighestCode
    ensures IsCode(DecimalString(n))
    ensures DecimalValue(DecimalString(n)) == n
  {
    assert Pow10(5) == 100000 && Pow10(6) == 1000000;
    DecimalLength(n, 6);
    DecimalRoundTrip(n);
  }

  class AuthService {
    /** `db.users`, by e-mail. */
    var users: map<string, User>
    /** `OTP_STORE`: the pending code for each e-mail. */
    var otpStore: map<string, string>

    /** `get_password_hash`. */
    const hash: string -> string
    /** `verify_password(plain, hashed)`. */
    const verify: (string, string) -> bool
    /** `create_access_token({"sub": email}, expires_delta)`, the lifetime in minutes when given. */
    const issue: (string, Option<nat>) -> string
    /** `decode_token`. */
    const decode: string -> Decoded

    /** Each user is filed under its own e-mail, and every pending code is six digits. */
    ghost predicate Valid()
      reads this
    {
      && (forall e :: e in users ==> users[e].email == e)
      && (forall e :: e in otpStore ==> IsCode(otpStore[e]))
    }

    constructor(hash: string -> string, verify: (string, string) -> bool,
                issue: (string, Option<nat>) -> string, decode: string -> Decoded)
      ensures Valid()
      ensures users == map[] && otpStore == map[]
      ensures this.hash == hash && this.verify == verify && this.issue == issue && this.decode == decode
    {
      this.hash := hash;
      this.verify := verify;
      this.issue := issue;
      this.decode := decode;
      users := map[];
      otpStore := map[];
    }

    /** `register`: a taken e-mail is refused; otherwise the user is stored, not yet verified. */
    method Register(fullName: string, email: string, password: string) returns (r: Result<string, HttpError>)
      requires Valid()
      modifies this
      ensures Valid()
      ensures email in old(users) ==> r == Failure(UserExists) && users == old(users)
      ensures email !in old(users)
        ==> r == Success(Registered) && users == old(users)[email := User(fullName, email, hash(password), false)]
      ensures otpStore == old(otpStore)
    {
      if email in users {
        return Failure(UserExists);
      }
      users := users[email := User(fullName, email, hash(password), false)];
      return Success(Registered);
    }

    /**
      `login`: an unknown e-mail and a wrong password get the same 401, and
      only right credentials reach the 403 for an unverified e-mail. A token
      is issued only to a verified user with the right password.
    */
    method Login(email: string, password: string) returns (r: Result<LoginReply, HttpError>)
      ensures r == Failure(InvalidCredentials) <==> email !in users || !verify(password, users[email].password)
      ensures r == Failure(NotVerified)
        <==> email in users && verify(password, users[email].password) && !users[email].emailVerified
      ensures r.Success? <==> email in users && verify(password, users[email].password) && users[email].emailVerified
      ensures r.Success? ==> r.value == LoginReply(issue(email, None), "bearer")
    {
      if email !in users || !verify(password, users[email].password) {
        return Failure(InvalidCredentials);
      }
      if !users[email].emailVerified {
        return Failure(NotVerified);
      }
      return Success(LoginReply(issue(email, None), "bearer"));
    }

    /** `change_password` for the signed-in `email`: only that user's password changes, and only with the right current one. */
    method ChangePassword(email: string, current: string, newPassword: string) returns (r: Result<string, HttpError>)
      requires Valid()
      modifies this
      ensures Valid()
      ensures email !in old(users) ==> r == Failure(UserNotFound) && users == old(users)
      ensures email in old(users) && !verify(current, old(users)[email].password)
        ==> r == Failure(WrongPassword) && users == old(users)
      ensures email in old(users) && verify(current, old(users)[email].password)
        ==> r == Success(PasswordUpdated) && users == old(users)[email := old(users)[email].(password := hash(newPassword))]
      ensures otpStore == old(otpStore)
    {
      if email !in users {
        return Failure(UserNotFound);
      }
      if !verify(current, users[email].password) {
        return Failure(WrongPassword);
      }
      users := users[email := users[email].(password := hash(newPassword))];
      return Success(PasswordUpdated);
    }

    /** `forgot_password`: a fifteen-minute token for a registered e-mail. */
    method ForgotPassword(email: string) returns (r: Result<ResetGrant, HttpError>)
      ensures r.Success? <==> email in users
      ensures r.Failure? ==> r.error == EmailNotRegistered
      ensures r.Success? ==> r.value == ResetGrant(ResetGenerated, issue(email, Some(ResetMinutes)))
    {
      if email !in users {
        return Failure(EmailNotRegistered);
      }
      return Success(ResetGrant(ResetGenerated, issue(email, Some(ResetMinutes))));
    }

    /**
      `reset_password`: a token that does not decode, or whose payload has no
      subject, is refused with 403; an unknown subject with 404; otherwise the
      subject's password is replaced.
    */
    method ResetPassword(token: string, newPassword: string) returns (r: Result<string, HttpError>)
      requires Valid()
      modifies this
      ensures Valid()
      ensures !(decode(token).Payload? && decode(token).sub.Some?) ==> r == Failure(BadToken) && users == old(users)
      ensures decode(token).Payload? && decode(token).sub.Some? && decode(token).sub.value !in old(users)
        ==> r == Failure(ResetUserNotFound) && users == old(users)
      ensures decode(token).Payload? && decode(token).sub.Some? && decode(token).sub.value in old(users)
        ==> var e := decode(token).sub.value;
            r == Success(PasswordReset) && users == old(users)[e := old(users)[e].(password := hash(newPassword))]
      ensures otpStore == old(otpStore)
    {
      match decode(token)
      case JwtError => return Failure(BadToken);
      case NoPayload => return Failure(BadToken);
      case Payload(None) => return Failure(BadToken);
      case Payload(Some(e)) =>
        if e !in users {
          return Failure(ResetUserNotFound);
        }
        users := users[e := users[e].(password := hash(newPassword))];
        return Success(PasswordReset);
    }

    /**
      `send_verification`: the drawn code replaces any earlier one for this
      e-mail, registered or not; other e-mails' codes stay as they were.
    */
    method SendVerification(email: string, draw: nat) returns (r: string)
      requires Valid()
      requires LowestCode <= draw <= HighestCode
      modifies this
      ensures Valid()
      ensures r == CodeSent
      ensures otpStore == old(otpStore)[email := DecimalString(draw)]
      ensures users == old(users)
    {
      DrawIsCode(draw);
      otpStore := otpStore[email := DecimalString(draw)];
      return CodeSent;
    }

    /**
      `verify_email`: the pending code marks the user verified (when there is
      one) and is used up; any other code, or none pending, is refused and
      changes nothing. A string that is not six digits never succeeds.
    */
    method VerifyEmail(email: string, otp: string) returns (r: Result<string, HttpError>)
      requires Valid()
      modifies this
      ensures Valid()
      ensures r.Success? <==> email in old(otpStore) && old(otpStore)[email] == otp
      ensures r.Success? ==> r.value == EmailVerified && otpStore == old(otpStore) - {email}
      ensures r.Success? ==> users == if email in old(users)
        then old(users)[email := old(users)[email].(emailVerified := true)] else old(users)
      ensures r.Failure? ==> r.error == BadCode && otpStore == old(otpStore) && users == old(users)
      ensures !IsCode(otp) ==> r.Failure?
    {
      if email in otpStore && otpStore[email] == otp {
        if email in users {
          users := users[email := users[email].(emailVerified := true)];
        }
        otpStore := otpStore - {email};
        return Success(EmailVerified);
      }
      return Failure(BadCode);
    }

    /** A code works once: the same request made again is refused. */
    method VerifyTwice(email: string, otp: string) returns (first: Result<string, HttpError>, second: Result<string, HttpError>)
      requires Valid()
      modifies this
      ensures Valid()
      ensures first.Success? ==> second == Failure(BadCode)
    {
      first := VerifyEmail(email, otp);
      second := VerifyEmail(email, otp);
    }

    /**
      The whole sign-up: register, receive a code, log in too early (403),
      verify with the code, and log in. With a hasher that `verify` accepts,
      the last login succeeds.
    */
    method SignUp(fullName: string, email: string, password: string, draw: nat)
      returns (early: Result<LoginReply, HttpError>, late: Result<LoginReply, HttpError>)
      requires Valid() && email !in users
      requires LowestCode <= draw <= HighestCode
      requires verify(password, hash(password))
      modifies this
      ensures Valid()
      ensures early == Failure(NotVerified)
      ensures late == Success(LoginReply(issue(email, None), "bearer"))
      ensures email in users && users[email].emailVerified && email !in otpStore
    {
      var registered := Register(fullName, email, password);
      var sent := SendVerification(email, draw);
      early := Login(email, password);
      var verified := VerifyEmail(email, DecimalString(draw));
      late := Login(email, password);
    }

    /**
      A reset token from `forgot_password`, when the decoder reads back the
      subject it was issued for, lets `reset_password` replace that user's
      password.
    */
    method ForgotThenReset(email: string, newPassword: string) returns (grant: Result<ResetGrant, HttpError>, reset: Result<string, HttpError>)
      requires Valid() && email in users
      requires decode(issue(email, Some(ResetMinutes))) == Payload(Some(email))
      modifies this
      ensures Valid()
      ensures grant.Success? && reset == Success(PasswordReset)
      ensures users == old(users)[email := old(users)[email].(password := hash(newPassword))]
    {
      grant := ForgotPassword(email);
      reset := ResetPassword(grant.value.resetToken, newPassword);
    }
  }
}
