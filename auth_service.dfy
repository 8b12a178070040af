/** src/services/AuthService.ts with src/dao/AuthDao.ts: log in against
    the user table, and register a new user in it.

    Password hashing and verification (argon2), token signing
    (`jwt.sign`) and the email format check are opaque to the model and
    given as parameters in `Crypto`. The role a new user row gets is the
    database's default, held by the table. */
module AuthService {
  import opened Wrappers
  import opened Js
  import opened Errors
  import opened Password
  import opened UserRole

  const CredentialsRequiredMessage := "Email and password required"
  const InvalidEmailMessage := "Invalid email format"
  const UserExistsMessage := "User already exists"
  const SecretMissingMessage := "JWT_SECRET is not set"
  const TokenLifetime := "1h"

  datatype User = User(userId: int, email: string, passwordHash: string, role: UserRole)

  /** The user table, keyed by its unique email column. */
  datatype UserTable = UserTable(users: map<string, User>, nextUserId: int, defaultRole: UserRole)

  /** Each row sits under its own email, with an id below the next one. */
  ghost predicate WellFormed(t: UserTable) {
    forall e :: e in t.users ==> t.users[e].email == e && t.users[e].userId < t.nextUserId
  }

  /** What the token is signed over. */
  datatype Claims = Claims(sub: int, email: string, role: UserRole, expiresIn: string)

  datatype Crypto = Crypto(
    /** `verifyPassword(password, hash)`. */
    verify: (string, string) -> bool,
    /** `hashPassword(password)`. */
    hash: string -> string,
    /** `jwt.sign(claims, secret)`. */
    sign: (Claims, string) -> string,
    /** `validateEmail(email)`. */
    validEmail: string -> bool)

  /** `email.trim().toLowerCase()`. */
  function NormalizeEmail(email: string): (n: string)
    ensures n == [] <==> AllWhitespace(email)
  {
    ToLowerCase(Trim(email))
  }

  /** Lower-casing keeps whitespace at the ends where it was. */
  lemma LowerCaseKeepsEnds(s: string)
    requires s == [] || (!IsWhitespace(s[0]) && !IsWhitespace(s[|s| - 1]))
    ensures var l := ToLowerCase(s); l == [] || (!IsWhitespace(l[0]) && !IsWhitespace(l[|l| - 1]))
  {
  }

  /** A normalised email normalises to itself, so every spelling that
      differs only in case and surrounding whitespace names one row. */
  lemma NormalizeEmailIdempotent(email: string)
    ensures NormalizeEmail(NormalizeEmail(email)) == NormalizeEmail(email)
  {
    var n := NormalizeEmail(email);
    LowerCaseKeepsEnds(Trim(email));
    TrimOfTrimmed(n);
    ToLowerCaseIdempotent(Trim(email));
  }

  function UserByEmail(t: UserTable, email: string): (u: Option<User>)
    ensures u.Some? <==> email in t.users
    ensures u.Some? ==> u.value == t.users[email]
  {
    if email in t.users then Some(t.users[email]) else None
  }

  /** `login`: null for arguments that are not strings, for an email that
      normalises to nothing or an empty password, for an unknown email and
      for a wrong password; a throw when the server has no token secret;
      else a token over the user's id, email and role, valid for an
      hour. */
  function LoginOutcome(t: UserTable, email: JsValue, password: JsValue, secret: Option<string>, crypto: Crypto)
    : (r: Result<Option<string>, Failure>)
    ensures !email.JsString? || !password.JsString? ==> r == Ok(None)
    ensures email.JsString? && password.JsString? && (NormalizeEmail(email.s) == [] || password.s == []) ==> r == Ok(None)
    ensures r.Err? ==> r.error == PlainError(SecretMissingMessage)
    ensures r.Ok? && r.value.Some? <==>
      email.JsString? && password.JsString? && NormalizeEmail(email.s) != [] && password.s != [] &&
      NormalizeEmail(email.s) in t.users &&
      crypto.verify(password.s, t.users[NormalizeEmail(email.s)].passwordHash) &&
      secret.Some? && secret.value != []
  {
    if !email.JsString? || !password.JsString? then Ok(None)
    else
      var normalized := NormalizeEmail(email.s);
      if normalized == [] || password.s == [] then Ok(None)
      else
        match UserByEmail(t, normalized)
        case None => Ok(None)
        case Some(user) =>
          if !crypto.verify(password.s, user.passwordHash) then Ok(None)
          else if secret.None? || secret.value == [] then Err(PlainError(SecretMissingMessage))
          else Ok(Some(crypto.sign(Claims(user.userId, user.email, user.role, TokenLifetime), secret.value)))
  }

  /** The token, when there is one, is signed over the row's claims. */
  lemma LoginSignsClaims(t: UserTable, email: string, password: string, secret: string, crypto: Crypto)
    requires WellFormed(t)
    requires LoginOutcome(t, JsString(email), JsString(password), Some(secret), crypto).Ok?
    requires LoginOutcome(t, JsString(email), JsString(password), Some(secret), crypto).value.Some?
    ensures var user := t.users[NormalizeEmail(email)];
      LoginOutcome(t, JsString(email), JsString(password), Some(secret), crypto) ==
        Ok(Some(crypto.sign(Claims(user.userId, NormalizeEmail(email), user.role, "1h"), secret)))
  {
  }

  /** Checking the secret comes last: with bad credentials the answer is
      null whether or not a secret is set. */
  lemma BadCredentialsBeatMissingSecret(t: UserTable, email: string, password: string, crypto: Crypto)
    requires NormalizeEmail(email) !in t.users ||
      !crypto.verify(password, t.users[NormalizeEmail(email)].passwordHash)
    ensures LoginOutcome(t, JsString(email), JsString(password), None, crypto) == Ok(None)
  {
  }

  /** Login looks at the email only through its normal form. */
  lemma LoginNormalizesEmail(t: UserTable, email: string, password: JsValue, secret: Option<string>, crypto: Crypto)
    ensures LoginOutcome(t, JsString(email), password, secret, crypto) ==
      LoginOutcome(t, JsString(NormalizeEmail(email)), password, secret, crypto)
  {
    NormalizeEmailIdempotent(email);
  }

  /** What a registration returns and the table after it. */
  datatype RegisterStep = RegisterStep(result: Result<(), Failure>, table: UserTable)

  /** The row `createUser` adds. */
  function NewUser(t: UserTable, email: string, passwordHash: string): User {
    User(t.nextUserId, email, passwordHash, t.defaultRole)
  }

  /** `createUser`: add a row under its email with the next id. */
  function AddUser(t: UserTable, email: string, passwordHash: string): (r: UserTable)
    requires email !in t.users
    ensures WellFormed(t) ==> WellFormed(r)
    ensures r.users == t.users[email := NewUser(t, email, passwordHash)]
    ensures r.nextUserId == t.nextUserId + 1 && r.defaultRole == t.defaultRole
  {
    t.(users := t.users[email := NewUser(t, email, passwordHash)], nextUserId := t.nextUserId + 1)
  }

  /** `register`: the checks in order (both fields present, email format,
      password complexity, email not taken), the first failing one
      thrown with its message; then one new row with the normalised email
      and the password's hash. */
  function Registration(t: UserTable, email: string, password: string, crypto: Crypto): (r: RegisterStep)
    ensures r.result.Err? ==> r.table == t
    ensures r.result.Ok? ==>
      NormalizeEmail(email) !in t.users && r.table == AddUser(t, NormalizeEmail(email), crypto.hash(password))
    ensures r.result.Ok? <==>
      NormalizeEmail(email) != [] && password != [] && crypto.validEmail(NormalizeEmail(email)) &&
      ValidatePassword(password).Accepted? && NormalizeEmail(email) !in t.users
  {
    var normalized := NormalizeEmail(email);
    if normalized == [] || password == [] then RegisterStep(Err(ValidationError(CredentialsRequiredMessage)), t)
    else if !crypto.validEmail(normalized) then RegisterStep(Err(ValidationError(InvalidEmailMessage)), t)
    else
      match ValidatePassword(password)
      case Rejected(message) => RegisterStep(Err(ValidationError(message)), t)
      case Accepted =>
        if UserByEmail(t, normalized).Some? then RegisterStep(Err(ConflictError(UserExistsMessage)), t)
        else RegisterStep(Ok(()), AddUser(t, normalized, crypto.hash(password)))
  }

  /** Which error a refused registration throws, check by check. */
  lemma RegisterErrors(t: UserTable, email: string, password: string, crypto: Crypto)
    ensures var n := NormalizeEmail(email);
      var r := Registration(t, email, password, crypto).result;
      (n == [] || password == [] ==> r == Err(ValidationError(CredentialsRequiredMessage))) &&
      (n != [] && password != [] && !crypto.validEmail(n) ==> r == Err(ValidationError(InvalidEmailMessage))) &&
      (n != [] && password != [] && crypto.validEmail(n) && ValidatePassword(password).Rejected? ==>
        r == Err(ValidationError(ValidatePassword(password).message))) &&
      (n != [] && password != [] && crypto.validEmail(n) && ValidatePassword(password).Accepted? && n in t.users ==>
        r == Err(ConflictError(UserExistsMessage)))
  {
  }

  /** A registration keeps the table well formed. */
  lemma RegisterKeepsWellFormed(t: UserTable, email: string, password: string, crypto: Crypto)
    requires WellFormed(t)
    ensures WellFormed(Registration(t, email, password, crypto).table)
  {
  }

  /** Registering an email twice in any spelling is refused the second
      time, and the second attempt changes nothing. */
  lemma SecondRegistrationConflicts(t: UserTable, email: string, again: string, password: string, crypto: Crypto)
    requires Registration(t, email, password, crypto).result.Ok?
    requires NormalizeEmail(again) == NormalizeEmail(email)
    ensures var t' := Registration(t, email, password, crypto).table;
      Registration(t', again, password, crypto) == RegisterStep(Err(ConflictError(UserExistsMessage)), t')
  {
  }

  /** Registering and then logging in with the same password, in any
      spelling of the email, gives a token for the new row, provided the
      hash verifies its own password and a secret is set. */
  lemma LoginAfterRegister(t: UserTable, email: string, spelling: string, password: string,
                            secret: string, crypto: Crypto)
    requires Registration(t, email, password, crypto).result.Ok?
    requires NormalizeEmail(spelling) == NormalizeEmail(email)
    requires crypto.verify(password, crypto.hash(password)) && secret != []
    ensures LoginOutcome(Registration(t, email, password, crypto).table, JsString(spelling), JsString(password), Some(secret), crypto) ==
      Ok(Some(crypto.sign(Claims(t.nextUserId, NormalizeEmail(email), t.defaultRole, "1h"), secret)))
  {
    var t' := Registration(t, email, password, crypto).table;
    var n := NormalizeEmail(email);
    assert t'.users[n] == NewUser(t, n, crypto.hash(password));
  }

  /** The user table of the data access object: `findUserByEmail` and
      `createUser` over it. */
  class AuthDao {
    var users: map<string, User>
    var nextUserId: int
    const defaultRole: UserRole

    function State(): UserTable
      reads this
    {
      UserTable(users, nextUserId, defaultRole)
    }

    ghost predicate Valid()
      reads this
    {
      WellFormed(State())
    }

    constructor (table: UserTable)
      requires WellFormed(table)
      ensures State() == table && Valid()
    {
      users := table.users;
      nextUserId := table.nextUserId;
      defaultRole := table.defaultRole;
    }

    method FindUserByEmail(email: string) returns (user: Option<User>)
      ensures user == UserByEmail(State(), email)
    {
      user := if email in users then Some(users[email]) else None;
    }

    method CreateUser(email: string, passwordHash: string) returns (user: User)
      requires email !in users
      modifies this
      ensures user == NewUser(old(State()), email, passwordHash)
      ensures State() == AddUser(old(State()), email, passwordHash)
    {
      user := User(nextUserId, email, passwordHash, defaultRole);
      users := users[email := user];
      nextUserId := nextUserId + 1;
    }
  }

  /** The service, over its data access object. */
  class AuthService {
    const dao: AuthDao

    constructor (dao: AuthDao)
      ensures this.dao == dao
    {
      this.dao := dao;
    }

    /** `login`, reading the table through the data access object. */
    method Login(email: JsValue, password: JsValue, secret: Option<string>, crypto: Crypto)
      returns (r: Result<Option<string>, Failure>)
      ensures r == LoginOutcome(dao.State(), email, password, secret, crypto)
    {
      if !email.JsString? || !password.JsString? {
        return Ok(None);
      }
      var normalized := NormalizeEmail(email.s);
      if normalized == [] || password.s == [] {
        return Ok(None);
      }
      var user := dao.FindUserByEmail(normalized);
      if user.None? {
        return Ok(None);
      }
      if !crypto.verify(password.s, user.value.passwordHash) {
        return Ok(None);
      }
      if secret.None? || secret.value == [] {
        return Err(PlainError(SecretMissingMessage));
      }
      r := Ok(Some(crypto.sign(Claims(user.value.userId, user.value.email, user.value.role, TokenLifetime), secret.value)));
    }

    /** `register`: the checks, then the insert. */
    method Register(email: string, password: string, crypto: Crypto) returns (r: Result<(), Failure>)
      requires dao.Valid()
      modifies dao
      ensures dao.Valid()
      ensures RegisterStep(r, dao.State()) == Registration(old(dao.State()), email, password, crypto)
    {
      var normalized := NormalizeEmail(email);
      if normalized == [] || password == [] {
        return Err(ValidationError(CredentialsRequiredMessage));
      }
      if !crypto.validEmail(normalized) {
        return Err(ValidationError(InvalidEmailMessage));
      }
      var verdict := ValidatePassword(password);
      if verdict.Rejected? {
        return Err(ValidationError(verdict.message));
      }
      var existing := dao.FindUserByEmail(normalized);
      if existing.Some? {
        return Err(ConflictError(UserExistsMessage));
      }
      var passwordHash := crypto.hash(password);
      var _ := dao.CreateUser(normalized, passwordHash);
      r := Ok(());
    }
  }

}
