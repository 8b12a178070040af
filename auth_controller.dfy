/** src/controllers/AuthController.ts: the login and logout handlers.
    The service's `login` is a parameter; a throw is `Err`. */
module AuthController {
  import opened Wrappers
  import opened Js
  import opened Http
  import opened Errors
  import AuthService

  const CredentialsRequiredMessage := "Email and password required"
  const InvalidCredentialsMessage := "Invalid credentials"
  const LoginFailedMessage := "Login failed"

  /** The body `{ token }`. */
  datatype TokenBody = TokenBody(token: string)

  /** The `email` and `password` fields of the request body; a missing
      body or field is `JsUndefined`. */
  datatype LoginRequest = LoginRequest(email: JsValue, password: JsValue)

  type LoginCall = (JsValue, JsValue) -> Result<Option<string>, Failure>

  /** `login`: 400 for a falsy field, without asking the service; else 500
      when the service throws, 401 when it gives no token (null or
      empty), 200 with the token otherwise. */
  function Login(req: LoginRequest, service: LoginCall): (r: Reply<TokenBody>)
    ensures !Truthy(req.email) || !Truthy(req.password) ==> r == Reply(400, Message(CredentialsRequiredMessage))
    ensures Truthy(req.email) && Truthy(req.password) ==>
      r == match service(req.email, req.password)
        case Err(_) => Reply(500, ErrorBody(LoginFailedMessage))
        case Ok(None) => Reply(401, Message(InvalidCredentialsMessage))
        case Ok(Some(token)) =>
          if token == [] then Reply(401, Message(InvalidCredentialsMessage)) else Reply(200, Json(TokenBody(token)))
    ensures r.status == 200 <==>
      Truthy(req.email) && Truthy(req.password) &&
      service(req.email, req.password).Ok? && service(req.email, req.password).value.Some? &&
      service(req.email, req.password).value.value != []
  {
    if !Truthy(req.email) || !Truthy(req.password) then Reply(400, Message(CredentialsRequiredMessage))
    else
      match service(req.email, req.password)
      case Err(_) => Reply(500, ErrorBody(LoginFailedMessage))
      case Ok(None) => Reply(401, Message(InvalidCredentialsMessage))
      case Ok(Some(token)) =>
        if token == [] then Reply(401, Message(InvalidCredentialsMessage)) else Reply(200, Json(TokenBody(token)))
  }

  /** `logout`: tokens are not kept on the server, so there is nothing to
      do but answer 204 with no body. */
  function Logout(): (r: Reply<TokenBody>)
    ensures r.status == 204 && r.body.NoBody?
  {
    Reply(204, NoBody)
  }

  /** A falsy field is refused before the service is asked. */
  lemma MissingFieldNeverReachesService(email: JsValue, s1: LoginCall, s2: LoginCall)
    ensures Login(LoginRequest(email, JsUndefined), s1) == Login(LoginRequest(email, JsUndefined), s2)
    ensures Login(LoginRequest(JsString(""), JsString("secret")), s1) ==
      Reply(400, Message(CredentialsRequiredMessage))
  {
  }

  /** The handler over the service as it is, for table `t`. */
  function ServiceOver(t: AuthService.UserTable, secret: Option<string>, crypto: AuthService.Crypto): LoginCall {
    (email: JsValue, password: JsValue) => AuthService.LoginOutcome(t, email, password, secret, crypto)
  }

  /** The handler's check and the service's differ: an email of spaces
      passes the handler's truthiness test, then normalises to nothing in
      the service, so the reply is 401 rather than 400. A non-string email
      is likewise a 401. */
  lemma BlankEmailIs401(t: AuthService.UserTable, spaces: nat, password: string, secret: Option<string>,
                        crypto: AuthService.Crypto)
    requires spaces > 0 && password != []
    ensures var blank := seq(spaces, _ => ' ');
      Login(LoginRequest(JsString(blank), JsString(password)), ServiceOver(t, secret, crypto)) ==
        Reply(401, Message(InvalidCredentialsMessage))
    ensures Login(LoginRequest(JsBool(true), JsString(password)), ServiceOver(t, secret, crypto)) ==
      Reply(401, Message(InvalidCredentialsMessage))
  {
    var blank := seq(spaces, _ => ' ');
    assert AllWhitespace(blank);
  }

  /** With the service as it is, a missing secret behind good credentials
      is a 500. */
  lemma MissingSecretIs500(t: AuthService.UserTable, email: string, password: string, crypto: AuthService.Crypto)
    requires AuthService.NormalizeEmail(email) != [] && password != []
    requires AuthService.NormalizeEmail(email) in t.users
    requires crypto.verify(password, t.users[AuthService.NormalizeEmail(email)].passwordHash)
    ensures Login(LoginRequest(JsString(email), JsString(password)), ServiceOver(t, None, crypto)) ==
      Reply(500, ErrorBody(LoginFailedMessage))
  {
  }

}
