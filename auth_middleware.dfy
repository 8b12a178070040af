/** src/middleware/authMiddleware.ts: check that the server has a token
    secret, find the request's token (the `Authorization: Bearer` header
    first, then the `token` cookie), verify it, and put the user it names
    on the request.

    Token verification is `jwt.verify`, which the model takes as a
    parameter. */
module AuthMiddleware {
  import opened Wrappers
  import opened Js
  import opened Http

  const BearerPrefix := "Bearer "
  const ConfigurationErrorMessage := "Server configuration error"
  const NoTokenMessage := "No token provided"
  const BadFormatMessage := "Invalid token format"
  const BadTokenMessage := "Invalid or expired token"

  /** What `jwt.verify` hands back for a token it accepts: a bare string,
      or a payload object whose `sub` and `email` claims are given. */
  datatype Payload = StringPayload(text: string) | ClaimsPayload(sub: JsValue, email: JsValue)

  /** `jwt.verify(token, secret)`: a payload, or a throw. */
  datatype Verification = Verified(payload: Payload) | Rejected

  /** The user put on the request. */
  datatype AuthUser = AuthUser(sub: JsNumber, email: string)

  /** What the middleware does: answer itself, or call the next handler. */
  datatype Outcome = Respond(reply: Reply<()>) | Next

  /** A string in a truthy position: present and not empty. */
  predicate Present(s: Option<string>) {
    s.Some? && s.value != []
  }

  /** The token the `Authorization` header carries: what follows
      "Bearer ", for a header that starts with it. */
  function HeaderToken(header: Option<string>): (t: Option<string>)
    ensures t.Some? <==> header.Some? && StartsWith(header.value, BearerPrefix)
    ensures t.Some? ==> header.value == BearerPrefix + t.value
  {
    if header.Some? && StartsWith(header.value, BearerPrefix) then Some(header.value[7..]) else None
  }

  /** The token the middleware goes on with: the header's, unless it gives
      none or an empty one, in which case a non-empty cookie. */
  function SelectedToken(header: Option<string>, cookie: Option<string>): (t: Option<string>)
    ensures Present(HeaderToken(header)) ==> t == HeaderToken(header)
    ensures !Present(HeaderToken(header)) && Present(cookie) ==> t == cookie
    ensures Present(t) <==> Present(HeaderToken(header)) || Present(cookie)
  {
    var fromHeader := HeaderToken(header);
    if !Present(fromHeader) && Present(cookie) then cookie else fromHeader
  }

  /** Find the token step by step, as the middleware does with its local
      `token`. */
  method ExtractToken(header: Option<string>, cookie: Option<string>) returns (token: Option<string>)
    ensures token == SelectedToken(header, cookie)
  {
    token := None;
    if header.Some? && StartsWith(header.value, BearerPrefix) {
      token := Some(header.value[7..]);
    }
    if !Present(token) && Present(cookie) {
      token := cookie;
    }
  }

  /** The whole decision of the middleware for one request. */
  function Decide(secret: Option<string>, header: Option<string>, cookie: Option<string>,
                  verify: (string, string) -> Verification): (o: Outcome)
    ensures !Present(secret) ==> o == Respond(Reply(500, Message(ConfigurationErrorMessage)))
    ensures Present(secret) && !Present(SelectedToken(header, cookie)) ==>
      o == Respond(Reply(401, Message(NoTokenMessage)))
    ensures o == Next <==>
      Present(secret) && Present(SelectedToken(header, cookie)) &&
      verify(SelectedToken(header, cookie).value, secret.value).Verified? &&
      verify(SelectedToken(header, cookie).value, secret.value).payload.ClaimsPayload?
    ensures
      (Present(secret) && Present(SelectedToken(header, cookie)) &&
       verify(SelectedToken(header, cookie).value, secret.value).Verified? &&
       verify(SelectedToken(header, cookie).value, secret.value).payload.StringPayload?)
      ==> o == Respond(Reply(401, Message(BadFormatMessage)))
  {
    if !Present(secret) then Respond(Reply(500, Message(ConfigurationErrorMessage)))
    else
      var token := SelectedToken(header, cookie);
      if !Present(token) then Respond(Reply(401, Message(NoTokenMessage)))
      else
        match verify(token.value, secret.value)
        case Rejected => Respond(Reply(401, Message(BadTokenMessage)))
        case Verified(StringPayload(_)) => Respond(Reply(401, Message(BadFormatMessage)))
        case Verified(ClaimsPayload(_, _)) => Next
  }

  /** The user a payload's claims name: `sub` through `Number`, `email`
      through `String`; every other claim is dropped. */
  function UserOf(sub: JsValue, email: JsValue): (u: AuthUser)
    ensures sub.JsNumberValue? ==> u.sub == sub.n
    ensures sub.JsString? ==> u.sub == StringToNumber(sub.s)
    ensures email.JsString? ==> u.email == email.s
  {
    AuthUser(ToNumber(sub), ToJsString(email))
  }

  /** A request, with the user the middleware may attach. */
  class AuthRequest {
    const authorization: Option<string>
    const cookieToken: Option<string>
    var user: Option<AuthUser>

    constructor (authorization: Option<string>, cookieToken: Option<string>)
      ensures this.authorization == authorization && this.cookieToken == cookieToken
      ensures user.None?
    {
      this.authorization := authorization;
      this.cookieToken := cookieToken;
      user := None;
    }
  }

  /** `authMiddleware`: decide, and on success attach the user before
      handing on. */
  method Authenticate(req: AuthRequest, secret: Option<string>, verify: (string, string) -> Verification)
    returns (o: Outcome)
    modifies req
    ensures o == Decide(secret, req.authorization, req.cookieToken, verify)
    ensures o.Next? ==>
      var payload := verify(SelectedToken(req.authorization, req.cookieToken).value, secret.value).payload;
      req.user == Some(UserOf(payload.sub, payload.email))
    ensures o.Respond? ==> req.user == old(req.user)
  {
    if !Present(secret) {
      return Respond(Reply(500, Message(ConfigurationErrorMessage)));
    }
    var token := ExtractToken(req.authorization, req.cookieToken);
    if !Present(token) {
      return Respond(Reply(401, Message(NoTokenMessage)));
    }
    match verify(token.value, secret.value) {
      case Rejected =>
        return Respond(Reply(401, Message(BadTokenMessage)));
      case Verified(StringPayload(_)) =>
        return Respond(Reply(401, Message(BadFormatMessage)));
      case Verified(ClaimsPayload(sub, email)) =>
        req.user := Some(UserOf(sub, email));
        return Next;
    }
  }

  /** The secret is checked before anything else: without one, the reply
      is the same 500 whatever the request carries. */
  lemma SecretCheckedFirst(header: Option<string>, cookie: Option<string>,
                           verify: (string, string) -> Verification)
    ensures Decide(None, header, cookie, verify) == Decide(Some(""), None, None, verify)
    ensures Decide(None, header, cookie, verify).reply.status == 500
  {
  }

  /** "Bearer " followed by a non-empty token wins over any cookie. */
  lemma HeaderBeatsCookie(token: string, cookie: Option<string>)
    requires token != []
    ensures SelectedToken(Some(BearerPrefix + token), cookie) == Some(token)
  {
    assert (BearerPrefix + token)[..7] == BearerPrefix;
    assert (BearerPrefix + token)[7..] == token;
  }

  /** A bare "Bearer " or a header of another scheme gives no token: the
      cookie is used, and without one the request is refused. */
  lemma EmptyOrForeignHeaderFallsBack(header: string, cookie: Option<string>, secret: string,
                                      verify: (string, string) -> Verification)
    requires header == BearerPrefix || !StartsWith(header, BearerPrefix)
    requires secret != []
    ensures Present(cookie) ==> SelectedToken(Some(header), cookie) == cookie
    ensures !Present(cookie) ==>
      Decide(Some(secret), Some(header), cookie, verify) == Respond(Reply(401, Message(NoTokenMessage)))
  {
    if header == BearerPrefix {
      assert header[7..] == [];
    }
  }

  /** A token that does not verify makes `Decide` answer 401; `Authenticate` then attaches no user. */
  lemma RejectedTokenRefused(secret: string, header: Option<string>, cookie: Option<string>,
                             verify: (string, string) -> Verification)
    requires secret != [] && Present(SelectedToken(header, cookie))
    requires verify(SelectedToken(header, cookie).value, secret).Rejected?
    ensures Decide(Some(secret), header, cookie, verify) == Respond(Reply(401, Message(BadTokenMessage)))
  {
  }

  /** Numeric and textual `sub` claims give the same user. */
  lemma SubClaimAsTextOrNumber(id: int, email: string)
    ensures UserOf(JsString(IntToString(id)), JsString(email)) == UserOf(JsNumberValue(Num(id)), JsString(email))
    ensures UserOf(JsNumberValue(Num(id)), JsString(email)) == AuthUser(Num(id), email)
  {
    StringToNumberOfIntToString(id);
  }

}
