/** `JwtStrategy` and the passport flow behind `AuthGuard('jwt')`: where the
    token is taken from, and how a verified payload becomes `request.user`. */
module JwtStrategy {
  import opened Wrappers
  import opened Requests
  import opened AuthService

  const DefaultCookieName: string := "access_token"
  const TokenQueryParameter: string := "token"
  const InvalidPayloadMessage: string := "Invalid token payload"

  /** The strategy's configuration and the two pieces of passport-jwt that
      are not modelled: reading a bearer token out of an `Authorization`
      value (section 2.1 of RFC 6750), and verifying a token's signature and
      expiry under the configured secret (RFC 7519). */
  datatype JwtOptions = JwtOptions(
    cookieNameSetting: Option<string>,
    bearerFromAuthorization: string -> Option<string>,
    verify: Verifier)

  /** `JWT_COOKIE_NAME`, by default `access_token`. */
  function CookieName(opts: JwtOptions): string {
    opts.cookieNameSetting.GetOr(DefaultCookieName)
  }

  /** `ExtractJwt.fromAuthHeaderAsBearerToken()`: nothing without the header. */
  function FromAuthHeaderAsBearerToken(req: HttpRequest, opts: JwtOptions): (token: Option<string>)
    ensures req.authorization.None? ==> token.None?
  {
    match req.authorization
    case None => None
    case Some(header) => opts.bearerFromAuthorization(header)
  }

  /** `request?.cookies?.[cookieName] || null`: an empty cookie counts as none. */
  function FromCookie(req: HttpRequest, name: string): (token: Option<string>)
    ensures token.Some? <==> req.cookies.Some? && name in req.cookies.value && req.cookies.value[name] != ""
    ensures token.Some? ==> token.value == req.cookies.value[name]
  {
    match req.cookies
    case None => None
    case Some(jar) => if name in jar && jar[name] != "" then Some(jar[name]) else None
  }

  /** `ExtractJwt.fromUrlQueryParameter(name)`; a value that is not a string
      cannot verify, so it is modelled as no token. */
  function FromUrlQueryParameter(req: HttpRequest, name: string): (token: Option<string>)
    ensures token.Some? <==> QueryParam(req, name).Text?
    ensures token.Some? ==> token.value == QueryParam(req, name).value
  {
    match QueryParam(req, name)
    case Text(s) => Some(s)
    case _ => None
  }

  /** `ExtractJwt.fromExtractors`: the first candidate that is a non-empty
      string wins; earlier candidates that are absent or empty are skipped. */
  function FirstToken(candidates: seq<Option<string>>): (token: Option<string>)
    ensures token.None? <==> forall i :: 0 <= i < |candidates| ==> !Present(candidates[i])
    ensures token.Some? ==> Present(token) && token in candidates
    ensures forall i :: (0 <= i < |candidates| && Present(candidates[i]) &&
      (forall j :: 0 <= j < i ==> !Present(candidates[j]))) ==> token == candidates[i]
  {
    if candidates == [] then None
    else if Present(candidates[0]) then candidates[0]
    else
      var token := FirstToken(candidates[1..]);
      assert forall i :: 1 <= i < |candidates| ==> candidates[i] == candidates[1..][i - 1];
      token
  }

  /** `jwtFromRequest`: bearer header, then the cookie, then `?token=`. */
  function JwtFromRequest(req: HttpRequest, opts: JwtOptions): (token: Option<string>)
    ensures token.Some? ==> token.value != ""
    ensures token.Some? ==> (token == FromAuthHeaderAsBearerToken(req, opts) ||
      token == FromCookie(req, CookieName(opts)) ||
      token == FromUrlQueryParameter(req, TokenQueryParameter))
  {
    FirstToken([FromAuthHeaderAsBearerToken(req, opts),
                FromCookie(req, CookieName(opts)),
                FromUrlQueryParameter(req, TokenQueryParameter)])
  }

  /** The token source order, stated source by source. */
  lemma JwtSourceOrder(req: HttpRequest, opts: JwtOptions)
    ensures var bearer := FromAuthHeaderAsBearerToken(req, opts);
      var cookie := FromCookie(req, CookieName(opts));
      var query := FromUrlQueryParameter(req, TokenQueryParameter);
      && (Present(bearer) ==> JwtFromRequest(req, opts) == bearer)
      && (!Present(bearer) && Present(cookie) ==> JwtFromRequest(req, opts) == cookie)
      && (!Present(bearer) && !Present(cookie) && Present(query) ==> JwtFromRequest(req, opts) == query)
      && (JwtFromRequest(req, opts).None? <==> !Present(bearer) && !Present(cookie) && !Present(query))
      && (JwtFromRequest(req, opts).Some? ==> JwtFromRequest(req, opts).value != "")
  {
    var bearer := FromAuthHeaderAsBearerToken(req, opts);
    var cookie := FromCookie(req, CookieName(opts));
    var query := FromUrlQueryParameter(req, TokenQueryParameter);
    var candidates := [bearer, cookie, query];
    assert candidates[0] == bearer && candidates[1] == cookie && candidates[2] == query;
  }

  /** `JwtStrategy.validate`: a payload without a non-empty `sub` and `email`
      is refused; otherwise the principal keeps `sub`, `email` and `roles`
      (none given means no roles) and drops `iat`/`exp`. */
  function Validate(payload: JwtPayload): (r: Result<Identity, AuthError>)
    ensures r.Failure? <==> !Present(payload.sub) || !Present(payload.email)
    ensures r.Failure? ==> r.error == Unauthorized(InvalidPayloadMessage)
    ensures r.Success? ==> r.value.sub == payload.sub.value && r.value.email == payload.email.value
    ensures r.Success? ==> r.value.roles == (if payload.roles.Some? then payload.roles.value else [])
    ensures r.Success? ==> !r.value.isApiKey
  {
    if !Present(payload.sub) || !Present(payload.email) then
      Failure(Unauthorized(InvalidPayloadMessage))
    else
      Success(Identity(payload.sub.value, payload.email.value, payload.roles.GetOr([]), false))
  }

  /** The issue and expiry times never reach the principal. */
  lemma ValidateIgnoresTimestamps(payload: JwtPayload, iat: Option<int>, exp: Option<int>)
    ensures Validate(payload.(iat := iat, exp := exp)) == Validate(payload)
  {
  }

  /** `AuthGuard('jwt').canActivate`: find a token, verify it, validate its
      payload; the principal to attach, or none where any step fails. */
  function Authenticate(req: HttpRequest, opts: JwtOptions): (user: Option<Identity>)
    ensures user.Some? <==>
      JwtFromRequest(req, opts).Some? &&
      VerifyToken(opts.verify, JwtFromRequest(req, opts).value).Some? &&
      Validate(VerifyToken(opts.verify, JwtFromRequest(req, opts).value).value).Success?
    ensures user.Some? ==> user.value.sub != "" && user.value.email != "" && !user.value.isApiKey
  {
    match JwtFromRequest(req, opts)
    case None => None
    case Some(token) =>
      match VerifyToken(opts.verify, token)
      case None => None
      case Some(payload) =>
        match Validate(payload)
        case Failure(_) => None
        case Success(identity) => Some(identity)
  }

  /** A token that verifies but names an empty or missing subject or email
      does not authenticate. */
  lemma VerifiedButIncompleteRejected(req: HttpRequest, opts: JwtOptions, payload: JwtPayload)
    requires JwtFromRequest(req, opts).Some?
    requires opts.verify(JwtFromRequest(req, opts).value) == Success(payload)
    requires !Present(payload.sub) || !Present(payload.email)
    ensures Authenticate(req, opts).None?
  {
  }

  /** A token that verifies to a complete payload authenticates as exactly
      the subject and email it names. */
  lemma VerifiedCompleteAccepted(req: HttpRequest, opts: JwtOptions, payload: JwtPayload)
    requires JwtFromRequest(req, opts).Some?
    requires opts.verify(JwtFromRequest(req, opts).value) == Success(payload)
    requires Present(payload.sub) && Present(payload.email)
    ensures Authenticate(req, opts) ==
      Some(Identity(payload.sub.value, payload.email.value, payload.roles.GetOr([]), false))
  {
  }

  /** The demo payload passes validation with the single role `user`. */
  lemma DemoPayloadValidates()
    ensures Validate(DemoPayload()) == Success(Identity("demo-user-id", "demo@example.com", ["user"], false))
  {
  }
}
