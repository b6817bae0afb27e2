/** `CombinedAuthGuard`, the guard every request passes through: public
    routes pass, then an allowed API key, then a JWT; anything else is
    refused with one message. On success it attaches the principal to the
    request. */
module CombinedAuth {
  import opened Wrappers
  import opened Requests
  import opened AuthService
  import opened JwtStrategy
  import opened ApiKeySources
  import ApiKeyGuard
  import JsStrings

  const CombinedMessage: string :=
    "Authentication required. Provide either a valid JWT token (Bearer) or API key (X-API-Key header)"

  /** The fixed service principal an API key authenticates as. */
  function ServiceIdentity(): (id: Identity)
    ensures id.isApiKey && id.sub != "" && id.email != ""
  {
    Identity("api-key-user", "service@api.local", ["service"], true)
  }

  /** Read-only configuration: the `API_KEYS` setting and the JWT strategy. */
  datatype AuthEnv = AuthEnv(apiKeys: Option<string>, jwt: JwtOptions)

  /** `extractApiKey` of this guard: the `X-API-Key` header, else an
      `ApiKey` authorization header. The query string is never read. */
  function ExtractApiKey(req: HttpRequest): (key: Option<string>)
    ensures key.None? <==> HeaderApiKey(req).None? && AuthorizationApiKey(req).None?
    ensures HeaderApiKey(req).Some? ==> key == HeaderApiKey(req)
    ensures HeaderApiKey(req).None? ==> key == AuthorizationApiKey(req)
  {
    if HeaderApiKey(req).Some? then HeaderApiKey(req) else AuthorizationApiKey(req)
  }

  /** `if (apiKey) { if (validateApiKey(apiKey)) ... }`. */
  predicate ApiKeyAccepted(req: HttpRequest, apiKeysSetting: Option<string>) {
    Present(ExtractApiKey(req)) && ValidateApiKey(apiKeysSetting, ExtractApiKey(req).value)
  }

  /** What `canActivate` does with a request: let it through untouched,
      let it through with a principal attached, or throw. */
  datatype Decision = Pass | Attach(user: Identity) | Reject(error: AuthError)

  /** The decision sequence of `canActivate`. */
  function Decide(route: Route, req: HttpRequest, env: AuthEnv): (d: Decision)
    ensures d.Pass? <==> IsPublic(route)
    ensures d.Attach? ==> d.user.sub != "" && d.user.email != ""
    ensures d.Attach? && d.user.isApiKey ==> d.user == ServiceIdentity()
    ensures d.Reject? ==> d.error == Unauthorized(CombinedMessage)
  {
    if IsPublic(route) then Pass
    else if ApiKeyAccepted(req, env.apiKeys) then Attach(ServiceIdentity())
    else
      match Authenticate(req, env.jwt)
      case Some(user) => Attach(user)
      case None => Reject(Unauthorized(CombinedMessage))
  }

  /** The request as the guard sees it, with its mutable `user` slot. */
  class RequestContext {
    const request: HttpRequest
    var user: Option<Identity>

    constructor (request: HttpRequest)
      ensures this.request == request && user == None
    {
      this.request := request;
      user := None;
    }
  }

  class CombinedAuthGuard {
    const env: AuthEnv

    constructor (env: AuthEnv)
      ensures this.env == env
    {
      this.env := env;
    }

    /** `canActivate`: true with `user` set as `Decide` says, or the combined
        401 error with `user` untouched. */
    method CanActivate(route: Route, ctx: RequestContext) returns (r: Result<bool, AuthError>)
      modifies ctx
      ensures match Decide(route, ctx.request, env)
        case Pass => r == Success(true) && ctx.user == old(ctx.user)
        case Attach(u) => r == Success(true) && ctx.user == Some(u)
        case Reject(e) => r == Failure(e) && ctx.user == old(ctx.user)
    {
      if IsPublic(route) {
        return Success(true);
      }
      var apiKey := ExtractApiKey(ctx.request);
      if Present(apiKey) {
        if ValidateApiKey(env.apiKeys, apiKey.value) {
          ctx.user := Some(ServiceIdentity());
          return Success(true);
        }
      }
      var jwtUser := Authenticate(ctx.request, env.jwt);
      if jwtUser.Some? {
        ctx.user := jwtUser;
        return Success(true);
      }
      return Failure(Unauthorized(CombinedMessage));
    }
  }

  /** A public route passes whatever credentials the request carries,
      attaching nothing. */
  lemma PublicRoutePasses(route: Route, req: HttpRequest, env: AuthEnv)
    requires IsPublic(route)
    ensures Decide(route, req, env) == Pass
  {
  }

  /** The handler's declaration overrides the controller's both ways; with
      no credentials a handler marked not public is refused. */
  lemma HandlerOverridesController(req: HttpRequest, env: AuthEnv)
    requires !ApiKeyAccepted(req, env.apiKeys) && Authenticate(req, env.jwt).None?
    ensures Decide(Route(Some(false), Some(true)), req, env) == Reject(Unauthorized(CombinedMessage))
    ensures Decide(Route(Some(true), Some(false)), req, env) == Pass
    ensures Decide(Route(None, None), req, env) == Reject(Unauthorized(CombinedMessage))
  {
  }

  /** An allowed API key passes as the service principal, before any token
      is looked at. */
  lemma AllowedApiKeyAttachesService(route: Route, req: HttpRequest, env: AuthEnv)
    requires !IsPublic(route)
    requires Present(ExtractApiKey(req)) && ValidateApiKey(env.apiKeys, ExtractApiKey(req).value)
    ensures Decide(route, req, env) == Attach(ServiceIdentity())
  {
  }

  /** A missing or refused API key does not end the check: a token that
      authenticates still lets the request through as its own subject. */
  lemma TokenAfterRefusedKey(route: Route, req: HttpRequest, env: AuthEnv, user: Identity)
    requires !IsPublic(route) && !ApiKeyAccepted(req, env.apiKeys)
    requires Authenticate(req, env.jwt) == Some(user)
    ensures Decide(route, req, env) == Attach(user)
    ensures !user.isApiKey && user.sub != "" && user.email != ""
  {
  }

  /** There is one way to be refused and one message for it: not public, no
      accepted API key and no authenticating token. */
  lemma RejectionIsUniform(route: Route, req: HttpRequest, env: AuthEnv)
    ensures Decide(route, req, env).Reject? <==>
      !IsPublic(route) && !ApiKeyAccepted(req, env.apiKeys) && Authenticate(req, env.jwt).None?
    ensures Decide(route, req, env).Reject? ==>
      Decide(route, req, env).error == Unauthorized(CombinedMessage)
  {
  }

  /** Every attached principal is either the service principal or the
      subject of a verified token, and `isApiKey` tells which. */
  lemma AttachedUserIsAuthentic(route: Route, req: HttpRequest, env: AuthEnv)
    requires Decide(route, req, env).Attach?
    ensures var u := Decide(route, req, env).user;
      u.sub != "" && u.email != "" &&
      (u.isApiKey <==> u == ServiceIdentity()) &&
      (!u.isApiKey ==> Authenticate(req, env.jwt) == Some(u))
  {
  }

  /** The `api_key` query parameter plays no part in this guard. */
  lemma QueryApiKeyIgnored(route: Route, req: HttpRequest, env: AuthEnv, v: Param)
    ensures Decide(route, req.(query := req.query[ApiKeyQueryParameter := v]), env) ==
      Decide(route, req, env)
  {
    var req' := req.(query := req.query[ApiKeyQueryParameter := v]);
    assert QueryParam(req', TokenQueryParameter) == QueryParam(req, TokenQueryParameter);
    assert FromUrlQueryParameter(req', TokenQueryParameter) == FromUrlQueryParameter(req, TokenQueryParameter);
    assert JwtFromRequest(req', env.jwt) == JwtFromRequest(req, env.jwt);
  }

  /** The API-key-only guard reads the same two sources first and then
      the query string. */
  lemma ExtractorsAgree(req: HttpRequest)
    ensures ApiKeyGuard.ExtractApiKey(req) ==
      if ExtractApiKey(req).Some? then ExtractApiKey(req) else QueryApiKey(req)
  {
  }

  /** Whatever the API-key-only guard accepts through a header, this guard
      accepts too, as the service principal. */
  lemma HeaderKeyAcceptedByBoth(route: Route, req: HttpRequest, env: AuthEnv)
    requires ApiKeyGuard.CanActivate(route, req, env.apiKeys) == Success(true)
    requires HeaderApiKey(req).Some? || AuthorizationApiKey(req).Some?
    ensures Decide(route, req, env) == Pass || Decide(route, req, env) == Attach(ServiceIdentity())
  {
    ExtractorsAgree(req);
  }

  /** The two guards differ: a key given only as `?api_key=` passes the
      API-key-only guard and is refused here, whatever the JWT settings. */
  lemma QueryKeyAcceptedOnlyByApiKeyGuard(key: string, jwt: JwtOptions)
    requires key != "" && JsStrings.IsTrimmed(key) && JsStrings.Comma !in key
    ensures var req := HttpRequest(Missing, None, None, map[ApiKeyQueryParameter := Text(key)]);
      ApiKeyGuard.CanActivate(Route(None, None), req, Some(key)) == Success(true) &&
      Decide(Route(None, None), req, AuthEnv(Some(key), jwt)) == Reject(Unauthorized(CombinedMessage))
  {
    var req := HttpRequest(Missing, None, None, map[ApiKeyQueryParameter := Text(key)]);
    assert QueryApiKey(req) == Some(key);
    assert ApiKeyGuard.ExtractApiKey(req) == Some(key);
    AuthService.SingleKeySetting(key);
    assert ExtractApiKey(req).None?;
    assert TokenQueryParameter !in req.query;
    JwtSourceOrder(req, jwt);
  }
}
