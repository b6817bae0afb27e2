/** `ApiKeyGuard`: the API-key-only guard. It inspects the request and
    either lets it through or throws; it attaches nothing to the request. */
module ApiKeyGuard {
  import opened Wrappers
  import opened Requests
  import opened AuthService
  import opened ApiKeySources

  const MissingKeyMessage: string := "API key is missing"
  const InvalidKeyMessage: string := "Invalid API key"

  /** `extractApiKey`: the `X-API-Key` header, else an `ApiKey` authorization
      header, else the `api_key` query parameter. An `Authorization` of
      exactly `ApiKey ` yields the empty key and the query is not consulted. */
  function ExtractApiKey(req: HttpRequest): (key: Option<string>)
    ensures key.None? <==>
      HeaderApiKey(req).None? && AuthorizationApiKey(req).None? && QueryApiKey(req).None?
    ensures key == Some("") <==>
      HeaderApiKey(req).None? && req.authorization == Some(ApiKeyScheme)
  {
    if HeaderApiKey(req).Some? then HeaderApiKey(req)
    else if AuthorizationApiKey(req).Some? then
      var key := AuthorizationApiKey(req).value;
      assert ApiKeyScheme + "" == ApiKeyScheme;
      assert |req.authorization.value| == |ApiKeyScheme| + |key|;
      AuthorizationApiKey(req)
    else QueryApiKey(req)
  }

  /** The source order, stated source by source. */
  lemma ExtractionOrder(req: HttpRequest)
    ensures HeaderApiKey(req).Some? ==> ExtractApiKey(req) == HeaderApiKey(req)
    ensures HeaderApiKey(req).None? && AuthorizationApiKey(req).Some? ==>
      ExtractApiKey(req) == AuthorizationApiKey(req)
    ensures HeaderApiKey(req).None? && AuthorizationApiKey(req).None? ==>
      ExtractApiKey(req) == QueryApiKey(req)
  {
  }

  /** `canActivate`: public routes pass; otherwise a missing (absent or
      empty) key and a key outside the allow-list fail with their own
      messages, and an allowed key passes. */
  function CanActivate(route: Route, req: HttpRequest, apiKeysSetting: Option<string>): (r: Result<bool, AuthError>)
    ensures r.Success? ==> r.value
    ensures IsPublic(route) ==> r == Success(true)
    ensures r == Failure(Unauthorized(MissingKeyMessage)) <==>
      !IsPublic(route) && !Present(ExtractApiKey(req))
    ensures r == Failure(Unauthorized(InvalidKeyMessage)) <==>
      !IsPublic(route) && Present(ExtractApiKey(req)) &&
      !ValidateApiKey(apiKeysSetting, ExtractApiKey(req).value)
    ensures r.Success? <==> (IsPublic(route) ||
      (Present(ExtractApiKey(req)) && ValidateApiKey(apiKeysSetting, ExtractApiKey(req).value)))
  {
    if IsPublic(route) then Success(true)
    else
      var apiKey := ExtractApiKey(req);
      if !Present(apiKey) then Failure(Unauthorized(MissingKeyMessage))
      else if !ValidateApiKey(apiKeysSetting, apiKey.value) then Failure(Unauthorized(InvalidKeyMessage))
      else Success(true)
  }

  /** An empty key after the `ApiKey` scheme hides a key in the query: the
      request is refused as missing a key whatever the query holds. */
  lemma EmptySchemeKeyShadowsQuery(route: Route, req: HttpRequest, apiKeysSetting: Option<string>)
    requires !IsPublic(route)
    requires HeaderApiKey(req).None? && req.authorization == Some(ApiKeyScheme)
    ensures CanActivate(route, req, apiKeysSetting) == Failure(Unauthorized(MissingKeyMessage))
  {
  }
}
