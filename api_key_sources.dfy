/** The places an API key can come from, shared by both guards:
    the `X-API-Key` header, an `Authorization: ApiKey <key>` header and the
    `api_key` query parameter. */
module ApiKeySources {
  import opened Wrappers
  import opened JsStrings
  import opened Requests

  /** The `Authorization` scheme prefix, seven characters long. */
  const ApiKeyScheme: string := "ApiKey "
  const ApiKeyQueryParameter: string := "api_key"

  /** `headerKey && typeof headerKey === 'string'`: an empty or non-string
      `X-API-Key` counts as absent. */
  function HeaderApiKey(req: HttpRequest): (key: Option<string>)
    ensures key.Some? <==> req.xApiKey.Text? && req.xApiKey.value != ""
    ensures key.Some? ==> key.value == req.xApiKey.value
  {
    match req.xApiKey
    case Text(s) => if s != "" then Some(s) else None
    case _ => None
  }

  /** `authHeader.startsWith('ApiKey ')` then `substring(7)`: the rest of the
      header after the scheme, possibly empty. Any other `Authorization`
      value, `Bearer ...` included, gives no key. */
  function AuthorizationApiKey(req: HttpRequest): (key: Option<string>)
    ensures key.Some? <==> req.authorization.Some? && StartsWith(req.authorization.value, ApiKeyScheme)
    ensures key.Some? ==> ApiKeyScheme + key.value == req.authorization.value
  {
    match req.authorization
    case Some(header) =>
      if header != "" && StartsWith(header, ApiKeyScheme) then
        assert header == header[..7] + header[7..];
        Some(header[7..])
      else None
    case None => None
  }

  /** `queryKey && typeof queryKey === 'string'` on `request.query['api_key']`. */
  function QueryApiKey(req: HttpRequest): (key: Option<string>)
    ensures key.Some? <==> (QueryParam(req, ApiKeyQueryParameter).Text? &&
      QueryParam(req, ApiKeyQueryParameter).value != "")
    ensures key.Some? ==> key.value == QueryParam(req, ApiKeyQueryParameter).value
  {
    match QueryParam(req, ApiKeyQueryParameter)
    case Text(s) => if s != "" then Some(s) else None
    case _ => None
  }

  /** Any key written after the scheme is read back unchanged. */
  lemma AuthorizationApiKeyRoundTrip(req: HttpRequest, key: string)
    requires req.authorization == Some(ApiKeyScheme + key)
    ensures AuthorizationApiKey(req) == Some(key)
  {
    assert (ApiKeyScheme + key)[..|ApiKeyScheme|] == ApiKeyScheme;
    assert (ApiKeyScheme + key)[7..] == key;
  }
}
