/** `AuthService`: the API-key allow-list read from the `API_KEYS` setting,
    membership in it, the null-on-failure token check and the demo payload. */
module AuthService {
  import opened Wrappers
  import opened JsStrings

  /** The claims of a token. `sub` and `email` are typed as required, but a
      decoded token may lack them or carry empty strings, so they are
      optional here; `iat`/`exp` are seconds since the epoch. */
  datatype JwtPayload = JwtPayload(
    sub: Option<string>,
    email: Option<string>,
    roles: Option<seq<string>>,
    iat: Option<int>,
    exp: Option<int>)

  /** `JwtService.verify`: decodes a token or throws (bad signature, expired,
      malformed). Cryptography is not modelled; the verifier is a parameter. */
  type Verifier = string -> Result<JwtPayload, string>

  /** `map(key => key.trim())`. */
  function TrimEach(parts: seq<string>): (r: seq<string>)
    ensures |r| == |parts|
    ensures forall i :: 0 <= i < |parts| ==> r[i] == Trim(parts[i])
  {
    if parts == [] then [] else [Trim(parts[0])] + TrimEach(parts[1..])
  }

  /** `filter(Boolean)` on strings: keeps the non-empty ones, in order. */
  function NonEmpty(xs: seq<string>): (r: seq<string>)
    ensures |r| <= |xs|
    ensures forall i :: 0 <= i < |r| ==> r[i] != ""
  {
    if xs == [] then []
    else (if xs[0] == "" then [] else [xs[0]]) + NonEmpty(xs[1..])
  }

  /** The filter keeps exactly the non-empty strings. */
  lemma {:induction false} NonEmptyMembership(xs: seq<string>, x: string)
    ensures x in NonEmpty(xs) <==> x in xs && x != ""
  {
    if xs != [] {
      NonEmptyMembership(xs[1..], x);
      assert xs == [xs[0]] + xs[1..];
    }
  }

  lemma {:induction false} NonEmptyConcat(xs: seq<string>, ys: seq<string>)
    ensures NonEmpty(xs + ys) == NonEmpty(xs) + NonEmpty(ys)
  {
    if xs == [] {
      assert xs + ys == ys;
    } else {
      assert (xs + ys)[0] == xs[0];
      assert (xs + ys)[1..] == xs[1..] + ys;
      NonEmptyConcat(xs[1..], ys);
    }
  }

  /** Follows from `TrimEach`'s pointwise contract without induction. */
  lemma TrimEachConcat(xs: seq<string>, ys: seq<string>)
    ensures TrimEach(xs + ys) == TrimEach(xs) + TrimEach(ys)
  {
  }

  /** The allow-list a non-empty setting yields: split at commas, trim each
      piece, drop the empty ones. */
  function KeysOf(setting: string): (keys: seq<string>)
    ensures |keys| <= |Split(setting)|
    ensures forall i :: 0 <= i < |keys| ==> keys[i] != ""
  {
    NonEmpty(TrimEach(Split(setting)))
  }

  /** `getValidApiKeys`: the allow-list configured in `API_KEYS` (unset reads
      as the empty string, which yields no keys). Every key is non-empty,
      has no surrounding whitespace and holds no comma. */
  function GetValidApiKeys(apiKeysSetting: Option<string>): (keys: seq<string>)
    ensures forall i :: 0 <= i < |keys| ==>
      keys[i] != "" && IsTrimmed(keys[i]) && Comma !in keys[i]
  {
    var apiKeys := apiKeysSetting.GetOr("");
    if apiKeys == "" then [] else KeysOfWellFormed(apiKeys); KeysOf(apiKeys)
  }

  lemma KeysOfWellFormed(setting: string)
    ensures forall i :: 0 <= i < |KeysOf(setting)| ==>
      KeysOf(setting)[i] != "" && IsTrimmed(KeysOf(setting)[i]) && Comma !in KeysOf(setting)[i]
  {
    var parts := Split(setting);
    var trimmed := TrimEach(parts);
    var keys := KeysOf(setting);
    forall i | 0 <= i < |keys|
      ensures keys[i] != "" && IsTrimmed(keys[i]) && Comma !in keys[i]
    {
      NonEmptyMembership(trimmed, keys[i]);
      assert keys[i] in keys;
      var j :| 0 <= j < |trimmed| && trimmed[j] == keys[i];
      TrimKeepsChars(parts[j]);
    }
  }

  /** The early `return []` for an empty setting changes nothing: splitting
      the empty string gives one empty piece, which the filter drops. */
  lemma GetValidApiKeysIsPipeline(setting: string)
    ensures GetValidApiKeys(Some(setting)) == KeysOf(setting)
  {
  }

  /** A key belongs to the allow-list exactly when some comma-separated
      piece of the setting trims to it and it is not empty. */
  lemma KeysOfMembership(setting: string, k: string)
    ensures k in KeysOf(setting) <==>
      (k != "" && exists i :: 0 <= i < |Split(setting)| && Trim(Split(setting)[i]) == k)
  {
    if k in KeysOf(setting) {
      var i := KeyFromPiece(setting, k);
    }
    if k != "" && exists i :: 0 <= i < |Split(setting)| && Trim(Split(setting)[i]) == k {
      var i :| 0 <= i < |Split(setting)| && Trim(Split(setting)[i]) == k;
      PieceGivesKey(setting, k, i);
    }
  }

  /** The piece an allowed key comes from. */
  lemma KeyFromPiece(setting: string, k: string) returns (i: nat)
    requires k in KeysOf(setting)
    ensures k != "" && i < |Split(setting)| && Trim(Split(setting)[i]) == k
  {
    var trimmed := TrimEach(Split(setting));
    NonEmptyMembership(trimmed, k);
    i :| 0 <= i < |trimmed| && trimmed[i] == k;
  }

  /** A piece that trims to a non-empty key puts that key on the list. */
  lemma PieceGivesKey(setting: string, k: string, i: nat)
    requires k != "" && i < |Split(setting)| && Trim(Split(setting)[i]) == k
    ensures k in KeysOf(setting)
  {
    var trimmed := TrimEach(Split(setting));
    assert trimmed[i] == k;
    NonEmptyMembership(trimmed, k);
  }

  /** `validateApiKey`: whether `apiKey` is in the configured allow-list. */
  function ValidateApiKey(apiKeysSetting: Option<string>, apiKey: string): (valid: bool)
    ensures valid <==> (apiKey != "" && exists i :: (0 <= i < |Split(apiKeysSetting.GetOr(""))| &&
      Trim(Split(apiKeysSetting.GetOr(""))[i]) == apiKey))
    ensures valid ==> IsTrimmed(apiKey) && Comma !in apiKey
  {
    KeysOfMembership(apiKeysSetting.GetOr(""), apiKey);
    apiKey in GetValidApiKeys(apiKeysSetting)
  }

  /** Keys keep the order they have in the setting: the allow-list of two
      settings joined by a comma is the two allow-lists one after the other. */
  lemma GetValidApiKeysConcat(a: string, b: string)
    ensures GetValidApiKeys(Some(a + [Comma] + b)) ==
      GetValidApiKeys(Some(a)) + GetValidApiKeys(Some(b))
  {
    KeysOfConcat(a, b);
    GetValidApiKeysIsPipeline(a);
    GetValidApiKeysIsPipeline(b);
    GetValidApiKeysIsPipeline(a + [Comma] + b);
  }

  lemma KeysOfConcat(a: string, b: string)
    ensures KeysOf(a + [Comma] + b) == KeysOf(a) + KeysOf(b)
  {
    SplitAround(a, b);
    TrimEachConcat(Split(a), Split(b));
    NonEmptyConcat(TrimEach(Split(a)), TrimEach(Split(b)));
  }

  /** Writing a list of well-formed keys into the setting, comma-separated,
      gives back exactly that list. */
  lemma GetValidApiKeysOfJoin(keys: seq<string>)
    requires |keys| >= 1
    requires forall i :: 0 <= i < |keys| ==>
      keys[i] != "" && IsTrimmed(keys[i]) && Comma !in keys[i]
    ensures GetValidApiKeys(Some(Join(keys))) == keys
  {
    KeysOfJoin(keys);
    GetValidApiKeysIsPipeline(Join(keys));
  }

  lemma {:induction false} KeysOfJoin(keys: seq<string>)
    requires |keys| >= 1
    requires forall i :: 0 <= i < |keys| ==>
      keys[i] != "" && IsTrimmed(keys[i]) && Comma !in keys[i]
    ensures KeysOf(Join(keys)) == keys
  {
    var k := keys[0];
    NoCommaSplit(k);
    assert TrimEach([k]) == [k];
    assert NonEmpty([k]) == [k] by {
      assert [k][1..] == [];
    }
    if |keys| > 1 {
      KeysOfJoin(keys[1..]);
      KeysOfConcat(k, Join(keys[1..]));
      assert keys == [k] + keys[1..];
    }
  }

  /** A setting holding one well-formed key allows exactly that key. */
  lemma SingleKeySetting(key: string)
    requires key != "" && IsTrimmed(key) && Comma !in key
    ensures GetValidApiKeys(Some(key)) == [key]
    ensures ValidateApiKey(Some(key), key)
  {
    GetValidApiKeysOfJoin([key]);
  }

  /** A setting made only of commas and whitespace allows no key at all. */
  lemma BlankSettingAllowsNothing(setting: string)
    requires forall i :: 0 <= i < |setting| ==> setting[i] == Comma || IsWhitespace(setting[i])
    ensures GetValidApiKeys(Some(setting)) == []
  {
    var parts := Split(setting);
    var trimmed := TrimEach(parts);
    BlankPieces(setting);
    forall i | 0 <= i < |trimmed| ensures trimmed[i] == "" {
      TrimEmptyIff(parts[i]);
    }
    NonEmptyOfBlanks(trimmed);
    GetValidApiKeysIsPipeline(setting);
  }

  /** An unset `API_KEYS` reads as the empty default: no keys, so every
      key is refused. */
  lemma UnsetSettingAllowsNothing(apiKey: string)
    ensures GetValidApiKeys(None) == []
    ensures !ValidateApiKey(None, apiKey)
  {
  }

  lemma {:induction false} NonEmptyOfBlanks(xs: seq<string>)
    requires forall i :: 0 <= i < |xs| ==> xs[i] == ""
    ensures NonEmpty(xs) == []
  {
    if xs != [] {
      NonEmptyOfBlanks(xs[1..]);
    }
  }

  /** Every piece of a string made of commas and whitespace is whitespace. */
  lemma {:induction false} BlankPieces(s: string)
    requires forall i :: 0 <= i < |s| ==> s[i] == Comma || IsWhitespace(s[i])
    ensures forall i :: 0 <= i < |Split(s)| ==> AllWhitespace(Split(s)[i])
  {
    if s != [] {
      BlankPieces(s[1..]);
      var rest := Split(s[1..]);
      if s[0] != Comma {
        assert AllWhitespace([s[0]] + rest[0]);
      }
    }
  }

  /** `verifyToken`: the decoded payload, or no payload (`null`) where the
      verifier throws. */
  function VerifyToken(verify: Verifier, token: string): (payload: Option<JwtPayload>)
    ensures payload.Some? <==> verify(token).Success?
    ensures payload.Some? ==> payload.value == verify(token).value
  {
    match verify(token)
    case Success(p) => Some(p)
    case Failure(_) => None
  }

  /** The claims `generateDemoToken` signs. */
  function DemoPayload(): JwtPayload {
    JwtPayload(Some("demo-user-id"), Some("demo@example.com"), Some(["user"]), None, None)
  }
}
