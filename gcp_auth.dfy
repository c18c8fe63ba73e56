/**
 * Access-token resolution for the model endpoint: a service-account key, when
 * configured, is used to mint a token; otherwise a manually configured token
 * is used; with neither, resolution fails.
 */
module GcpAuth {
  import opened Js
  import opened Wrappers

  const CloudPlatformScope: string := "https://www.googleapis.com/auth/cloud-platform"

  /** The scopes requested when minting: only cloud-platform. */
  const Scopes: seq<string> := [CloudPlatformScope]

  /** The two environment variables: GCP_SERVICE_ACCOUNT_KEY and GCP_ACCESS_TOKEN. */
  datatype Env = Env(serviceAccountKey: Option<string>, accessToken: Option<string>)

  /** What the auth library is asked for: a client over these credentials with these scopes. */
  datatype MintRequest = MintRequest(credentials: JsValue, scopes: seq<string>)

  /** The library's answer: it throws, or yields the `token` field of `getAccessToken()`. */
  datatype Minted = MintThrew | MintReturned(token: JsValue)

  /** The ways `getAccessToken` throws. */
  datatype AuthError = KeyNotJson | MintFailed | NoTokenMinted | NotConfigured

  /** An environment variable is truthy when it is set to a non-empty string. */
  predicate IsSet(v: Option<string>) {
    v.Some? && v.value != ""
  }

  /**
   * `getAccessToken`, with JSON.parse and the auth library as oracles. A
   * resolved token is always truthy.
   */
  function GetAccessToken(env: Env, parse: string -> Option<JsValue>, mint: MintRequest -> Minted): (r: Result<JsValue, AuthError>)
    ensures r.Success? ==> Truthy(r.value)
    ensures r == Failure(NotConfigured) <==> !IsSet(env.serviceAccountKey) && !IsSet(env.accessToken)
  {
    if IsSet(env.serviceAccountKey) then
      match parse(env.serviceAccountKey.value)
      case None => Failure(KeyNotJson)
      case Some(credentials) =>
        match mint(MintRequest(credentials, Scopes))
        case MintThrew => Failure(MintFailed)
        case MintReturned(token) =>
          if !Truthy(token) then Failure(NoTokenMinted) else Success(token)
    else if !IsSet(env.accessToken) then
      Failure(NotConfigured)
    else
      Success(Str(env.accessToken.value))
  }

  /** With a key set, the result is the minted token (or a minting error) and the manual token is never consulted. */
  lemma KeyTakesPrecedence(env: Env, manual: Option<string>, parse: string -> Option<JsValue>, mint: MintRequest -> Minted)
    requires IsSet(env.serviceAccountKey)
    ensures GetAccessToken(env, parse, mint) == GetAccessToken(Env(env.serviceAccountKey, manual), parse, mint)
    ensures GetAccessToken(env, parse, mint).Success? ==>
      exists c :: parse(env.serviceAccountKey.value) == Some(c) && mint(MintRequest(c, Scopes)) == MintReturned(GetAccessToken(env, parse, mint).value)
  {
  }

  /** A key whose minting yields a falsy token is an error, not a fallback to the manual token. */
  lemma EmptyMintedTokenFails(env: Env, parse: string -> Option<JsValue>, mint: MintRequest -> Minted, c: JsValue)
    requires IsSet(env.serviceAccountKey) && parse(env.serviceAccountKey.value) == Some(c)
    requires mint(MintRequest(c, Scopes)).MintReturned? && !Truthy(mint(MintRequest(c, Scopes)).token)
    ensures GetAccessToken(env, parse, mint) == Failure(NoTokenMinted)
  {
  }

  /** Without a key, a set manual token is returned as it is. */
  lemma ManualTokenUnchanged(env: Env, parse: string -> Option<JsValue>, mint: MintRequest -> Minted)
    requires !IsSet(env.serviceAccountKey) && IsSet(env.accessToken)
    ensures GetAccessToken(env, parse, mint) == Success(Str(env.accessToken.value))
  {
  }

  /** Minting only ever asks for the cloud-platform scope: oracles that agree there give the same result. */
  lemma OnlyCloudPlatformScope(env: Env, parse: string -> Option<JsValue>, mint1: MintRequest -> Minted, mint2: MintRequest -> Minted)
    requires forall c :: mint1(MintRequest(c, [CloudPlatformScope])) == mint2(MintRequest(c, [CloudPlatformScope]))
    ensures GetAccessToken(env, parse, mint1) == GetAccessToken(env, parse, mint2)
  {
    if IsSet(env.serviceAccountKey) && parse(env.serviceAccountKey.value).Some? {
      var c := parse(env.serviceAccountKey.value).value;
      assert mint1(MintRequest(c, [CloudPlatformScope])) == mint2(MintRequest(c, [CloudPlatformScope]));
    }
  }
}
