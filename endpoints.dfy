/**
 * The two handlers of main.py that compute something from the validator's
 * result or the settings: `hello_world` (main.py:179-188), which greets the
 * holder of an accepted token, and `auth_info` (main.py:197-209), which
 * publishes the tenant's sign-in URLs.
 */
module Endpoints {
  import opened Wrappers
  import opened PyJson
  import opened TenantUrls
  import opened TokenValidation

  const UnknownUser := JStr("Unknown User")
  const NoEmail := JStr("No email")
  const Scope := "openid email profile"

  datatype User = User(name: Json, email: Json)

  datatype HelloWorldResponse = HelloWorldResponse(message: string, user: User, authenticated: bool)

  /** An endpoint's answer: a body, or the HTTP error raised by its dependency. */
  datatype Response<T> = Body(body: T) | Failure(status: int, detail: Detail)

  /** The greeting for a set of accepted claims. */
  function Greeting(claims: Claims): (r: HelloWorldResponse)
    ensures r.message == "Hello, World!" && r.authenticated
    ensures "name" in claims ==> r.user.name == claims["name"]
    ensures "name" !in claims ==> r.user.name == UnknownUser
    ensures "email" in claims ==> r.user.email == claims["email"]
    ensures "email" !in claims ==> r.user.email == NoEmail
  {
    HelloWorldResponse("Hello, World!", User(GetOr(claims, "name", UnknownUser), GetOr(claims, "email", NoEmail)), true)
  }

  /** `hello_world` behind its `validate_microsoft_token` dependency. */
  function HelloWorld(settings: Settings, backend: Backend): Response<HelloWorldResponse>
  {
    match Validate(settings, backend).outcome
    case Accept(claims) => Body(Greeting(claims))
    case Reject(status, detail) => Failure(status, detail)
  }

  /**
   * The greeting is given exactly to admitted tokens, and names the holder
   * from the token's own claims; otherwise the validator's error is the answer.
   */
  lemma GreetsOnlyAdmittedTokens(settings: Settings, backend: Backend)
    ensures HelloWorld(settings, backend).Body? <==> exists claims :: Admits(settings, backend, claims)
    ensures HelloWorld(settings, backend).Body? ==>
      HelloWorld(settings, backend).body == Greeting(Validate(settings, backend).outcome.claims)
    ensures HelloWorld(settings, backend).Failure? ==>
      Validate(settings, backend).outcome == Reject(HelloWorld(settings, backend).status, HelloWorld(settings, backend).detail)
  {
    var o := Validate(settings, backend).outcome;
    if o.Accept? {
      AcceptedExactly(settings, backend, o.claims);
    } else {
      forall claims | Admits(settings, backend, claims)
        ensures false
      {
        AcceptedExactly(settings, backend, claims);
      }
    }
  }

  datatype AuthInfoResponse = AuthInfoResponse(tenantId: string, clientId: string, authUrl: string, tokenUrl: string, scope: string)

  /**
   * `auth_info`. Building the response fails (the response model demands
   * strings) when either setting is unset; empty settings are published as they are.
   */
  function AuthInfo(settings: Settings): (r: Option<AuthInfoResponse>)
    ensures r.Some? <==> settings.tenantId.Some? && settings.clientId.Some?
    ensures r.Some? ==> r.value.tenantId == settings.tenantId.value && r.value.clientId == settings.clientId.value
    ensures r.Some? ==> r.value.scope == Scope
  {
    match (settings.tenantId, settings.clientId)
    case (Some(tenant), Some(client)) =>
      Some(AuthInfoResponse(tenant, client,
        TenantUrl(tenant, "/oauth2/v2.0/authorize"),
        TenantUrl(tenant, "/oauth2/v2.0/token"),
        Scope))
    case _ => None
  }

  /**
   * The published URLs are the tenant's authorize and token endpoints on the
   * same authority as the key set the validator fetches, and each of them
   * names exactly one tenant.
   */
  lemma AuthInfoUrlsPinTenant(s1: Settings, s2: Settings)
    requires AuthInfo(s1).Some? && AuthInfo(s2).Some?
    ensures var t := s1.tenantId.value;
      AuthInfo(s1).value.authUrl == "https://login.microsoftonline.com/" + t + "/oauth2/v2.0/authorize" &&
      AuthInfo(s1).value.tokenUrl == "https://login.microsoftonline.com/" + t + "/oauth2/v2.0/token"
    ensures AuthInfo(s1).value.authUrl != AuthInfo(s1).value.tokenUrl
    ensures AuthInfo(s1).value.authUrl == AuthInfo(s2).value.authUrl <==> s1.tenantId == s2.tenantId
    ensures AuthInfo(s1).value.tokenUrl == AuthInfo(s2).value.tokenUrl <==> s1.tenantId == s2.tenantId
  {
    var t1, t2 := s1.tenantId.value, s2.tenantId.value;
    TenantUrlInjective(t1, t2, "/oauth2/v2.0/authorize");
    TenantUrlInjective(t1, t2, "/oauth2/v2.0/token");
    var a, k := AuthInfo(s1).value.authUrl, AuthInfo(s1).value.tokenUrl;
    assert |a| != |k|;
  }
}
