/**
 * `validate_microsoft_token` (main.py:66-153): the accept/reject decision
 * for a bearer token. The calls the validator makes into libraries and the
 * network are inputs (a `Backend`); everything the code decides itself is
 * modelled: the configuration guard, the key-set URL, the key walk, the
 * issuer and audience checks, and the mapping of exceptions to HTTP errors.
 */
module TokenValidation {
  import opened Wrappers
  import opened PyJson
  import opened PyErrors
  import opened TenantUrls
  import opened KeySelection
  import opened ClaimChecks

  type Claims = Object

  /** The settings read from the environment; `None` for an unset variable. */
  datatype Settings = Settings(tenantId: Option<string>, clientId: Option<string>)

  /** A setting is truthy in Python: set and not empty. */
  predicate Present(v: Option<string>)
  {
    v.Some? && v.value != ""
  }

  predicate Configured(s: Settings)
  {
    Present(s.tenantId) && Present(s.clientId)
  }

  /** A key object built from a JWK; its cryptographic content is not modelled. */
  datatype PublicKey = PublicKey(material: Json)

  /**
   * What the libraries and the network answer for this one token:
   * `pyjwt.get_unverified_header(token)`; `requests.get(url)` followed by
   * `raise_for_status()` and `.json()`; `JsonWebKey.import_key(jwk)`; and
   * `jwt.decode(token, key)`, which checks the signature.
   */
  datatype Backend = Backend(
    unverifiedHeader: Fallible<Object>,
    fetchKeySet: string -> Fallible<Json>,
    importKey: Json -> Fallible<PublicKey>,
    decode: PublicKey -> Fallible<Claims>)

  /** The calls into the backend, in the order they are made. */
  datatype Step = ParseHeader | FetchKeySet(url: string) | ImportKey(jwk: Json) | DecodeToken(key: PublicKey)

  /** The position of each kind of call in the pipeline. */
  function Stage(step: Step): nat
  {
    match step
    case ParseHeader => 0
    case FetchKeySet(_) => 1
    case ImportKey(_) => 2
    case DecodeToken(_) => 3
  }

  /** The `detail` of a rejection. */
  datatype Detail =
    | ConfigurationMissing
    | InvalidTokenKey
    | InvalidIssuer(got: Option<Json>, expectedV1: string, expectedV2: string)
    | InvalidAudience(got: Option<Json>, expected: string)
    | ValidationFailed(cause: PyError)

  const ValidationFailedPrefix := "Token validation failed: "

  /** The text of a rejection's `detail`. */
  function Text(d: Detail): string
  {
    match d
    case ConfigurationMissing => "Azure configuration missing"
    case InvalidTokenKey => "Invalid token key"
    case InvalidIssuer(got, v1, v2) =>
      "Invalid token issuer. Got: " + Show(got) + ", Expected: " + v1 + " or " + v2
    case InvalidAudience(got, expected) =>
      "Invalid token audience. Got: " + Show(got) + ", Expected: " + expected
    case ValidationFailed(e) => ValidationFailedPrefix + Message(e)
  }

  /** Only a wrapped exception has a detail that starts with "Token validation failed: ". */
  lemma TextMarksWrappedExceptions(d: Detail)
    ensures |ValidationFailedPrefix| <= |Text(d)| && Text(d)[..|ValidationFailedPrefix|] == ValidationFailedPrefix
            <==> d.ValidationFailed?
  {
    if !d.ValidationFailed? && |ValidationFailedPrefix| <= |Text(d)| {
      assert Text(d)[0] != 'T';
    }
  }

  /** What the `try` block raises: an HTTPException, or any other exception. */
  datatype Raised = HttpError(status: int, detail: Detail) | Error(cause: PyError)

  /** How the `try` block ends. */
  datatype Completion = Returned(claims: Claims) | Threw(raised: Raised)

  /** The `try` block's completion and the calls it made. */
  datatype Attempt = Attempt(completion: Completion, trace: seq<Step>)

  /** The validator's answer: the claims, or an HTTP error. */
  datatype Outcome = Accept(claims: Claims) | Reject(status: int, detail: Detail)

  datatype Run = Run(outcome: Outcome, trace: seq<Step>)

  const Unauthorized := 401
  const InternalServerError := 500

  /** The issuer check, then the audience check (main.py:119-144). */
  function CheckClaims(tenant: string, client: string, claims: Claims): (c: Completion)
    ensures c.Returned? <==> IssuerAccepted(tenant, Get(claims, "iss")) && AudienceAccepted(client, Get(claims, "aud"))
    ensures c.Returned? ==> c.claims == claims
    ensures c.Threw? ==> c.raised.HttpError? && c.raised.status == Unauthorized
    ensures c.Threw? && c.raised.detail.InvalidAudience? ==> IssuerAccepted(tenant, Get(claims, "iss"))
    ensures !IssuerAccepted(tenant, Get(claims, "iss")) ==>
      c == Threw(HttpError(Unauthorized, InvalidIssuer(Get(claims, "iss"), IssuerV1(tenant), IssuerV2(tenant))))
    ensures IssuerAccepted(tenant, Get(claims, "iss")) && !AudienceAccepted(client, Get(claims, "aud")) ==>
      c == Threw(HttpError(Unauthorized, InvalidAudience(Get(claims, "aud"), client)))
  {
    var issuer := Get(claims, "iss");
    if !IssuerAccepted(tenant, issuer) then
      Threw(HttpError(Unauthorized, InvalidIssuer(issuer, IssuerV1(tenant), IssuerV2(tenant))))
    else
      var audience := Get(claims, "aud");
      if !AudienceAccepted(client, audience) then
        Threw(HttpError(Unauthorized, InvalidAudience(audience, client)))
      else
        Returned(claims)
  }

  /** The body of the `try` block (main.py:75-144). */
  function Pipeline(settings: Settings, backend: Backend): Attempt
  {
    if !Configured(settings) then
      Attempt(Threw(HttpError(InternalServerError, ConfigurationMissing)), [])
    else
      var tenant, client := settings.tenantId.value, settings.clientId.value;
      var url := JwksUrl(tenant);
      match backend.unverifiedHeader
      case Raises(e) => Attempt(Threw(Error(e)), [ParseHeader])
      case Ok(header) =>
        var fetched := [ParseHeader, FetchKeySet(url)];
        match backend.fetchKeySet(url)
        case Raises(e) => Attempt(Threw(Error(e)), fetched)
        case Ok(jwks) =>
          match KeyEntries(jwks)
          case Raises(e) => Attempt(Threw(Error(e)), fetched)
          case Ok(keys) =>
            var kid := Get(header, "kid");
            match SelectKey(keys, kid)
            case Failed(e) => Attempt(Threw(Error(e)), fetched)
            case NotFound =>
              // `header['kid']` in the log line before the raise
              if kid.None? then Attempt(Threw(Error(KeyError("kid"))), fetched)
              else Attempt(Threw(HttpError(Unauthorized, InvalidTokenKey)), fetched)
            case Found(i) =>
              var imported := fetched + [ImportKey(keys[i])];
              match backend.importKey(keys[i])
              case Raises(e) => Attempt(Threw(Error(e)), imported)
              case Ok(key) =>
                var decoded := imported + [DecodeToken(key)];
                match backend.decode(key)
                case Raises(e) => Attempt(Threw(Error(e)), decoded)
                case Ok(claims) => Attempt(CheckClaims(tenant, client, claims), decoded)
  }

  /** The two `except` clauses (main.py:146-153). */
  function Handle(c: Completion): Outcome
  {
    match c
    case Returned(claims) => Accept(claims)
    case Threw(HttpError(status, detail)) => Reject(status, detail)
    case Threw(Error(e)) => Reject(Unauthorized, ValidationFailed(e))
  }

  /** `validate_microsoft_token` as a function of its inputs. */
  function Validate(settings: Settings, backend: Backend): Run
  {
    var attempt := Pipeline(settings, backend);
    Run(Handle(attempt.completion), attempt.trace)
  }

  /** `validate_microsoft_token`, step by step. */
  method ValidateMicrosoftToken(settings: Settings, backend: Backend) returns (outcome: Outcome, trace: seq<Step>)
    ensures Run(outcome, trace) == Validate(settings, backend)
  {
    trace := [];
    if !Configured(settings) {
      outcome := Handle(Threw(HttpError(InternalServerError, ConfigurationMissing)));
      return;
    }
    var tenant, client := settings.tenantId.value, settings.clientId.value;
    var jwksUrl := JwksUrl(tenant);

    trace := trace + [ParseHeader];
    var parsed := backend.unverifiedHeader;
    if parsed.Raises? {
      outcome := Handle(Threw(Error(parsed.error)));
      return;
    }
    var header := parsed.value;

    trace := trace + [FetchKeySet(jwksUrl)];
    var response := backend.fetchKeySet(jwksUrl);
    if response.Raises? {
      outcome := Handle(Threw(Error(response.error)));
      return;
    }
    var entries := KeyEntries(response.value);
    if entries.Raises? {
      outcome := Handle(Threw(Error(entries.error)));
      return;
    }
    var keys := entries.value;

    var kid := Get(header, "kid");
    var selection := FindKey(keys, kid);
    if selection.Failed? {
      outcome := Handle(Threw(Error(selection.error)));
      return;
    }
    if selection.NotFound? {
      if kid.None? {
        outcome := Handle(Threw(Error(KeyError("kid"))));
      } else {
        outcome := Handle(Threw(HttpError(Unauthorized, InvalidTokenKey)));
      }
      return;
    }
    var jwk := keys[selection.index];
    trace := trace + [ImportKey(jwk)];
    var imported := backend.importKey(jwk);
    if imported.Raises? {
      outcome := Handle(Threw(Error(imported.error)));
      return;
    }
    var key := imported.value;

    trace := trace + [DecodeToken(key)];
    var decoded := backend.decode(key);
    if decoded.Raises? {
      outcome := Handle(Threw(Error(decoded.error)));
      return;
    }
    var claims := decoded.value;

    var issuer := Get(claims, "iss");
    if !IssuerAccepted(tenant, issuer) {
      outcome := Handle(Threw(HttpError(Unauthorized, InvalidIssuer(issuer, IssuerV1(tenant), IssuerV2(tenant)))));
      return;
    }
    var audience := Get(claims, "aud");
    if !AudienceAccepted(client, audience) {
      outcome := Handle(Threw(HttpError(Unauthorized, InvalidAudience(audience, client))));
      return;
    }
    outcome := Accept(claims);
  }

  // Properties of the decision

  /**
   * A missing or empty tenant or client id gives a 500 before any backend
   * call; every other rejection is a 401, and a 500 means nothing else.
   */
  lemma RejectionStatus(settings: Settings, backend: Backend)
    ensures !Configured(settings) ==> Validate(settings, backend) == Run(Reject(InternalServerError, ConfigurationMissing), [])
    ensures Validate(settings, backend).outcome.Reject? ==>
      var o := Validate(settings, backend).outcome;
      (o.status == InternalServerError <==> !Configured(settings)) &&
      (o.status == InternalServerError || o.status == Unauthorized) &&
      (o.detail == ConfigurationMissing <==> o.status == InternalServerError)
  {
  }

  /**
   * HTTP errors raised inside the `try` pass through unchanged; any other
   * exception becomes a 401 whose detail starts with "Token validation failed: ".
   */
  lemma ExceptionMapping(settings: Settings, backend: Backend)
    ensures Pipeline(settings, backend).completion.Threw? && Pipeline(settings, backend).completion.raised.HttpError? ==>
      var r := Pipeline(settings, backend).completion.raised;
      Validate(settings, backend).outcome == Reject(r.status, r.detail)
    ensures Pipeline(settings, backend).completion.Threw? && Pipeline(settings, backend).completion.raised.Error? ==>
      var o := Validate(settings, backend).outcome;
      o.Reject? && o.status == Unauthorized &&
      Text(o.detail) == ValidationFailedPrefix + Message(Pipeline(settings, backend).completion.raised.cause)
    ensures Pipeline(settings, backend).completion.Returned? ==>
      Validate(settings, backend).outcome == Accept(Pipeline(settings, backend).completion.claims)
  {
  }

  /**
   * The backend is called in pipeline order, each kind at most once: the
   * header parse, one fetch of the tenant's key-set URL, one key import,
   * one signature check. An accepted token went through all four.
   */
  lemma CallsInPipelineOrder(settings: Settings, backend: Backend)
    ensures var t := Validate(settings, backend).trace;
      |t| <= 4 &&
      (forall k :: 0 <= k < |t| ==> Stage(t[k]) == k) &&
      (|t| >= 2 ==> t[1] == FetchKeySet(JwksUrl(settings.tenantId.value))) &&
      (Validate(settings, backend).outcome.Accept? ==> |t| == 4)
  {
  }

  /** The header parsed, the key set fetched and read, and the header `kid` present. */
  ghost predicate KeySetRead(settings: Settings, backend: Backend)
  {
    Configured(settings) && backend.unverifiedHeader.Ok? &&
    var fetched := backend.fetchKeySet(JwksUrl(settings.tenantId.value));
    fetched.Ok? && KeyEntries(fetched.value).Ok?
  }

  ghost function HeaderKid(backend: Backend): Option<Json>
    requires backend.unverifiedHeader.Ok?
  {
    Get(backend.unverifiedHeader.value, "kid")
  }

  ghost function FetchedKeys(settings: Settings, backend: Backend): seq<Json>
    requires KeySetRead(settings, backend)
  {
    KeyEntries(backend.fetchKeySet(JwksUrl(settings.tenantId.value)).value).value
  }

  /** No entry of the key set has the token's `kid`, and none is malformed. */
  ghost predicate KeyUnknown(settings: Settings, backend: Backend)
  {
    KeySetRead(settings, backend) && HeaderKid(backend).Some? &&
    PassedBefore(FetchedKeys(settings, backend), HeaderKid(backend), 0, |FetchedKeys(settings, backend)|)
  }

  /**
   * A token whose `kid` names no entry of the key set gets the 401 "Invalid
   * token key", and no key import or signature check is attempted; that
   * rejection arises in no other way.
   */
  lemma UnknownKeyRejected(settings: Settings, backend: Backend)
    ensures Validate(settings, backend).outcome == Reject(Unauthorized, InvalidTokenKey) <==> KeyUnknown(settings, backend)
    ensures KeyUnknown(settings, backend) ==>
      Validate(settings, backend).trace == [ParseHeader, FetchKeySet(JwksUrl(settings.tenantId.value))]
  {
    if KeySetRead(settings, backend) {
      SelectKeyNotFound(FetchedKeys(settings, backend), HeaderKid(backend));
    }
  }

  /**
   * The reference definition of acceptance: the settings are present, the
   * header parses, the tenant's key set is fetched and read, entry `i` is
   * the first whose `kid` equals the header's, its key imports, the token
   * decodes under it to `claims`, and the issuer and audience checks pass.
   */
  ghost predicate Admits(settings: Settings, backend: Backend, claims: Claims)
  {
    KeySetRead(settings, backend) &&
    var keys := FetchedKeys(settings, backend);
    exists i :: 0 <= i < |keys| && FirstMatch(keys, HeaderKid(backend), i) &&
      var imported := backend.importKey(keys[i]);
      imported.Ok? && backend.decode(imported.value) == Ok(claims) &&
      IssuerAccepted(settings.tenantId.value, Get(claims, "iss")) &&
      AudienceAccepted(settings.clientId.value, Get(claims, "aud"))
  }

  /** Exactly the admitted tokens are accepted, and the decoded claims are returned unchanged. */
  lemma AcceptedExactly(settings: Settings, backend: Backend, claims: Claims)
    ensures Validate(settings, backend).outcome == Accept(claims) <==> Admits(settings, backend, claims)
  {
    if KeySetRead(settings, backend) {
      var keys, kid := FetchedKeys(settings, backend), HeaderKid(backend);
      var sel := SelectKey(keys, kid);
      if sel.Found? {
        SelectKeyFindsFirstMatch(keys, kid, sel.index);
      }
      if Admits(settings, backend, claims) {
        var i :| 0 <= i < |keys| && FirstMatch(keys, kid, i) &&
          var imported := backend.importKey(keys[i]);
          imported.Ok? && backend.decode(imported.value) == Ok(claims) &&
          IssuerAccepted(settings.tenantId.value, Get(claims, "iss")) &&
          AudienceAccepted(settings.clientId.value, Get(claims, "aud"));
        SelectKeyFindsFirstMatch(keys, kid, i);
      }
    }
  }

  /** Only a token whose issuer names the configured tenant is accepted. */
  lemma AcceptedIssuerNamesTenant(settings: Settings, backend: Backend, tenant: string)
    requires Validate(settings, backend).outcome.Accept?
    requires IssuerAccepted(tenant, Get(Validate(settings, backend).outcome.claims, "iss"))
    ensures settings.tenantId == Some(tenant)
  {
    var claims := Validate(settings, backend).outcome.claims;
    AcceptedExactly(settings, backend, claims);
    IssuerPinsTenant(tenant, settings.tenantId.value, Get(claims, "iss"));
  }
}
