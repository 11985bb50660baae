# Bearer-token validation of sample-auth-backend, in Dafny

The service guards its protected endpoints with `validate_microsoft_token`
(main.py:66-153). The function takes a bearer token issued by Microsoft Entra ID (Azure AD)
and either returns the token's claims or raises an HTTP error. This project
models that decision and proves what it accepts and rejects:

- **Configuration guard.** A missing or empty tenant or client id is a 500 "Azure configuration missing".
- **Key-set URL.** The signing keys are fetched from `https://login.microsoftonline.com/<tenant>/discovery/v2.0/keys`.
- **Key walk.** The walk over the fetched `keys` list takes the first JWK whose `kid` (the key-id parameter of
  section 4.5 of RFC 7517) equals the `kid` in the token's unverified header
  (section 4.1.4 of RFC 7515).
- **Issuer check.** The `iss` claim (section 4.1.1 of RFC 7519) must equal one of the tenant's two issuer strings.
- **Audience check.** The `aud` claim (section 4.1.3 of RFC 7519) must equal the client id.
- **Error mapping.** An HTTP error raised inside the pipeline passes through unchanged. Any other exception becomes a
  401 "Token validation failed: …".

The two handlers that compute something are modelled as well. `hello_world` greets the holder of
an accepted token, with claim defaults. `auth_info` publishes the tenant's sign-in URLs.

The library and network calls are inputs, collected in a `Backend` value:
`pyjwt.get_unverified_header`, the `requests.get` / `raise_for_status` /
`.json()` fetch of the key set, `JsonWebKey.import_key`, and `jwt.decode`
(the signature check). Each call either gives a value or raises an
exception, which the model carries with its `str()` text. The validator
also returns the list of backend calls it made (`Step`s), so "no fetch
happens", "no signature check is reached" and "the key set is fetched
once" are statements about that list.

The Python errors the code raises itself are modelled with their CPython
3.11 messages:

- `KeyError: 'kid'` when a JWK or the header has no `kid`.
- `KeyError: 'keys'` when the key-set document has no `keys` entry.
- A `TypeError` when a JWK is not a dict.
- An `AttributeError` or `TypeError` raised by the debug line main.py:97.
  That line calls `jwks.get` and `len`, so it does decide the outcome.
- `KeyError: 'kid'` raised by the debug line main.py:108 when no entry
  matched (for example an empty `keys` list) and the header has no `kid`.

Each of these becomes a 401 like any other exception.

Modules: `Wrappers` (Option), `PyJson` (decoded JSON values, Python `==`,
f-string rendering), `PyErrors` (exceptions and their texts), `TenantUrls`
(the tenant-derived strings), `KeySelection` (the key walk), `ClaimChecks`
(issuer and audience), `TokenValidation` (the pipeline, its exception
handling, the imperative method and the theorems), `Endpoints`
(`hello_world`, `auth_info`).

What the code does not do, and so the model does not claim:

- The code keeps no key cache. It does not refresh on a miss and has no single-flight fetching or fetch timeout.
  The key set is fetched on every call.
- The code itself checks no `exp` or `nbf` claim.
- The code does not pin the signature algorithm.
- The code echoes the expected and the actual issuer or audience in the client-visible detail.

## Model

| member | source | states |
|---|---|---|
| `TenantUrls.JwksUrlPinsTenant` | main.py:86 | The key-set URL is exactly `https://login.microsoftonline.com/` + tenant + `/discovery/v2.0/keys`, and two tenants never share a key-set URL |
| `TenantUrls.TenantUrlInjective` | main.py:86 | A URL on the login authority with a fixed path determines the tenant spliced into it, in both directions |
| `TenantUrls.IssuersPinTenant` | main.py:119-120 | The v1 issuer (`https://sts.windows.net/<tenant>/`) and the v2 issuer (`https://login.microsoftonline.com/<tenant>/v2.0`) never coincide, and each determines its tenant |
| `PyJson.EqualString` | main.py:127 | Under Python `==`, a decoded value equals a string exactly when it is that same string, so a list, null, number or boolean never passes a string comparison |
| `PyJson.Show` | main.py:130 | An absent claim renders as `None` and a string claim as itself in the error details |
| `KeySelection.KeyEntries` | main.py:97-102 | The walked list is the `keys` array of the document. An empty string or dict gives no entries. A non-dict document raises AttributeError, a missing `keys` raises KeyError('keys'), a value without a length raises TypeError, and a non-empty string or dict raises on its first entry |
| `KeySelection.Probe` | main.py:102 | One comparison `jwk["kid"] == header["kid"]` completes without raising exactly when the JWK is a dict and both kids exist. It is true exactly when the kids are also equal, so two present, unequal kids give False. A non-dict JWK raises TypeError, and a missing kid on either side raises KeyError('kid') |
| `KeySelection.SelectFrom` | main.py:101-105 | A walk that stops at an index stops at an entry whose comparison is true. A walk that fails does so with the error of some entry's comparison |
| `KeySelection.SelectKeyFindsFirstMatch` | main.py:99-105 | The walk selects entry i exactly when entry i matches and every earlier entry compared unequal without error (first match in list order) |
| `KeySelection.SelectKeyNotFound` | main.py:101-107 | The walk ends without a key exactly when every entry compared unequal |
| `KeySelection.SelectKeyFailsAtFirstError` | main.py:101-102 | The first entry whose comparison raises, after only unequal entries, ends the walk with that exception |
| `KeySelection.LaterEntriesIgnored` | main.py:101-105 | Once a match exists, appending further entries (including ones with the same kid) leaves the selection unchanged |
| `KeySelection.FindKey` | main.py:100-105 | The loop with early exit returns the selection of the walk, and a found index is the first match |
| `ClaimChecks.IssuerAcceptedExactly` | main.py:119-131 | The issuer check passes exactly when `iss` is present and is one of the two tenant issuer strings |
| `ClaimChecks.IssuerRejectsPartialMatch` | main.py:119-131 | A proper prefix or proper suffix of either issuer string is rejected |
| `ClaimChecks.IssuerPinsTenant` | main.py:119-131 | An issuer accepted for two tenants forces them to be the same tenant |
| `ClaimChecks.AudienceAcceptedExactly` | main.py:133-141 | The audience check passes exactly when `aud` is present and is the client id string. Absent, different or non-string values fail |
| `TokenValidation.CheckClaims` | main.py:119-144 | The claims are returned unchanged exactly when both checks pass. A failed issuer check raises 401 "Invalid token issuer" carrying the got value and both expected issuers, whatever the audience. A failed audience check after a passed issuer raises 401 "Invalid token audience" carrying the got value and the client id |
| `TokenValidation.TextMarksWrappedExceptions` | main.py:148-153 | A rejection's detail starts with "Token validation failed: " exactly when it wraps a non-HTTP exception |
| `TokenValidation.ValidateMicrosoftToken` | main.py:66-153 | The step-by-step validator (early exits, key walk, checks) produces the outcome and call list of the specification `Validate` |
| `TokenValidation.RejectionStatus` | main.py:80-84 | Missing configuration gives 500 "Azure configuration missing" with no backend call. A 500 arises only then, and every other rejection is 401 |
| `TokenValidation.ExceptionMapping` | main.py:146-153 | HTTP errors pass through unchanged, other exceptions become 401 with the detail "Token validation failed: " + str(e), and a normal return yields the claims |
| `TokenValidation.CallsInPipelineOrder` | main.py:86-114 | Backend calls happen in the order header parse, fetch of the tenant's key-set URL, key import, decode, each at most once. An accepted token made all four calls |
| `TokenValidation.UnknownKeyRejected` | main.py:99-111 | The 401 "Invalid token key" arises exactly when the header has a kid and every JWK compared unequal. In that case only the header parse and the fetch happened |
| `TokenValidation.AcceptedExactly` | main.py:75-144 | A token is accepted with claims c exactly when the configuration is present, the header and key set were read, the first matching JWK imports, the token decodes to c under it, and issuer and audience pass |
| `TokenValidation.AcceptedIssuerNamesTenant` | main.py:119-131 | An accepted token's issuer names the configured tenant and no other |
| `Endpoints.Greeting` | main.py:181-188 | The name and email claims pass through when present; "Unknown User" and "No email" are used when absent |
| `Endpoints.GreetsOnlyAdmittedTokens` | main.py:179-188 | `hello_world` answers with a greeting exactly for admitted tokens, built from the accepted claims. Otherwise it answers with the validator's error |
| `Endpoints.AuthInfo` | main.py:197-209 | A response exists exactly when both settings are set. It echoes them, and the scope is "openid email profile" |
| `Endpoints.AuthInfoUrlsPinTenant` | main.py:203-209 | auth_url and token_url are the tenant's `/oauth2/v2.0/authorize` and `/oauth2/v2.0/token` URLs. They differ from each other, and each determines the tenant |

## Left out

- Network I/O: `requests.get`, `raise_for_status` and `.json()` are one input function from URL to document or exception.
- Cryptography and token parsing: `pyjwt.get_unverified_header`, `JsonWebKey.import_key` and `jwt.decode` are inputs. Whatever they check (signature, algorithm, any time claims) is theirs, and the model claims nothing about it.
- Key object truthiness: the key returned by `JsonWebKey.import_key` is taken to be truthy, so `if not key` fails only when no entry matched.
- Settings: `get_settings` (environment reading and `lru_cache` memoisation) is replaced by a `Settings` value passed in.
- Debug `print` calls: their output is not modelled. Two debug prints can raise, and both are modelled: the `jwks.get`/`len` at main.py:97 and the `header['kid']` at main.py:108 (a header without `kid` after an empty walk gives 401 "Token validation failed: 'kid'"). A `print` failing to encode its emoji on a non-UTF-8 stream is not modelled.
- Framework wiring: the FastAPI app, routing decorators, the `HTTPBearer` dependency (a missing Authorization header), `health_check`, and `main()` with uvicorn are not modelled.
- PyJson.Show: a list or dict value in the issuer or audience detail is rendered as a placeholder, not with Python's repr. Dict order is not part of the model.
- PyJson.Equal: Python's `True == 1` / `False == 0` is modelled for the compared values themselves, not inside nested lists or dicts. JSON floats (`1.0 == 1`) are not modelled.
- PyErrors.Message: the TypeError texts follow CPython 3.11 and later; older interpreters word "string indices must be integers" differently.
- Endpoints.Greeting: the response model's validation of `name` and `email` (a non-string claim such as null fails or is coerced, depending on the pydantic version) is not modelled. The claim value is passed through as is.
- Endpoints.AuthInfo: an unset setting is modelled as no response. That stands for the response-model validation error the framework turns into a 500, and its text is not modelled.
- test_api.py and test_token.py send HTTP requests to a running server and print the answers. They hold no logic of their own.
