/**
 * The two claim checks main.py applies after the signature check: the `iss`
 * claim must be one of the tenant's two issuer strings, and the `aud` claim
 * must be the configured client id. Both compare with Python's `==`.
 */
module ClaimChecks {
  import opened Wrappers
  import opened PyJson
  import opened TenantUrls

  /** `claims.get("iss") in [IssuerV1(tenant), IssuerV2(tenant)]`. */
  predicate IssuerAccepted(tenant: string, iss: Option<Json>)
  {
    iss.Some? && (Equal(iss.value, JStr(IssuerV1(tenant))) || Equal(iss.value, JStr(IssuerV2(tenant))))
  }

  /** `claims.get("aud") != client` is false. */
  predicate AudienceAccepted(client: string, aud: Option<Json>)
  {
    aud.Some? && Equal(aud.value, JStr(client))
  }

  /** The issuer check is exact string equality with one of the two issuer forms. */
  lemma IssuerAcceptedExactly(tenant: string, iss: Option<Json>)
    ensures IssuerAccepted(tenant, iss) <==>
      iss == Some(JStr(IssuerV1(tenant))) || iss == Some(JStr(IssuerV2(tenant)))
  {
  }

  /** The audience check is exact string equality with the client id. */
  lemma AudienceAcceptedExactly(client: string, aud: Option<Json>)
    ensures AudienceAccepted(client, aud) <==> aud == Some(JStr(client))
  {
  }

  ghost predicate ProperPrefix(s: string, t: string)
  {
    |s| < |t| && s == t[..|s|]
  }

  ghost predicate ProperSuffix(s: string, t: string)
  {
    |s| < |t| && s == t[|t| - |s|..]
  }

  /** A proper prefix or proper suffix of either issuer form is not an accepted issuer. */
  lemma IssuerRejectsPartialMatch(tenant: string, s: string)
    requires ProperPrefix(s, IssuerV1(tenant)) || ProperPrefix(s, IssuerV2(tenant)) ||
             ProperSuffix(s, IssuerV1(tenant)) || ProperSuffix(s, IssuerV2(tenant))
    ensures !IssuerAccepted(tenant, Some(JStr(s)))
  {
    var v1, v2 := IssuerV1(tenant), IssuerV2(tenant);
    IssuerAcceptedExactly(tenant, Some(JStr(s)));
    assert v1[8] == 's' && v2[8] == 'l';
    assert v1[|v1| - 1] == '/' && v2[|v2| - 1] == '0';
  }

  /** An accepted issuer names exactly one tenant: a token for another tenant is never accepted. */
  lemma IssuerPinsTenant(t1: string, t2: string, iss: Option<Json>)
    requires IssuerAccepted(t1, iss) && IssuerAccepted(t2, iss)
    ensures t1 == t2
  {
    IssuerAcceptedExactly(t1, iss);
    IssuerAcceptedExactly(t2, iss);
    IssuersPinTenant(t1, t2);
    IssuersPinTenant(t2, t1);
  }
}
