/**
 * The tenant-derived strings of main.py: the key-set URL, the two accepted
 * issuers, and the sign-in URLs that `auth_info` publishes. Each is an
 * f-string with the tenant id spliced between a fixed head and a fixed tail.
 */
module TenantUrls {

  const LoginAuthority := "https://login.microsoftonline.com/"
  const StsAuthority := "https://sts.windows.net/"

  /** `f"https://login.microsoftonline.com/{tenant}{path}"`. */
  function TenantUrl(tenant: string, path: string): string
  {
    LoginAuthority + tenant + path
  }

  /** The published signing keys of a tenant. */
  function JwksUrl(tenant: string): string
  {
    TenantUrl(tenant, "/discovery/v2.0/keys")
  }

  /** The issuer of version 1.0 tokens. */
  function IssuerV1(tenant: string): string
  {
    StsAuthority + tenant + "/"
  }

  /** The issuer of version 2.0 tokens. */
  function IssuerV2(tenant: string): string
  {
    TenantUrl(tenant, "/v2.0")
  }

  /** The part between a known head and tail is determined by the whole. */
  lemma {:induction false} Unsplice(head: string, a: string, b: string, tail: string)
    requires head + a + tail == head + b + tail
    ensures a == b
  {
    var w := head + a + tail;
    assert |a| == |b|;
    assert a == w[|head|..|head| + |a|];
    assert b == (head + b + tail)[|head|..|head| + |b|];
  }

  /** Distinct tenants never share a URL with the same path. */
  lemma TenantUrlInjective(t1: string, t2: string, path: string)
    ensures TenantUrl(t1, path) == TenantUrl(t2, path) <==> t1 == t2
  {
    if TenantUrl(t1, path) == TenantUrl(t2, path) {
      Unsplice(LoginAuthority, t1, t2, path);
    }
  }

  /** The key-set URL is exactly head + tenant + tail, and names one tenant only. */
  lemma JwksUrlPinsTenant(t1: string, t2: string)
    ensures JwksUrl(t1) == "https://login.microsoftonline.com/" + t1 + "/discovery/v2.0/keys"
    ensures JwksUrl(t1) == JwksUrl(t2) <==> t1 == t2
  {
    TenantUrlInjective(t1, t2, "/discovery/v2.0/keys");
  }

  /** The two issuer forms of one tenant differ, and neither names another tenant. */
  lemma IssuersPinTenant(t1: string, t2: string)
    ensures IssuerV1(t1) != IssuerV2(t2)
    ensures IssuerV1(t1) == IssuerV1(t2) <==> t1 == t2
    ensures IssuerV2(t1) == IssuerV2(t2) <==> t1 == t2
  {
    assert IssuerV1(t1)[8] == 's' && IssuerV2(t2)[8] == 'l';
    if IssuerV1(t1) == IssuerV1(t2) {
      Unsplice(StsAuthority, t1, t2, "/");
    }
    TenantUrlInjective(t1, t2, "/v2.0");
  }
}
