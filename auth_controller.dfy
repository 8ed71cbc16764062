// The decision logic of the authentication routes: tenant lookup by email
// domain, the bearer-header checks of the token middleware, and the order
// of checks in the OAuth callback. Signing and verifying tokens, the OAuth
// provider and the credential database are inputs.

module AuthController {
  import opened JsText

  datatype QuotaConfig = QuotaConfig(daily: int, warmupStart: int, warmupDays: int)

  datatype TenantConfig = TenantConfig(name: string, domain: string, quota: QuotaConfig)

  /** The tenant configuration as `Object.entries` yields it: (tenant id, config) in iteration order. */
  type Tenants = seq<(string, TenantConfig)>

  /** The claims a token carries: the user's id, tenant and email (`userId`). */
  datatype Claims = Claims(id: string, tenantId: string, userId: string)

  /** What the header checks found. */
  datatype HeaderCheck = NoToken | BadFormat | Bearer(token: string)

  /** The outcome of a middleware: a 401 response, or `next()` with the request's user. */
  datatype Gate<+U> = Reject(status: int, error: string) | Next(user: U)

  /** The user the middleware attaches to the request. */
  datatype RequestUser = RequestUser(id: string, tenantId: string, email: string)

  /** Entry `i` is the first whose domain is `domain`. */
  ghost predicate FirstMatchAt(tenants: Tenants, domain: string, i: int)
  {
    && 0 <= i < |tenants|
    && tenants[i].1.domain == domain
    && forall j :: 0 <= j < i ==> tenants[j].1.domain != domain
  }

  /** The first entry whose domain is `domain`, in iteration order. */
  function FindByDomain(tenants: Tenants, domain: string): (r: Option<(string, TenantConfig)>)
    ensures r.Some? <==> exists i :: 0 <= i < |tenants| && tenants[i].1.domain == domain
    ensures r.Some? ==> r.value.1.domain == domain && exists i :: FirstMatchAt(tenants, domain, i) && tenants[i] == r.value
  {
    if tenants == [] then None
    else if tenants[0].1.domain == domain then Some(tenants[0])
    else
      var r := FindByDomain(tenants[1..], domain);
      assert forall i :: FirstMatchAt(tenants[1..], domain, i) ==> FirstMatchAt(tenants, domain, i + 1);
      r
  }

  /**
   * `findTenantByEmail`: the first tenant whose configured domain equals,
   * exactly and case-sensitively, the text after the first `@` (up to any
   * next `@`); none for an address without `@`.
   */
  function FindTenantByEmail(email: string, tenants: Tenants): (r: Option<(string, TenantConfig)>)
    ensures '@' !in email ==> r == None
    ensures r.Some? <==>
      exists i :: 0 <= i < |tenants| && SecondField(email, '@') == Some(tenants[i].1.domain)
    ensures r.Some? ==>
      && SecondField(email, '@') == Some(r.value.1.domain)
      && exists i :: FirstMatchAt(tenants, r.value.1.domain, i) && tenants[i] == r.value
  {
    match SecondField(email, '@')
    case None => None
    case Some(domain) => FindByDomain(tenants, domain)
  }

  /** The header checks shared by both token middlewares: `!authHeader`, then `!authHeader.split(' ')[1]`. */
  function CheckHeader(header: Option<string>): (c: HeaderCheck)
    ensures c == NoToken <==> !Truthy(header)
    ensures c == BadFormat <==> Truthy(header) && !Truthy(SecondField(header.value, ' '))
    ensures c.Bearer? ==> SecondField(header.value, ' ') == Some(c.token)
    ensures c.Bearer? ==> ' ' in header.value && c.token != "" && ' ' !in c.token
    ensures Truthy(header) && ' ' !in header.value ==> c == BadFormat
  {
    if !Truthy(header) then NoToken
    else
      var token := SecondField(header.value, ' ');
      if !Truthy(token) then BadFormat else Bearer(token.value)
  }

  /** `Bearer <token>` passes the header checks with exactly that token. */
  lemma BearerHeader(scheme: string, token: string)
    requires ' ' !in scheme && ' ' !in token && token != ""
    ensures CheckHeader(Some(scheme + " " + token)) == Bearer(token)
  {
    assert scheme + " " + token == scheme + [' '] + token + "";
    SecondFieldOf(scheme, ' ', token, "");
  }

  /**
   * `verifyToken` of the auth routes. `verify` stands for `jwt.verify` with
   * the server's secret: the claims, or `None` when it throws.
   */
  function VerifyToken(header: Option<string>, verify: string -> Option<Claims>): (g: Gate<RequestUser>)
    ensures g.Reject? ==> g.status == 401
    ensures !Truthy(header) ==> g == Reject(401, "No token provided")
    ensures CheckHeader(header) == BadFormat ==> g == Reject(401, "Invalid token format")
    ensures CheckHeader(header).Bearer? ==>
      var claims := verify(CheckHeader(header).token);
      && (claims.None? ==> g == Reject(401, "Invalid token"))
      && (claims.Some? ==> g == Next(RequestUser(claims.value.id, claims.value.tenantId, claims.value.userId)))
    ensures g.Next? ==> exists t :: CheckHeader(header) == Bearer(t) && verify(t) == Some(Claims(g.user.id, g.user.tenantId, g.user.email))
  {
    match CheckHeader(header)
    case NoToken => Reject(401, "No token provided")
    case BadFormat => Reject(401, "Invalid token format")
    case Bearer(token) =>
      match verify(token)
      case None => Reject(401, "Invalid token")
      case Some(claims) => Next(RequestUser(claims.id, claims.tenantId, claims.userId))
  }

  /** The user the OAuth provider hands to the callback. */
  datatype OAuthUser = OAuthUser(id: string, email: Option<string>,
                                 accessToken: Option<string>, refreshToken: Option<string>)

  /** The credential record the callback upserts. */
  datatype EmailCredential = EmailCredential(tenantId: string, userId: string, provider: string,
                                             email: string, accessToken: string, refreshToken: string)

  /** Where the callback redirects, and the credential it stored (if any). */
  datatype CallbackResult = CallbackResult(redirect: string, stored: Option<EmailCredential>)

  /** `process.env.FRONTEND_URL || 'http://localhost:8080'`. */
  function Frontend(frontendUrl: Option<string>): string
  {
    OrElse(frontendUrl, "http://localhost:8080")
  }

  /**
   * The OAuth callback handler. `storeFails` says whether the credential
   * upsert throws; `sign` stands for `jwt.sign` with the server's secret.
   */
  function OAuthCallback(user: Option<OAuthUser>, tenants: Tenants, frontendUrl: Option<string>,
                         storeFails: bool, sign: Claims -> string): (r: CallbackResult)
    ensures (user.None? || !Truthy(user.value.email)) ==>
      r == CallbackResult(Frontend(frontendUrl) + "/login?error=auth_failed", None)
    ensures user.Some? && Truthy(user.value.email) && FindTenantByEmail(user.value.email.value, tenants).None? ==>
      r == CallbackResult(Frontend(frontendUrl) + "/login?error=invalid_domain", None)
    ensures user.Some? && Truthy(user.value.email) && FindTenantByEmail(user.value.email.value, tenants).Some? ==>
      && (storeFails ==> r == CallbackResult(Frontend(frontendUrl) + "/login?error=server_error", None))
      && (!storeFails ==> r.stored.Some?)
    ensures r.stored.Some? ==>
      && user.Some? && Truthy(user.value.email) && !storeFails
      && var email := user.value.email.value;
      && var tenant := FindTenantByEmail(email, tenants);
      && tenant.Some?
      && r.stored.value.tenantId == tenant.value.0
      && r.stored.value.email == email && r.stored.value.userId == email
      && r.stored.value.provider == "google"
      && r.redirect == Frontend(frontendUrl) + "/auth/callback?token="
                       + sign(Claims(user.value.id, tenant.value.0, email))
  {
    if user.None? || !Truthy(user.value.email) then
      CallbackResult(Frontend(frontendUrl) + "/login?error=auth_failed", None)
    else
      var u := user.value;
      var email := u.email.value;
      match FindTenantByEmail(email, tenants)
      case None => CallbackResult(Frontend(frontendUrl) + "/login?error=invalid_domain", None)
      case Some(tenant) =>
        if storeFails then CallbackResult(Frontend(frontendUrl) + "/login?error=server_error", None)
        else
          var credential := EmailCredential(tenant.0, email, "google", email,
                                            OrElse(u.accessToken, ""), OrElse(u.refreshToken, ""));
          var token := sign(Claims(u.id, tenant.0, email));
          CallbackResult(Frontend(frontendUrl) + "/auth/callback?token=" + token, Some(credential))
  }

  /**
   * The token in a successful callback's redirect, presented as
   * `Bearer <token>`, passes `verifyToken` and gives back the user's id, the
   * matched tenant and the email, provided `verify` undoes `sign` and tokens
   * are non-empty and contain no space.
   */
  lemma IssuedTokenVerifies(user: OAuthUser, tenants: Tenants, frontendUrl: Option<string>,
                            sign: Claims -> string, verify: string -> Option<Claims>)
    requires Truthy(user.email)
    requires FindTenantByEmail(user.email.value, tenants).Some?
    requires forall c :: verify(sign(c)) == Some(c)
    requires forall c :: sign(c) != "" && ' ' !in sign(c)
    ensures var r := OAuthCallback(Some(user), tenants, frontendUrl, false, sign);
      var prefix := Frontend(frontendUrl) + "/auth/callback?token=";
      var tenant := FindTenantByEmail(user.email.value, tenants).value;
      && r.stored.Some?
      && |prefix| <= |r.redirect| && r.redirect[..|prefix|] == prefix
      && VerifyToken(Some("Bearer " + r.redirect[|prefix|..]), verify)
         == Next(RequestUser(user.id, tenant.0, user.email.value))
  {
    var r := OAuthCallback(Some(user), tenants, frontendUrl, false, sign);
    var prefix := Frontend(frontendUrl) + "/auth/callback?token=";
    var tenant := FindTenantByEmail(user.email.value, tenants).value;
    var token := sign(Claims(user.id, tenant.0, user.email.value));
    assert r.redirect == prefix + token;
    assert r.redirect[|prefix|..] == token;
    BearerHeader("Bearer", token);
  }
}
