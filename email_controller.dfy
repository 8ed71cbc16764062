// The decision logic of the email routes: the token middleware, the event
// that `/send` queues, and the `/quota` report. The user database and the
// Redis read are inputs.

module EmailController {
  import opened JsText
  import opened QueueStore
  import AuthController
  import EmailProcessor

  /** A user record as the database returns it; `tenantId` and `userId` may be unset. */
  datatype User = User(id: string, email: string, tenantId: Option<string>, userId: Option<string>)

  /** What `User.findById` gives: the user, nothing, or an error. */
  datatype UserLookup = Found(user: User) | NotFound | LookupFailed

  /**
   * `verifyToken` of the email routes: the same header checks as the auth
   * routes, and only the token's `id` is attached to the request.
   */
  function VerifyToken(header: Option<string>, verify: string -> Option<AuthController.Claims>)
    : (g: AuthController.Gate<string>)
    ensures g.Reject? ==> g.status == 401
    ensures g.Reject? ==> AuthController.VerifyToken(header, verify) == AuthController.Reject(g.status, g.error)
    ensures !Truthy(header) ==> g == AuthController.Reject(401, "No token provided")
    ensures AuthController.CheckHeader(header) == AuthController.BadFormat ==>
      g == AuthController.Reject(401, "Invalid token format")
    ensures g.Next? <==> AuthController.VerifyToken(header, verify).Next?
    ensures g.Next? ==> g.user == AuthController.VerifyToken(header, verify).user.id
  {
    match AuthController.CheckHeader(header)
    case NoToken => AuthController.Reject(401, "No token provided")
    case BadFormat => AuthController.Reject(401, "Invalid token format")
    case Bearer(token) =>
      match verify(token)
      case None => AuthController.Reject(401, "Invalid token")
      case Some(claims) => AuthController.Next(claims.id)
  }

  /** The event `/send` builds: `tenantId ?? "tenant"`, `userId ?? "user"`, sender = the user's email. */
  function SendEvent(user: User, toAddress: string, subject: string, body: string): EmailEvent
  {
    EmailEvent(toAddress, user.tenantId.GetOr("tenant"), user.userId.GetOr("user"),
               subject, user.email, body, None, None)
  }

  datatype SendReply = Queued | UserNotFound | SendServerError

  function SendStatus(r: SendReply): int
  {
    match r
    case Queued => 200
    case UserNotFound => 404
    case SendServerError => 500
  }

  /**
   * `POST /send` after the middleware: looks the user up and queues the
   * event; an unknown user gets 404, any thrown error 500.
   */
  method PostSend(q: EmailQueue, lookup: UserLookup, toAddress: string, subject: string, body: string,
                  now: int, storeFails: bool) returns (reply: SendReply)
    requires q.Valid()
    modifies q
    ensures q.Valid()
    ensures SendStatus(reply) == 404 <==> lookup.NotFound?
    ensures SendStatus(reply) == 500 <==> lookup.LookupFailed? || (lookup.Found? && storeFails)
    ensures lookup.NotFound? ==> reply == UserNotFound && unchanged(q)
    ensures lookup.LookupFailed? ==> reply == SendServerError && unchanged(q)
    ensures lookup.Found? && storeFails ==> reply == SendServerError && unchanged(q)
    ensures lookup.Found? && !storeFails ==>
      && reply == Queued
      && q.counters == old(q.counters) && q.ttl == old(q.ttl)
      && |q.Pending()| > 0
      && q.Pending() == old(q.Pending()) + [q.Pending()[|q.Pending()| - 1]]
      && var stored := q.Pending()[|q.Pending()| - 1];
      && var user := lookup.user;
      && stored.fromAddress == user.email
      && stored.tenantId == (if user.tenantId.Some? then user.tenantId.value else "tenant")
      && stored.userId == (if user.userId.Some? then user.userId.value else "user")
      && stored.toAddress == toAddress && stored.subject == subject && stored.body == body
      && stored.retryCount == Some(0) && stored.timestamp == Some(now)
  {
    match lookup {
      case NotFound =>
        return UserNotFound;
      case LookupFailed =>
        return SendServerError;
      case Found(user) =>
        var r := q.AddToQueue(SendEvent(user, toAddress, subject, body), now, storeFails);
        reply := if r.StoreError? then SendServerError else Queued;
    }
  }

  datatype QuotaReply =
    | QuotaStatus(dailyQuota: int, remainingQuota: int, usedQuota: int)
    | QuotaUserNotFound
    | NotConfigured
    | QuotaServerError

  function QuotaReplyStatus(r: QuotaReply): int
  {
    match r
    case QuotaStatus(_, _, _) => 200
    case QuotaUserNotFound => 404
    case NotConfigured => 400
    case QuotaServerError => 500
  }

  /**
   * `GET /quota` after the middleware. `counters` is the store's contents
   * (the read fails when `readFails`), `dailyQuota` the configured quota.
   */
  function GetQuota(lookup: UserLookup, counters: map<string, int>, readFails: bool,
                    isoNow: string, dailyQuota: int): (r: QuotaReply)
    ensures QuotaReplyStatus(r) == 404 <==> lookup.NotFound?
    ensures QuotaReplyStatus(r) == 400 <==> lookup.Found? && !Truthy(lookup.user.tenantId)
    ensures QuotaReplyStatus(r) == 500 <==>
      lookup.LookupFailed? || (lookup.Found? && Truthy(lookup.user.tenantId) && readFails)
    ensures lookup.NotFound? <==> r == QuotaUserNotFound
    ensures r == NotConfigured <==> lookup.Found? && !Truthy(lookup.user.tenantId)
    ensures r.QuotaStatus? <==> lookup.Found? && Truthy(lookup.user.tenantId) && !readFails
    ensures r.QuotaStatus? ==> r.usedQuota + r.remainingQuota == r.dailyQuota == dailyQuota
    ensures r.QuotaStatus? ==>
      var key := EmailProcessor.QuotaKey(lookup.user.tenantId.value, EmailProcessor.Today(isoNow));
      r.usedQuota == CountOf(counters, key)
  {
    match lookup
    case NotFound => QuotaUserNotFound
    case LookupFailed => QuotaServerError
    case Found(user) =>
      if !Truthy(user.tenantId) then NotConfigured
      else if readFails then QuotaServerError
      else
        var key := EmailProcessor.QuotaKey(user.tenantId.value, EmailProcessor.Today(isoNow));
        var remaining := if key in counters then dailyQuota - counters[key] else dailyQuota;
        QuotaStatus(dailyQuota, remaining, dailyQuota - remaining)
  }

  /**
   * Once today's counter exists, `/quota` reports the same remaining quota
   * as the dispatcher computes. Before it exists, `/quota` reports the full
   * daily quota while the dispatcher may grant only the warm-up ceiling.
   */
  lemma QuotaRouteAgreesWithDispatcher(user: User, counters: map<string, int>, isoNow: string,
                                       cfg: EmailProcessor.Config, nowMs: int,
                                       tenant: EmailProcessor.TenantLookup)
    requires Truthy(user.tenantId) && cfg.warmupDays > 0
    ensures var key := EmailProcessor.QuotaKey(user.tenantId.value, EmailProcessor.Today(isoNow));
      var r := GetQuota(Found(user), counters, false, isoNow, cfg.daily);
      && r.QuotaStatus?
      && (key in counters ==>
            r.remainingQuota == EmailProcessor.DailyQuota(cfg, counters, key, nowMs, tenant, EmailProcessor.NoFaults))
      && (key !in counters ==> r.remainingQuota == cfg.daily)
  {
  }

  /**
   * `??` defaults only a missing id. A user whose `tenantId` is the empty
   * string gets mail queued under the empty tenant, while `/quota` answers
   * 400 for that same user, as it tests the id with `!`.
   */
  lemma EmptyTenantQueuedButNotReported(user: User, toAddress: string, subject: string, body: string,
                                        counters: map<string, int>, readFails: bool, isoNow: string,
                                        dailyQuota: int)
    requires user.tenantId == Some("")
    ensures SendEvent(user, toAddress, subject, body).tenantId == ""
    ensures GetQuota(Found(user), counters, readFails, isoNow, dailyQuota) == NotConfigured
  {
  }
}
