// The dispatch side of the backend: the throwaway-domain filter, the daily
// quota with its warm-up ramp, and one pass of the consumer loop.

module EmailProcessor {
  import opened JsText
  import opened QueueStore

  /** `DAILY_EMAIL_QUOTA`, `EMAIL_WARMUP_START`, `EMAIL_WARMUP_DAYS`. */
  datatype Config = Config(daily: int, warmupStart: int, warmupDays: int)

  /** The values used when the environment sets none. */
  const Defaults := Config(100, 10, 30)

  /** A send that fails is retried only while the prior retry count is below this. */
  const MaxRetries := 3

  /** Lifetime given to a freshly created daily counter, in seconds. */
  const DaySeconds := 24 * 60 * 60

  const DayMillis := 1000 * 60 * 60 * 24

  const ThrowawayDomains: seq<string> := [
    "tempmail.com",
    "throwawaymail.com",
    "temp-mail.org",
    "tempmail.net",
    "disposablemail.com"
  ]

  /** `email.split('@')[1]?.toLowerCase() || ''`, the domain the filter checks. */
  function FilterDomain(email: string): string
  {
    match SecondField(email, '@')
    case None => ""
    case Some(d) => Lower(d)
  }

  /** `isThrowawayEmail`: an address without `@` is never rejected. */
  predicate IsThrowaway(email: string)
    ensures IsThrowaway(email) ==> '@' in email
  {
    FilterDomain(email) in ThrowawayDomains
  }

  /**
   * An address is rejected exactly when it has an `@` and the text between
   * the first `@` and the next one (or the end), lower-cased, is one of the
   * listed domains.
   */
  lemma ThrowawayIff(local: string, domain: string, tail: string)
    requires '@' !in local && '@' !in domain
    requires tail == [] || tail[0] == '@'
    ensures IsThrowaway(local + "@" + domain + tail) <==> Lower(domain) in ThrowawayDomains
  {
    SecondFieldOf(local, '@', domain, tail);
  }

  /** Upper-case letters in the domain do not save a listed domain. */
  lemma ThrowawayExample(local: string)
    requires '@' !in local
    ensures IsThrowaway(local + "@TempMail.com")
  {
    var domain := "TempMail.com";
    assert local + "@TempMail.com" == local + "@" + domain + "";
    ThrowawayIff(local, domain, "");
    LowerTempMail();
    assert ThrowawayDomains[0] == Lower(domain);
  }

  lemma LowerTempMail()
    ensures Lower("TempMail.com") == "tempmail.com"
  {
    var d := "TempMail.com";
    assert Lower(d)[0] == 't' && Lower(d)[4] == 'm';
    assert forall i :: 0 <= i < |d| && i != 0 && i != 4 ==> LowerChar(d[i]) == d[i];
  }

  /** Sub-domains of a listed domain are not rejected: the match is exact. */
  lemma SubdomainExample(local: string)
    requires '@' !in local
    ensures !IsThrowaway(local + "@x.tempmail.com")
  {
    var domain := "x.tempmail.com";
    assert local + "@x.tempmail.com" == local + "@" + domain + "";
    ThrowawayIff(local, domain, "");
    UnlistedLength(Lower(domain));
  }

  /** No listed domain is 14 characters long. */
  lemma UnlistedLength(d: string)
    requires |d| == 14
    ensures d !in ThrowawayDomains
  {
    assert forall k :: 0 <= k < |ThrowawayDomains| ==> |ThrowawayDomains[k]| != 14;
  }

  function Min(a: int, b: int): int
  {
    if a <= b then a else b
  }

  /** The warm-up ceiling for a tenant created `days` days ago (floor division). */
  function WarmupQuota(cfg: Config, days: int): (r: int)
    requires cfg.warmupDays > 0
    ensures r <= cfg.daily
    ensures 0 <= days && cfg.warmupStart <= cfg.daily ==> cfg.warmupStart <= r
  {
    var k := cfg.daily - cfg.warmupStart;
    var r := Min(cfg.warmupStart + days * k / cfg.warmupDays, cfg.daily);
    assert 0 <= days && 0 <= k ==> cfg.warmupStart <= r by {
      if 0 <= days && 0 <= k {
        MulMonotone(0, days, k);
        DivMonotone(0, days * k, cfg.warmupDays);
      }
    }
    r
  }

  /** On the creation day the ceiling is the starting quota. */
  lemma WarmupAtStart(cfg: Config)
    requires cfg.warmupDays > 0 && cfg.warmupStart <= cfg.daily
    ensures WarmupQuota(cfg, 0) == cfg.warmupStart
  {
  }

  lemma DivMonotone(a: int, b: int, d: int)
    requires a <= b && d > 0
    ensures a / d <= b / d
  {
    var qa, qb := a / d, b / d;
    assert a == qa * d + a % d && b == qb * d + b % d;
    if qa > qb {
      MulMonotone(qb + 1, qa, d);
    }
  }

  lemma MulDivCancel(k: int, d: int)
    requires d > 0
    ensures k * d / d == k
  {
    var q := k * d / d;
    assert k * d == q * d + k * d % d;
    if q < k {
      MulMonotone(q + 1, k, d);
    } else if q > k {
      MulMonotone(k + 1, q, d);
    }
  }

  lemma MulMonotone(a: int, b: int, k: int)
    requires a <= b && k >= 0
    ensures a * k <= b * k
  {
    assert b * k - a * k == (b - a) * k;
  }

  /** From `warmupDays` days on, the ceiling is the full daily quota. */
  lemma WarmupAtEnd(cfg: Config, days: int)
    requires cfg.warmupDays > 0 && 0 <= cfg.warmupStart <= cfg.daily
    requires days >= cfg.warmupDays
    ensures WarmupQuota(cfg, days) == cfg.daily
  {
    var k := cfg.daily - cfg.warmupStart;
    MulMonotone(cfg.warmupDays, days, k);
    assert cfg.warmupDays * k == k * cfg.warmupDays;
    DivMonotone(k * cfg.warmupDays, days * k, cfg.warmupDays);
    MulDivCancel(k, cfg.warmupDays);
  }

  /** The ceiling never falls as the tenant ages, and stays within `[warmupStart, daily]`. */
  lemma WarmupMonotone(cfg: Config, d1: int, d2: int)
    requires cfg.warmupDays > 0 && cfg.warmupStart <= cfg.daily
    requires 0 <= d1 <= d2
    ensures cfg.warmupStart <= WarmupQuota(cfg, d1) <= WarmupQuota(cfg, d2) <= cfg.daily
  {
    var k := cfg.daily - cfg.warmupStart;
    MulMonotone(d1, d2, k);
    DivMonotone(d1 * k, d2 * k, cfg.warmupDays);
  }

  /** With the default configuration, a tenant 15 days old gets 10 + 15 * 90 / 30 = 55. */
  lemma WarmupExample()
    ensures WarmupQuota(Defaults, 15) == 55
  {
  }

  /** Whole days between creation and now, rounded down. */
  function DaysSince(nowMs: int, createdMs: int): (days: int)
    ensures days * DayMillis <= nowMs - createdMs < days * DayMillis + DayMillis
  {
    (nowMs - createdMs) / DayMillis
  }

  /** `new Date().toISOString().split('T')[0]`: the calendar date of an ISO timestamp. */
  function Today(isoNow: string): (date: string)
    ensures 'T' !in date
    ensures |date| <= |isoNow| && date == isoNow[..|date|]
    ensures |date| < |isoNow| ==> isoNow[|date|] == 'T'
  {
    Split(isoNow, 'T')[0]
  }

  /** `quota:{tenantId}:{date}`. */
  function QuotaKey(tenantId: string, date: string): string
  {
    "quota:" + tenantId + ":" + date
  }

  /** For dates without `:` (ISO dates have none) distinct tenants or dates get distinct counters. */
  lemma QuotaKeyInjective(t1: string, d1: string, t2: string, d2: string)
    requires ':' !in d1 && ':' !in d2
    requires QuotaKey(t1, d1) == QuotaKey(t2, d2)
    ensures t1 == t2 && d1 == d2
  {
    assert QuotaKey(t1, d1) == ("quota:" + t1) + [':'] + d1;
    assert QuotaKey(t2, d2) == ("quota:" + t2) + [':'] + d2;
    LastSeparator("quota:" + t1, d1, "quota:" + t2, d2, ':');
    assert t1 == ("quota:" + t1)[6..] == ("quota:" + t2)[6..] == t2;
  }

  lemma SeparatorAt(p: string, c: char, d: string)
    ensures (p + [c] + d)[|p|] == c
    ensures forall j :: |p| < j < |p| + 1 + |d| ==> (p + [c] + d)[j] == d[j - |p| - 1]
  {
  }

  /** A string splits at its last `c` in only one way. */
  lemma LastSeparator(p1: string, d1: string, p2: string, d2: string, c: char)
    requires c !in d1 && c !in d2
    requires p1 + [c] + d1 == p2 + [c] + d2
    ensures p1 == p2 && d1 == d2
  {
    var s := p1 + [c] + d1;
    var s2 := p2 + [c] + d2;
    if |d1| != |d2| {
      SeparatorAt(p1, c, d1);
      SeparatorAt(p2, c, d2);
      assert false;
    }
    assert d1 == s[|p1| + 1..] == s2[|p2| + 1..] == d2;
    assert p1 == s[..|p1|] == s2[..|p2|] == p2;
  }

  /** What the tenant directory answers for a tenant id. */
  datatype TenantLookup = NoTenant | Tenant(createdAtMs: int) | LookupError

  /** Which store calls fail during one pass of the loop (each is made at most once). */
  datatype Faults = Faults(pop: bool, get: bool, write: bool, expire: bool, incr: bool, push: bool)

  const NoFaults := Faults(false, false, false, false, false, false)

  /** `getDailyQuota` creates today's counter: none was found, the tenant was, and `set` succeeded. */
  predicate CreatesCounter(counters: map<string, int>, key: string, tenant: TenantLookup, f: Faults)
  {
    !f.get && key !in counters && tenant.Tenant? && !f.write
  }

  /** ... and `expire` succeeded too. */
  predicate SetsExpiry(counters: map<string, int>, key: string, tenant: TenantLookup, f: Faults)
  {
    CreatesCounter(counters, key, tenant, f) && !f.expire
  }

  /** The value `getDailyQuota` returns; every error is caught and gives 0. */
  function DailyQuota(cfg: Config, counters: map<string, int>, key: string, nowMs: int,
                      tenant: TenantLookup, f: Faults): (quota: int)
    requires cfg.warmupDays > 0
    ensures quota > 0 ==> !f.get
    ensures 0 <= cfg.warmupStart <= cfg.daily && (key in counters ==> counters[key] >= 0) ==> quota <= cfg.daily
  {
    if f.get then 0
    else if key in counters then cfg.daily - counters[key]
    else match tenant
      case LookupError => 0
      case NoTenant => cfg.warmupStart
      case Tenant(created) =>
        if f.write || f.expire then 0 else WarmupQuota(cfg, DaysSince(nowMs, created))
  }

  /** Any store or directory error blocks sending (fail-closed). */
  lemma QuotaFailClosed(cfg: Config, counters: map<string, int>, key: string, nowMs: int,
                        tenant: TenantLookup, f: Faults)
    requires cfg.warmupDays > 0
    requires f.get || (key !in counters && (tenant.LookupError? || (tenant.Tenant? && (f.write || f.expire))))
    ensures DailyQuota(cfg, counters, key, nowMs, tenant, f) == 0
  {
  }

  /** Once today's counter exists the quota is `daily - count`, whatever the tenant's age. */
  lemma QuotaWithCounter(cfg: Config, counters: map<string, int>, key: string, nowMs: int,
                         t1: TenantLookup, t2: TenantLookup, f: Faults)
    requires cfg.warmupDays > 0 && !f.get && key in counters
    ensures DailyQuota(cfg, counters, key, nowMs, t1, f) == cfg.daily - counters[key]
    ensures DailyQuota(cfg, counters, key, nowMs, t1, f) == DailyQuota(cfg, counters, key, nowMs, t2, f)
  {
  }

  /**
   * `getDailyQuota`. Reads today's counter; when there is none, consults the
   * tenant directory and, for a known tenant, creates the counter at 0 with
   * a 24-hour expiry and returns the warm-up ceiling.
   */
  method GetDailyQuota(q: EmailQueue, cfg: Config, tenantId: string, isoNow: string, nowMs: int,
                       tenant: TenantLookup, f: Faults) returns (quota: int)
    requires q.Valid() && cfg.warmupDays > 0
    modifies q
    ensures q.Valid()
    ensures q.list == old(q.list)
    ensures var key := QuotaKey(tenantId, Today(isoNow));
      && quota == DailyQuota(cfg, old(q.counters), key, nowMs, tenant, f)
      && q.counters == (if CreatesCounter(old(q.counters), key, tenant, f)
                        then old(q.counters)[key := 0] else old(q.counters))
      && q.ttl == (if SetsExpiry(old(q.counters), key, tenant, f)
                   then old(q.ttl)[key := DaySeconds] else old(q.ttl))
  {
    var key := QuotaKey(tenantId, Today(isoNow));
    var current := q.Get(key, f.get);
    if current.StoreError? {
      return 0;
    }
    if current.value.Some? {
      return cfg.daily - current.value.value;
    }
    match tenant {
      case LookupError =>
        return 0;
      case NoTenant =>
        return cfg.warmupStart;
      case Tenant(created) =>
        var warmup := WarmupQuota(cfg, DaysSince(nowMs, created));
        var written := q.Set(key, 0, f.write);
        if written.StoreError? {
          return 0;
        }
        var expire := q.Expire(key, DaySeconds, f.expire);
        if expire.StoreError? {
          return 0;
        }
        return warmup;
    }
  }

  /** `incrementDailyQuota`: one INCR on today's counter; a store error is logged and swallowed. */
  method IncrementDailyQuota(q: EmailQueue, tenantId: string, isoNow: string, fails: bool)
    requires q.Valid()
    modifies q
    ensures q.Valid()
    ensures q.list == old(q.list) && q.ttl == old(q.ttl)
    ensures q.counters == if fails then old(q.counters)
                          else Bumped(old(q.counters), QuotaKey(tenantId, Today(isoNow)))
  {
    var key := QuotaKey(tenantId, Today(isoNow));
    var r := q.Incr(key, fails);
  }

  /** Counters after `n` sends recorded on `key`. */
  function AfterSends(m: map<string, int>, key: string, n: nat): map<string, int>
  {
    if n == 0 then m else Bumped(AfterSends(m, key, n - 1), key)
  }

  lemma {:induction false} AfterSendsCount(m: map<string, int>, key: string, n: nat)
    requires key in m
    ensures key in AfterSends(m, key, n) && AfterSends(m, key, n)[key] == m[key] + n
  {
    if n > 0 {
      AfterSendsCount(m, key, n - 1);
    }
  }

  /**
   * As written, the warm-up ceiling holds only for the first read of a day:
   * that read creates the counter at 0, and every later read that day sees a
   * counter and returns `daily - sends`, whatever the tenant's age.
   */
  lemma WarmupAppliesOnlyToFirstRead(cfg: Config, counters: map<string, int>, key: string,
                                     nowMs: int, created: int, n: nat)
    requires cfg.warmupDays > 0 && key !in counters
    ensures DailyQuota(cfg, counters, key, nowMs, Tenant(created), NoFaults)
            == WarmupQuota(cfg, DaysSince(nowMs, created))
    ensures CreatesCounter(counters, key, Tenant(created), NoFaults)
    ensures DailyQuota(cfg, AfterSends(counters[key := 0], key, n), key, nowMs, Tenant(created), NoFaults)
            == cfg.daily - n
  {
    AfterSendsCount(counters[key := 0], key, n);
  }

  /** The outcome of a requeue attempt. */
  datatype Requeue = NotRequeued | Requeued | RequeueFailed

  /** What one pass of the consumer loop did. */
  datatype Step =
    | Idle                                           // queue empty: sleep, poll again
    | FetchFailed                                    // getNextEmail threw; the loop logs it
    | Rejected(event: EmailEvent)                    // throwaway recipient: dropped
    | Throttled(event: EmailEvent, requeue: Requeue) // quota <= 0: requeued, nothing sent
    | Sent(event: EmailEvent)                        // gateway accepted it
    | SendFailed(event: EmailEvent, requeue: Requeue)

  /** Whether the pass called the mail gateway. */
  predicate CalledGateway(s: Step)
  {
    s.Sent? || s.SendFailed?
  }

  /** Whether a failed send is retried: only while the prior count is below the limit. */
  predicate RetryAfterFailure(e: EmailEvent)
  {
    Retries(e) < MaxRetries
  }

  /**
   * One pass of `processEmailQueue`. The tenant directory, the gateway's
   * answer, the clock and which store calls fail are inputs.
   */
  method ProcessOnce(q: EmailQueue, cfg: Config, isoNow: string, nowMs: int,
                     directory: string -> TenantLookup, sendOk: bool, f: Faults)
    returns (step: Step)
    requires q.Valid() && cfg.warmupDays > 0
    modifies q
    ensures q.Valid()
    // fetch
    ensures f.pop ==> step == FetchFailed && unchanged(q)
    ensures !f.pop && old(q.list) == [] ==> step == Idle && unchanged(q)
    ensures !f.pop && old(q.list) != [] ==> !step.Idle? && !step.FetchFailed? && step.event == old(q.Pending())[0]
    // filter: dropped before any quota read, send or requeue
    ensures step.Rejected? <==> !f.pop && old(q.list) != [] && IsThrowaway(old(q.Pending())[0].toAddress)
    ensures step.Rejected? ==>
      q.Pending() == old(q.Pending())[1..] && q.counters == old(q.counters) && q.ttl == old(q.ttl)
    // quota check, send and requeue
    ensures !f.pop && old(q.list) != [] && !step.Rejected? ==>
      var e := old(q.Pending())[0];
      var key := QuotaKey(e.tenantId, Today(isoNow));
      var tenant := directory(e.tenantId);
      var quota := DailyQuota(cfg, old(q.counters), key, nowMs, tenant, f);
      var counters := if CreatesCounter(old(q.counters), key, tenant, f)
                      then old(q.counters)[key := 0] else old(q.counters);
      var ttl := if SetsExpiry(old(q.counters), key, tenant, f)
                 then old(q.ttl)[key := DaySeconds] else old(q.ttl);
      var requeue := if f.push then RequeueFailed else Requeued;
      && step == (if quota <= 0 then Throttled(e, requeue)
                  else if sendOk then Sent(e)
                  else if RetryAfterFailure(e) then SendFailed(e, requeue)
                  else SendFailed(e, NotRequeued))
      && q.Pending() == (if (step.Throttled? || step.SendFailed?) && step.requeue == Requeued
                         then old(q.Pending())[1..] + [ForRequeue(e, nowMs)]
                         else old(q.Pending())[1..])
      && q.counters == (if step.Sent? && !f.incr then Bumped(counters, key) else counters)
      && q.ttl == ttl
      && (CalledGateway(step) <==> quota > 0)
  {
    var fetched := q.GetNextEmail(f.pop);
    if fetched.StoreError? {
      return FetchFailed;
    }
    if fetched.value.None? {
      return Idle;
    }
    var e := fetched.value.value;
    if IsThrowaway(e.toAddress) {
      return Rejected(e);
    }
    ghost var rest := q.Pending();
    var quota := GetDailyQuota(q, cfg, e.tenantId, isoNow, nowMs, directory(e.tenantId), f);
    if quota <= 0 {
      var r := q.RequeueEmail(e, nowMs, f.push);
      ReversedPush(ForRequeue(e, nowMs), old(q.list)[..|old(q.list)| - 1]);
      return Throttled(e, if r.StoreError? then RequeueFailed else Requeued);
    }
    if sendOk {
      IncrementDailyQuota(q, e.tenantId, isoNow, f.incr);
      return Sent(e);
    }
    if RetryAfterFailure(e) {
      var r := q.RequeueEmail(e, nowMs, f.push);
      ReversedPush(ForRequeue(e, nowMs), old(q.list)[..|old(q.list)| - 1]);
      return SendFailed(e, if r.StoreError? then RequeueFailed else Requeued);
    }
    return SendFailed(e, NotRequeued);
  }

  /**
   * The event after failing to send `n` times in a row, each failure handled
   * as `ProcessOnce` handles it; `None` once it has been dropped.
   */
  function AfterFailures(e: EmailEvent, n: nat, now: int): Option<EmailEvent>
    decreases n
  {
    if n == 0 then Some(e)
    else if RetryAfterFailure(e) then AfterFailures(ForRequeue(e, now), n - 1, now)
    else None
  }

  lemma {:induction false} AfterFailuresFrom(e: EmailEvent, n: nat, now: int)
    requires 0 <= Retries(e) <= MaxRetries
    ensures var r := AfterFailures(e, n, now);
      && (r.Some? <==> Retries(e) + n <= MaxRetries)
      && (r.Some? ==> Retries(r.value) == Retries(e) + n && SamePayload(r.value, e))
    decreases n
  {
    if n > 0 && RetryAfterFailure(e) {
      AfterFailuresFrom(ForRequeue(e, now), n - 1, now);
    }
  }

  /**
   * A fresh event survives three failed sends (requeued with counts 1, 2
   * and 3) and is dropped on the fourth: four gateway attempts in all.
   */
  lemma FreshEventFailureBudget(e: EmailEvent, n: nat, now: int)
    requires Retries(e) == 0
    ensures AfterFailures(e, n, now).Some? <==> n <= MaxRetries
    ensures n <= MaxRetries ==> Retries(AfterFailures(e, n, now).value) == n
  {
    AfterFailuresFrom(e, n, now);
  }

  /** The event after `k` passes that each found the quota used up and requeued it. */
  function AfterThrottles(e: EmailEvent, k: nat, now: int): EmailEvent
  {
    if k == 0 then e else ForRequeue(AfterThrottles(e, k - 1, now), now)
  }

  /** The quota path has no cap: after `k` throttled passes the count is `k` higher, whatever it was. */
  lemma {:induction false} ThrottlesNeverDrop(e: EmailEvent, k: nat, now: int)
    ensures Retries(AfterThrottles(e, k, now)) == Retries(e) + k
    ensures SamePayload(AfterThrottles(e, k, now), e)
  {
    if k > 0 {
      ThrottlesNeverDrop(e, k - 1, now);
    }
  }

  /**
   * Throttled passes and failed sends share one budget: each throttle adds 1
   * to the same count the failure path tests, so a fresh event throttled `k`
   * times survives `n >= 1` further failed sends only while `k + n <= 3`.
   * In particular an event throttled three times is dropped on its first
   * failed send.
   */
  lemma ThrottlesConsumeBudget(e: EmailEvent, k: nat, n: nat, now: int)
    requires Retries(e) == 0 && n >= 1
    ensures AfterFailures(AfterThrottles(e, k, now), n, now).Some? <==> k + n <= MaxRetries
  {
    var t := AfterThrottles(e, k, now);
    ThrottlesNeverDrop(e, k, now);
    if k <= MaxRetries {
      AfterFailuresFrom(t, n, now);
    } else {
      assert !RetryAfterFailure(t);
    }
  }
}
