/**
 * `RedisRateLimitingService`: two fixed-window counters per request, one per
 * user and one per user and template. Each check increments first and
 * decides afterwards; the window's time-to-live is set only by the increment
 * that creates the counter. Redis is a map from key to count plus the TTL
 * each key was given; `Expire` stands for the key timing out.
 */
module RateLimiting {
  import opened Common

  /** `RateLimitConfig`; the defaults are 5 per minute per user and 2 per 5 minutes per user and template. */
  datatype RateLimitConfig = RateLimitConfig(
    userMaxRequests: int,
    userTimeWindowMinutes: int,
    templateMaxRequests: int,
    templateTimeWindowMinutes: int)

  const DefaultConfig := RateLimitConfig(5, 1, 2, 5)

  /** `RateLimitExceededException` and its fields. */
  datatype RateLimitExceeded = RateLimitExceeded(
    message: string,
    userId: Option<string>,
    templateId: Option<string>,
    currentCount: int,
    maxAllowed: int)

  datatype Decision = Allowed | Denied(error: RateLimitExceeded)

  const UserRateKeyPrefix := "rate:user:"
  const TemplateRateKeyPrefix := "rate:template:"

  function UserRateKey(userId: string): string {
    UserRateKeyPrefix + userId
  }

  function TemplateRateKey(userId: string, templateId: string): string {
    TemplateRateKeyPrefix + userId + ":" + templateId
  }

  /** The per-user and per-template scopes never share a Redis key. */
  lemma ScopesNeverShareAKey(u: string, u': string, t: string)
    ensures UserRateKey(u) != TemplateRateKey(u', t)
  {
    assert UserRateKey(u)[5] == 'u';
    assert TemplateRateKey(u', t)[5] == 't';
  }

  /** Distinct users get distinct per-user counters. */
  lemma {:induction false} UserKeysInjective(u: string, u': string)
    requires u != u'
    ensures UserRateKey(u) != UserRateKey(u')
  {
    var p := UserRateKeyPrefix;
    if UserRateKey(u) == UserRateKey(u') {
      assert |u| == |u'|;
      forall i | 0 <= i < |u| ensures u[i] == u'[i] {
        assert UserRateKey(u)[|p| + i] == u[i];
        assert UserRateKey(u')[|p| + i] == u'[i];
      }
      assert false;
    }
  }

  /** `Long.intValue()`: the low 32 bits, read as a signed int. */
  function IntValue(x: int): (r: int)
    ensures -0x8000_0000 <= r < 0x8000_0000
    ensures -0x8000_0000 <= x < 0x8000_0000 ==> r == x
  {
    var m := x % 0x1_0000_0000;
    if m >= 0x8000_0000 then m - 0x1_0000_0000 else m
  }

  /** The value Redis INCR returns: one more than the stored count, starting from an absent key at 0. */
  function Incremented(counters: map<string, nat>, key: string): (c: nat)
    ensures c >= 1
    ensures key !in counters ==> c == 1
    ensures key in counters ==> c == counters[key] + 1
  {
    (if key in counters then counters[key] else 0) + 1
  }

  /** The decision of `checkUserRateLimit` once INCR has returned `count`. */
  function UserDecision(config: RateLimitConfig, userId: string, count: nat): (d: Decision)
    ensures d.Denied? <==> count > config.userMaxRequests
    ensures d.Denied? ==> (d.error.userId == Some(userId) && d.error.templateId.None?
      && d.error.currentCount == IntValue(count) && d.error.maxAllowed == config.userMaxRequests
      && "User rate limit exceeded. Maximum " <= d.error.message)
  {
    if count > config.userMaxRequests then
      Denied(RateLimitExceeded(
        "User rate limit exceeded. Maximum "
          + (IntToString(config.userMaxRequests) + " notifications allowed per "
             + IntToString(config.userTimeWindowMinutes) + " minutes"),
        Some(userId), None, IntValue(count), config.userMaxRequests))
    else Allowed
  }

  /** The decision of `checkTemplateRateLimit` once INCR has returned `count`. */
  function TemplateDecision(config: RateLimitConfig, userId: string, templateId: string, count: nat): (d: Decision)
    ensures d.Denied? <==> count > config.templateMaxRequests
    ensures d.Denied? ==> (d.error.userId == Some(userId) && d.error.templateId == Some(templateId)
      && d.error.currentCount == IntValue(count) && d.error.maxAllowed == config.templateMaxRequests
      && "Template rate limit exceeded. Maximum " <= d.error.message)
  {
    if count > config.templateMaxRequests then
      Denied(RateLimitExceeded(
        "Template rate limit exceeded. Maximum "
          + (IntToString(config.templateMaxRequests) + " '" + templateId + "' notifications allowed per "
             + IntToString(config.templateTimeWindowMinutes) + " minutes"),
        Some(userId), Some(templateId), IntValue(count), config.templateMaxRequests))
    else Allowed
  }

  /** The counters after one INCR of `key`. */
  function Hit(counters: map<string, nat>, key: string): (r: map<string, nat>)
    ensures r.Keys == counters.Keys + {key}
    ensures key in counters ==> r[key] == counters[key] + 1
    ensures key !in counters ==> r[key] == 1
    ensures forall k :: k in counters && k != key ==> r[k] == counters[k]
  {
    counters[key := Incremented(counters, key)]
  }

  /** The TTLs after one checked INCR of `key`: EXPIRE runs only when INCR returned 1. */
  function ExpiryAfterHit(expiry: map<string, int>, counters: map<string, nat>, key: string, window: int)
    : (r: map<string, int>)
    ensures key !in counters ==> r == expiry[key := window]
    ensures key in counters && counters[key] > 0 ==> r == expiry
  {
    if Incremented(counters, key) == 1 then expiry[key := window] else expiry
  }

  /** The counters after `n` increments of `key`. */
  function Hits(counters: map<string, nat>, key: string, n: nat): map<string, nat> {
    if n == 0 then counters else Hit(Hits(counters, key, n - 1), key)
  }

  /** `n` increments of a counter leave it `n` higher and no other counter touched. */
  lemma {:induction false} HitsCount(counters: map<string, nat>, key: string, n: nat)
    ensures key in Hits(counters, key, n) || n == 0
    ensures Incremented(Hits(counters, key, n), key) == Incremented(counters, key) + n
    ensures forall k :: k != key ==> (k in Hits(counters, key, n) <==> k in counters)
    ensures forall k :: k != key && k in counters ==> Hits(counters, key, n)[k] == counters[k]
  {
    if n > 0 {
      HitsCount(counters, key, n - 1);
    }
  }

  /**
   * In a fresh window (the counter absent) with cap N, the calls numbered
   * 1..N are allowed and call N+1 is denied reporting count N+1 and maximum N.
   */
  lemma FreshWindowAdmitsExactlyTheCap(config: RateLimitConfig, counters: map<string, nat>, userId: string, n: nat)
    requires UserRateKey(userId) !in counters
    ensures var count := Incremented(Hits(counters, UserRateKey(userId), n), UserRateKey(userId));
      count == n + 1
      && (UserDecision(config, userId, count).Allowed? <==> n + 1 <= config.userMaxRequests)
  {
    HitsCount(counters, UserRateKey(userId), n);
  }

  /** The same for the per-template scope. */
  lemma FreshTemplateWindowAdmitsExactlyTheCap(config: RateLimitConfig, counters: map<string, nat>,
                                               userId: string, templateId: string, n: nat)
    requires TemplateRateKey(userId, templateId) !in counters
    ensures var count := Incremented(Hits(counters, TemplateRateKey(userId, templateId), n), TemplateRateKey(userId, templateId));
      count == n + 1
      && (TemplateDecision(config, userId, templateId, count).Allowed? <==> n + 1 <= config.templateMaxRequests)
  {
    HitsCount(counters, TemplateRateKey(userId, templateId), n);
  }

  /** With the default caps, the sixth request of a user in one window is denied with count 6 and maximum 5. */
  lemma SixthUserRequestDenied(counters: map<string, nat>, userId: string)
    requires UserRateKey(userId) !in counters
    ensures var count := Incremented(Hits(counters, UserRateKey(userId), 5), UserRateKey(userId));
      var d := UserDecision(DefaultConfig, userId, count);
      d.Denied? && d.error.currentCount == 6 && d.error.maxAllowed == 5
  {
    HitsCount(counters, UserRateKey(userId), 5);
  }

  class RedisRateLimitingService {
    const config: RateLimitConfig
    var counters: map<string, nat>
    var expiry: map<string, int>

    constructor (config: RateLimitConfig)
      ensures this.config == config && counters == map[] && expiry == map[]
    {
      this.config := config;
      counters := map[];
      expiry := map[];
    }

    /**
     * `checkUserRateLimit`: INCR the user's counter, set the window's TTL
     * when this INCR created it, then deny iff the new count exceeds the cap.
     * A denied request has still used up one count.
     */
    method CheckUserRateLimit(userId: string) returns (d: Decision)
      modifies this
      ensures var key := UserRateKey(userId);
        var count := Incremented(old(counters), key);
        counters == Hit(old(counters), key)
        && expiry == ExpiryAfterHit(old(expiry), old(counters), key, config.userTimeWindowMinutes)
        && d == UserDecision(config, userId, count)
    {
      var key := UserRateKey(userId);
      var count := Incremented(counters, key);
      counters := counters[key := count];
      if count == 1 {
        expiry := expiry[key := config.userTimeWindowMinutes];
      }
      d := UserDecision(config, userId, count);
    }

    /** `checkTemplateRateLimit`: the same for the user-and-template counter. */
    method CheckTemplateRateLimit(userId: string, templateId: string) returns (d: Decision)
      modifies this
      ensures var key := TemplateRateKey(userId, templateId);
        var count := Incremented(old(counters), key);
        counters == Hit(old(counters), key)
        && expiry == ExpiryAfterHit(old(expiry), old(counters), key, config.templateTimeWindowMinutes)
        && d == TemplateDecision(config, userId, templateId, count)
    {
      var key := TemplateRateKey(userId, templateId);
      var count := Incremented(counters, key);
      counters := counters[key := count];
      if count == 1 {
        expiry := expiry[key := config.templateTimeWindowMinutes];
      }
      d := TemplateDecision(config, userId, templateId, count);
    }

    /** `recordUserNotificationAttempt`: a no-op since counting moved into the check. */
    method RecordUserNotificationAttempt(userId: string)
      ensures counters == old(counters) && expiry == old(expiry)
    {
    }

    /** `recordTemplateNotificationAttempt`: a no-op as well. */
    method RecordTemplateNotificationAttempt(userId: string, templateId: string)
      ensures counters == old(counters) && expiry == old(expiry)
    {
    }

    /** The key's TTL runs out: Redis drops the counter, so the next INCR starts a new window at 1. */
    method Expire(key: string)
      modifies this
      ensures counters == old(counters) - {key} && expiry == old(expiry) - {key}
      ensures Incremented(counters, key) == 1
    {
      counters := counters - {key};
      expiry := expiry - {key};
    }
  }

  /** A later INCR of a counter that already holds a count never changes its TTL. */
  lemma LaterHitsKeepTheTtl(expiry: map<string, int>, counters: map<string, nat>, key: string, window: int)
    requires key in counters && counters[key] >= 1
    ensures ExpiryAfterHit(expiry, counters, key, window) == expiry
  {
  }
}
