/**
 * `NotificationServiceImpl.processNotification`, the admission path: fill in
 * a missing idempotency key, answer a duplicate with the stored record,
 * check the per-user and then the per-template rate limit, and only then
 * save a PENDING record and hand it to the producer. The whole call runs in
 * one transaction, so the publish is registered for after the commit.
 * The random UUID, the generated row id and the clock are parameters.
 */
module Admission {
  import opened Common
  import opened Repository
  import opened RateLimiting
  import opened KafkaProducer

  /** `NotificationRequestDTO`; `notificationType` and `templateParams` may be null on the wire. */
  datatype NotificationRequest = NotificationRequest(
    userId: string,
    notificationType: Option<NotificationType>,
    templateId: string,
    templateParams: Option<map<string, Value>>,
    priority: Priority,
    correlationId: Option<string>,
    idempotencyKey: Option<string>)

  /** `NotificationResponseDTO`; the fields a builder leaves unset are `None`. */
  datatype NotificationResponse = NotificationResponse(
    id: Option<string>,
    userId: Option<string>,
    notificationType: Option<NotificationType>,
    status: Option<Status>,
    createdAt: Option<int>,
    success: bool,
    message: string)

  const DuplicateMessage := "Duplicate request"
  const QueuedMessage := "Notification queued successfully"

  /** `generateIdempotencyKey`: type and template lower-cased, user, correlation id, and the UUID's first 8 characters. */
  function GeneratedKey(t: NotificationType, req: NotificationRequest, uuid: string): (key: string)
    requires |uuid| >= 8
    ensures LowerAscii(TypeName(t)) + "-" <= key
    ensures |key| > 8 && key[|key| - 9..] == "-" + uuid[..8]
  {
    LowerAscii(TypeName(t)) + "-" + LowerAscii(req.templateId) + "-" + req.userId + "-"
      + OrNull(req.correlationId) + "-" + uuid[..8]
  }

  /** Two keys generated for the same request differ exactly when their UUID prefixes do. */
  lemma GeneratedKeysDifferBySuffix(t: NotificationType, req: NotificationRequest, uuid: string, uuid': string)
    requires |uuid| >= 8 && |uuid'| >= 8
    ensures GeneratedKey(t, req, uuid) == GeneratedKey(t, req, uuid') <==> uuid[..8] == uuid'[..8]
  {
    var p := LowerAscii(TypeName(t)) + "-" + LowerAscii(req.templateId) + "-" + req.userId + "-"
      + OrNull(req.correlationId) + "-";
    if GeneratedKey(t, req, uuid) == GeneratedKey(t, req, uuid') {
      assert GeneratedKey(t, req, uuid)[|p|..] == uuid[..8];
      assert GeneratedKey(t, req, uuid')[|p|..] == uuid'[..8];
    }
  }

  /** The key the request carries after line 50-54: a null or empty key is replaced, any other kept. */
  function EffectiveKey(t: NotificationType, req: NotificationRequest, uuid: string): (key: string)
    requires |uuid| >= 8
    ensures req.idempotencyKey.Some? && req.idempotencyKey.value != "" ==> key == req.idempotencyKey.value
    ensures req.idempotencyKey.None? || req.idempotencyKey.value == "" ==> key == GeneratedKey(t, req, uuid)
    ensures key != ""
  {
    if req.idempotencyKey.None? || req.idempotencyKey.value == "" then GeneratedKey(t, req, uuid)
    else req.idempotencyKey.value
  }

  /** `convertToEntity`: a new PENDING record with no attempts, copying the request and stamping both times. */
  function ConvertToEntity(t: NotificationType, req: NotificationRequest, key: string, now: int): (n: Notification)
    ensures n.id.None? && n.version.None? && n.status == Pending && n.deliveryAttempts == 0
    ensures n.userId == req.userId && n.notificationType == t && n.templateId == req.templateId
    ensures n.priority == req.priority && n.correlationId == req.correlationId
    ensures n.idempotencyKey == Some(key)
    ensures n.templateParams == Some(if req.templateParams.None? then map[] else req.templateParams.value)
    ensures n.createdAt == Some(now) && n.updatedAt == Some(now)
    ensures n.lastAttemptedAt.None? && n.errorMessage.None?
  {
    Notification(None, req.userId, t, req.templateId,
      Some(if req.templateParams.None? then map[] else req.templateParams.value),
      req.priority, req.correlationId, Pending, Some(now), Some(now), None, 0, None, Some(key), None)
  }

  /** `buildResponseDTO`: the record's id, user, type, status and creation time, success, and the message. */
  function BuildResponse(n: Notification, message: string): (r: NotificationResponse)
    ensures r.success && r.message == message
    ensures r.id == n.id && r.userId == Some(n.userId) && r.notificationType == Some(n.notificationType)
    ensures r.status == Some(n.status) && r.createdAt == n.createdAt
  {
    NotificationResponse(n.id, Some(n.userId), Some(n.notificationType), Some(n.status), n.createdAt, true, message)
  }

  /** The response to a rate-limited request: not a success, the exception's message, nothing else set. */
  function RateLimitedResponse(message: string): (r: NotificationResponse)
    ensures !r.success && r.message == message
    ensures r.id.None? && r.userId.None? && r.notificationType.None? && r.status.None? && r.createdAt.None?
  {
    NotificationResponse(None, None, None, None, None, false, message)
  }

  /** Which way a request goes. */
  datatype Verdict = Duplicate | UserLimited(error: RateLimitExceeded) | TemplateLimited(error: RateLimitExceeded) | Admitted

  /**
   * The admission decision on the state before the call: a key already
   * stored wins; otherwise the user check, and only if it passes the template
   * check, each on its counter as the earlier increments left it.
   */
  function Decide(rows: Rows, counters: map<string, nat>, config: RateLimitConfig, req: NotificationRequest, key: string)
    : (v: Verdict)
    ensures v == Duplicate <==> HoldersOf(rows, key) != {}
    ensures var userCount := Incremented(counters, UserRateKey(req.userId));
      (v.UserLimited? <==> HoldersOf(rows, key) == {} && userCount > config.userMaxRequests)
      && (v.UserLimited? ==> v.error == UserDecision(config, req.userId, userCount).error)
    ensures var userCount := Incremented(counters, UserRateKey(req.userId));
      var templateCount := Incremented(Hit(counters, UserRateKey(req.userId)), TemplateRateKey(req.userId, req.templateId));
      (v.TemplateLimited? <==> HoldersOf(rows, key) == {} && userCount <= config.userMaxRequests
                               && templateCount > config.templateMaxRequests)
      && (v.TemplateLimited? ==> v.error == TemplateDecision(config, req.userId, req.templateId, templateCount).error)
      && (v.Admitted? <==> HoldersOf(rows, key) == {} && userCount <= config.userMaxRequests
                           && templateCount <= config.templateMaxRequests)
  {
    if HoldersOf(rows, key) != {} then Duplicate
    else
      var userKey := UserRateKey(req.userId);
      match UserDecision(config, req.userId, Incremented(counters, userKey))
      case Denied(e) => UserLimited(e)
      case Allowed =>
        var afterUser := Hit(counters, userKey);
        match TemplateDecision(config, req.userId, req.templateId,
                               Incremented(afterUser, TemplateRateKey(req.userId, req.templateId)))
        case Denied(e) => TemplateLimited(e)
        case Allowed => Admitted
  }

  /**
   * Resubmitting an admitted request under the same key is answered as a
   * duplicate of the saved record, whatever the counters say by then.
   */
  lemma ResubmissionIsDuplicate(rows: Rows, counters: map<string, nat>, counters': map<string, nat>,
                                config: RateLimitConfig, req: NotificationRequest, key: string,
                                freshId: string, saved: Notification)
    requires Decide(rows, counters, config, req, key) == Admitted
    requires saved.idempotencyKey == Some(key)
    ensures Decide(rows[freshId := saved], counters', config, req, key) == Duplicate
    ensures freshId in HoldersOf(rows[freshId := saved], key)
  {
  }

  /** A duplicate is recognised before either rate limit is consulted, so it never uses up a slot. */
  lemma DuplicateIgnoresCounters(rows: Rows, counters: map<string, nat>, counters': map<string, nat>,
                                 config: RateLimitConfig, config': RateLimitConfig, req: NotificationRequest, key: string)
    requires Decide(rows, counters, config, req, key) == Duplicate
    ensures Decide(rows, counters', config', req, key) == Duplicate
  {
  }

  class NotificationServiceImpl {
    const store: NotificationStore
    const rateLimiter: RedisRateLimitingService
    const producer: KafkaProducerService

    constructor (store: NotificationStore, rateLimiter: RedisRateLimitingService, producer: KafkaProducerService)
      ensures this.store == store && this.rateLimiter == rateLimiter && this.producer == producer
    {
      this.store := store;
      this.rateLimiter := rateLimiter;
      this.producer := producer;
    }

    /**
     * `processNotification`. `uuid` is the random UUID text for a generated
     * key, `freshId` the id the table assigns, `now` the clock, and
     * `registerOk` whether registering the after-commit send succeeds. Also
     * returns the request with its key filled in, as the DTO is updated in
     * place.
     */
    method ProcessNotification(req: NotificationRequest, uuid: string, freshId: string, now: int, registerOk: bool)
      returns (response: NotificationResponse, keyed: NotificationRequest)
      requires req.notificationType.Some? && |uuid| >= 8
      requires store.Valid() && freshId !in store.rows
      modifies store, rateLimiter, producer
      ensures store.Valid()
      ensures var t := req.notificationType.value;
        var key := EffectiveKey(t, req, uuid);
        var userKey := UserRateKey(req.userId);
        var templateKey := TemplateRateKey(req.userId, req.templateId);
        var v := Decide(old(store.rows), old(rateLimiter.counters), rateLimiter.config, req, key);
        var userExpiry := ExpiryAfterHit(old(rateLimiter.expiry), old(rateLimiter.counters), userKey,
                                         rateLimiter.config.userTimeWindowMinutes);
        var bothExpiry := ExpiryAfterHit(userExpiry, Hit(old(rateLimiter.counters), userKey), templateKey,
                                         rateLimiter.config.templateTimeWindowMinutes);
        keyed == req.(idempotencyKey := Some(key))
        && producer.sent == old(producer.sent)
        && producer.errors == old(producer.errors) + (if v == Admitted && !registerOk then [TxSyncError] else [])
        && (v == Duplicate ==>
              (store.rows == old(store.rows) && rateLimiter.counters == old(rateLimiter.counters)
               && rateLimiter.expiry == old(rateLimiter.expiry) && producer.pending == old(producer.pending)
               && exists k :: k in HoldersOf(old(store.rows), key)
                    && response == BuildResponse(old(store.rows)[k], DuplicateMessage)))
        && (v.UserLimited? ==>
              (store.rows == old(store.rows) && producer.pending == old(producer.pending)
               && rateLimiter.counters == Hit(old(rateLimiter.counters), userKey)
               && rateLimiter.expiry == userExpiry
               && response == RateLimitedResponse(v.error.message)))
        && (v.TemplateLimited? ==>
              (store.rows == old(store.rows) && producer.pending == old(producer.pending)
               && rateLimiter.counters == Hit(Hit(old(rateLimiter.counters), userKey), templateKey)
               && rateLimiter.expiry == bothExpiry
               && response == RateLimitedResponse(v.error.message)))
        && (v == Admitted ==>
              var saved := ConvertToEntity(t, req, key, now).(id := Some(freshId), version := Some(0));
              store.rows == old(store.rows)[freshId := saved]
              && rateLimiter.counters == Hit(Hit(old(rateLimiter.counters), userKey), templateKey)
              && rateLimiter.expiry == bothExpiry
              && producer.pending == old(producer.pending)
                   + (if registerOk then [MessageFor(saved, TopicFor(producer.topics, t), None)] else [])
              && response == BuildResponse(saved, QueuedMessage))
    {
      var t := req.notificationType.value;
      keyed := req;
      if req.idempotencyKey.None? || req.idempotencyKey.value == "" {
        keyed := req.(idempotencyKey := Some(GeneratedKey(t, req, uuid)));
      }
      var key := keyed.idempotencyKey.value;

      var existing := store.FindByIdempotencyKey(key);
      if existing.Some? {
        assert existing.value.id.value in HoldersOf(store.rows, key);
        return BuildResponse(existing.value, DuplicateMessage), keyed;
      }
      assert HoldersOf(store.rows, key) == {};

      var d := rateLimiter.CheckUserRateLimit(req.userId);
      if d.Denied? {
        return RateLimitedResponse(d.error.message), keyed;
      }
      d := rateLimiter.CheckTemplateRateLimit(req.userId, req.templateId);
      if d.Denied? {
        return RateLimitedResponse(d.error.message), keyed;
      }

      var saved := SaveAndPublish(ConvertToEntity(t, keyed, key, now), freshId, registerOk);
      response := BuildResponse(saved, QueuedMessage);
    }

    /**
     * The admitted path: `save` the new row under the id the table assigns,
     * then register its send to the type's topic for after the commit.
     */
    method SaveAndPublish(n: Notification, freshId: string, registerOk: bool) returns (saved: Notification)
      requires store.Valid() && freshId !in store.rows
      requires n.idempotencyKey.Some? && HoldersOf(store.rows, n.idempotencyKey.value) == {}
      modifies store, producer
      ensures store.Valid()
      ensures saved == n.(id := Some(freshId), version := Some(0)) && store.rows == old(store.rows)[freshId := saved]
      ensures SentOnce(MessageFor(saved, TopicFor(producer.topics, n.notificationType), None),
                       SendContext(true, registerOk, Acked), registerOk,
                       old(producer.sent), old(producer.pending), old(producer.errors),
                       producer.sent, producer.pending, producer.errors)
    {
      KeyInUseIffHeld(store.rows, n.idempotencyKey.value);
      var r := store.Insert(n, freshId);
      saved := r.row;
      producer.SendNotification(saved, SendContext(true, registerOk, Acked));
    }

    /** `getNotificationById`. */
    method GetNotificationById(id: string) returns (r: Option<Notification>)
      ensures r.Some? <==> id in store.rows
      ensures r.Some? ==> r.value == store.rows[id]
    {
      r := store.FindById(id);
    }

    /** `getNotificationsByUserId`: the user's records, keyed by id. */
    method GetNotificationsByUserId(userId: string) returns (r: Rows)
      ensures r == FindByUserId(store.rows, userId)
      ensures forall k :: k in r ==> r[k].userId == userId
    {
      r := FindByUserId(store.rows, userId);
    }

    /** `getNotificationsByCorrelationId`: the records carrying that correlation id, keyed by id. */
    method GetNotificationsByCorrelationId(correlationId: string) returns (r: Rows)
      ensures r == FindByCorrelationId(store.rows, correlationId)
      ensures forall k :: k in r ==> r[k].correlationId == Some(correlationId)
    {
      r := FindByCorrelationId(store.rows, correlationId);
    }
  }
}
