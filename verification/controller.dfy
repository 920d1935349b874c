/**
 * `NotificationController`: the body of `sendNotification` (early
 * validation, the service call, and the mapping of its result to an HTTP
 * status) and `getNotificationStatus`. The service is a function parameter:
 * it answers with a response object or throws the rate-limit exception.
 */
module Controller {
  import opened Common
  import opened Repository
  import opened RateLimiting
  import opened Admission

  const Ok := 200
  const Accepted := 202
  const BadRequest := 400
  const NotFound := 404
  const Conflict := 409
  const TooManyRequests := 429

  datatype HttpResponse = HttpResponse(status: int, body: Option<NotificationResponse>)

  /** What `notificationService.processNotification` does. */
  datatype ServiceOutcome = Responded(response: NotificationResponse) | RateLimitThrown(message: string)

  /** A response body carrying only `success = false` and a message. */
  function Failure(message: string): NotificationResponse {
    NotificationResponse(None, None, None, None, None, false, message)
  }

  /** The template parameter each type requires. */
  function RequiredField(t: NotificationType): string {
    match t
    case Email => "email"
    case Sms => "phoneNumber"
    case Push => "deviceToken"
  }

  function MissingFieldMessage(t: NotificationType): string {
    "Missing required field '" + RequiredField(t) + "' for " + TypeName(t) + " notification in template_params."
  }

  /** The key is present, its value is not null, and the value's text is not blank. */
  predicate HasUsableValue(params: map<string, Value>, key: string) {
    key in params && !params[key].Null? && !IsBlank(Text(params[key]).value)
  }

  /** The early validation: the message of the first failing check, or `None` when all pass. */
  function Validate(req: NotificationRequest): (failure: Option<string>)
    ensures req.notificationType.None? ==> failure == Some("Missing 'type' in request.")
    ensures req.notificationType.Some? && req.templateParams.None? ==>
      failure == Some("Missing 'templateParams' in request.")
    ensures req.notificationType.Some? && req.templateParams.Some? ==>
      (failure.None? <==> HasUsableValue(req.templateParams.value, RequiredField(req.notificationType.value)))
    ensures req.notificationType.Some? && req.templateParams.Some? && failure.Some? ==>
      failure.value == MissingFieldMessage(req.notificationType.value)
  {
    if req.notificationType.None? then Some("Missing 'type' in request.")
    else if req.templateParams.None? then Some("Missing 'templateParams' in request.")
    else
      var t := req.notificationType.value;
      if HasUsableValue(req.templateParams.value, RequiredField(t)) then None
      else Some(MissingFieldMessage(t))
  }

  /**
   * `sendNotification`. `uuid` stands for the random UUID used as the id of
   * a 429 body when the request has no correlation id.
   */
  function SendNotification(req: NotificationRequest, service: NotificationRequest -> ServiceOutcome, uuid: string)
    : (r: HttpResponse)
    ensures r.body.Some?
  {
    var failure := Validate(req);
    if failure.Some? then HttpResponse(BadRequest, Some(Failure(failure.value)))
    else match service(req)
      case RateLimitThrown(message) =>
        HttpResponse(TooManyRequests,
          Some(Failure(message).(id := Some(if req.correlationId.Some? then req.correlationId.value else uuid))))
      case Responded(response) =>
        if response.message == DuplicateMessage then HttpResponse(Conflict, Some(response))
        else HttpResponse(Accepted, Some(response))
  }

  /** A request that fails validation gets 400 whatever the service would do: the service is not called. */
  lemma ServiceCalledOnlyAfterValidation(req: NotificationRequest, s1: NotificationRequest -> ServiceOutcome,
                                         s2: NotificationRequest -> ServiceOutcome, uuid: string)
    requires Validate(req).Some?
    ensures SendNotification(req, s1, uuid) == SendNotification(req, s2, uuid)
    ensures SendNotification(req, s1, uuid).status == BadRequest
    ensures !SendNotification(req, s1, uuid).body.value.success
  {
  }

  /**
   * For a valid request the status depends only on how the service ended:
   * 429 iff it threw, 409 iff its response's message is exactly
   * "Duplicate request", and 202 for every other response, whatever its
   * success flag. A 429 body carries the exception's message and the
   * correlation id when there is one.
   */
  lemma StatusMapping(req: NotificationRequest, service: NotificationRequest -> ServiceOutcome, uuid: string)
    requires Validate(req).None?
    ensures var r := SendNotification(req, service, uuid);
      (r.status == TooManyRequests <==> service(req).RateLimitThrown?)
      && (r.status == Conflict <==> service(req).Responded? && service(req).response.message == DuplicateMessage)
      && (r.status == Accepted <==> service(req).Responded? && service(req).response.message != DuplicateMessage)
      && (service(req).Responded? ==> r.body == Some(service(req).response))
      && (service(req).RateLimitThrown? ==>
            (!r.body.value.success && r.body.value.message == service(req).message
             && (req.correlationId.Some? ==> r.body.value.id == req.correlationId)))
  {
  }

  /**
   * The service answers a rate-limited request with a response object
   * rather than the exception, so the controller's 429 branch is not taken
   * and the request is answered 202 Accepted with `success = false`.
   */
  lemma UserRateLimitedRequestIsAccepted(req: NotificationRequest, service: NotificationRequest -> ServiceOutcome,
                                         uuid: string, config: RateLimitConfig, count: nat)
    requires Validate(req).None? && count > config.userMaxRequests
    requires service(req) == Responded(RateLimitedResponse(UserDecision(config, req.userId, count).error.message))
    ensures SendNotification(req, service, uuid).status == Accepted
    ensures !SendNotification(req, service, uuid).body.value.success
  {
    var m := UserDecision(config, req.userId, count).error.message;
    assert m[0] == "User rate limit exceeded. Maximum "[0] != DuplicateMessage[0];
  }

  /** The same for the per-template limit. */
  lemma TemplateRateLimitedRequestIsAccepted(req: NotificationRequest, service: NotificationRequest -> ServiceOutcome,
                                             uuid: string, config: RateLimitConfig, count: nat)
    requires Validate(req).None? && count > config.templateMaxRequests
    requires service(req)
      == Responded(RateLimitedResponse(TemplateDecision(config, req.userId, req.templateId, count).error.message))
    ensures SendNotification(req, service, uuid).status == Accepted
    ensures !SendNotification(req, service, uuid).body.value.success
  {
    var m := TemplateDecision(config, req.userId, req.templateId, count).error.message;
    assert m[0] == "Template rate limit exceeded. Maximum "[0] != DuplicateMessage[0];
  }

  /** `getNotificationStatus`: 200 with the stored id and status when found, 404 without a body otherwise. */
  function GetNotificationStatus(rows: Rows, notificationId: string): (r: HttpResponse)
    ensures r.status == Ok <==> notificationId in rows
    ensures r.status == NotFound <==> notificationId !in rows
    ensures r.body.Some? <==> notificationId in rows
    ensures notificationId in rows ==>
      (r.body.value.success && r.body.value.message == "Notification found"
       && r.body.value.status == Some(rows[notificationId].status) && r.body.value.id == rows[notificationId].id)
  {
    if notificationId in rows then
      var n := rows[notificationId];
      HttpResponse(Ok, Some(NotificationResponse(n.id, None, None, Some(n.status), None, true, "Notification found")))
    else HttpResponse(NotFound, None)
  }
}
