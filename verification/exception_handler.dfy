/**
 * `GlobalExceptionHandler`: the JSON bodies and HTTP statuses written for a
 * rate-limit exception, a failed bean validation, an illegal argument and
 * any other exception. `now` is the handler's clock reading.
 */
module ExceptionHandling {
  import opened Common
  import opened RateLimiting
  import opened ProviderRegistry

  /** A value of a response body: a timestamp, a number, a nullable text, or the field-error map. */
  datatype BodyValue =
    | Timestamp(at: int)
    | Number(n: int)
    | Words(s: Option<string>)
    | Errors(byField: map<string, Option<string>>)

  datatype ErrorBody = ErrorBody(status: int, body: map<string, BodyValue>)

  /** A `FieldError`: the field's name and its default message, which may be null. */
  datatype FieldError = FieldError(field: string, defaultMessage: Option<string>)

  /** The three entries every handler writes first. */
  function Head(now: int, status: int, error: string): (h: map<string, BodyValue>)
    ensures h.Keys == {"timestamp", "status", "error"}
  {
    map["timestamp" := Timestamp(now), "status" := Number(status), "error" := Words(Some(error))]
  }

  /**
   * `handleRateLimitExceeded`: 429 with the fixed error text and the
   * exception's message; the user and template ids only when they are not
   * null; the current count and the limit together, only when the count is
   * positive.
   */
  function HandleRateLimitExceeded(ex: RateLimitExceeded, now: int): (r: ErrorBody)
    ensures r.status == 429
    ensures {"timestamp", "status", "error", "message"} <= r.body.Keys
      <= {"timestamp", "status", "error", "message", "userId", "templateId", "currentCount", "maxAllowed"}
    ensures r.body["timestamp"] == Timestamp(now) && r.body["status"] == Number(429)
      && r.body["error"] == Words(Some("Rate Limit Exceeded")) && r.body["message"] == Words(Some(ex.message))
    ensures ("userId" in r.body <==> ex.userId.Some?) && ("userId" in r.body ==> r.body["userId"] == Words(ex.userId))
    ensures ("templateId" in r.body <==> ex.templateId.Some?)
      && ("templateId" in r.body ==> r.body["templateId"] == Words(ex.templateId))
    ensures ("currentCount" in r.body <==> ex.currentCount > 0) && ("maxAllowed" in r.body <==> ex.currentCount > 0)
    ensures ex.currentCount > 0 ==>
      r.body["currentCount"] == Number(ex.currentCount) && r.body["maxAllowed"] == Number(ex.maxAllowed)
  {
    var b := Head(now, 429, "Rate Limit Exceeded")["message" := Words(Some(ex.message))];
    var b := if ex.userId.Some? then b["userId" := Words(ex.userId)] else b;
    var b := if ex.templateId.Some? then b["templateId" := Words(ex.templateId)] else b;
    var b := if ex.currentCount > 0 then b["currentCount" := Number(ex.currentCount)]["maxAllowed" := Number(ex.maxAllowed)] else b;
    ErrorBody(429, b)
  }

  /**
   * A per-user denial with a count that fits in an `int` gives a 429 body
   * with the user id, no template id, the count and the limit.
   */
  lemma UserDenialBodyCarriesTheCount(config: RateLimitConfig, userId: string, count: nat, now: int)
    requires count > config.userMaxRequests && 0 < count < 0x8000_0000
    ensures var r := HandleRateLimitExceeded(UserDecision(config, userId, count).error, now);
      "userId" in r.body && "templateId" !in r.body
      && "currentCount" in r.body && r.body["currentCount"] == Number(count)
      && "maxAllowed" in r.body && r.body["maxAllowed"] == Number(config.userMaxRequests)
  {
  }

  /**
   * The count reaches the body through `intValue()`: the 2^31-th request of
   * a window wraps to a negative count, and the body then omits both the
   * count and the limit.
   */
  lemma WrappedCountIsOmitted(config: RateLimitConfig, userId: string, now: int)
    requires config.userMaxRequests < 0x8000_0000
    ensures var r := HandleRateLimitExceeded(UserDecision(config, userId, 0x8000_0000).error, now);
      "currentCount" !in r.body && "maxAllowed" !in r.body
  {
    assert IntValue(0x8000_0000) == -0x8000_0000;
  }

  /** The errors map of `handleMethodArgumentNotValid`: one `put(field, message)` per error, in order. */
  function ErrorsMap(errs: seq<FieldError>): map<string, Option<string>> {
    if |errs| == 0 then map[]
    else ErrorsMap(errs[..|errs| - 1])[errs[|errs| - 1].field := errs[|errs| - 1].defaultMessage]
  }

  /**
   * A field appears in the map iff some error names it, and its message is
   * that of the LAST error naming it.
   */
  lemma {:induction false} ErrorsMapLastWins(errs: seq<FieldError>, f: string)
    ensures f in ErrorsMap(errs) <==> exists i :: 0 <= i < |errs| && errs[i].field == f
    ensures f in ErrorsMap(errs) ==>
      exists i :: 0 <= i < |errs| && errs[i].field == f && ErrorsMap(errs)[f] == errs[i].defaultMessage
        && forall j :: i < j < |errs| ==> errs[j].field != f
  {
    if |errs| > 0 {
      var init := errs[..|errs| - 1];
      var last := |errs| - 1;
      ErrorsMapLastWins(init, f);
      if errs[last].field != f {
        assert ErrorsMap(errs) == ErrorsMap(init)[errs[last].field := errs[last].defaultMessage];
      }
    }
  }

  /** `handleMethodArgumentNotValid`: 400 with every field's last message under "errors". */
  method HandleMethodArgumentNotValid(errs: seq<FieldError>, now: int) returns (r: ErrorBody)
    ensures r.status == 400
    ensures r.body == Head(now, 400, "Validation Error")["errors" := Errors(ErrorsMap(errs))]
  {
    var errors: map<string, Option<string>> := map[];
    var i := 0;
    while i < |errs|
      invariant 0 <= i <= |errs|
      invariant errors == ErrorsMap(errs[..i])
    {
      assert errs[..i + 1][..i] == errs[..i];
      errors := errors[errs[i].field := errs[i].defaultMessage];
      i := i + 1;
    }
    assert errs[..i] == errs;
    r := ErrorBody(400, Head(now, 400, "Validation Error")["errors" := Errors(errors)]);
  }

  /** `handleIllegalArgument`: 400 with the exception's (possibly null) message. */
  function HandleIllegalArgument(message: Option<string>, now: int): (r: ErrorBody)
    ensures r.status == 400 && r.body.Keys == {"timestamp", "status", "error", "message"}
    ensures r.body["error"] == Words(Some("Invalid Argument")) && r.body["message"] == Words(message)
  {
    ErrorBody(400, Head(now, 400, "Invalid Argument")["message" := Words(message)])
  }

  /** An unregistered notification type reaching the handler is answered 400 naming the type. */
  lemma UnsupportedTypeIsBadRequest(f: NotificationProviderFactory, t: NotificationType, now: int)
    requires !f.HasProvider(t)
    ensures var r := HandleIllegalArgument(Some(f.GetProvider(t).message), now);
      r.status == 400 && r.body["message"] == Words(Some("Unsupported notification type: " + TypeName(t)))
  {
  }

  /** `handleGeneral`: 500 with a fixed message. */
  function HandleGeneral(message: Option<string>, now: int): (r: ErrorBody)
    ensures r.status == 500 && r.body.Keys == {"timestamp", "status", "error", "message"}
    ensures r.body["error"] == Words(Some("Internal Server Error"))
    ensures r.body["message"] == Words(Some("An unexpected error occurred"))
  {
    ErrorBody(500, Head(now, 500, "Internal Server Error")["message" := Words(Some("An unexpected error occurred"))])
  }

  /** The general body never shows the exception's own text: it is the same for every exception. */
  lemma GeneralBodyHidesTheException(m1: Option<string>, m2: Option<string>, now: int)
    ensures HandleGeneral(m1, now) == HandleGeneral(m2, now)
  {
  }
}
