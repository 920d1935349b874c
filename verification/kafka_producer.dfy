/**
 * `KafkaProducerServiceImpl`: topic routing, the message key, and the
 * choice between an immediate send and one deferred until the surrounding
 * database transaction commits. The broker is an outbox: `sent` is the log
 * of acknowledged messages, `pending` the after-commit sends registered so
 * far, and `errors` the error types counted by `logAndRecordError`. What the
 * broker answers, and whether a transaction is active, are parameters.
 */
module KafkaProducer {
  import opened Common

  /** The three topic names; their values come from `KafkaConfig`, which is not part of this model. */
  datatype TopicConfig = TopicConfig(emailTopic: string, smsTopic: string, pushTopic: string)

  /** The `error_type` tags of `logAndRecordError`. */
  datatype SendError = Interrupted | ExecutionFailed | Timeout | OtherError | TxSyncError

  function ErrorType(e: SendError): string {
    match e
    case Interrupted => "interrupted"
    case ExecutionFailed => "execution_failed"
    case Timeout => "timeout"
    case OtherError => "error"
    case TxSyncError => "tx_sync_error"
  }

  /**
   * The error types the catch blocks around `future.get` can record; a
   * "tx_sync_error" comes only from a failed after-commit registration.
   */
  type BrokerError = e: SendError | e != TxSyncError witness Interrupted

  /** What `future.get(5, SECONDS)` ends with: an acknowledgement, or one of the caught exceptions. */
  datatype BrokerReply = Acked | Refused(error: BrokerError)

  /**
   * The environment of one send: whether a transaction is active, whether
   * registering the after-commit callback succeeds, and the broker's reply
   * to an immediate send.
   */
  datatype SendContext = SendContext(txActive: bool, registerOk: bool, reply: BrokerReply)

  datatype Message = Message(topic: string, key: string, payload: Notification, headers: map<string, string>)

  /** The routing of `sendNotification`. */
  function TopicFor(config: TopicConfig, t: NotificationType): (topic: string)
    ensures t == Email ==> topic == config.emailTopic
    ensures t == Sms ==> topic == config.smsTopic
    ensures t == Push ==> topic == config.pushTopic
  {
    match t
    case Email => config.emailTopic
    case Sms => config.smsTopic
    case Push => config.pushTopic
  }

  /** With three distinct topic names no two types share a topic. */
  lemma RoutingIsInjective(config: TopicConfig, t: NotificationType, t': NotificationType)
    requires config.emailTopic != config.smsTopic && config.smsTopic != config.pushTopic
      && config.emailTopic != config.pushTopic
    ensures TopicFor(config, t) == TopicFor(config, t') <==> t == t'
  {
  }

  /** The record key: the idempotency key when set, else user id, a dash and the id. */
  function MessageKey(n: Notification): (key: string)
    ensures n.idempotencyKey.Some? ==> key == n.idempotencyKey.value
    ensures n.idempotencyKey.None? ==> key == n.userId + "-" + OrNull(n.id)
  {
    if n.idempotencyKey.Some? then n.idempotencyKey.value else n.userId + "-" + OrNull(n.id)
  }

  /** Headers are attached only when the header map is non-null and non-empty. */
  function AttachedHeaders(headers: Option<map<string, string>>): (h: map<string, string>)
    ensures headers.Some? && |headers.value| > 0 ==> h == headers.value
    ensures headers.None? || |headers.value| == 0 ==> h == map[]
  {
    if headers.Some? && |headers.value| > 0 then headers.value else map[]
  }

  function MessageFor(n: Notification, topic: string, headers: Option<map<string, string>>): Message {
    Message(topic, MessageKey(n), n, AttachedHeaders(headers))
  }

  /**
   * The producer's state after one send of `m` under `ctx` that answered
   * `ok`. Inside a transaction the send is registered for after the commit,
   * or the registration fails and a tx-sync error is counted; outside one the
   * broker's reply decides between the log of sent messages and the error
   * list. `sent0`, `pending0` and `errors0` are the state before the send.
   */
  predicate SentOnce(m: Message, ctx: SendContext, ok: bool,
                     sent0: seq<Message>, pending0: seq<Message>, errors0: seq<SendError>,
                     sent: seq<Message>, pending: seq<Message>, errors: seq<SendError>)
  {
    if ctx.txActive then
      ok == ctx.registerOk && sent == sent0 && pending == pending0 + (if ok then [m] else [])
      && errors == errors0 + (if ok then [] else [TxSyncError])
    else
      (ok <==> ctx.reply.Acked?) && pending == pending0 && sent == sent0 + (if ok then [m] else [])
      && errors == errors0 + (if ctx.reply.Acked? then [] else [ctx.reply.error])
  }

  /**
   * A send records "tx_sync_error" exactly when it runs inside a transaction
   * and its registration fails; an immediate send never records it.
   */
  lemma TxSyncErrorOnlyFromRegistration(m: Message, ctx: SendContext, ok: bool,
                                        sent0: seq<Message>, pending0: seq<Message>, errors0: seq<SendError>,
                                        sent: seq<Message>, pending: seq<Message>, errors: seq<SendError>)
    requires SentOnce(m, ctx, ok, sent0, pending0, errors0, sent, pending, errors)
    ensures errors0 <= errors
    ensures TxSyncError in errors[|errors0|..] <==> ctx.txActive && !ctx.registerOk
  {
    assert errors0 <= errors;
    if !ctx.txActive && ctx.reply.Refused? {
      assert errors[|errors0|..] == [ctx.reply.error];
    }
  }

  /** The header map of `sendWithPriority`. */
  function PriorityHeaders(n: Notification): (h: map<string, string>)
    ensures h.Keys == {"priority"} && h["priority"] == PriorityName(n.priority)
  {
    map["priority" := PriorityName(n.priority)]
  }

  /** The messages the broker acknowledged, in order, when `ms` are sent with replies `rs`. */
  function Delivered(ms: seq<Message>, rs: seq<BrokerReply>): (d: seq<Message>)
    requires |ms| == |rs|
    ensures |d| <= |ms|
    ensures forall m :: m in d ==> m in ms
    ensures |d| == |ms| <==> forall i :: 0 <= i < |rs| ==> rs[i].Acked?
  {
    if |ms| == 0 then []
    else
      var d := Delivered(ms[..|ms| - 1], rs[..|rs| - 1]);
      if rs[|rs| - 1].Acked? then d + [ms[|ms| - 1]] else d
  }

  /** The error types recorded for the refused sends, in order. */
  function FailedKinds(rs: seq<BrokerReply>): (f: seq<BrokerError>)
    ensures |f| <= |rs|
    ensures forall e :: e in f ==> Refused(e) in rs
  {
    if |rs| == 0 then []
    else
      var f := FailedKinds(rs[..|rs| - 1]);
      if rs[|rs| - 1].Refused? then f + [rs[|rs| - 1].error] else f
  }

  /** Every send is either delivered or counted as a failure, never both and never neither. */
  lemma {:induction false} DeliveredOrFailed(ms: seq<Message>, rs: seq<BrokerReply>)
    requires |ms| == |rs|
    ensures |Delivered(ms, rs)| + |FailedKinds(rs)| == |ms|
  {
    if |ms| > 0 {
      DeliveredOrFailed(ms[..|ms| - 1], rs[..|rs| - 1]);
    }
  }

  class KafkaProducerService {
    const topics: TopicConfig
    var sent: seq<Message>
    var pending: seq<Message>
    var errors: seq<SendError>

    constructor (topics: TopicConfig)
      ensures this.topics == topics && sent == [] && pending == [] && errors == []
    {
      this.topics := topics;
      sent, pending, errors := [], [], [];
    }

    /** `performKafkaSend`: an acknowledged send is logged and gives true; every failure is counted and gives false. */
    method PerformKafkaSend(m: Message, reply: BrokerReply) returns (ok: bool)
      modifies this
      ensures ok <==> reply.Acked?
      ensures sent == old(sent) + (if ok then [m] else [])
      ensures errors == old(errors) + (if ok then [] else [reply.error])
      ensures pending == old(pending)
    {
      if reply.Acked? {
        sent := sent + [m];
        ok := true;
      } else {
        errors := errors + [reply.error];
        ok := false;
      }
    }

    /**
     * `sendToKafkaWithHeaders`: inside a transaction the send is only
     * registered for after the commit and true is returned (false if the
     * registration fails); outside one it happens now and its outcome is
     * returned.
     */
    method SendToKafkaWithHeaders(n: Notification, topic: string, headers: Option<map<string, string>>,
                                  ctx: SendContext) returns (ok: bool)
      modifies this
      ensures SentOnce(MessageFor(n, topic, headers), ctx, ok, old(sent), old(pending), old(errors), sent, pending, errors)
    {
      var m := MessageFor(n, topic, headers);
      if ctx.txActive {
        if ctx.registerOk {
          pending := pending + [m];
          ok := true;
        } else {
          errors := errors + [TxSyncError];
          ok := false;
        }
      } else {
        ok := PerformKafkaSend(m, ctx.reply);
      }
    }

    method SendToEmailTopic(n: Notification, ctx: SendContext) returns (ok: bool)
      modifies this
      ensures SentOnce(MessageFor(n, topics.emailTopic, None), ctx, ok, old(sent), old(pending), old(errors),
                       sent, pending, errors)
    {
      ok := SendToKafkaWithHeaders(n, topics.emailTopic, None, ctx);
    }

    method SendToSmsTopic(n: Notification, ctx: SendContext) returns (ok: bool)
      modifies this
      ensures SentOnce(MessageFor(n, topics.smsTopic, None), ctx, ok, old(sent), old(pending), old(errors),
                       sent, pending, errors)
    {
      ok := SendToKafkaWithHeaders(n, topics.smsTopic, None, ctx);
    }

    method SendToPushTopic(n: Notification, ctx: SendContext) returns (ok: bool)
      modifies this
      ensures SentOnce(MessageFor(n, topics.pushTopic, None), ctx, ok, old(sent), old(pending), old(errors),
                       sent, pending, errors)
    {
      ok := SendToKafkaWithHeaders(n, topics.pushTopic, None, ctx);
    }

    /** `sendWithPriority`: the message carries exactly the "priority" header. */
    method SendWithPriority(n: Notification, topic: string, ctx: SendContext) returns (ok: bool)
      modifies this
      ensures MessageFor(n, topic, Some(PriorityHeaders(n))).headers.Keys == {"priority"}
      ensures SentOnce(MessageFor(n, topic, Some(PriorityHeaders(n))), ctx, ok, old(sent), old(pending), old(errors),
                       sent, pending, errors)
    {
      ok := SendToKafkaWithHeaders(n, topic, Some(PriorityHeaders(n)), ctx);
    }

    /**
     * `sendNotification`: one send to the topic of the notification's type,
     * without headers; the outcome only feeds metrics and is not returned.
     */
    method SendNotification(n: Notification, ctx: SendContext)
      modifies this
      ensures SentOnce(MessageFor(n, TopicFor(topics, n.notificationType), None), ctx,
                       if ctx.txActive then ctx.registerOk else ctx.reply.Acked?,
                       old(sent), old(pending), old(errors), sent, pending, errors)
    {
      var ok: bool;
      match n.notificationType
      case Email => ok := SendToEmailTopic(n, ctx);
      case Sms => ok := SendToSmsTopic(n, ctx);
      case Push => ok := SendToPushTopic(n, ctx);
    }

    /**
     * The transaction commits: every registered `afterCommit` runs
     * `performKafkaSend` in registration order, with the broker's replies
     * `replies`.
     */
    method AfterCommit(replies: seq<BrokerReply>)
      requires |replies| == |pending|
      modifies this
      ensures pending == []
      ensures sent == old(sent) + Delivered(old(pending), replies)
      ensures errors == old(errors) + FailedKinds(replies)
    {
      var ms := pending;
      var i := 0;
      while i < |ms|
        invariant 0 <= i <= |ms| && |replies| == |ms|
        invariant sent == old(sent) + Delivered(ms[..i], replies[..i])
        invariant errors == old(errors) + FailedKinds(replies[..i])
        invariant pending == ms
      {
        var _ := PerformKafkaSend(ms[i], replies[i]);
        assert ms[..i + 1][..i] == ms[..i];
        assert replies[..i + 1][..i] == replies[..i];
        i := i + 1;
      }
      assert ms[..i] == ms;
      assert replies[..i] == replies;
      pending := [];
    }

    /** The transaction rolls back: the registered callbacks never run. */
    method Rollback()
      modifies this
      ensures pending == [] && sent == old(sent) && errors == old(errors)
    {
      pending := [];
    }
  }

  /**
   * Deferring does not change what is delivered: a send registered inside
   * a transaction and committed with reply `r` delivers what an immediate
   * send answered with `r` would.
   */
  lemma DeferredSendDeliversLikeImmediate(m: Message, r: BrokerReply)
    ensures Delivered([m], [r]) == (if r.Acked? then [m] else [])
    ensures FailedKinds([r]) == (if r.Acked? then [] else [r.error])
  {
    assert [m][..0] == [];
    assert [r][..0] == [];
  }
}
