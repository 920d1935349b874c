/**
 * The three record updaters `PushNotificationConsumer` hands to
 * `TransactionRetryHelper`: begin an attempt, mark as sent, record a
 * failure. Each is a value with an `Apply` giving the row it produces, and
 * a method that performs it through the entity's setters.
 */
module Updaters {
  import opened Common
  import opened Entity

  /** At or above this many delivery attempts a failure is permanent. */
  const PermanentFailureThreshold := 3

  datatype Updater =
    | BeginAttempt(now: int)
    | MarkSent(now: int)
    | RecordFailure(errorMessage: Option<string>, now: int)

  /** The threshold rule of `handleFailure`. */
  function FailureStatus(attempts: int): (s: Status)
    ensures s == PermanentFailure <==> attempts >= PermanentFailureThreshold
    ensures s == Failed <==> attempts < PermanentFailureThreshold
  {
    if attempts >= PermanentFailureThreshold then PermanentFailure else Failed
  }

  /** The row an updater leaves behind. */
  function Apply(u: Updater, n: Notification): (r: Notification)
    ensures r.id == n.id && r.idempotencyKey == n.idempotencyKey && r.version == n.version
    ensures r.userId == n.userId && r.templateParams == n.templateParams && r.createdAt == n.createdAt
  {
    match u
    case BeginAttempt(now) =>
      n.(status := Retrying, lastAttemptedAt := Some(now), deliveryAttempts := n.deliveryAttempts + 1,
         updatedAt := Some(now))
    case MarkSent(now) =>
      n.(status := Sent, updatedAt := Some(now))
    case RecordFailure(msg, now) =>
      n.(status := FailureStatus(n.deliveryAttempts), errorMessage := msg, lastAttemptedAt := Some(now),
         updatedAt := Some(now))
  }

  /** Only beginning an attempt counts one; the other two leave the attempt count alone. */
  lemma OnlyBeginAttemptCounts(u: Updater, n: Notification)
    ensures Apply(u, n).deliveryAttempts == n.deliveryAttempts + (if u.BeginAttempt? then 1 else 0)
  {
  }

  /** The updater run on a loaded entity, setter by setter, as the lambdas do. */
  method ApplyTo(u: Updater, e: NotificationEntity)
    modifies e
    ensures e.Row() == Apply(u, old(e.Row()))
  {
    match u
    case BeginAttempt(now) =>
      e.SetStatus(Retrying);
      e.SetLastAttemptedAt(Some(now));
      e.SetDeliveryAttempts(e.deliveryAttempts + 1);
      e.SetUpdatedAt(Some(now));
    case MarkSent(now) =>
      e.SetStatus(Sent);
      e.SetUpdatedAt(Some(now));
    case RecordFailure(msg, now) =>
      if e.deliveryAttempts >= PermanentFailureThreshold {
        e.SetStatus(PermanentFailure);
      } else {
        e.SetStatus(Failed);
      }
      e.SetErrorMessage(msg);
      e.SetLastAttemptedAt(Some(now));
      e.SetUpdatedAt(Some(now));
  }
}
