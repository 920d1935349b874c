/**
 * `PushNotificationConsumer`: one delivery attempt of a push notification.
 * It begins the attempt (RETRYING, one more delivery attempt), re-reads the
 * row, calls the adapter, then marks the row SENT or records the failure;
 * any exception records the failure and is rethrown for `@Retryable`.
 * The adapter's answer, the clock, what competing writers do in each retry
 * helper call, and the message of a retry-helper exception are all carried
 * by an `Invocation`.
 */
module PushDelivery {
  import opened Common
  import opened Repository
  import opened Updaters
  import opened TransactionRetry

  const ProviderFailureMessage := "Push provider returned failure"
  const NotFoundMessage := "Notification not found"

  /** `@Retryable(maxAttempts = 3, backoff = @Backoff(delay = 1000, multiplier = 2))`. */
  const MaxInvocations := 3
  const InitialDelay := 1000

  /** What `pushAdapter.sendNotification` does: return true, return false, or throw with a (nullable) message. */
  datatype AdapterOutcome = Delivered | Undelivered | AdapterThrew(message: Option<string>)

  datatype Invocation = Invocation(
    now: int,
    adapter: AdapterOutcome,
    begin: seq<Interference>,     // competing writers during the begin-attempt update
    finish: seq<Interference>,    // ... during the SENT update or the failure update of a `false`
    recovery: seq<Interference>,  // ... during the failure update in the catch block
    helperError: Option<string>)  // the message of an exception thrown by the retry helper

  /** How the try block ends: normally, or with an exception carrying a message. */
  datatype Exit = Normal | Exception(message: Option<string>)

  /** How `processNotification` ends. */
  datatype ConsumerResult = Returned | Rethrown(message: Option<string>)

  datatype ConsumeRun = ConsumeRun(rows: Rows, result: ConsumerResult)

  /** The retry helper gave up with an exception. */
  predicate Raised(o: RetryOutcome) {
    o == LockFailure || o == Threw
  }

  /** `handleFailure`: the failure updater, run through the retry helper. */
  function FailureRecorded(rows: Rows, id: string, msg: Option<string>, now: int, env: seq<Interference>): RetryRun {
    RetryUpdate(rows, id, RecordFailure(msg, now), env)
  }

  /** The try block of `processNotification`: the rows it leaves and how it exits. */
  function TryBlock(rows: Rows, id: string, inv: Invocation): (Rows, Exit) {
    var begun := RetryUpdate(rows, id, BeginAttempt(inv.now), inv.begin);
    if Raised(begun.outcome) then (begun.rows, Exception(inv.helperError))
    else if id !in begun.rows then (begun.rows, Exception(Some(NotFoundMessage)))
    else match inv.adapter
      case Delivered =>
        var sent := RetryUpdate(begun.rows, id, MarkSent(inv.now), inv.finish);
        (sent.rows, if Raised(sent.outcome) then Exception(inv.helperError) else Normal)
      case Undelivered =>
        var failed := FailureRecorded(begun.rows, id, Some(ProviderFailureMessage), inv.now, inv.finish);
        (failed.rows, if Raised(failed.outcome) then Exception(inv.helperError) else Normal)
      case AdapterThrew(m) => (begun.rows, Exception(m))
  }

  /**
   * `processNotification`: on an exception from the try block the failure
   * is recorded with its message and the exception rethrown; if recording
   * it throws too, that exception propagates instead.
   */
  function Consume(rows: Rows, id: string, inv: Invocation): ConsumeRun {
    var (tried, exit) := TryBlock(rows, id, inv);
    if exit.Normal? then ConsumeRun(tried, Returned)
    else
      var recorded := FailureRecorded(tried, id, exit.message, inv.now, inv.recovery);
      ConsumeRun(recorded.rows, if Raised(recorded.outcome) then Rethrown(inv.helperError) else Rethrown(exit.message))
  }

  /** No competing writer interferes with any of the invocation's updates. */
  predicate Uncontended(inv: Invocation) {
    inv.begin == [] && inv.finish == [] && inv.recovery == []
  }

  /** The helper without contention: one try, the updater committed if the row exists. */
  lemma UncontendedUpdate(rows: Rows, id: string, u: Updater)
    ensures RetryUpdate(rows, id, u, []) ==
      if id in rows then RetryRun(rows[id := Committed(Apply(u, rows[id]))], Updated, [], 1)
      else RetryRun(rows, NotFound, [], 1)
  {
  }

  /** A missing record: nothing is written and "Notification not found" is rethrown. */
  lemma MissingRecordIsRethrown(rows: Rows, id: string, inv: Invocation)
    requires id !in rows
    ensures Consume(rows, id, inv) == ConsumeRun(rows, Rethrown(Some(NotFoundMessage)))
  {
  }

  /**
   * Without contention, one invocation on a stored row raises its delivery
   * attempts by exactly one and stamps the attempt time, whatever the adapter
   * does; then a delivery ends SENT, a `false` ends FAILED or
   * PERMANENT_FAILURE by the threshold with the provider's message, and a
   * throw does the same with the exception's message and rethrows it. No
   * other row changes.
   */
  lemma {:induction false} UncontendedInvocation(rows: Rows, id: string, inv: Invocation)
    requires id in rows && Uncontended(inv)
    ensures var run := Consume(rows, id, inv);
      var attempts := rows[id].deliveryAttempts + 1;
      run.rows.Keys == rows.Keys
      && (forall k :: k in rows && k != id ==> run.rows[k] == rows[k])
      && run.rows[id].deliveryAttempts == attempts
      && run.rows[id].lastAttemptedAt == Some(inv.now)
      && run.rows[id].idempotencyKey == rows[id].idempotencyKey
      && (inv.adapter.Delivered? ==>
            (run.result == Returned && run.rows[id].status == Sent
             && run.rows[id].errorMessage == rows[id].errorMessage))
      && (inv.adapter.Undelivered? ==>
            (run.result == Returned && run.rows[id].status == FailureStatus(attempts)
             && run.rows[id].errorMessage == Some(ProviderFailureMessage)))
      && (inv.adapter.AdapterThrew? ==>
            (run.result == Rethrown(inv.adapter.message) && run.rows[id].status == FailureStatus(attempts)
             && run.rows[id].errorMessage == inv.adapter.message))
  {
    UncontendedUpdate(rows, id, BeginAttempt(inv.now));
    var begun := rows[id := Committed(Apply(BeginAttempt(inv.now), rows[id]))];
    match inv.adapter
    case Delivered =>
      UncontendedUpdate(begun, id, MarkSent(inv.now));
    case Undelivered =>
      UncontendedUpdate(begun, id, RecordFailure(Some(ProviderFailureMessage), inv.now));
    case AdapterThrew(m) =>
      UncontendedUpdate(begun, id, RecordFailure(m, inv.now));
  }

  /** A failing adapter: it returned false or threw. */
  predicate AdapterFailed(inv: Invocation) {
    !inv.adapter.Delivered?
  }

  /** The error message a failing invocation records. */
  function RecordedMessage(inv: Invocation): Option<string>
    requires AdapterFailed(inv)
  {
    if inv.adapter.Undelivered? then Some(ProviderFailureMessage) else inv.adapter.message
  }

  /**
   * Starting at 0 attempts, three uncontended invocations whose adapter
   * fails leave the record PERMANENT_FAILURE with 3 attempts and the last
   * invocation's error message, which is non-null unless the last adapter
   * threw an exception without a message.
   */
  lemma ThreeFailuresArePermanent(rows: Rows, id: string, i1: Invocation, i2: Invocation, i3: Invocation)
    requires id in rows && rows[id].deliveryAttempts == 0
    requires Uncontended(i1) && Uncontended(i2) && Uncontended(i3)
    requires AdapterFailed(i1) && AdapterFailed(i2) && AdapterFailed(i3)
    ensures var r := Consume(Consume(Consume(rows, id, i1).rows, id, i2).rows, id, i3).rows;
      id in r && r[id].status == PermanentFailure && r[id].deliveryAttempts == 3
      && r[id].errorMessage == RecordedMessage(i3)
      && (i3.adapter.Undelivered? || i3.adapter.message.Some? ==> r[id].errorMessage.Some?)
  {
    var r1 := Consume(rows, id, i1).rows;
    UncontendedInvocation(rows, id, i1);
    var r2 := Consume(r1, id, i2).rows;
    UncontendedInvocation(r1, id, i2);
    UncontendedInvocation(r2, id, i3);
  }

  /**
   * The consumer does not guard its transitions: a record already SENT is
   * moved back to RETRYING by the next invocation, and ends FAILED or
   * PERMANENT_FAILURE if that invocation's adapter fails.
   */
  lemma SentRecordIsReopened(rows: Rows, id: string, inv: Invocation)
    requires id in rows && rows[id].status == Sent && Uncontended(inv) && AdapterFailed(inv)
    ensures Apply(BeginAttempt(inv.now), rows[id]).status == Retrying
    ensures Consume(rows, id, inv).rows[id].status != Sent
  {
    UncontendedInvocation(rows, id, inv);
  }

  /**
   * If the process stops right after beginning an attempt, the record is
   * left RETRYING with the attempt time stamped, so the retry sweep picks it
   * up exactly when the attempt is older than the cutoff and the attempts
   * are still under the limit.
   */
  lemma StalledAttemptIsRetryable(rows: Rows, id: string, now: int, cutoff: int, maxAttempts: int)
    requires id in rows
    ensures var begun := RetryUpdate(rows, id, BeginAttempt(now), []).rows;
      id in begun
      && (IsRetryable(begun[id], Retrying, cutoff, maxAttempts)
          <==> now < cutoff && rows[id].deliveryAttempts + 1 < maxAttempts)
  {
    UncontendedUpdate(rows, id, BeginAttempt(now));
  }

  // ------------------------------------------------------------ @Retryable

  datatype RetriedRun = RetriedRun(rows: Rows, result: ConsumerResult, delays: seq<int>, invocations: nat)

  /** The wait before retry k + 1: 1000 ms, doubled each time. */
  function RetryDelay(k: nat): int {
    InitialDelay * Pow2(k)
  }

  /** Spring Retry around `processNotification`, from invocation k on: retry while it throws, at most 3 times in all. */
  function RetriedFrom(rows: Rows, id: string, invs: seq<Invocation>, k: nat, delays: seq<int>): (run: RetriedRun)
    requires k < MaxInvocations == |invs|
    ensures k < run.invocations <= MaxInvocations
    ensures |run.delays| == |delays| + run.invocations - k - 1
    decreases MaxInvocations - k
  {
    var c := Consume(rows, id, invs[k]);
    if c.result.Returned? || k + 1 == MaxInvocations then RetriedRun(c.rows, c.result, delays, k + 1)
    else RetriedFrom(c.rows, id, invs, k + 1, delays + [RetryDelay(k)])
  }

  function Retried(rows: Rows, id: string, invs: seq<Invocation>): (run: RetriedRun)
    requires |invs| == MaxInvocations
    ensures 1 <= run.invocations <= MaxInvocations
  {
    RetriedFrom(rows, id, invs, 0, [])
  }

  /** The waits between invocations are 1000 ms and then 2000 ms. */
  lemma {:induction false} RetryDelaysDouble(rows: Rows, id: string, invs: seq<Invocation>, k: nat, delays: seq<int>)
    requires k < MaxInvocations == |invs| && delays == [1000, 2000][..k]
    ensures var run := RetriedFrom(rows, id, invs, k, delays);
      run.delays == [1000, 2000][..run.invocations - 1]
    decreases MaxInvocations - k
  {
    var c := Consume(rows, id, invs[k]);
    if !(c.result.Returned? || k + 1 == MaxInvocations) {
      assert delays + [RetryDelay(k)] == [1000, 2000][..k + 1];
      RetryDelaysDouble(c.rows, id, invs, k + 1, delays + [RetryDelay(k)]);
    }
  }

  /**
   * A record at 0 attempts whose adapter throws on every try is invoked
   * three times by Spring Retry and ends PERMANENT_FAILURE with 3 attempts,
   * the exception rethrown to the caller.
   */
  lemma ThrowingAdapterExhaustsRetries(rows: Rows, id: string, invs: seq<Invocation>)
    requires |invs| == MaxInvocations && id in rows && rows[id].deliveryAttempts == 0
    requires forall k :: 0 <= k < |invs| ==> Uncontended(invs[k]) && invs[k].adapter.AdapterThrew?
    ensures var run := Retried(rows, id, invs);
      run.invocations == 3 && run.result == Rethrown(invs[2].adapter.message)
      && id in run.rows && run.rows[id].status == PermanentFailure && run.rows[id].deliveryAttempts == 3
  {
    UncontendedInvocation(rows, id, invs[0]);
    var r1 := Consume(rows, id, invs[0]).rows;
    UncontendedInvocation(r1, id, invs[1]);
    var r2 := Consume(r1, id, invs[1]).rows;
    UncontendedInvocation(r2, id, invs[2]);
  }

  class PushNotificationConsumer {
    const store: NotificationStore
    const retryHelper: TransactionRetryHelper

    constructor (store: NotificationStore, retryHelper: TransactionRetryHelper)
      requires retryHelper.store == store
      ensures this.store == store && this.retryHelper == retryHelper
    {
      this.store := store;
      this.retryHelper := retryHelper;
    }

    /** `handleFailure`. */
    method HandleFailure(id: string, msg: Option<string>, now: int, env: seq<Interference>) returns (o: RetryOutcome)
      requires store.Valid() && retryHelper.store == store
      modifies store
      ensures store.Valid()
      ensures var run := FailureRecorded(old(store.rows), id, msg, now, env);
        store.rows == run.rows && o == run.outcome
    {
      var delays;
      o, delays := retryHelper.UpdateNotificationWithRetry(id, RecordFailure(msg, now), env);
    }

    /** The try block of `processNotification`: how it exits. */
    method RunTryBlock(id: string, inv: Invocation) returns (exit: Exit)
      requires store.Valid() && retryHelper.store == store
      modifies store
      ensures store.Valid()
      ensures TryBlock(old(store.rows), id, inv) == (store.rows, exit)
    {
      exit := Normal;
      var o, _ := retryHelper.UpdateNotificationWithRetry(id, BeginAttempt(inv.now), inv.begin);
      if Raised(o) {
        return Exception(inv.helperError);
      }
      var loaded := store.FindById(id);
      if loaded.None? {
        return Exception(Some(NotFoundMessage));
      }
      match inv.adapter
      case Delivered =>
        var o2, _ := retryHelper.UpdateNotificationWithRetry(id, MarkSent(inv.now), inv.finish);
        if Raised(o2) {
          exit := Exception(inv.helperError);
        }
      case Undelivered =>
        var o2 := HandleFailure(id, Some(ProviderFailureMessage), inv.now, inv.finish);
        if Raised(o2) {
          exit := Exception(inv.helperError);
        }
      case AdapterThrew(m) =>
        exit := Exception(m);
    }

    /** `processNotification` for the record with this id: the try block, then the catch block on an exception. */
    method ProcessNotification(id: string, inv: Invocation) returns (result: ConsumerResult)
      requires store.Valid() && retryHelper.store == store
      modifies store
      ensures store.Valid()
      ensures Consume(old(store.rows), id, inv) == ConsumeRun(store.rows, result)
    {
      var exit := RunTryBlock(id, inv);
      if exit.Exception? {
        var o3 := HandleFailure(id, exit.message, inv.now, inv.recovery);
        result := if Raised(o3) then Rethrown(inv.helperError) else Rethrown(exit.message);
      } else {
        result := Returned;
      }
    }

    /** `processNotification` under `@Retryable`: invoked again after each exception, at most three times. */
    method ProcessWithRetry(id: string, invs: seq<Invocation>) returns (result: ConsumerResult, delays: seq<int>)
      requires |invs| == MaxInvocations
      requires store.Valid() && retryHelper.store == store
      modifies store
      ensures store.Valid()
      ensures Retried(old(store.rows), id, invs) == RetriedRun(store.rows, result, delays, Retried(old(store.rows), id, invs).invocations)
    {
      var k := 0;
      delays := [];
      while true
        invariant 0 <= k < MaxInvocations
        invariant store.Valid()
        invariant RetriedFrom(store.rows, id, invs, k, delays) == Retried(old(store.rows), id, invs)
        decreases MaxInvocations - k
      {
        result := ProcessNotification(id, invs[k]);
        if result.Returned? || k + 1 == MaxInvocations {
          return;
        }
        delays := delays + [RetryDelay(k)];
        k := k + 1;
      }
    }
  }
}
