/**
 * `TransactionRetryHelper.updateNotificationWithRetry`: up to five
 * read-modify-write transactions, each loading the row fresh, applying the
 * updater and saving it. A save that loses an optimistic-lock race is retried
 * after 100 * 2^attempt ms; the fifth loss is rethrown. What other writers
 * do between tries is an oracle `env`: at try k, `VersionConflict(theirs)`
 * means another writer committed `theirs` first, `OtherFailure` an exception
 * that is not an optimistic-lock failure.
 */
module TransactionRetry {
  import opened Common
  import opened Entity
  import opened Repository
  import opened Updaters

  const MaxRetries := 5

  datatype Interference = Clear | VersionConflict(theirs: Updater) | OtherFailure

  datatype RetryOutcome =
    | Updated      // the updater's row was committed
    | NotFound     // no row with this id: return without calling the updater
    | LockFailure  // the fifth optimistic-lock failure, rethrown
    | Threw        // another exception, propagated at once

  /** Rows after the helper returns, its outcome, the sleeps it made, and how many tries it ran. */
  datatype RetryRun = RetryRun(rows: Rows, outcome: RetryOutcome, delays: seq<int>, tries: nat)

  function EnvAt(env: seq<Interference>, k: nat): Interference {
    if k < |env| then env[k] else Clear
  }

  function Pow2(k: nat): (r: nat)
    ensures r >= 1
  {
    if k == 0 then 1 else 2 * Pow2(k - 1)
  }

  /** The sleep after the `attempt`-th failed try. */
  function BackoffDelay(attempt: nat): int {
    100 * Pow2(attempt)
  }

  /** The stored row after one committed read-modify-write by `u`. */
  function Written(u: Updater, n: Notification): Notification {
    Committed(Apply(u, n))
  }

  /** The retry loop seen from the one row it touches: its value, the outcome, the sleeps, the tries. */
  datatype RowRun = RowRun(row: Notification, outcome: RetryOutcome, delays: seq<int>, tries: nat)

  /**
   * The loop from try `attempt` on, for a stored row `n`, with the sleeps
   * made so far. A lost race leaves the competing writer's commit, which the
   * next try re-reads.
   */
  function RetryRowFrom(n: Notification, u: Updater, env: seq<Interference>, attempt: nat, delays: seq<int>)
    : (run: RowRun)
    requires attempt < MaxRetries
    ensures attempt < run.tries <= MaxRetries
    ensures |run.delays| == |delays| + run.tries - attempt - 1
    ensures run.outcome != NotFound
    decreases MaxRetries - attempt
  {
    match EnvAt(env, attempt)
    case Clear => RowRun(Written(u, n), Updated, delays, attempt + 1)
    case OtherFailure => RowRun(n, Threw, delays, attempt + 1)
    case VersionConflict(theirs) =>
      if attempt + 1 >= MaxRetries then RowRun(Written(theirs, n), LockFailure, delays, attempt + 1)
      else RetryRowFrom(Written(theirs, n), u, env, attempt + 1, delays + [BackoffDelay(attempt + 1)])
  }

  /**
   * `updateNotificationWithRetry` on the table: "not found" after one try
   * exactly when there is no row with this id, and then nothing is written;
   * otherwise only that row changes, as `RetryRowFrom` says.
   */
  function RetryUpdate(rows: Rows, id: string, u: Updater, env: seq<Interference>): (run: RetryRun)
    ensures 1 <= run.tries <= MaxRetries && |run.delays| == run.tries - 1
    ensures run.outcome == NotFound <==> id !in rows
    ensures id !in rows ==> run.rows == rows && run.tries == 1
    ensures id in rows ==> run.rows.Keys == rows.Keys && forall k :: k in rows && k != id ==> run.rows[k] == rows[k]
  {
    if id !in rows then RetryRun(rows, NotFound, [], 1)
    else
      var r := RetryRowFrom(rows[id], u, env, 0, []);
      RetryRun(rows[id := r.row], r.outcome, r.delays, r.tries)
  }

  /** The row after the competing writers of tries 0..k-1 have committed. */
  function Interfered(n: Notification, env: seq<Interference>, k: nat): Notification {
    if k == 0 then n
    else
      var r := Interfered(n, env, k - 1);
      if EnvAt(env, k - 1).VersionConflict? then Written(EnvAt(env, k - 1).theirs, r) else r
  }

  /** The sleeps are 200, 400, 800 and 1600 ms: the k-th is 100 * 2^k. */
  lemma {:induction false} DelaysAreExponential(n: Notification, u: Updater, env: seq<Interference>,
                                                 attempt: nat, delays: seq<int>)
    requires attempt < MaxRetries && |delays| == attempt
    requires forall i :: 0 <= i < |delays| ==> delays[i] == BackoffDelay(i + 1)
    ensures var run := RetryRowFrom(n, u, env, attempt, delays);
      forall i :: 0 <= i < |run.delays| ==> run.delays[i] == BackoffDelay(i + 1)
    decreases MaxRetries - attempt
  {
    if EnvAt(env, attempt).VersionConflict? && attempt + 1 < MaxRetries {
      DelaysAreExponential(Written(EnvAt(env, attempt).theirs, n), u, env, attempt + 1,
        delays + [BackoffDelay(attempt + 1)]);
    }
  }

  lemma BackoffSchedule()
    ensures BackoffDelay(1) == 200 && BackoffDelay(2) == 400 && BackoffDelay(3) == 800 && BackoffDelay(4) == 1600
  {
  }

  /**
   * What each outcome leaves in the row, starting from try `attempt` after
   * `attempt` lost races: on success the updater applied once to the row as
   * re-read at the last try; on another exception the competing writers'
   * commits so far; on the optimistic-lock failure all five of them and
   * nothing of the updater.
   */
  lemma {:induction false} OutcomeRows(n0: Notification, u: Updater, env: seq<Interference>,
                                       attempt: nat, delays: seq<int>)
    requires attempt < MaxRetries
    ensures var run := RetryRowFrom(Interfered(n0, env, attempt), u, env, attempt, delays);
      var before := Interfered(n0, env, run.tries - 1);
      (run.outcome == Updated ==> run.row == Written(u, before))
      && (run.outcome == Threw ==> run.row == before)
      && (run.outcome == LockFailure ==> run.tries == MaxRetries && run.row == Interfered(n0, env, run.tries))
    decreases MaxRetries - attempt
  {
    var n := Interfered(n0, env, attempt);
    if EnvAt(env, attempt).VersionConflict? {
      assert Interfered(n0, env, attempt + 1) == Written(EnvAt(env, attempt).theirs, n);
      if attempt + 1 < MaxRetries {
        OutcomeRows(n0, u, env, attempt + 1, delays + [BackoffDelay(attempt + 1)]);
      }
    }
  }

  /** The helper gives up with the optimistic-lock failure exactly when the first five tries all lose their race. */
  lemma {:induction false} LockFailureIffFiveConflicts(n: Notification, u: Updater, env: seq<Interference>,
                                                       attempt: nat, delays: seq<int>)
    requires attempt < MaxRetries
    ensures RetryRowFrom(n, u, env, attempt, delays).outcome == LockFailure
      <==> forall k :: attempt <= k < MaxRetries ==> EnvAt(env, k).VersionConflict?
    decreases MaxRetries - attempt
  {
    match EnvAt(env, attempt)
    case Clear =>
    case OtherFailure =>
    case VersionConflict(theirs) =>
      if attempt + 1 < MaxRetries {
        LockFailureIffFiveConflicts(Written(theirs, n), u, env, attempt + 1, delays + [BackoffDelay(attempt + 1)]);
      }
  }

  /** A try that meets no interference ends the loop with the update committed. */
  lemma FirstClearTryCommits(rows: Rows, id: string, u: Updater, env: seq<Interference>)
    requires id in rows && EnvAt(env, 0).Clear?
    ensures RetryUpdate(rows, id, u, env) == RetryRun(rows[id := Written(u, rows[id])], Updated, [], 1)
  {
  }

  /** What one try does to the table: `finished` is `None` when the try lost its race and the loop goes on. */
  predicate TryDid(rows: Rows, rows': Rows, id: string, u: Updater, step: Interference, finished: Option<RetryOutcome>) {
    if id !in rows then finished == Some(NotFound) && rows' == rows
    else match step
      case Clear => finished == Some(Updated) && rows' == rows[id := Written(u, rows[id])]
      case OtherFailure => finished == Some(Threw) && rows' == rows
      case VersionConflict(theirs) => finished.None? && rows' == rows[id := Written(theirs, rows[id])]
  }

  /**
   * The loop's invariant: the table is the original one with only row `id`
   * replaced, and what is left of the loop from `attempt` on ends as the
   * whole loop does.
   */
  ghost predicate LoopAt(rows0: Rows, rows: Rows, id: string, u: Updater, env: seq<Interference>, attempt: nat,
                         delays: seq<int>)
  {
    attempt < MaxRetries
    && (id !in rows0 ==> rows == rows0 && attempt == 0 && delays == [])
    && (id in rows0 ==>
          id in rows && rows == rows0[id := rows[id]]
          && RetryRowFrom(rows[id], u, env, attempt, delays) == RetryRowFrom(rows0[id], u, env, 0, []))
  }

  /** Before the first try the invariant holds trivially. */
  lemma LoopStarts(rows0: Rows, id: string, u: Updater, env: seq<Interference>)
    ensures LoopAt(rows0, rows0, id, u, env, 0, [])
  {
    if id in rows0 {
      assert rows0 == rows0[id := rows0[id]];
    }
  }

  /** A try that ends the loop ends it as `RetryUpdate` says. */
  lemma StepFinishes(rows0: Rows, rows: Rows, rows': Rows, id: string, u: Updater, env: seq<Interference>,
                     attempt: nat, delays: seq<int>, outcome: RetryOutcome)
    requires LoopAt(rows0, rows, id, u, env, attempt, delays)
    requires TryDid(rows, rows', id, u, EnvAt(env, attempt), Some(outcome))
    ensures var run := RetryUpdate(rows0, id, u, env);
      rows' == run.rows && outcome == run.outcome && delays == run.delays
  {
    if id in rows0 {
      assert rows0[id := rows[id]][id := rows'[id]] == rows0[id := rows'[id]];
    }
  }

  /** A fifth lost race ends the loop with the optimistic-lock failure, as `RetryUpdate` says. */
  lemma StepGivesUp(rows0: Rows, rows: Rows, rows': Rows, id: string, u: Updater, env: seq<Interference>,
                    attempt: nat, delays: seq<int>)
    requires LoopAt(rows0, rows, id, u, env, attempt, delays) && attempt + 1 >= MaxRetries
    requires TryDid(rows, rows', id, u, EnvAt(env, attempt), None)
    ensures var run := RetryUpdate(rows0, id, u, env);
      rows' == run.rows && run.outcome == LockFailure && delays == run.delays
  {
    assert rows0[id := rows[id]][id := rows'[id]] == rows0[id := rows'[id]];
  }

  /** An earlier lost race keeps the invariant for the next try, after the sleep. */
  lemma StepContinues(rows0: Rows, rows: Rows, rows': Rows, id: string, u: Updater, env: seq<Interference>,
                      attempt: nat, delays: seq<int>)
    requires LoopAt(rows0, rows, id, u, env, attempt, delays) && attempt + 1 < MaxRetries
    requires TryDid(rows, rows', id, u, EnvAt(env, attempt), None)
    ensures LoopAt(rows0, rows', id, u, env, attempt + 1, delays + [BackoffDelay(attempt + 1)])
  {
    assert rows0[id := rows[id]][id := rows'[id]] == rows0[id := rows'[id]];
  }

  class TransactionRetryHelper {
    const store: NotificationStore

    constructor (store: NotificationStore)
      ensures this.store == store
    {
      this.store := store;
    }

    /** One read-modify-write: the loaded row becomes an entity, the updater runs on it, and it is saved. */
    method CommitUpdate(u: Updater, n: Notification)
      requires store.Valid() && n.id.Some? && n.id.value in store.rows && store.rows[n.id.value] == n
      modifies store
      ensures store.Valid()
      ensures store.rows == old(store.rows)[n.id.value := Written(u, n)]
    {
      var e := new NotificationEntity.FromRow(n);
      ApplyTo(u, e);
      store.SaveExisting(e.Row());
    }

    /**
     * One try of the loop body: a missing row ends the loop with nothing
     * written; otherwise the try commits the update, fails with another
     * exception, or loses the race to the competing writer, whose commit
     * then stands (`None`: try again).
     */
    method Try(id: string, u: Updater, step: Interference) returns (finished: Option<RetryOutcome>)
      requires store.Valid()
      modifies store
      ensures store.Valid()
      ensures TryDid(old(store.rows), store.rows, id, u, step, finished)
    {
      var loaded := store.FindById(id);
      if loaded.None? {
        return Some(NotFound);
      }
      match step
      case Clear =>
        CommitUpdate(u, loaded.value);
        finished := Some(Updated);
      case OtherFailure =>
        finished := Some(Threw);
      case VersionConflict(theirs) =>
        // the competing writer commits first and this transaction rolls back
        CommitUpdate(theirs, loaded.value);
        finished := None;
    }

    /** `updateNotificationWithRetry`. */
    method UpdateNotificationWithRetry(id: string, u: Updater, env: seq<Interference>)
      returns (outcome: RetryOutcome, delays: seq<int>)
      requires store.Valid()
      modifies store
      ensures store.Valid()
      ensures var run := RetryUpdate(old(store.rows), id, u, env);
        store.rows == run.rows && outcome == run.outcome && delays == run.delays
    {
      var attempt := 0;
      delays := [];
      LoopStarts(store.rows, id, u, env);
      while attempt < MaxRetries
        invariant store.Valid()
        invariant LoopAt(old(store.rows), store.rows, id, u, env, attempt, delays)
        decreases MaxRetries - attempt
      {
        ghost var rows := store.rows;
        var finished := Try(id, u, EnvAt(env, attempt));
        if finished.Some? {
          StepFinishes(old(store.rows), rows, store.rows, id, u, env, attempt, delays, finished.value);
          return finished.value, delays;
        }
        if attempt + 1 >= MaxRetries {
          StepGivesUp(old(store.rows), rows, store.rows, id, u, env, attempt, delays);
          return LockFailure, delays;
        }
        StepContinues(old(store.rows), rows, store.rows, id, u, env, attempt, delays);
        attempt := attempt + 1;
        delays := delays + [BackoffDelay(attempt)];
      }
      assert false;
    }
  }
}
