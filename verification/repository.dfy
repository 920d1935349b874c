/**
 * The notification table and the queries of `NotificationRepository`.
 * The table is a map from id to row; the unique column `idempotencyKey`
 * becomes the store invariant `KeysUnique`.
 */
module Repository {
  import opened Common

  type Rows = map<string, Notification>

  /** No two stored rows share a non-null idempotency key (the unique column). */
  ghost predicate KeysUnique(rows: Rows) {
    forall a, b :: a in rows && b in rows && a != b && rows[a].idempotencyKey.Some? ==>
      rows[a].idempotencyKey != rows[b].idempotencyKey
  }

  /** Every row is stored under its own id. */
  ghost predicate IdsMatch(rows: Rows) {
    forall k :: k in rows ==> rows[k].id == Some(k)
  }

  ghost predicate KeyInUse(rows: Rows, key: string) {
    exists k :: k in rows && rows[k].idempotencyKey == Some(key)
  }

  // ------------------------------------------------------------ queries

  /** The WHERE clause of `findRetryableNotifications`; a null `lastAttemptedAt` never compares true. */
  predicate IsRetryable(n: Notification, status: Status, cutoff: int, maxAttempts: int) {
    n.status == status && n.lastAttemptedAt.Some? && n.lastAttemptedAt.value < cutoff
    && n.deliveryAttempts < maxAttempts
  }

  /** The WHERE clause of `findFailedNotificationsForDLQ`. */
  predicate IsDeadLetter(n: Notification, status: Status, maxAttempts: int) {
    n.status == status && n.deliveryAttempts >= maxAttempts
  }

  function FindRetryableNotifications(rows: Rows, status: Status, cutoff: int, maxAttempts: int): (r: Rows)
    ensures r.Keys <= rows.Keys
    ensures forall k :: k in r ==> r[k] == rows[k]
    ensures forall k :: k in rows ==> (k in r <==> IsRetryable(rows[k], status, cutoff, maxAttempts))
  {
    map k | k in rows && IsRetryable(rows[k], status, cutoff, maxAttempts) :: rows[k]
  }

  function FindFailedNotificationsForDLQ(rows: Rows, status: Status, maxAttempts: int): (r: Rows)
    ensures r.Keys <= rows.Keys
    ensures forall k :: k in r ==> r[k] == rows[k]
    ensures forall k :: k in rows ==> (k in r <==> IsDeadLetter(rows[k], status, maxAttempts))
  {
    map k | k in rows && IsDeadLetter(rows[k], status, maxAttempts) :: rows[k]
  }

  function FindByUserId(rows: Rows, userId: string): (r: Rows)
    ensures r.Keys <= rows.Keys
    ensures forall k :: k in r ==> r[k] == rows[k]
    ensures forall k :: k in rows ==> (k in r <==> rows[k].userId == userId)
  {
    map k | k in rows && rows[k].userId == userId :: rows[k]
  }

  function FindByCorrelationId(rows: Rows, correlationId: string): (r: Rows)
    ensures r.Keys <= rows.Keys
    ensures forall k :: k in r ==> r[k] == rows[k]
    ensures forall k :: k in rows ==> (k in r <==> rows[k].correlationId == Some(correlationId))
  {
    map k | k in rows && rows[k].correlationId == Some(correlationId) :: rows[k]
  }

  /** The ids of the user's rows in that status. */
  function ByUserAndStatus(rows: Rows, userId: string, status: Status): set<string> {
    set k | k in rows && rows[k].userId == userId && rows[k].status == status
  }

  /** `countByUserIdAndStatus`: the number of the user's rows in that status. */
  function CountByUserIdAndStatus(rows: Rows, userId: string, status: Status): (c: nat)
    ensures c <= |rows|
    ensures c == 0 <==> forall k :: k in rows ==> rows[k].userId != userId || rows[k].status != status
  {
    var ids := ByUserAndStatus(rows, userId, status);
    SubsetCard(ids, rows.Keys);
    EmptyIffNoMember(ids);
    assert forall k :: k in rows && rows[k].userId == userId && rows[k].status == status ==> k in ids;
    |ids|
  }

  /** `createdAt > since`; a null `createdAt` is not counted. */
  predicate CreatedAfter(n: Notification, since: int) {
    n.createdAt.Some? && n.createdAt.value > since
  }

  function RecentByUser(rows: Rows, userId: string, since: int): set<string> {
    set k | k in rows && rows[k].userId == userId && CreatedAfter(rows[k], since)
  }

  function RecentByUserAndTemplate(rows: Rows, userId: string, templateId: string, since: int): set<string> {
    set k | k in rows && rows[k].userId == userId && rows[k].templateId == templateId && CreatedAfter(rows[k], since)
  }

  /** `countRecentNotificationsByUser`: the user's rows created after `since`. */
  function CountRecentNotificationsByUser(rows: Rows, userId: string, since: int): (c: nat)
    ensures c <= |rows|
    ensures c == 0 <==> forall k :: k in rows ==> rows[k].userId != userId || !CreatedAfter(rows[k], since)
  {
    var ids := RecentByUser(rows, userId, since);
    SubsetCard(ids, rows.Keys);
    EmptyIffNoMember(ids);
    assert forall k :: k in rows && rows[k].userId == userId && CreatedAfter(rows[k], since) ==> k in ids;
    |ids|
  }

  /** `countRecentNotificationsByUserAndTemplate`: the same, restricted to one template. */
  function CountRecentNotificationsByUserAndTemplate(rows: Rows, userId: string, templateId: string, since: int): (c: nat)
    ensures c <= |rows|
    ensures c == 0 <==> forall k :: k in rows ==>
      rows[k].userId != userId || rows[k].templateId != templateId || !CreatedAfter(rows[k], since)
  {
    var ids := RecentByUserAndTemplate(rows, userId, templateId, since);
    SubsetCard(ids, rows.Keys);
    EmptyIffNoMember(ids);
    assert forall k :: (k in rows && rows[k].userId == userId && rows[k].templateId == templateId
                        && CreatedAfter(rows[k], since)) ==> k in ids;
    |ids|
  }

  /**
   * Storing a row under a new id raises the count by one exactly when the
   * row is the user's and has the status; with the empty table counting
   * zero, this fixes the count of every table.
   */
  lemma CountByUserIdAndStatusInsert(rows: Rows, id: string, n: Notification, userId: string, status: Status)
    requires id !in rows
    ensures CountByUserIdAndStatus(rows[id := n], userId, status)
         == CountByUserIdAndStatus(rows, userId, status) + (if n.userId == userId && n.status == status then 1 else 0)
  {
    var before := ByUserAndStatus(rows, userId, status);
    var after := ByUserAndStatus(rows[id := n], userId, status);
    if n.userId == userId && n.status == status {
      assert after == before + {id};
    } else {
      assert after == before;
    }
  }

  /** The same for `countRecentNotificationsByUser`: one more iff the new row is the user's and created after `since`. */
  lemma CountRecentNotificationsByUserInsert(rows: Rows, id: string, n: Notification, userId: string, since: int)
    requires id !in rows
    ensures CountRecentNotificationsByUser(rows[id := n], userId, since)
         == CountRecentNotificationsByUser(rows, userId, since) + (if n.userId == userId && CreatedAfter(n, since) then 1 else 0)
  {
    var before := RecentByUser(rows, userId, since);
    var after := RecentByUser(rows[id := n], userId, since);
    if n.userId == userId && CreatedAfter(n, since) {
      assert after == before + {id};
    } else {
      assert after == before;
    }
  }

  /** The same for `countRecentNotificationsByUserAndTemplate`. */
  lemma CountRecentNotificationsByUserAndTemplateInsert(rows: Rows, id: string, n: Notification,
                                                        userId: string, templateId: string, since: int)
    requires id !in rows
    ensures CountRecentNotificationsByUserAndTemplate(rows[id := n], userId, templateId, since)
         == CountRecentNotificationsByUserAndTemplate(rows, userId, templateId, since)
            + (if n.userId == userId && n.templateId == templateId && CreatedAfter(n, since) then 1 else 0)
  {
    var before := RecentByUserAndTemplate(rows, userId, templateId, since);
    var after := RecentByUserAndTemplate(rows[id := n], userId, templateId, since);
    if n.userId == userId && n.templateId == templateId && CreatedAfter(n, since) {
      assert after == before + {id};
    } else {
      assert after == before;
    }
  }

  /**
   * A row returned by the retry sweep never appears in the dead-letter sweep
   * for the same status and attempt limit, and every row with that status is
   * in exactly one of them once its last attempt is older than the cutoff.
   */
  lemma RetryableAndDeadLetterPartition(rows: Rows, status: Status, cutoff: int, maxAttempts: int)
    ensures FindRetryableNotifications(rows, status, cutoff, maxAttempts).Keys
         !! FindFailedNotificationsForDLQ(rows, status, maxAttempts).Keys
    ensures forall k :: (k in rows && rows[k].status == status && rows[k].lastAttemptedAt.Some?
         && rows[k].lastAttemptedAt.value < cutoff) ==>
           (k in FindRetryableNotifications(rows, status, cutoff, maxAttempts)
           || k in FindFailedNotificationsForDLQ(rows, status, maxAttempts))
  {
  }

  /** Restricting the user count by template never counts more rows. */
  lemma RecentTemplateCountAtMostUserCount(rows: Rows, userId: string, templateId: string, since: int)
    ensures CountRecentNotificationsByUserAndTemplate(rows, userId, templateId, since)
         <= CountRecentNotificationsByUser(rows, userId, since)
  {
    SubsetCard(RecentByUserAndTemplate(rows, userId, templateId, since), RecentByUser(rows, userId, since));
  }

  lemma EmptyIffNoMember<T>(s: set<T>)
    ensures |s| == 0 <==> forall x :: x !in s
  {
    if |s| != 0 {
      assert s != {};
      var x :| x in s;
    }
  }

  lemma {:induction false} SubsetCard<T>(a: set<T>, b: set<T>)
    requires a <= b
    ensures |a| <= |b|
  {
    if a != {} {
      var x :| x in a;
      SubsetCard(a - {x}, b - {x});
    }
  }

  /** The ids holding a given idempotency key. */
  function HoldersOf(rows: Rows, key: string): set<string> {
    set k | k in rows && rows[k].idempotencyKey == Some(key)
  }

  /** The unique constraint's view of a key and `findByIdempotencyKey`'s agree: a key is in use iff some row holds it. */
  lemma KeyInUseIffHeld(rows: Rows, key: string)
    ensures KeyInUse(rows, key) <==> HoldersOf(rows, key) != {}
  {
    if KeyInUse(rows, key) {
      var k :| k in rows && rows[k].idempotencyKey == Some(key);
      assert k in HoldersOf(rows, key);
    }
  }

  /** A table that keeps `KeysUnique` holds at most one row per idempotency key. */
  lemma AtMostOneRowPerKey(rows: Rows, key: string)
    requires KeysUnique(rows)
    ensures |HoldersOf(rows, key)| <= 1
  {
    var w := HoldersOf(rows, key);
    if w != {} {
      var a :| a in w;
      assert w == {a};
    }
  }

  // ------------------------------------------------------------ the table

  datatype StoreError = UniqueKeyViolation

  datatype SaveResult = Saved(row: Notification) | Rejected(error: StoreError)

  /** The row as a versioned `save` of an existing entity commits it: the `@Version` column goes up by one. */
  function Committed(n: Notification): (r: Notification)
    ensures r.version.Some? && r.version.value == (if n.version.Some? then n.version.value + 1 else 0)
    ensures r.(version := n.version) == n
  {
    n.(version := Some(if n.version.Some? then n.version.value + 1 else 0))
  }

  /** The `notifications` table behind `NotificationRepository`. */
  class NotificationStore {
    var rows: Rows

    ghost predicate Valid()
      reads this
    {
      KeysUnique(rows) && IdsMatch(rows)
    }

    constructor ()
      ensures Valid() && rows == map[]
    {
      rows := map[];
    }

    /** `findById`. */
    method FindById(id: string) returns (r: Option<Notification>)
      ensures r.Some? <==> id in rows
      ensures r.Some? ==> r.value == rows[id]
    {
      r := if id in rows then Some(rows[id]) else None;
    }

    /**
     * `findByIdempotencyKey`: scans the table; the unique key makes the
     * answer the one row holding the key, if any.
     */
    method FindByIdempotencyKey(key: string) returns (r: Option<Notification>)
      requires Valid()
      ensures r.None? <==> !KeyInUse(rows, key)
      ensures r.Some? ==> (r.value.idempotencyKey == Some(key)
         && r.value.id.Some? && r.value.id.value in rows && rows[r.value.id.value] == r.value)
    {
      var unseen := rows.Keys;
      r := None;
      while unseen != {}
        invariant unseen <= rows.Keys
        invariant r.None? ==> forall k :: k in rows && k !in unseen ==> rows[k].idempotencyKey != Some(key)
        invariant r.Some? ==> (r.value.idempotencyKey == Some(key)
          && r.value.id.Some? && r.value.id.value in rows && rows[r.value.id.value] == r.value)
        decreases unseen
      {
        var k :| k in unseen;
        if rows[k].idempotencyKey == Some(key) {
          r := Some(rows[k]);
        }
        unseen := unseen - {k};
      }
    }

    /**
     * `save` of a new entity: the table assigns the generated id `freshId`
     * and version 0; a second row with the same idempotency key violates the
     * unique column and nothing is stored.
     */
    method Insert(n: Notification, freshId: string) returns (r: SaveResult)
      requires Valid()
      requires freshId !in rows
      modifies this
      ensures Valid()
      ensures n.idempotencyKey.Some? && KeyInUse(old(rows), n.idempotencyKey.value) ==>
        r == Rejected(UniqueKeyViolation) && rows == old(rows)
      ensures !(n.idempotencyKey.Some? && KeyInUse(old(rows), n.idempotencyKey.value)) ==>
        r == Saved(n.(id := Some(freshId), version := Some(0)))
        && rows == old(rows)[freshId := r.row]
    {
      if n.idempotencyKey.Some? {
        var existing := FindByIdempotencyKey(n.idempotencyKey.value);
        if existing.Some? {
          return Rejected(UniqueKeyViolation);
        }
      }
      var saved := n.(id := Some(freshId), version := Some(0));
      rows := rows[freshId := saved];
      r := Saved(saved);
    }

    /**
     * `save` of an entity loaded from the table and changed without
     * touching its idempotency key: the row is replaced and its version
     * raised. Whether another writer got there first is decided by the
     * caller, which stands for the optimistic-lock check.
     */
    method SaveExisting(n: Notification)
      requires Valid()
      requires n.id.Some? && n.id.value in rows && n.idempotencyKey == rows[n.id.value].idempotencyKey
      modifies this
      ensures Valid()
      ensures rows == old(rows)[n.id.value := Committed(n)]
    {
      rows := rows[n.id.value := Committed(n)];
    }

    /**
     * `updateNotificationStatus`: a bulk JPQL update of status and
     * `updatedAt` on the row with this id (the version column is not
     * touched); returns the number of rows changed.
     */
    method UpdateNotificationStatus(id: string, newStatus: Status, now: int) returns (count: int)
      requires Valid()
      modifies this
      ensures Valid()
      ensures count == (if id in old(rows) then 1 else 0)
      ensures rows == if id in old(rows)
        then old(rows)[id := old(rows)[id].(status := newStatus, updatedAt := Some(now))]
        else old(rows)
    {
      if id in rows {
        rows := rows[id := rows[id].(status := newStatus, updatedAt := Some(now))];
        count := 1;
      } else {
        count := 0;
      }
    }

    /**
     * `updateAfterDeliveryAttempt`: on the row with this id, one more
     * delivery attempt, the new status and error message, and both
     * timestamps set to the attempt time.
     */
    method UpdateAfterDeliveryAttempt(id: string, status: Status, attemptTime: int, errorMessage: Option<string>)
      returns (count: int)
      requires Valid()
      modifies this
      ensures Valid()
      ensures count == (if id in old(rows) then 1 else 0)
      ensures rows.Keys == old(rows).Keys
      ensures forall k :: k in rows && k != id ==> rows[k] == old(rows)[k]
      ensures id in rows ==> rows[id] == old(rows)[id].(status := status,
        lastAttemptedAt := Some(attemptTime), updatedAt := Some(attemptTime),
        deliveryAttempts := old(rows)[id].deliveryAttempts + 1, errorMessage := errorMessage)
    {
      if id in rows {
        var n := rows[id];
        rows := rows[id := n.(status := status, lastAttemptedAt := Some(attemptTime),
          updatedAt := Some(attemptTime), deliveryAttempts := n.deliveryAttempts + 1,
          errorMessage := errorMessage)];
        count := 1;
      } else {
        count := 0;
      }
    }
  }
}
