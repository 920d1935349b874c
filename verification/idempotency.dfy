/**
 * `IdempotencyUtil`: the key validity test, the content-derived key, and an
 * in-memory cache of processed notification ids backed by the table. The
 * SHA-256 and Base64 step is an uninterpreted function `digest`.
 */
module Idempotency {
  import opened Common
  import opened Repository
  import opened Admission

  /** `isValidKey`: non-null and not made only of characters that `trim` strips. */
  predicate IsValidKey(key: Option<string>) {
    key.Some? && !TrimsToEmpty(key.value)
  }

  lemma IsValidKeyCharacterised(key: Option<string>)
    ensures IsValidKey(key) <==> key.Some? && exists i :: 0 <= i < |key.value| && key.value[i] > ' '
  {
  }

  lemma IsValidKeyExamples()
    ensures IsValidKey(Some("abc"))
    ensures !IsValidKey(Some("")) && !IsValidKey(Some("   ")) && !IsValidKey(None)
  {
    assert "abc"[0] > ' ';
  }

  /** A key the service generates always passes `isValidKey`: it starts with the lower-cased type name. */
  lemma GeneratedKeysAreValid(t: NotificationType, req: NotificationRequest, uuid: string)
    requires |uuid| >= 8
    ensures IsValidKey(Some(GeneratedKey(t, req, uuid)))
  {
    var key := GeneratedKey(t, req, uuid);
    assert key[0] == LowerAscii(TypeName(t))[0];
    assert key[0] > ' ';
  }

  /**
   * The admission path only replaces a null or empty key, so a caller's
   * all-blank key is kept and used for duplicate detection although
   * `isValidKey` rejects it.
   */
  lemma BlankCallerKeyIsKept(t: NotificationType, req: NotificationRequest, uuid: string)
    requires |uuid| >= 8 && req.idempotencyKey == Some("   ")
    ensures EffectiveKey(t, req, uuid) == "   " && !IsValidKey(Some(EffectiveKey(t, req, uuid)))
  {
  }

  /** `generateDeterministicKey`: the digest of user id, template id and content joined by ':'. */
  function DeterministicKey(digest: string -> string, userId: string, templateId: string, content: string): string {
    digest(userId + ":" + templateId + ":" + content)
  }

  /**
   * The joined input is ambiguous: a ':' inside a field moves the boundary,
   * so distinct triples can give the same key whatever the digest.
   */
  lemma DeterministicKeyInputIsAmbiguous(digest: string -> string)
    ensures ("a:b", "c") != ("a", "b:c")
    ensures DeterministicKey(digest, "a:b", "c", "d") == DeterministicKey(digest, "a", "b:c", "d")
  {
    assert "a:b" + ":" + "c" + ":" + "d" == "a" + ":" + "b:c" + ":" + "d";
  }

  /** What `isAlreadyProcessed` answers: a cache hit, or a stored record that is SENT. */
  predicate AlreadyProcessed(processed: set<string>, rows: Rows, id: string) {
    id in processed || (id in rows && rows[id].status == Sent)
  }

  class IdempotencyUtil {
    const store: NotificationStore
    var processed: set<string>

    constructor (store: NotificationStore)
      ensures this.store == store && processed == {}
    {
      this.store := store;
      processed := {};
    }

    /** `isAlreadyProcessed`: the cache first; the table only on a miss. */
    method IsAlreadyProcessed(id: string) returns (r: bool)
      ensures r <==> id in processed || (id in store.rows && store.rows[id].status == Sent)
      ensures id !in processed ==> (r <==> id in store.rows && store.rows[id].status == Sent)
    {
      if id in processed {
        return true;
      }
      var n := store.FindById(id);
      r := n.Some? && n.value.status == Sent;
    }

    /** `markAsProcessed`: the cache only grows, and marking twice is marking once. */
    method MarkAsProcessed(id: string)
      modifies this
      ensures processed == old(processed) + {id}
      ensures AlreadyProcessed(processed, store.rows, id)
    {
      processed := processed + {id};
    }
  }

  /** Once marked, an id stays processed whatever the table holds later. */
  lemma MarkedStaysProcessed(processed: set<string>, rows: Rows, id: string, others: set<string>)
    requires id in processed
    ensures AlreadyProcessed(processed + others, rows, id)
  {
  }
}
