/**
 * The JPA entity `Notification` as a mutable object: one field per column,
 * setters that update one field in place, and `Row()` giving the persisted
 * value the fields currently describe.
 */
module Entity {
  import opened Common

  class NotificationEntity {
    var id: Option<string>
    var userId: string
    var notificationType: NotificationType
    var templateId: string
    var templateParams: Option<map<string, Value>>
    var priority: Priority
    var correlationId: Option<string>
    var status: Status
    var createdAt: Option<int>
    var updatedAt: Option<int>
    var lastAttemptedAt: Option<int>
    var deliveryAttempts: int
    var errorMessage: Option<string>
    var idempotencyKey: Option<string>
    var version: Option<int>

    /** The row these fields describe. */
    function Row(): Notification
      reads this
    {
      Notification(id, userId, notificationType, templateId, templateParams, priority,
        correlationId, status, createdAt, updatedAt, lastAttemptedAt, deliveryAttempts,
        errorMessage, idempotencyKey, version)
    }

    /** An entity loaded from a stored row. */
    constructor FromRow(n: Notification)
      ensures Row() == n
    {
      id, userId, notificationType, templateId := n.id, n.userId, n.notificationType, n.templateId;
      templateParams, priority, correlationId, status := n.templateParams, n.priority, n.correlationId, n.status;
      createdAt, updatedAt, lastAttemptedAt := n.createdAt, n.updatedAt, n.lastAttemptedAt;
      deliveryAttempts, errorMessage, idempotencyKey, version := n.deliveryAttempts, n.errorMessage, n.idempotencyKey, n.version;
    }

    /** `getTemplateParams`: never null. */
    function TemplateParams(): (r: map<string, Value>)
      reads this
      ensures templateParams.None? ==> r == map[]
      ensures templateParams.Some? ==> r == templateParams.value
    {
      ParamsOf(Row())
    }

    /** `setTemplateParams`: a null argument is stored as an empty map, any other as given. */
    method SetTemplateParams(p: Option<map<string, Value>>)
      modifies this
      ensures Row() == old(Row()).(templateParams := Some(if p.None? then map[] else p.value))
      ensures TemplateParams() == (if p.None? then map[] else p.value)
    {
      templateParams := Some(if p.None? then map[] else p.value);
    }

    /**
     * `getTemplateParams().put(k, v)`: the getter hands out the stored map
     * itself, so a `put` on it updates this entity's parameters.
     */
    method PutParam(k: string, v: Value)
      modifies this
      ensures Row() == old(Row()).(templateParams := Some(old(TemplateParams())[k := v]))
      ensures TemplateParams() == old(TemplateParams())[k := v]
    {
      templateParams := Some(TemplateParams()[k := v]);
    }

    method SetStatus(s: Status)
      modifies this
      ensures Row() == old(Row()).(status := s)
    {
      status := s;
    }

    method SetErrorMessage(m: Option<string>)
      modifies this
      ensures Row() == old(Row()).(errorMessage := m)
    {
      errorMessage := m;
    }

    method SetDeliveryAttempts(a: int)
      modifies this
      ensures Row() == old(Row()).(deliveryAttempts := a)
    {
      deliveryAttempts := a;
    }

    method SetLastAttemptedAt(t: Option<int>)
      modifies this
      ensures Row() == old(Row()).(lastAttemptedAt := t)
    {
      lastAttemptedAt := t;
    }

    method SetUpdatedAt(t: Option<int>)
      modifies this
      ensures Row() == old(Row()).(updatedAt := t)
    {
      updatedAt := t;
    }
  }
}
