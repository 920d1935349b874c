# Notification service: admission and delivery, modelled in Dafny

This project models the core of a notification service written in Java/Spring, from an HTTP request to its delivery on a channel:

- **Controller.** `NotificationController` checks that the request is well formed, calls the service, and maps the result to 202, 400, 409 or 429. It also answers status look-ups.
- **Admission.** `NotificationServiceImpl.processNotification` fills in a missing idempotency key and answers a repeated key with the stored record. It then consults two Redis fixed-window counters (`RedisRateLimitingService`): one per user, then one per user and template. Only then does it store a PENDING row and publish it.
- **Publishing.** `KafkaProducerServiceImpl` routes each type to its topic. Inside a transaction the send is deferred until after the commit; outside one it happens at once.
- **Channel providers.** The email, SMS and push providers validate the address parameter, truncate or shape the template parameters, and publish. `NotificationProviderFactory` maps each type to its provider.
- **Push delivery.** `PushNotificationConsumer` counts the attempt, calls the adapter, and marks the row SENT or records a failure. Three failures make the failure permanent. All updates go through `TransactionRetryHelper`, which makes at most five tries when the optimistic lock is lost, with exponential back-off between them.
- **Storage and errors.** `NotificationRepository` provides the queries on the `notifications` table, whose idempotency key is unique. `IdempotencyUtil` holds the key helpers and the processed-id cache. `GlobalExceptionHandler` writes the error bodies.

Where the source updates state in place, the model uses classes: the JPA entity, the table, the Redis counters, the Kafka outbox and the processed-id cache. Their methods are proved against pure functions (`Decide`, `EmailChecked`, `SmsChecked`, `PushChecked`, `RetryUpdate`, `Consume`, `Retried`, `Registry`, `ErrorsMap`, `Delivered`). The properties are then proved about those functions.

Parameters of the model stand in for everything nondeterministic:
- the clock, random UUIDs and generated row ids;
- the broker's replies and whether a transaction is active;
- the push adapter's answer;
- the rows competing writers commit between tries.

## Model

| member | source | states |
|---|---|---|
| Common.Text | src/main/java/com/karboncard/assignment/notificationservice/service/provider/impl/EmailNotificationProvider.java:42 | `toString()` of a parameter fails exactly on a null value; a String is its own text |
| Common.ParamsOf | src/main/java/com/karboncard/assignment/notificationservice/model/entity/Notification.java:78-80 | the parameters as the getter returns them: an empty map for a null column, the stored map otherwise |
| Common.GetOrDefault | src/main/java/com/karboncard/assignment/notificationservice/service/provider/impl/PushNotificationProvider.java:83 | `getOrDefault` gives the stored value, even a null one, when the key is present, else the default |
| Common.NatToString | src/main/java/com/karboncard/assignment/notificationservice/service/impl/RedisRateLimitingService.java:46-48 | `%d` text of a natural number: decimal digits whose value, read left to right, is the number, with no leading '0' except "0" itself |
| Common.DecimalValue | src/main/java/com/karboncard/assignment/notificationservice/service/impl/RedisRateLimitingService.java:46-48 | the number a digit string denotes, read left to right; the reference `NatToString` and `IntToString` are proved against |
| Common.IntToString | src/main/java/com/karboncard/assignment/notificationservice/service/impl/RedisRateLimitingService.java:46-48 | `%d` text of any int: a leading '-' iff negative, then decimal digits whose value is the magnitude, with no leading '0' unless the number is 0 |
| Common.LowerAscii | src/main/java/com/karboncard/assignment/notificationservice/service/impl/NotificationServiceImpl.java:99-100 | lower-casing keeps the length, maps each ASCII capital to its small letter (code + 32) and keeps every other character |
| Common.UpperAscii | src/main/java/com/karboncard/assignment/notificationservice/service/provider/impl/PushNotificationProvider.java:49 | upper-casing keeps the length and maps each character by `Character.toUpperCase` on the letters that upper-case to ASCII |
| Common.IsJavaWhitespace | src/main/java/com/karboncard/assignment/notificationservice/controller/NotificationController.java:71 | the characters `Character.isWhitespace` accepts, which `isBlank` skips |
| Common.IsBlank | src/main/java/com/karboncard/assignment/notificationservice/controller/NotificationController.java:71 | `isBlank`: every character is Java white space |
| Common.TrimsToEmpty | src/main/java/com/karboncard/assignment/notificationservice/util/IdempotencyUtil.java:71 | `trim().isEmpty()`: every character is at or below U+0020 |
| Common.BlankAndTrimDisagree | src/main/java/com/karboncard/assignment/notificationservice/util/IdempotencyUtil.java:71 | the two blankness tests agree on " \t\n", but U+3000 is blank without trimming to empty and U+0000 trims to empty without being blank |
| Common.Utf16Units | src/main/java/com/karboncard/assignment/notificationservice/service/provider/impl/SmsNotificationProvider.java:56 | a character above U+FFFF takes two UTF-16 code units, any other one |
| Common.Utf16Length | src/main/java/com/karboncard/assignment/notificationservice/service/provider/impl/SmsNotificationProvider.java:56 | `String.length()`: between the number of characters and twice it; equal to it iff no character needs a surrogate pair, twice it iff every character does |
| Common.Utf16LengthAppend | src/main/java/com/karboncard/assignment/notificationservice/service/provider/impl/SmsNotificationProvider.java:56 | the UTF-16 length of a concatenation is the sum of the lengths |
| Common.Utf16Prefix | src/main/java/com/karboncard/assignment/notificationservice/service/provider/impl/SmsNotificationProvider.java:59 | the longest prefix within `limit` code units: it fits, and the next character would not |
| Common.BmpTruncateIsPrefix | src/main/java/com/karboncard/assignment/notificationservice/service/provider/impl/SmsNotificationProvider.java:56-59 | without supplementary characters, truncation is `s[..limit]` when the text is longer, else the text |
| Common.SupplementaryCharactersCountTwice | src/main/java/com/karboncard/assignment/notificationservice/service/provider/impl/SmsNotificationProvider.java:56-59 | 100 emoji are 200 code units, so a 160-unit cut keeps only the first 80 |
| Common.Truncate | src/main/java/com/karboncard/assignment/notificationservice/service/provider/impl/SmsNotificationProvider.java:56-59 | the result is a prefix of at most `limit` UTF-16 code units; a text within the limit is unchanged; a longer one is cut to exactly `limit` units, or to one fewer when the cut would split a surrogate pair |
| Entity.NotificationEntity.FromRow | src/main/java/com/karboncard/assignment/notificationservice/model/entity/Notification.java:22-60 | a loaded entity describes exactly the stored row |
| Entity.NotificationEntity.TemplateParams | src/main/java/com/karboncard/assignment/notificationservice/model/entity/Notification.java:78-80 | the getter never returns null: a null column reads as an empty map |
| Entity.NotificationEntity.SetTemplateParams | src/main/java/com/karboncard/assignment/notificationservice/model/entity/Notification.java:82-84 | a null argument is stored as an empty map; no other column changes |
| Entity.NotificationEntity.PutParam | src/main/java/com/karboncard/assignment/notificationservice/model/entity/Notification.java:78-80 | a `put` on the map the getter returns changes this entity's parameters at that one key and nothing else |
| Entity.NotificationEntity.SetStatus | src/main/java/com/karboncard/assignment/notificationservice/model/entity/Notification.java:93 | only the status changes |
| Entity.NotificationEntity.SetErrorMessage | src/main/java/com/karboncard/assignment/notificationservice/model/entity/Notification.java:108 | only the error message changes |
| Entity.NotificationEntity.SetDeliveryAttempts | src/main/java/com/karboncard/assignment/notificationservice/model/entity/Notification.java:105 | only the attempt count changes |
| Entity.NotificationEntity.SetLastAttemptedAt | src/main/java/com/karboncard/assignment/notificationservice/model/entity/Notification.java:102 | only the last attempt time changes |
| Entity.NotificationEntity.SetUpdatedAt | src/main/java/com/karboncard/assignment/notificationservice/model/entity/Notification.java:99 | only the update time changes |
| Repository.FindRetryableNotifications | src/main/java/com/karboncard/assignment/notificationservice/repository/NotificationRepository.java:50-55 | exactly the rows with the status, a last attempt before the cutoff (a null time never matches) and fewer attempts than the limit, unchanged |
| Repository.IsRetryable | src/main/java/com/karboncard/assignment/notificationservice/repository/NotificationRepository.java:50 | the retry sweep's WHERE clause; a null last-attempt time never compares true |
| Repository.IsDeadLetter | src/main/java/com/karboncard/assignment/notificationservice/repository/NotificationRepository.java:101 | the dead-letter sweep's WHERE clause |
| Repository.FindFailedNotificationsForDLQ | src/main/java/com/karboncard/assignment/notificationservice/repository/NotificationRepository.java:101-105 | exactly the rows with the status and at least the maximum number of attempts, unchanged |
| Repository.FindByUserId | src/main/java/com/karboncard/assignment/notificationservice/repository/NotificationRepository.java:25 | exactly the user's rows, unchanged |
| Repository.FindByCorrelationId | src/main/java/com/karboncard/assignment/notificationservice/repository/NotificationRepository.java:35 | exactly the rows carrying that correlation id, unchanged |
| Repository.CountByUserIdAndStatus | src/main/java/com/karboncard/assignment/notificationservice/repository/NotificationRepository.java:85-86 | at most the number of rows; zero iff no row of the user has that status; with `CountByUserIdAndStatusInsert`, exactly the number of matching rows |
| Repository.CountRecentNotificationsByUser | src/main/java/com/karboncard/assignment/notificationservice/repository/NotificationRepository.java:110-113 | at most the number of rows; zero iff no row of the user was created after `since` (a null creation time never counts); with `CountRecentNotificationsByUserInsert`, exactly the number of such rows |
| Repository.CountRecentNotificationsByUserAndTemplate | src/main/java/com/karboncard/assignment/notificationservice/repository/NotificationRepository.java:118-122 | at most the number of rows; zero iff no row of the user and template was created after `since`; with `CountRecentNotificationsByUserAndTemplateInsert`, exactly the number of such rows |
| Repository.CountByUserIdAndStatusInsert | src/main/java/com/karboncard/assignment/notificationservice/repository/NotificationRepository.java:85-86 | storing a row under a new id raises the count by one iff the row is the user's and in that status, and leaves it otherwise |
| Repository.CountRecentNotificationsByUserInsert | src/main/java/com/karboncard/assignment/notificationservice/repository/NotificationRepository.java:110-113 | storing a row under a new id raises the count by one iff the row is the user's and created after `since` |
| Repository.CountRecentNotificationsByUserAndTemplateInsert | src/main/java/com/karboncard/assignment/notificationservice/repository/NotificationRepository.java:118-122 | storing a row under a new id raises the count by one iff the row is the user's, of the template, and created after `since` |
| Repository.RetryableAndDeadLetterPartition | src/main/java/com/karboncard/assignment/notificationservice/repository/NotificationRepository.java:50-55 | for one status and limit, the retry sweep and the dead-letter sweep are disjoint, and together they cover every row of that status whose last attempt is older than the cutoff |
| Repository.RecentTemplateCountAtMostUserCount | src/main/java/com/karboncard/assignment/notificationservice/repository/NotificationRepository.java:110-122 | the recent count for a user and template never exceeds the recent count for the user |
| Repository.AtMostOneRowPerKey | src/main/java/com/karboncard/assignment/notificationservice/model/entity/Notification.java:56-57 | with the unique column, at most one row holds a given idempotency key |
| Repository.KeyInUseIffHeld | src/main/java/com/karboncard/assignment/notificationservice/repository/NotificationRepository.java:40 | the unique column's view of a key and `findByIdempotencyKey`'s agree: a key is in use iff some row holds it |
| Repository.HoldersOf | src/main/java/com/karboncard/assignment/notificationservice/repository/NotificationRepository.java:40 | the ids of the rows whose idempotency key is the given one |
| Repository.Committed | src/main/java/com/karboncard/assignment/notificationservice/model/entity/Notification.java:59-60 | a versioned save raises the version by one (from null to 0) and changes nothing else |
| Repository.NotificationStore.constructor | src/main/java/com/karboncard/assignment/notificationservice/repository/NotificationRepository.java:20 | the empty table satisfies the unique-key and id invariants |
| Repository.NotificationStore.FindById | src/main/java/com/karboncard/assignment/notificationservice/repository/NotificationRepository.java:20 | finds the row iff the id is stored |
| Repository.NotificationStore.FindByIdempotencyKey | src/main/java/com/karboncard/assignment/notificationservice/repository/NotificationRepository.java:40 | empty iff no row holds the key; otherwise the stored row that holds it |
| Repository.NotificationStore.Insert | src/main/java/com/karboncard/assignment/notificationservice/repository/NotificationRepository.java:20 | a key already in use violates the unique column and stores nothing; otherwise the row is stored under the fresh id with version 0; the invariants are kept |
| Repository.NotificationStore.SaveExisting | src/main/java/com/karboncard/assignment/notificationservice/repository/NotificationRepository.java:20 | replaces the row with its committed version; the invariants are kept |
| Repository.NotificationStore.UpdateNotificationStatus | src/main/java/com/karboncard/assignment/notificationservice/repository/NotificationRepository.java:60-62 | changes status and update time of that one row and returns 1, or returns 0 when the id is absent; the version is untouched |
| Repository.NotificationStore.UpdateAfterDeliveryAttempt | src/main/java/com/karboncard/assignment/notificationservice/repository/NotificationRepository.java:67-75 | on that one row: one more attempt, the new status and message, and both times set to the attempt time; no other row changes |
| RateLimiting.ScopesNeverShareAKey | src/main/java/com/karboncard/assignment/notificationservice/service/impl/RedisRateLimitingService.java:89-95 | a per-user key never equals a per-template key |
| RateLimiting.UserRateKey | src/main/java/com/karboncard/assignment/notificationservice/service/impl/RedisRateLimitingService.java:89-91 | the per-user counter key, "rate:user:" and the user id |
| RateLimiting.TemplateRateKey | src/main/java/com/karboncard/assignment/notificationservice/service/impl/RedisRateLimitingService.java:93-95 | the per-template counter key, "rate:template:", the user id, ':' and the template id |
| RateLimiting.UserKeysInjective | src/main/java/com/karboncard/assignment/notificationservice/service/impl/RedisRateLimitingService.java:89-91 | distinct users have distinct counters |
| RateLimiting.IntValue | src/main/java/com/karboncard/assignment/notificationservice/service/impl/RedisRateLimitingService.java:49 | `intValue()` lies in the 32-bit signed range and is the identity inside it |
| RateLimiting.Incremented | src/main/java/com/karboncard/assignment/notificationservice/service/impl/RedisRateLimitingService.java:38 | INCR answers 1 on an absent key, else one more than the stored count |
| RateLimiting.Hit | src/main/java/com/karboncard/assignment/notificationservice/service/impl/RedisRateLimitingService.java:38 | one INCR adds the key if absent, raises it to one more than before, and changes no other counter |
| RateLimiting.ExpiryAfterHit | src/main/java/com/karboncard/assignment/notificationservice/service/impl/RedisRateLimitingService.java:39-41 | EXPIRE is set to the window when INCR creates the key, and the TTLs are untouched when the key already held a positive count |
| RateLimiting.Hits | src/main/java/com/karboncard/assignment/notificationservice/service/impl/RedisRateLimitingService.java:38 | n INCRs of one key in a row; `HitsCount` states their effect |
| RateLimiting.UserDecision | src/main/java/com/karboncard/assignment/notificationservice/service/impl/RedisRateLimitingService.java:36-53 | denied iff the count exceeds the per-user cap; the exception carries the user id, no template, the wrapped count, the cap and the per-user message |
| RateLimiting.TemplateDecision | src/main/java/com/karboncard/assignment/notificationservice/service/impl/RedisRateLimitingService.java:57-76 | denied iff the count exceeds the per-template cap; the exception carries both ids, the wrapped count, the cap and the per-template message |
| RateLimiting.HitsCount | src/main/java/com/karboncard/assignment/notificationservice/service/impl/RedisRateLimitingService.java:38 | n increments raise that counter by n and touch no other counter |
| RateLimiting.FreshWindowAdmitsExactlyTheCap | src/main/java/com/karboncard/assignment/notificationservice/service/impl/RedisRateLimitingService.java:36-53 | in a fresh window, call n+1 is allowed iff n+1 is within the per-user cap |
| RateLimiting.FreshTemplateWindowAdmitsExactlyTheCap | src/main/java/com/karboncard/assignment/notificationservice/service/impl/RedisRateLimitingService.java:57-76 | the same for the per-template cap |
| RateLimiting.SixthUserRequestDenied | src/main/java/com/karboncard/assignment/notificationservice/config/RateLimitConfig.java:13-28 | with the default caps, the sixth request in a window is denied with count 6 and maximum 5 |
| RateLimiting.LaterHitsKeepTheTtl | src/main/java/com/karboncard/assignment/notificationservice/service/impl/RedisRateLimitingService.java:39-41 | only the increment that creates a counter sets its time-to-live |
| RateLimiting.RedisRateLimitingService.constructor | src/main/java/com/karboncard/assignment/notificationservice/service/impl/RedisRateLimitingService.java:27-32 | no counters and no time-to-live set |
| RateLimiting.RedisRateLimitingService.CheckUserRateLimit | src/main/java/com/karboncard/assignment/notificationservice/service/impl/RedisRateLimitingService.java:36-53 | increments the user's counter, sets its TTL only on creation, and answers `UserDecision` of the new count; a denied call has still used a count |
| RateLimiting.RedisRateLimitingService.CheckTemplateRateLimit | src/main/java/com/karboncard/assignment/notificationservice/service/impl/RedisRateLimitingService.java:57-76 | the same for the user-and-template counter |
| RateLimiting.RedisRateLimitingService.RecordUserNotificationAttempt | src/main/java/com/karboncard/assignment/notificationservice/service/impl/RedisRateLimitingService.java:80-82 | changes no counter and no TTL |
| RateLimiting.RedisRateLimitingService.RecordTemplateNotificationAttempt | src/main/java/com/karboncard/assignment/notificationservice/service/impl/RedisRateLimitingService.java:85-87 | changes no counter and no TTL |
| RateLimiting.RedisRateLimitingService.Expire | src/main/java/com/karboncard/assignment/notificationservice/service/impl/RedisRateLimitingService.java:39-41 | when a key times out, its next increment starts a new window at 1 |
| KafkaProducer.TopicFor | src/main/java/com/karboncard/assignment/notificationservice/service/impl/KafkaProducerServiceImpl.java:141-168 | each type is routed to its own topic |
| KafkaProducer.RoutingIsInjective | src/main/java/com/karboncard/assignment/notificationservice/service/impl/KafkaProducerServiceImpl.java:141-168 | with three distinct topic names, two types share a topic iff they are the same type |
| KafkaProducer.MessageKey | src/main/java/com/karboncard/assignment/notificationservice/service/impl/KafkaProducerServiceImpl.java:87-89 | the record key is the idempotency key when set, else the user id, a dash and the id |
| KafkaProducer.MessageFor | src/main/java/com/karboncard/assignment/notificationservice/service/impl/KafkaProducerServiceImpl.java:84-101 | the record sent: the topic, `MessageKey`, the serialised row and `AttachedHeaders` |
| KafkaProducer.AttachedHeaders | src/main/java/com/karboncard/assignment/notificationservice/service/impl/KafkaProducerServiceImpl.java:94-101 | headers are attached only when the map is non-null and non-empty |
| KafkaProducer.PriorityHeaders | src/main/java/com/karboncard/assignment/notificationservice/service/impl/KafkaProducerServiceImpl.java:49-53 | exactly one header, "priority", holding the priority's name |
| KafkaProducer.ErrorType | src/main/java/com/karboncard/assignment/notificationservice/service/impl/KafkaProducerServiceImpl.java:72-128 | the error type recorded for each kind of refused or failed send: "interrupted", "execution_failed", "timeout", "error", or "tx_sync_error" for a failed registration |
| KafkaProducer.Delivered | src/main/java/com/karboncard/assignment/notificationservice/service/impl/KafkaProducerServiceImpl.java:103-129 | the delivered messages are among those sent, and all are delivered iff every reply is an acknowledgement |
| KafkaProducer.FailedKinds | src/main/java/com/karboncard/assignment/notificationservice/service/impl/KafkaProducerServiceImpl.java:116-139 | every recorded error type comes from a refused reply |
| KafkaProducer.DeliveredOrFailed | src/main/java/com/karboncard/assignment/notificationservice/service/impl/KafkaProducerServiceImpl.java:81-139 | every send is either delivered or counted as a failure, never both and never neither |
| KafkaProducer.DeferredSendDeliversLikeImmediate | src/main/java/com/karboncard/assignment/notificationservice/service/impl/KafkaProducerServiceImpl.java:59-79 | a send deferred to after the commit delivers, or fails, as an immediate send with the same reply would |
| KafkaProducer.SentOnce | src/main/java/com/karboncard/assignment/notificationservice/service/impl/KafkaProducerServiceImpl.java:59-79 | the producer's state after one send: inside a transaction the message is registered (or a tx_sync_error recorded) and nothing is sent yet; outside one it is logged as sent iff acknowledged, and a refusal records its error |
| KafkaProducer.TxSyncErrorOnlyFromRegistration | src/main/java/com/karboncard/assignment/notificationservice/service/impl/KafkaProducerServiceImpl.java:59-128 | one send records "tx_sync_error" iff it runs inside a transaction and its registration fails; an immediate send records only the broker's error kinds |
| KafkaProducer.KafkaProducerService.constructor | src/main/java/com/karboncard/assignment/notificationservice/service/impl/KafkaProducerServiceImpl.java:27-32 | an empty outbox |
| KafkaProducer.KafkaProducerService.PerformKafkaSend | src/main/java/com/karboncard/assignment/notificationservice/service/impl/KafkaProducerServiceImpl.java:81-130 | true iff acknowledged; an acknowledged message is logged as sent; a failure records its error type |
| KafkaProducer.KafkaProducerService.SendToKafkaWithHeaders | src/main/java/com/karboncard/assignment/notificationservice/service/impl/KafkaProducerServiceImpl.java:59-79 | inside a transaction it only registers the send (false and a tx_sync_error if registration fails); outside one it sends now, returns the outcome and records a refusal's error; sent, pending and errors are as `SentOnce` describes |
| KafkaProducer.KafkaProducerService.SendToEmailTopic | src/main/java/com/karboncard/assignment/notificationservice/service/impl/KafkaProducerServiceImpl.java:34-37 | one send to the email topic without headers, leaving sent, pending and errors as `SentOnce` describes |
| KafkaProducer.KafkaProducerService.SendToSmsTopic | src/main/java/com/karboncard/assignment/notificationservice/service/impl/KafkaProducerServiceImpl.java:39-42 | one send to the SMS topic without headers, leaving sent, pending and errors as `SentOnce` describes |
| KafkaProducer.KafkaProducerService.SendToPushTopic | src/main/java/com/karboncard/assignment/notificationservice/service/impl/KafkaProducerServiceImpl.java:44-47 | one send to the push topic without headers, leaving sent, pending and errors as `SentOnce` describes |
| KafkaProducer.KafkaProducerService.SendWithPriority | src/main/java/com/karboncard/assignment/notificationservice/service/impl/KafkaProducerServiceImpl.java:49-53 | one send carrying exactly the "priority" header, with sent, pending and errors as `SentOnce` describes |
| KafkaProducer.KafkaProducerService.SendNotification | src/main/java/com/karboncard/assignment/notificationservice/service/impl/KafkaProducerServiceImpl.java:141-168 | one send to the topic of the notification's type, with sent, pending and errors as `SentOnce` describes |
| KafkaProducer.KafkaProducerService.AfterCommit | src/main/java/com/karboncard/assignment/notificationservice/service/impl/KafkaProducerServiceImpl.java:61-74 | at commit, every registered send runs in registration order; the acknowledged ones are delivered and the others counted as failures |
| KafkaProducer.KafkaProducerService.Rollback | src/main/java/com/karboncard/assignment/notificationservice/service/impl/KafkaProducerServiceImpl.java:61-74 | on rollback, no registered send runs |
| Admission.GeneratedKey | src/main/java/com/karboncard/assignment/notificationservice/service/impl/NotificationServiceImpl.java:97-104 | the generated key starts with the lower-cased type and ends with a dash and the UUID's first 8 characters |
| Admission.GeneratedKeysDifferBySuffix | src/main/java/com/karboncard/assignment/notificationservice/service/impl/NotificationServiceImpl.java:97-104 | two keys generated for one request are equal iff their UUID prefixes are |
| Admission.EffectiveKey | src/main/java/com/karboncard/assignment/notificationservice/service/impl/NotificationServiceImpl.java:50-54 | only a null or empty key is replaced, and the key used is never empty |
| Admission.ConvertToEntity | src/main/java/com/karboncard/assignment/notificationservice/service/impl/NotificationServiceImpl.java:121-136 | a new PENDING row with no attempts, no id and no version, copying the request, with a null parameter map stored as empty and both timestamps set to now |
| Admission.BuildResponse | src/main/java/com/karboncard/assignment/notificationservice/service/impl/NotificationServiceImpl.java:138-148 | a successful response with the row's id, user, type, status and creation time and the given message |
| Admission.RateLimitedResponse | src/main/java/com/karboncard/assignment/notificationservice/service/impl/NotificationServiceImpl.java:71-76 | an unsuccessful response with the exception's message and nothing else set |
| Admission.Decide | src/main/java/com/karboncard/assignment/notificationservice/service/impl/NotificationServiceImpl.java:57-77 | a duplicate iff a row holds the key; otherwise limited by the user iff the incremented user count exceeds its cap, limited by the template iff the user count is within its cap and the incremented template count exceeds its own, and admitted iff both are within their caps; each denial carries the limiter's exception |
| Admission.ResubmissionIsDuplicate | src/main/java/com/karboncard/assignment/notificationservice/service/impl/NotificationServiceImpl.java:57-62 | resubmitting an admitted request with the same key is a duplicate of the saved row, whatever the counters say |
| Admission.DuplicateIgnoresCounters | src/main/java/com/karboncard/assignment/notificationservice/service/impl/NotificationServiceImpl.java:57-77 | a duplicate is recognised before either limit is consulted |
| Admission.NotificationServiceImpl.constructor | src/main/java/com/karboncard/assignment/notificationservice/service/impl/NotificationServiceImpl.java:35-41 | wires the table, the limiter and the producer |
| Admission.NotificationServiceImpl.ProcessNotification | src/main/java/com/karboncard/assignment/notificationservice/service/impl/NotificationServiceImpl.java:45-92 | per `Decide`: a duplicate changes nothing and returns the stored row; a limited request uses its counts, sets the TTL of each counter its INCR created, and stores nothing; an admitted one does the same for both counters, stores the PENDING row and registers its publish for after the commit; the table invariants are kept |
| Admission.NotificationServiceImpl.SaveAndPublish | src/main/java/com/karboncard/assignment/notificationservice/service/impl/NotificationServiceImpl.java:78-90 | the admitted path: the row is stored under the fresh id with version 0 and its publish registered for after the commit, as `SentOnce` describes |
| Admission.NotificationServiceImpl.GetNotificationById | src/main/java/com/karboncard/assignment/notificationservice/service/impl/NotificationServiceImpl.java:107-109 | the stored row iff the id is present |
| Admission.NotificationServiceImpl.GetNotificationsByUserId | src/main/java/com/karboncard/assignment/notificationservice/service/impl/NotificationServiceImpl.java:112-114 | exactly the user's rows |
| Admission.NotificationServiceImpl.GetNotificationsByCorrelationId | src/main/java/com/karboncard/assignment/notificationservice/service/impl/NotificationServiceImpl.java:117-119 | exactly the rows with that correlation id |
| Controller.Validate | src/main/java/com/karboncard/assignment/notificationservice/controller/NotificationController.java:53-103 | a missing type, then missing parameters, then a missing, null or blank address field of the type, each with its message; a request passes iff none of these holds |
| Controller.SendNotification | src/main/java/com/karboncard/assignment/notificationservice/controller/NotificationController.java:46-132 | every answer carries a body |
| Controller.RequiredField | src/main/java/com/karboncard/assignment/notificationservice/controller/NotificationController.java:67-96 | the address key each type requires: "email", "phoneNumber" or "deviceToken" |
| Controller.HasUsableValue | src/main/java/com/karboncard/assignment/notificationservice/controller/NotificationController.java:69-71 | the key is present, not null, and its text is not blank |
| Controller.ServiceCalledOnlyAfterValidation | src/main/java/com/karboncard/assignment/notificationservice/controller/NotificationController.java:53-103 | a request that fails validation is answered 400 whatever the service would do |
| Controller.StatusMapping | src/main/java/com/karboncard/assignment/notificationservice/controller/NotificationController.java:107-131 | for a valid request: 429 iff the service threw (body with the message and the correlation id), 409 iff the message is "Duplicate request", 202 for every other response |
| Controller.UserRateLimitedRequestIsAccepted | src/main/java/com/karboncard/assignment/notificationservice/controller/NotificationController.java:107-131 | the service returns rate-limited requests rather than throwing, so they are answered 202 with `success = false` |
| Controller.TemplateRateLimitedRequestIsAccepted | src/main/java/com/karboncard/assignment/notificationservice/controller/NotificationController.java:107-131 | the same for the per-template limit |
| Controller.GetNotificationStatus | src/main/java/com/karboncard/assignment/notificationservice/controller/NotificationController.java:136-155 | 200 with the id and status iff the id is stored, else 404 without a body |
| Idempotency.IsValidKeyCharacterised | src/main/java/com/karboncard/assignment/notificationservice/util/IdempotencyUtil.java:69-72 | a key is valid iff it is non-null and has a character above U+0020 |
| Idempotency.IsValidKeyExamples | src/main/java/com/karboncard/assignment/notificationservice/util/IdempotencyUtil.java:69-72 | "abc" is valid; "", "   " and null are not |
| Idempotency.IsValidKey | src/main/java/com/karboncard/assignment/notificationservice/util/IdempotencyUtil.java:69-72 | `isValidKey`: non-null and not made only of characters `trim` strips |
| Idempotency.DeterministicKey | src/main/java/com/karboncard/assignment/notificationservice/util/IdempotencyUtil.java:51-56 | the digest of user id, template id and content joined by ':' |
| Idempotency.AlreadyProcessed | src/main/java/com/karboncard/assignment/notificationservice/util/IdempotencyUtil.java:80-90 | a cache hit, or a stored record whose status is SENT |
| Idempotency.GeneratedKeysAreValid | src/main/java/com/karboncard/assignment/notificationservice/service/impl/NotificationServiceImpl.java:97-104 | every generated key passes `isValidKey` |
| Idempotency.BlankCallerKeyIsKept | src/main/java/com/karboncard/assignment/notificationservice/service/impl/NotificationServiceImpl.java:50-54 | a caller's all-blank key is kept although `isValidKey` refuses it |
| Idempotency.DeterministicKeyInputIsAmbiguous | src/main/java/com/karboncard/assignment/notificationservice/util/IdempotencyUtil.java:51-56 | two distinct triples give the same key whatever the digest, because ':' inside a field moves the boundary |
| Idempotency.IdempotencyUtil.constructor | src/main/java/com/karboncard/assignment/notificationservice/util/IdempotencyUtil.java:31 | an empty cache |
| Idempotency.IdempotencyUtil.IsAlreadyProcessed | src/main/java/com/karboncard/assignment/notificationservice/util/IdempotencyUtil.java:80-90 | processed iff cached or stored as SENT; on a cache miss the answer is the table's |
| Idempotency.IdempotencyUtil.MarkAsProcessed | src/main/java/com/karboncard/assignment/notificationservice/util/IdempotencyUtil.java:97-100 | the cache gains exactly the id, and the id then reads as processed |
| Idempotency.MarkedStaysProcessed | src/main/java/com/karboncard/assignment/notificationservice/util/IdempotencyUtil.java:80-100 | once marked, an id stays processed whatever the table holds |
| Updaters.FailureStatus | src/main/java/com/karboncard/assignment/notificationservice/worker/impl/PushNotificationConsumer.java:68-72 | PERMANENT_FAILURE iff the attempt count is at least 3, FAILED otherwise |
| Updaters.Apply | src/main/java/com/karboncard/assignment/notificationservice/worker/impl/PushNotificationConsumer.java:35-72 | no updater changes id, key, version, user, parameters or creation time |
| Updaters.OnlyBeginAttemptCounts | src/main/java/com/karboncard/assignment/notificationservice/worker/impl/PushNotificationConsumer.java:35-56 | only beginning an attempt raises the attempt count, and by one |
| Updaters.ApplyTo | src/main/java/com/karboncard/assignment/notificationservice/worker/impl/PushNotificationConsumer.java:35-72 | the setter calls leave the row `Apply` describes |
| TransactionRetry.Pow2 | src/main/java/com/karboncard/assignment/notificationservice/util/TransactionRetryHelper.java:55 | a power of two is at least 1 |
| TransactionRetry.RetryRowFrom | src/main/java/com/karboncard/assignment/notificationservice/util/TransactionRetryHelper.java:34-60 | on a stored row the loop runs at most five tries, sleeps once between consecutive tries, and never ends "not found" |
| TransactionRetry.RetryUpdate | src/main/java/com/karboncard/assignment/notificationservice/util/TransactionRetryHelper.java:27-61 | one to five tries with one fewer sleep; "not found" after one try iff the row is absent, and then nothing is written; otherwise no other row changes |
| TransactionRetry.DelaysAreExponential | src/main/java/com/karboncard/assignment/notificationservice/util/TransactionRetryHelper.java:55 | the k-th sleep is 100 * 2^k ms |
| TransactionRetry.BackoffSchedule | src/main/java/com/karboncard/assignment/notificationservice/util/TransactionRetryHelper.java:55 | the sleeps are 200, 400, 800 and 1600 ms |
| TransactionRetry.OutcomeRows | src/main/java/com/karboncard/assignment/notificationservice/util/TransactionRetryHelper.java:36-53 | on success the updater is applied once to the row as re-read at the last try; on another exception only the competitors' commits remain; on the lock failure all five competitors' commits and none of the updater |
| TransactionRetry.LockFailureIffFiveConflicts | src/main/java/com/karboncard/assignment/notificationservice/util/TransactionRetryHelper.java:49-53 | the lock failure is rethrown iff every remaining try loses its race |
| TransactionRetry.FirstClearTryCommits | src/main/java/com/karboncard/assignment/notificationservice/util/TransactionRetryHelper.java:37-48 | an uncontended first try commits the update, with no sleep |
| TransactionRetry.LoopStarts | src/main/java/com/karboncard/assignment/notificationservice/util/TransactionRetryHelper.java:31-34 | the loop invariant holds before the first try |
| TransactionRetry.StepFinishes | src/main/java/com/karboncard/assignment/notificationservice/util/TransactionRetryHelper.java:36-48 | a try that ends the loop ends it with the table and outcome `RetryUpdate` describes |
| TransactionRetry.StepGivesUp | src/main/java/com/karboncard/assignment/notificationservice/util/TransactionRetryHelper.java:49-53 | the fifth lost race ends the loop with the lock failure `RetryUpdate` describes |
| TransactionRetry.StepContinues | src/main/java/com/karboncard/assignment/notificationservice/util/TransactionRetryHelper.java:49-58 | an earlier lost race keeps the loop invariant for the next try, after the sleep |
| TransactionRetry.TransactionRetryHelper.constructor | src/main/java/com/karboncard/assignment/notificationservice/util/TransactionRetryHelper.java:21-25 | wires the table |
| TransactionRetry.TransactionRetryHelper.CommitUpdate | src/main/java/com/karboncard/assignment/notificationservice/util/TransactionRetryHelper.java:45-46 | the updater's row is committed over the loaded one, and only that row changes |
| TransactionRetry.TransactionRetryHelper.Try | src/main/java/com/karboncard/assignment/notificationservice/util/TransactionRetryHelper.java:36-53 | one try: a missing row writes nothing; otherwise the update commits, another exception writes nothing, or the competitor's commit stands and the loop goes on |
| TransactionRetry.TransactionRetryHelper.UpdateNotificationWithRetry | src/main/java/com/karboncard/assignment/notificationservice/util/TransactionRetryHelper.java:27-61 | leaves the table, outcome and sleeps `RetryUpdate` describes, and keeps the table invariants |
| PushDelivery.UncontendedUpdate | src/main/java/com/karboncard/assignment/notificationservice/util/TransactionRetryHelper.java:37-46 | without contention: one try, the update committed iff the row exists |
| PushDelivery.MissingRecordIsRethrown | src/main/java/com/karboncard/assignment/notificationservice/worker/impl/PushNotificationConsumer.java:43-44 | a missing record writes nothing and rethrows "Notification not found" |
| PushDelivery.UncontendedInvocation | src/main/java/com/karboncard/assignment/notificationservice/worker/impl/PushNotificationConsumer.java:29-77 | one uncontended invocation raises the attempts by exactly one and stamps the time; then SENT, or FAILED/PERMANENT_FAILURE by the threshold with the provider's or the exception's message (rethrown); no other row changes |
| PushDelivery.ThreeFailuresArePermanent | src/main/java/com/karboncard/assignment/notificationservice/worker/impl/PushNotificationConsumer.java:64-77 | three failing invocations from 0 attempts leave PERMANENT_FAILURE with 3 attempts and the last message |
| PushDelivery.SentRecordIsReopened | src/main/java/com/karboncard/assignment/notificationservice/worker/impl/PushNotificationConsumer.java:35-40 | a SENT record is moved back to RETRYING by a new invocation and ends not SENT if the adapter fails |
| PushDelivery.StalledAttemptIsRetryable | src/main/java/com/karboncard/assignment/notificationservice/repository/NotificationRepository.java:50-55 | a record left RETRYING after a crash is picked up by the retry sweep iff its attempt is before the cutoff and under the limit |
| PushDelivery.FailureRecorded | src/main/java/com/karboncard/assignment/notificationservice/worker/impl/PushNotificationConsumer.java:64-77 | `handleFailure`: the failure updater run through the retry helper |
| PushDelivery.TryBlock | src/main/java/com/karboncard/assignment/notificationservice/worker/impl/PushNotificationConsumer.java:33-57 | the try block: begin the attempt, then by the adapter's answer mark SENT, record the provider failure, or exit with its exception |
| PushDelivery.Consume | src/main/java/com/karboncard/assignment/notificationservice/worker/impl/PushNotificationConsumer.java:29-62 | `processNotification`: an exception from the try block records the failure with its message and is rethrown, unless recording it throws first |
| PushDelivery.RetriedFrom | src/main/java/com/karboncard/assignment/notificationservice/worker/impl/PushNotificationConsumer.java:27-28 | at most three invocations, with one wait between consecutive ones |
| PushDelivery.Retried | src/main/java/com/karboncard/assignment/notificationservice/worker/impl/PushNotificationConsumer.java:27-28 | one to three invocations |
| PushDelivery.RetryDelaysDouble | src/main/java/com/karboncard/assignment/notificationservice/worker/impl/PushNotificationConsumer.java:27-28 | the waits are 1000 ms and then 2000 ms |
| PushDelivery.ThrowingAdapterExhaustsRetries | src/main/java/com/karboncard/assignment/notificationservice/worker/impl/PushNotificationConsumer.java:27-62 | an always-throwing adapter is invoked three times; the record ends PERMANENT_FAILURE with 3 attempts and the exception is rethrown |
| PushDelivery.PushNotificationConsumer.constructor | src/main/java/com/karboncard/assignment/notificationservice/worker/impl/PushNotificationConsumer.java:20-25 | wires the table and the retry helper over it |
| PushDelivery.PushNotificationConsumer.HandleFailure | src/main/java/com/karboncard/assignment/notificationservice/worker/impl/PushNotificationConsumer.java:64-77 | records the failure through the retry helper, as `FailureRecorded` describes |
| PushDelivery.PushNotificationConsumer.RunTryBlock | src/main/java/com/karboncard/assignment/notificationservice/worker/impl/PushNotificationConsumer.java:33-57 | leaves the table and the exit `TryBlock` describes, and keeps the table invariants |
| PushDelivery.PushNotificationConsumer.ProcessNotification | src/main/java/com/karboncard/assignment/notificationservice/worker/impl/PushNotificationConsumer.java:29-62 | leaves the table and the result `Consume` describes, and keeps the table invariants |
| PushDelivery.PushNotificationConsumer.ProcessWithRetry | src/main/java/com/karboncard/assignment/notificationservice/worker/impl/PushNotificationConsumer.java:27-62 | leaves the table, result and waits `Retried` describes |
| Providers.Truncated | src/main/java/com/karboncard/assignment/notificationservice/service/provider/impl/SmsNotificationProvider.java:54-61 | only the one key can change; its text becomes the truncation, and it is unchanged iff its UTF-16 length is within the limit |
| Providers.MatchesEmailRegex | src/main/java/com/karboncard/assignment/notificationservice/service/provider/impl/EmailNotificationProvider.java:24 | the address regex, matched against the whole string |
| Providers.PermanentlyFailed | src/main/java/com/karboncard/assignment/notificationservice/service/provider/impl/EmailNotificationProvider.java:37-38 | a rejected row: PERMANENT_FAILURE with the message |
| Providers.AcceptedAddressHasOneAt | src/main/java/com/karboncard/assignment/notificationservice/service/provider/impl/EmailNotificationProvider.java:24 | an accepted address has exactly one '@', with non-empty local and domain runs around it |
| Providers.RegexIsNotTheRfcGrammar | src/main/java/com/karboncard/assignment/notificationservice/service/provider/impl/EmailNotificationProvider.java:23-24 | the regex accepts "a..b@-" and ".a@b", which the RFC 5322 addr-spec refuses |
| Providers.SecondAtIsRefused | src/main/java/com/karboncard/assignment/notificationservice/service/provider/impl/EmailNotificationProvider.java:24 | an address with two '@' is refused |
| Providers.MarkPermanentlyFailed | src/main/java/com/karboncard/assignment/notificationservice/service/provider/impl/EmailNotificationProvider.java:48-49 | the entity becomes PERMANENT_FAILURE with the message, and nothing else changes |
| Providers.TruncateParam | src/main/java/com/karboncard/assignment/notificationservice/service/provider/impl/SmsNotificationProvider.java:54-61 | the entity's parameters become `Truncated` of them, and nothing else changes |
| Providers.SubjectTruncated | src/main/java/com/karboncard/assignment/notificationservice/service/provider/impl/EmailNotificationProvider.java:54-61 | only a String subject longer than 255 UTF-16 code units is cut, to its `Truncate`d prefix; every other entry is kept |
| Providers.EmailChecked | src/main/java/com/karboncard/assignment/notificationservice/service/provider/impl/EmailNotificationProvider.java:28-78 | rejected iff the address is missing or refused by the regex (PERMANENT_FAILURE with a message, nothing else changed); a null address throws; otherwise only the subject may change |
| Providers.EmailValidPathKeepsStatus | src/main/java/com/karboncard/assignment/notificationservice/service/provider/impl/EmailNotificationProvider.java:53-78 | the valid path keeps the status, the message and every parameter but a subject, which becomes a prefix of at most 255 UTF-16 code units, and is unchanged when already within that |
| Providers.EmailNotificationProvider.constructor | src/main/java/com/karboncard/assignment/notificationservice/service/provider/impl/EmailNotificationProvider.java:22 | wires the producer |
| Providers.EmailNotificationProvider.Type | src/main/java/com/karboncard/assignment/notificationservice/service/provider/impl/EmailNotificationProvider.java:81-84 | the provider reports EMAIL |
| Providers.EmailNotificationProvider.ApplyEmailChecks | src/main/java/com/karboncard/assignment/notificationservice/service/provider/impl/EmailNotificationProvider.java:32-78 | the entity's checks and parameter changes leave the row, and return the verdict, `EmailChecked` describes |
| Providers.EmailNotificationProvider.Send | src/main/java/com/karboncard/assignment/notificationservice/service/provider/impl/EmailNotificationProvider.java:28-79 | the entity ends as `EmailChecked` says; false or a throw publishes nothing; a ready row is published once to the email topic |
| Providers.AcceptedNumberShape | src/main/java/com/karboncard/assignment/notificationservice/service/provider/impl/SmsNotificationProvider.java:24-25 | an accepted number is 2 to 15 digits, the first not 0, with at most one '+' and only in front |
| Providers.MatchesPhoneRegex | src/main/java/com/karboncard/assignment/notificationservice/service/provider/impl/SmsNotificationProvider.java:25 | the phone regex: an optional '+', a digit 1-9, then 1 to 14 more digits |
| Providers.PhoneRegexExamples | src/main/java/com/karboncard/assignment/notificationservice/service/provider/impl/SmsNotificationProvider.java:25 | "+14155552671" and "12" are accepted; "+1", "0123", "++12" and 16 digits are refused |
| Providers.SmsChecked | src/main/java/com/karboncard/assignment/notificationservice/service/provider/impl/SmsNotificationProvider.java:28-69 | rejected iff the number is missing or refused; ready iff it is accepted and the content is not null; the ready row differs only in its parameters, which are `Truncated` at "content" to 160 UTF-16 code units |
| Providers.SmsShortContentUnchanged | src/main/java/com/karboncard/assignment/notificationservice/service/provider/impl/SmsNotificationProvider.java:54-61 | content of at most 160 UTF-16 code units reaches the producer as it was |
| Providers.SmsNotificationProvider.constructor | src/main/java/com/karboncard/assignment/notificationservice/service/provider/impl/SmsNotificationProvider.java:22 | wires the producer |
| Providers.SmsNotificationProvider.Type | src/main/java/com/karboncard/assignment/notificationservice/service/provider/impl/SmsNotificationProvider.java:72-75 | the provider reports SMS |
| Providers.SmsNotificationProvider.ApplySmsChecks | src/main/java/com/karboncard/assignment/notificationservice/service/provider/impl/SmsNotificationProvider.java:32-67 | the entity's checks and parameter changes leave the row, and return the verdict, `SmsChecked` describes |
| Providers.SmsNotificationProvider.Send | src/main/java/com/karboncard/assignment/notificationservice/service/provider/impl/SmsNotificationProvider.java:28-70 | the entity ends as `SmsChecked` says; false or a throw publishes nothing; a ready row is published once to the SMS topic |
| Providers.PlatformExamples | src/main/java/com/karboncard/assignment/notificationservice/service/provider/impl/PushNotificationProvider.java:46-52 | an absent or non-String platform is refused, "ios" and "Android" are accepted regardless of case, and "windows" is refused |
| Providers.Platform | src/main/java/com/karboncard/assignment/notificationservice/service/provider/impl/PushNotificationProvider.java:46-47 | the "platform" entry when it is a String, else "UNKNOWN" |
| Providers.PlatformSupported | src/main/java/com/karboncard/assignment/notificationservice/service/provider/impl/PushNotificationProvider.java:49 | the upper-cased platform is IOS, ANDROID or WEB |
| Providers.ApsPayload | src/main/java/com/karboncard/assignment/notificationservice/service/provider/impl/PushNotificationProvider.java:81-85 | the iOS "aps" object: the title (or "") as alert and the default sound |
| Providers.WebPayload | src/main/java/com/karboncard/assignment/notificationservice/service/provider/impl/PushNotificationProvider.java:95-100 | the web "notification" object: the title and body, each "" when absent |
| Providers.Formatted | src/main/java/com/karboncard/assignment/notificationservice/service/provider/impl/PushNotificationProvider.java:76-106 | no existing entry is overwritten, and only the platform's key is added, when it is absent; an unsupported platform changes nothing |
| Providers.WithPriority | src/main/java/com/karboncard/assignment/notificationservice/service/provider/impl/PushNotificationProvider.java:68-71 | HIGH puts "priority" = "high" (new or replacing); any other priority leaves the map alone |
| Providers.PushChecked | src/main/java/com/karboncard/assignment/notificationservice/service/provider/impl/PushNotificationProvider.java:27-73 | rejected iff the token is missing or empty or the platform is unsupported (row unchanged); ready iff the token is usable, the platform supported and the content not null; then content longer than 4096 UTF-16 code units is cut, HIGH sets "priority" to "high", and every other existing entry is kept; `PushPlatformPayload` states the added entries |
| Providers.PushPlatformPayload | src/main/java/com/karboncard/assignment/notificationservice/service/provider/impl/PushNotificationProvider.java:55-106 | a ready row carries the platform's entry when it was absent (the APNS dictionary for IOS, a copy of the parameters for ANDROID, the web-push dictionary for WEB), and its only new keys are that entry and, for HIGH, "priority" |
| Providers.AndroidDataPrecedesTruncation | src/main/java/com/karboncard/assignment/notificationservice/service/provider/impl/PushNotificationProvider.java:55-63 | the ANDROID "data" copy keeps the content as sent, while the top-level content is truncated |
| Providers.PushNotificationProvider.constructor | src/main/java/com/karboncard/assignment/notificationservice/service/provider/impl/PushNotificationProvider.java:22 | wires the producer |
| Providers.PushNotificationProvider.Type | src/main/java/com/karboncard/assignment/notificationservice/service/provider/impl/PushNotificationProvider.java:108-111 | the provider reports PUSH |
| Providers.PushNotificationProvider.ApplyPushChecks | src/main/java/com/karboncard/assignment/notificationservice/service/provider/impl/PushNotificationProvider.java:32-71 | the entity's checks, shaping and truncation leave the row, and return the verdict, `PushChecked` describes |
| Providers.PushNotificationProvider.FormatPlatformSpecificPayload | src/main/java/com/karboncard/assignment/notificationservice/service/provider/impl/PushNotificationProvider.java:76-106 | the entity's parameters become `Formatted` of them; nothing else changes |
| Providers.PushNotificationProvider.Send | src/main/java/com/karboncard/assignment/notificationservice/service/provider/impl/PushNotificationProvider.java:27-74 | the entity ends as `PushChecked` says; false or a throw publishes nothing; a ready row is published once to the push topic |
| ProviderRegistry.RegistryLastWins | src/main/java/com/karboncard/assignment/notificationservice/service/factory/NotificationProviderFactory.java:19-26 | a type is registered iff some provider reports it, and it maps to the last such provider |
| ProviderRegistry.TypeOf | src/main/java/com/karboncard/assignment/notificationservice/service/factory/NotificationProviderFactory.java:23 | `getType()` of each provider |
| ProviderRegistry.Registry | src/main/java/com/karboncard/assignment/notificationservice/service/factory/NotificationProviderFactory.java:19-26 | the map the constructor's loop builds, one `put(getType(), provider)` per provider in list order |
| ProviderRegistry.NotificationProviderFactory.constructor | src/main/java/com/karboncard/assignment/notificationservice/service/factory/NotificationProviderFactory.java:19-26 | the map is `Registry` of the providers, in list order |
| ProviderRegistry.NotificationProviderFactory.GetProvider | src/main/java/com/karboncard/assignment/notificationservice/service/factory/NotificationProviderFactory.java:28-37 | found iff the type is registered; otherwise IllegalArgument naming the type |
| ProviderRegistry.NotificationProviderFactory.HasProvider | src/main/java/com/karboncard/assignment/notificationservice/service/factory/NotificationProviderFactory.java:44-46 | true iff the type is registered |
| ProviderRegistry.NotificationProviderFactory.GetAllProviders | src/main/java/com/karboncard/assignment/notificationservice/service/factory/NotificationProviderFactory.java:52-54 | a copy equal to the registry |
| ProviderRegistry.HasProviderIffLookupSucceeds | src/main/java/com/karboncard/assignment/notificationservice/service/factory/NotificationProviderFactory.java:28-46 | `hasProvider` holds iff `getProvider` does not throw |
| ProviderRegistry.RegisteredProvidersHandleTheirType | src/main/java/com/karboncard/assignment/notificationservice/service/factory/NotificationProviderFactory.java:19-37 | the provider handed out for a type handles that type |
| ExceptionHandling.HandleRateLimitExceeded | src/main/java/com/karboncard/assignment/notificationservice/exception/GlobalExceptionHandler.java:25-50 | 429 with the fixed entries and the message; user and template ids iff not null; count and limit together iff the count is positive |
| ExceptionHandling.UserDenialBodyCarriesTheCount | src/main/java/com/karboncard/assignment/notificationservice/exception/GlobalExceptionHandler.java:36-47 | a per-user denial whose count fits an int carries the user id, the count and the limit, and no template id |
| ExceptionHandling.WrappedCountIsOmitted | src/main/java/com/karboncard/assignment/notificationservice/service/impl/RedisRateLimitingService.java:49 | the 2^31-th request wraps to a negative count, so the body omits count and limit |
| ExceptionHandling.ErrorsMapLastWins | src/main/java/com/karboncard/assignment/notificationservice/exception/GlobalExceptionHandler.java:67-72 | a field is in the error map iff some error names it, with the last such error's message |
| ExceptionHandling.ErrorsMap | src/main/java/com/karboncard/assignment/notificationservice/exception/GlobalExceptionHandler.java:66-72 | the field-error map, one `put(field, message)` per error in order |
| ExceptionHandling.HandleMethodArgumentNotValid | src/main/java/com/karboncard/assignment/notificationservice/exception/GlobalExceptionHandler.java:53-77 | 400 "Validation Error" with the field-error map |
| ExceptionHandling.HandleIllegalArgument | src/main/java/com/karboncard/assignment/notificationservice/exception/GlobalExceptionHandler.java:80-92 | 400 "Invalid Argument" with the exception's message, possibly null |
| ExceptionHandling.UnsupportedTypeIsBadRequest | src/main/java/com/karboncard/assignment/notificationservice/service/factory/NotificationProviderFactory.java:28-37 | an unregistered type is answered 400 naming the type |
| ExceptionHandling.HandleGeneral | src/main/java/com/karboncard/assignment/notificationservice/exception/GlobalExceptionHandler.java:95-107 | 500 with a fixed message |
| ExceptionHandling.GeneralBodyHidesTheException | src/main/java/com/karboncard/assignment/notificationservice/exception/GlobalExceptionHandler.java:95-107 | the 500 body is the same for every exception |

## Left out

- Bean validation (`@Valid` on the request DTO) is not part of this model. `Controller.Validate` covers only the controller's own checks.
- The controller's default branch "Unknown notification type." cannot be reached, because the type is an enum with three values. The push provider's null-parameters check (PushNotificationProvider.java:33-36) cannot be reached either, because `getTemplateParams` never returns null. Neither is modelled.
- Logging, Micrometer metrics and tracing are left out, including `MetricsUtil` and the counters in `logAndRecordError`. Only the error types are kept.
- The topic names come from `KafkaConfig`, which is not part of this model. They are a parameter `TopicConfig`.
- KafkaProducer.KafkaProducerService.AfterCommit: the message holds a value snapshot of the row at registration. The source serialises the entity when the callback runs, after the commit; later changes in the same transaction are not modelled.
- Repository.NotificationStore.UpdateNotificationStatus / UpdateAfterDeliveryAttempt: JPQL bulk updates bypass the persistence context and do not raise `@Version`. The model follows that, and it does not model a stale entity cached in the same session.
- Common.Text: a nested map renders as "{...}" (Providers.MapText likewise). The entry order of a `HashMap` is not modelled, so messages that print a non-empty map do not hold its entries.
- Idempotency.DeterministicKey: SHA-256 and Base64 are an uninterpreted `digest`. The random-key fallback on `NoSuchAlgorithmException` is not modelled, because the JDK always provides SHA-256.
- `generateKey` (a random UUID) is a parameter wherever a UUID is used.
- Paged repository queries and the count queries' callers outside the core are left out.
- Concurrency between threads is left out, apart from the competing writers the retry helper sees. This covers the `ConcurrentHashMap` cache and Redis atomicity beyond a single INCR.
- A character of the model is a Unicode scalar value. Java's `length()` and `substring` count UTF-16 code units, so the model measures text with `Common.Utf16Length`, counting a character above U+FFFF as two units. `toLowerCase`/`toUpperCase` are modelled on ASCII letters, plus the two non-ASCII letters that upper-case to ASCII (U+0131, U+017F). Locale-specific mappings are not modelled.
- Common.Truncate: when `substring(0, limit)` would end between the two halves of a surrogate pair, Java keeps a lone high surrogate. A lone surrogate is not a character of the model, so the model drops the whole pair and the result is one code unit shorter.
- Providers.SubjectTruncated: a subject cut inside a surrogate pair loses the lone high surrogate Java would keep, as under `Common.Truncate`.
- Providers.SmsChecked: content cut inside a surrogate pair loses the lone high surrogate Java would keep, as under `Common.Truncate`.
- Providers.PushChecked: content cut inside a surrogate pair loses the lone high surrogate Java would keep, as under `Common.Truncate`.
- The `requestDTO` parameter of each provider's `send` is unused by the source, so it is left out.
- ExceptionHandling.HandleMethodArgumentNotValid: a global (non-field) error would make the cast to `FieldError` throw. Only field errors are modelled.
- Entity.NotificationEntity.PutParam: a `put` on `Collections.emptyMap()` would throw `UnsupportedOperationException`. The model lets it succeed. The map is never empty when a provider puts: each provider first requires its address key ("email", "phoneNumber" or "deviceToken") to be present, and returns or throws without a `put` otherwise.
- Admission.NotificationServiceImpl.ProcessNotification requires a non-null type. The controller rejects a null type first. The service itself would fail later with a NullPointerException, which is not modelled.
- Controller.SendNotification: the service's test expects a rate-limited request to throw (NotificationServiceImplTest.java:110-114). The code returns a response instead, and the model follows the code; `Controller.UserRateLimitedRequestIsAccepted` states the consequence.
- The published `sent`/`pending` outbox stands for the broker. Partitions, retries inside the Kafka client and the 5-second timeout itself are abstracted into the reply parameter.
- The optimistic-lock check is an oracle: a competing writer's commit is given by `Interference`. Real timing is not modelled.
- The `@Retryable` back-off of the consumer, and the sleeps of the retry helper, are returned as lists of delays. No clock advances.
- KafkaNotificationListener, the dead-letter consumer and the channel adapters are outside the core. The push adapter's result is a parameter of each invocation.
