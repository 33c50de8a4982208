# pkgcommon notifications and queue consumer, modelled in Dafny

This project models the sequential core of the Go package `pkgcommon`:

- **`SNSNotification`** (aws-sns-notification.go). This is an SNS notification that may be FIFO or service-to-service, and may carry extra message attributes.
  - `validate` checks its fields in a fixed order and serialises Recipients and Body to JSON in place. It then checks the message size against 256 KiB.
  - `build` turns it into an `sns.PublishInput` with conditional fields and a message-attribute map.
- **`notification`** (notification.go). This is the variant created by `NewNotification`, with its own `validate` and `build`. `ComparedWithSnsNotification` states how the two variants differ.
- **`SQSSubscriber`** (sqs-subcriber.go). The model covers:
  - queue-name resolution, where the environment is prefixed outside production;
  - the handler chain (`AddHandler`, `processMessage`);
  - the worker loop (`startWorker`, `receiveMessages`), driven one pass at a time.
- **`ServiceAlertNotification`** (service-alerts-notification.go). It builds the message-attribute map of a service alert and publishes it.

Modules:

- `Wrappers` holds Option and Result.
- `GoValues` holds Go `any` values and `Len`, the UTF-8 byte length that Go's `len` returns.
- `SnsCommon` holds the publish request, attribute values, validation errors and the shared `parseBody`/`parseRecipients` logic.
- `AwsSnsNotification`, `WebNotification`, `SqsSubscriber` and `ServiceAlerts` each model one source file.

Notifications and the subscriber are classes whose fields the methods update. The two notification classes have a `Snapshot()` of their fields; the subscriber's methods read its handler list and queue URL directly. Each class comes with:

- value-level specification functions (`Validated`, `BuildInput`, `DispatchEvents`, `IterationEvents`, `WorkerEvents`), which the methods are proved against;
- lemmas about those functions, which state what the source promises.

External calls are parameters:

- `json.Marshal` is a `Marshaller` that may fail.
- `GetSNSArn` is `arnOf`.
- The SDK results (`LoadDefaultConfig`, `GetQueueUrl`, `ReceiveMessage`, `DeleteMessage`) are passed in as outcomes.
- `PublishMessageToSNS` is a `publish` function.

A worker's handler calls, deletes, log lines and sleeps are recorded as a sequence of `Event`s. The properties about a worker are stated over that trace.

What the subscriber code does not do, and the model therefore does not promise:

- It does not bound the worker count: `maxWorkers` is declared but unused, and `NewSqsSubscriber` stores any worker count.
- It does not guard `Start`: every call spawns another `workerCount` workers (sqs-subcriber.go:81-86; the lifecycle is not modelled, see "Left out").
- It does not make the one-second backoff after a failed receive interruptible: the pass sleeps, then loops.
- It does not check cancellation between the messages of a batch: `PollOnce` dispatches the whole batch, and only the top of each pass observes cancellation.

## Model

| member | source | states |
|---|---|---|
| GoValues.Len | aws-sns-notification.go:154-164 | The byte length Go's `len` gives a string lies between its character count and four times that count. |
| GoValues.LenAppend | aws-sns-notification.go:164 | Byte length is additive over concatenation, so the summed field lengths equal the byte length of the fields laid end to end (used by MessageSizeIsFieldBytes and CheckMessageSize). |
| SnsCommon.ParsedBody | aws-sns-notification.go:49-59 | Parsing fails exactly when a non-nil Body fails to marshal, with the marshal error as is. On success a nil Body stays nil and any other Body becomes exactly its marshalled JSON. |
| SnsCommon.ParsedRecipients | aws-sns-notification.go:63-73 | Nil Recipients, and only nil Recipients, give "at least one recipient is required". It fails exactly when Recipients are nil or fail to marshal; a marshal error is returned as is, and on success Recipients become exactly their marshalled JSON. |
| AwsSnsNotification.ExtraSizeRemove | aws-sns-notification.go:155-162 | The extra-attribute size sum does not depend on the order in which Go visits the map: it can start from any key. |
| AwsSnsNotification.AttributesSize | aws-sns-notification.go:155-162 | The loop panics exactly when some extra attribute is a nil pointer. Otherwise it returns the sum of each key's length and each set StringValue's length. |
| AwsSnsNotification.MessageSizeIsFieldBytes | aws-sns-notification.go:139-164 | The field-by-field size is the byte length of message, subject, type, type ID, body JSON and recipients JSON laid end to end, plus the extra attributes' keys and string values. |
| AwsSnsNotification.CopyAttributes | aws-sns-notification.go:124-128 | Copying the extra attributes key by key, in any order, yields the derived map overridden by the extras. |
| AwsSnsNotification.ValidateGuardOrder | aws-sns-notification.go:173-187 | Checks run in order: empty topic, then empty message, then FIFO without type ID or group ID, then nil recipients when not service-to-service. Each rejects with the notification unchanged. |
| AwsSnsNotification.ValidateOnlySerialisesPayload | aws-sns-notification.go:173-195 | `validate` changes only Recipients and Body, and each only to its JSON serialisation. Recipients are never touched for service-to-service notifications, and a nil Body is never touched. |
| AwsSnsNotification.ValidateAccepts | aws-sns-notification.go:173-195 | See the note after this table. |
| AwsSnsNotification.BuildFields | aws-sns-notification.go:77-107 | Subject is set iff it is non-empty. The dedup ID is set iff the notification is FIFO with a type ID. The group ID is set iff, in addition, the group ID is non-empty. |
| AwsSnsNotification.BuildAttributes | aws-sns-notification.go:88-132 | "type"/"typeId" appear iff those fields are non-empty, and "recipients"/"body" iff those fields are JSON, all with DataType "String". Extras override same-named attributes. No other key appears. The map is unset iff it would be empty. |
| AwsSnsNotification.ValidatedPayloadIsPublished | aws-sns-notification.go:109-121 | After a successful validate, the request carries the recipients' JSON when the notification is not service-to-service; a service-to-service one carries its recipients only if they were already JSON. It carries the body's JSON when Body is non-nil and no "body" when Body is nil. An extra attribute of the same name overrides either. |
| AwsSnsNotification.SnsNotification.constructor | aws-sns-notification.go:21-33 | A notification holds exactly the given field values. |
| AwsSnsNotification.SnsNotification.ParseBody | aws-sns-notification.go:49-59 | Body is overwritten with its JSON only on success. A nil Body is left nil and no error is returned. On a marshal failure Body is left as it was and the marshal error is returned. |
| AwsSnsNotification.SnsNotification.ParseRecipients | aws-sns-notification.go:63-73 | Recipients are overwritten with their JSON only on success. Otherwise they are left as they were, with the nil-recipients or marshal error. |
| AwsSnsNotification.SnsNotification.ValidateMessageSize | aws-sns-notification.go:138-169 | The result is the size check of the current fields: a panic on a nil extra attribute, else too large (with the size) iff the size is over 256 KiB. |
| AwsSnsNotification.SnsNotification.Validate | aws-sns-notification.go:173-195 | The new fields and the error are exactly those of the validation specification applied to the old fields. |
| AwsSnsNotification.SnsNotification.GetTopic | aws-sns-notification.go:200-202 | The topic's ARN from the resolver is the TopicArn the built request is published to. |
| AwsSnsNotification.SnsNotification.Build | aws-sns-notification.go:77-134 | The request built step by step equals the build specification, whose content BuildFields and BuildAttributes state. |
| WebNotification.CheckMessageSize | notification.go:139-145 | It panics exactly when Body is not JSON. Otherwise it rejects exactly when the byte length of message, subject and body JSON laid end to end is over 256 KiB, with a message that gives only the limit. |
| WebNotification.ValidateGuardOrder | notification.go:149-158 | Checks run in order: empty topic, empty message, nil recipients. Each rejects before anything is serialised. |
| WebNotification.ValidateAccepts | notification.go:149-169 | Success iff the guards pass, both payloads marshal, Body is non-nil and message+subject+body JSON ≤ 256 KiB. On success both payloads are JSON. The Body type-assertion panic happens iff Body is nil once the earlier steps pass. A recipients marshal error is returned as is with nothing changed; a body marshal error becomes "invalid JSON body: <cause>" with the recipients already serialised. |
| WebNotification.SizeIgnoresTypeAndRecipients | notification.go:139-145 | Type, TypeID and Recipients do not affect the size check. |
| WebNotification.BuildFields | notification.go:93-115 | Subject is always set, even when empty. The dedup ID is set iff TypeID is non-empty, with no FIFO condition. No group ID is set. |
| WebNotification.BuildAttributes | notification.go:100-132 | "type"/"typeId" are "String" and appear iff those fields are non-empty. "recipients"/"body" are "String.Array" and appear iff those fields are JSON. No other key appears. The map is unset iff it would be empty. |
| WebNotification.ValidatedPayloadIsPublished | notification.go:117-129 | After a successful validate, the request carries the recipients' and the body's JSON as "String.Array". |
| WebNotification.NewNotificationNeverPanics | notification.go:42-52 | A notification from NewNotification never reaches the Body type-assertion panic, because its Body is the argument slice and so is never nil. |
| WebNotification.ComparedWithSnsNotification | notification.go:93-135 | On the same fields, this variant sets an empty subject and a non-FIFO dedup ID, where SNSNotification does neither. It uses "String.Array" where SNSNotification uses "String". SNSNotification's size also counts type, type ID and recipients. |
| WebNotification.Notification.NewNotification | notification.go:42-52 | Each argument is copied into its field, and Body is the slice of the variadic arguments. |
| WebNotification.Notification.ParseBody | notification.go:65-75 | Body is overwritten with its JSON only on success. A nil Body and a failed marshal leave it unchanged. |
| WebNotification.Notification.ParseRecipients | notification.go:79-89 | Recipients are overwritten with their JSON only on success. Otherwise they are unchanged and the error is returned. |
| WebNotification.Notification.Validate | notification.go:149-169 | The new fields and the error are exactly those of the validation specification applied to the old fields. |
| WebNotification.Notification.GetTopic | notification.go:174-176 | The topic's ARN from the resolver is the TopicArn the built request is published to. |
| WebNotification.Notification.Build | notification.go:93-135 | The request built step by step equals the build specification, whose content BuildFields and BuildAttributes state. |
| SqsSubscriber.IsNonProductionEnv | sqs-subcriber.go:22-25 | The environment is production exactly when it is "prod" or "production"; the empty one, other spellings and other cases are not. |
| SqsSubscriber.QueueName | sqs-subcriber.go:55-57 | The resolved name always ends with the given name. Outside production it is the environment, "_" and the name; in production it is the name unchanged. |
| SqsSubscriber.QueueNameShape | sqs-subcriber.go:55-57 | "prod" and "production" keep the name; an empty environment gives "_" + name; "Prod" is not production and prefixes. |
| SqsSubscriber.QueueNameInjective | sqs-subcriber.go:55-57 | Within one environment, distinct queue names resolve to distinct names. |
| SqsSubscriber.ReceiveRequestFor | sqs-subcriber.go:115-127 | A receive asks the subscriber's queue URL for all system and message attributes ("All"), at most 10 messages, a 20-second wait and a 30-second visibility timeout. |
| SqsSubscriber.RunChain | sqs-subcriber.go:140-146 | The chain stops at the first error. Without an error every handler ran and succeeded. With an error, the last handler called returned it and all earlier ones succeeded. |
| SqsSubscriber.DispatchWhenAllSucceed | sqs-subcriber.go:140-157 | When no handler fails, including when there are none, each handler is called once in order, then one delete with the receipt handle, then a log line only if the delete failed. |
| SqsSubscriber.DispatchStopsAtFirstFailure | sqs-subcriber.go:140-146 | When handler k is the first to fail, handlers 0..k run in order and the failure is logged. No later handler runs and no delete is issued. |
| SqsSubscriber.DispatchDeletesIffAllSucceed | sqs-subcriber.go:149-153 | The message is deleted iff every handler succeeds on it. |
| SqsSubscriber.DeleteErrorOnlyLogged | sqs-subcriber.go:154-156 | A delete error adds only one trailing log line. Nothing is retried or reported. |
| SqsSubscriber.DispatchDeletions | sqs-subcriber.go:136-158 | One dispatch issues exactly one delete, of its own receipt handle, when all handlers succeed, and none otherwise. |
| SqsSubscriber.DispatchCallsFirstHandlerOnce | sqs-subcriber.go:140-146 | With a non-empty chain, a dispatch calls the first handler exactly once, on its message. |
| SqsSubscriber.BatchDeletions | sqs-subcriber.go:108-110 | The deletes of a batch are exactly those of the messages on which every handler succeeded, in batch order. |
| SqsSubscriber.BatchDispatchesInOrder | sqs-subcriber.go:108-110 | With at least one handler, every message of a batch is dispatched exactly once, in batch order, whatever the handlers return (for the empty chain see EmptyChainDeletesWholeBatch). |
| SqsSubscriber.EmptyChainDeletesWholeBatch | sqs-subcriber.go:108-110 | With no handlers, dispatching a batch deletes every message of it, once each, in batch order. |
| SqsSubscriber.WorkerReceivesWithFixedLimits | sqs-subcriber.go:115-127 | Every receive a worker issues targets its queue URL and asks for at most 10 messages, a 20-second wait and a 30-second visibility timeout. |
| SqsSubscriber.RetriesAfterReceiveErrors | sqs-subcriber.go:101-106 | Two failed receives followed by a successful one produce receive, log, one-second sleep twice, then the third receive and the batch's dispatch. |
| SqsSubscriber.SqsSubscriber.constructor | sqs-subcriber.go:68-74 | A new subscriber holds the queue URL and worker count it was given, and no handlers. |
| SqsSubscriber.SqsSubscriber.AddHandler | sqs-subcriber.go:77-79 | One handler is appended at the end. The existing handlers keep their order. |
| SqsSubscriber.SqsSubscriber.ProcessMessage | sqs-subcriber.go:136-158 | The loop with `break` makes exactly the calls of the dispatch specification, whose content the Dispatch lemmas state. |
| SqsSubscriber.SqsSubscriber.PollOnce | sqs-subcriber.go:96-111 | See the note after this table. |
| SqsSubscriber.SqsSubscriber.RunWorker | sqs-subcriber.go:93-113 | The worker exits iff some pass observes cancellation. Receive, handler and delete errors never end it. Its calls are the concatenated passes up to that point. |
| SqsSubscriber.NewSqsSubscriber | sqs-subcriber.go:46-75 | See the note after this table. |
| ServiceAlerts.AlertAttributeKeys | service-alerts-notification.go:27-61 | The keys are exactly Service, Detail, Title, FallbackDetail and Data, plus CarID iff CarID is non-empty and UserID iff UserID is non-empty. |
| ServiceAlerts.AlertAttributeValues | service-alerts-notification.go:27-61 | Every value is a "String" attribute holding the matching field of the alert, with Data's text as given by AlertData. |
| ServiceAlerts.PublishedData | service-alerts-notification.go:22-25 | The published "Data" value is "" exactly when the data is nil, its marshalling fails (the error is ignored) or it marshals to nothing; whenever marshalling succeeds it is the marshalled JSON. |
| ServiceAlerts.ServiceAlertNotification | service-alerts-notification.go:21-65 | The map built step by step is published to the alert's topic with the message "Service alert", and the publish error is returned unchanged. |

Notes on the rows marked "see the note":

- **AwsSnsNotification.ValidateAccepts.** Validation succeeds iff all of these hold: every guard passes, the recipients marshal unless the notification is service-to-service, Body marshals unless it is nil, no extra attribute is nil, and the serialised size is at most 256 KiB. On success:
  - the recipients are JSON unless the notification is service-to-service;
  - a nil Body stays nil;
  - a size rejection reports a size over 256 KiB.

  Once the guards pass, a recipients marshal error is returned as is with nothing changed, and a body marshal error becomes "invalid JSON body: <cause>" with the recipients already serialised.
- **SqsSubscriber.SqsSubscriber.PollOnce.** A pass stops iff cancellation is observed. Otherwise:
  - a receive error produces only a log line and a one-second sleep, with no dispatch;
  - a batch is dispatched in full.
- **SqsSubscriber.NewSqsSubscriber.** A config error is returned as is. Otherwise the call fails iff the queue-URL lookup of the resolved name fails, with that error. On success it returns a fresh subscriber with the looked-up URL, the worker count unchecked, and no handlers.

## Left out

- `Send` (aws-sns-notification.go:40-45, notification.go:56-61) is `validate` followed by the external `PublishWithContext`. Both halves are modelled separately; the external publish itself is not part of this model.
- `GetSNSArn`, which `getTopic` calls, is not part of this model: it is the `arnOf` parameter.
- `Start`, `Stop`, the WaitGroup, goroutines and the shared context (sqs-subcriber.go:81-91) are concurrency and are not modelled. The worker loop is modelled for one worker, with cancellation as an input observed at the top of each pass.
- `RunWorker` covers a finite schedule of passes. A worker that never observes cancellation runs forever in Go, which the model can only show as "not exited" after the given passes.
- `time.Sleep` is recorded as a `Slept(1)` event and takes no time.
- `os.Getenv("APP_ENV")`, `os.Getenv("AWS_ACCOUNT_ID")` and `init`/`LoadEnvFile` are not modelled as environment reads. The two values are parameters of `NewSqsSubscriber`.
- The SDK calls are parameters or recorded outcomes: `LoadDefaultConfig`, `GetQueueUrl`, `ReceiveMessage`, `DeleteMessage` and `PublishMessageToSNS`. The client object, contexts and `cancel()` on the error path are not modelled.
- `maxWorkers` (sqs-subcriber.go:28) is declared as a constant but, as in the source, nothing uses it.
- Handlers are modelled as pure functions of the message. A Go handler receives a `*types.Message` and could change it, for example its receipt handle, before the delete. That effect, and any other side effect of a handler, is not modelled.
- A handler that panics or never returns is not modelled.
- `ProcessMessage`'s delete outcome is a parameter per message, so a worker that receives the same message twice sees the same delete outcome both times.
- Log output is recorded as which log line was written and with what error. The format strings and the `log` flags are not modelled.
- Error texts are not modelled as strings. Validation errors are the constructors of `SnsCommon.Error`, each documented with the Go message it stands for. Panics (a nil extra attribute, a non-JSON Body in notification.go) are modelled as error values.
- Strings are sequences of Unicode scalar values. `Len` is their UTF-8 byte length; Go strings holding invalid UTF-8 are not modelled.
- A JSON document (`datatypes.JSON`) is its text. `json.Marshal` is an uninterpreted, possibly failing function, so nothing is proved about its output beyond what the code does with it.
- `AttributeValue` has only `DataType` and `StringValue`; `sns.MessageAttributeValue.BinaryValue` is not modelled. The model therefore cannot show that an extra binary attribute is published but adds only its key to the size (aws-sns-notification.go:156-160 count `StringValue` only).
- A nil `ExtraMessageAttributes` map and an empty one are not distinguished. Both range over nothing and merge nothing in the source.
- cache.go, redis-cache.go, in-mem-cache.go, logger.go, aws-pub-sub.go, aws-session-builder.go, response-builder.go, contants.go and helpers.go are not part of this model. They are SDK and database plumbing, wall-clock caches, and constants.
