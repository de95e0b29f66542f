# Verification of the o5 runtime sidecar

A Dafny model of the parts of the sidecar that move messages and hold state,
with proofs of what they promise. `dafny verify dfyconfig.toml` checks it.

What is modelled, and in which module:

- **The transactional outbox.** `OutboxProtocol` is a state machine over the
  shared table, its row locks, the open transactions and the bus, with any number
  of workers and faults anywhere. `World` gives that machine to imperative code:
  every call of a worker may be preceded by any steps of the others. `Publishers`
  and `OutboxWorker` are the EventBridge and AMQP batchers and `doBatch`, `doPage`
  and `loopUntilEmpty`, each proved to be a run of the machine. `OutboxListener`
  adds LISTEN, notifications, lost connections and start-up.
- **The consumers.** `SqsWorker`, `AmqpWorker` and `DeadLetters` decide between
  delete or ack, requeue and dead letter. `EndToEnd` composes them with the
  outbox: no committed row is lost on the way to a handler or a dead letter.
- **The message pipeline.** `Converter` (stamping and re-encoding),
  `SqsParsing` with `Base64` and `Text` (unwrapping), `Router` (dispatch),
  `ServiceHandler` (decoding and reply-to injection), put together in `Pipeline`.
  The serialisers of
  `Messages` are partial functions; what is assumed of them is that J5 JSON reads
  back what it wrote.
- **Reflection.** `DescriptorGraph` and `Fetcher` are the recursive resolver of
  descriptor files, `CachedLookup` the double-checked locking around it,
  `ServiceDiscovery` the start-up loop that fills the registry. The registry that
  `ServiceDiscovery.ServiceLister.FetchServices` leaves is a fresh client of
  `CachedLookup`.
- **The Postgres proxy.** `Passthrough` is the pair of copiers under one
  cancellable group, `PgProxy` a connection from start-up message to pass-through.
- **Smaller parts.** `RoutingKey` (AMQP topics), `SnsBatches` (grouping and
  chunking), `Connectors` (the registry of Postgres connectors and its DSNs).

Code that changes state is a class with the source's fields, its methods proved
against functions or machines whose properties are then proved as lemmas. Clients
and servers of other systems (Postgres, EventBridge, SQS, RabbitMQ, gRPC) are
nondeterministic methods or machine steps, known to callers by contract only.

## What the proofs brought up

- `doPage` declares `count` and returns it without assigning it
  (`apps/pgoutbox/outbox.go:178`, `202`), so `loopUntilEmpty` stops after one page.
  The model has both forms, `AsWritten` and `Counted` (the number of rows
  selected); the drain and wake-up theorems hold of the second, and
  `OutboxWorker.OnePageDrainsIff` and `OutboxListener.AsWrittenSleepsOnFullTable`
  say what the first does, and `OutboxListener.AsWrittenLeavesRows` gives its runs.
- Even counting pages, a wake-up can be lost in two situations, each with a run
  that shows it (`OutboxListener.StartupWindowStrandsRow`,
  `OutboxListener.ReplicaStrandsRow`): between the drain at start-up and the first
  LISTEN, and when another replica selects a row and rolls back. Of every run,
  `OutboxListener.UndrainedLeavesWhatListenFound` and
  `OutboxListener.LeftRowsAreHeldOrAbandoned` say what may be left.
- The receive count of an SQS message never matters: it is only looked at
  without a dead-letter handler, where killing fails anyway
  (`adapters/sqsmsg/worker.go:99`, `119`). The AMQP bound of four attempts
  needs a broker that sends `x-delivery-count`; without it no number bounds them.
- An SQS attribute without a string value panics the worker while it builds a
  dead letter (`adapters/sqsmsg/worker.go:169`).
- Re-encoding keeps every message's meaning, for every codec, exactly when the
  sender knows no other schema under the handler's type name
  (`ServiceHandler.ContentIsKeptIffSharedSchema`). The copy of `reply_to` displaces
  another set member of a oneof exactly when they share one
  (`ServiceHandler.InjectionChangesOnlyReplyTo`).
- `newConn` only logs a failed handshake and then dereferences the missing client
  (`apps/pgproxy/listener.go:76-80`), so every unacceptable start-up message
  crashes it; `PgProxy.HandshakeForm` has the form that returns beside the one as
  written. A login that fails after connecting leaves the server connection open.
- A port of zero written in an Aurora endpoint is kept, and would become 5432 if
  the configuration were fixed a second time. A printed Aurora DSN cannot be read
  by the DSN parser, because tokens hold equals signs.
- A file's services are remembered under `package.service` even when the package
  is empty (`adapters/grpcreflect/protoread.go:178`); such a name starts with a dot
  and never equals a listed one, so it costs a request and loses nothing.

## What is assumed

- Postgres: `FOR UPDATE SKIP LOCKED` returns unlocked, eligible rows and locks
  them, a full page whenever ten are eligible; a transaction is atomic, and a
  failed commit may or may not have been applied.
- The bus keeps what it accepted until a worker removes it, and may deliver it any
  number of times. EventBridge answers one result per entry, in order. A reported
  send failure may still have been accepted.
- One publish call takes each entry at most once: a client that retries inside the
  call may send twice what counts here as one acceptance, so
  `OutboxProtocol.DuplicationIsBounded` counts calls, not what such a client does.
- A publish on an AMQP channel without an error counts as accepted. The channel is
  not put into confirm mode (`adapters/amqp/ampq.go:40-58`), so this is an assumption
  about the broker, and `OutboxProtocol.NoRowIsLost` rests on it. When no channel can
  be had (`adapters/amqp/publisher.go:44-47`) nothing is offered; here that is a
  publish that failed and was not accepted.
- Looking a message type up by name always gives the same answer; a lookup that
  fails for a moment is not part of this model. A stored message without a body is a
  panic in the source once a reflection client is set, and a row that does not parse here,
  whose transaction is rolled back; either way the row stays.
- A gRPC server's descriptor files are consistent (imports exist, each symbol is
  defined once) and free of import cycles; responses hold the requested file and
  only its imports, and on one stream at least the imports not sent before.

## Model

| member | source | states |
|---|---|---|
| `OutboxProtocol.InvKept` | `apps/pgoutbox/outbox.go:177-291` | every step of the shared machine (insert, begin, select with skip-locked, parse, accept, report, delete, commit, rollback, lost connection, clock) keeps: the lock table is exactly what open transactions hold, each transaction's record agrees with table and bus, no committed row is missing from both table and bus, and the per-row books balance |
| `OutboxProtocol.InvAlways` | `apps/pgoutbox/outbox.go:177-291` | the same invariant in every state that any interleaving of any number of workers leads to |
| `OutboxProtocol.NoRowIsLost` | `apps/pgoutbox/outbox.go:187-200` | for every run with crashes, failed deletes and failed commits: a row ever committed is still stored unchanged, or a message parsed from it, carrying its id, was accepted by the bus |
| `OutboxProtocol.DisappearsOnlyAfterAcceptance` | `apps/pgoutbox/outbox.go:270-288` | a row leaves the table only in the commit of a transaction that held it, reported it sent and had its message accepted before |
| `OutboxProtocol.RowsAreHeldOnce` | `apps/pgoutbox/outbox.go:211-215` | no two open transactions ever hold the same row |
| `OutboxProtocol.DuplicationIsBounded` | `apps/pgoutbox/outbox.go:271-283` | a row's message is accepted at most once per insert plus once per transaction that selected the row and ended without removing it, and each removal was paid for by an acceptance |
| `OutboxProtocol.FaultlessPublishesOnce` | `apps/pgoutbox/outbox.go:177-203` | in a run with no rollback, lost connection or failed report each inserted row is accepted at most once, and exactly once when it has been removed |
| `OutboxProtocol.OthersLeaveTxAlone` | `apps/pgoutbox/outbox.go:211-215` | whatever the other workers do in between, an open transaction and the rows it holds stay as they are |
| `OutboxProtocol.DelayedRowsWait` | `apps/pgoutbox/outbox.go:217-219` | in every run of an outbox with delays, a stored row that an open transaction holds is past the time it was delayed to, so nothing is published early |
| `OutboxProtocol.SelectTakesWhatIsDue` | `apps/pgoutbox/outbox.go:211-219` | a select returns stored rows that nobody holds and, with delays, whose time is before now; unless it returns ten, every other free row is still waiting for its time, so without delays none is left |
| `Publishers.EventBridgePublisher.PublishBatch` | `adapters/eventbridge/eventbridge.go:68-120` | no call when a message has no encoding, else one call with the whole batch; the ids returned are exactly those of the entries reported without an error code, in order, each accepted by the bus; the error is the encoding failure, the failed call or the first failed entry, and nil exactly when there is none |
| `Publishers.AmqpPublisher.PublishBatch` | `adapters/amqp/publisher.go:61-78` | every message that has an encoding is offered, in order, whatever became of the ones before; the ids returned are exactly those whose publish succeeded, each accepted; the error counts the rest and is nil exactly when there are none |
| `Publishers.AmqpPublisher.Publish` | `adapters/amqp/publisher.go:33-59` | one publish of the encoded message under its routing key, or none and an error without an encoding; without an error it has been accepted, a reported failure may or may not have been |
| `Publishers.BatchIdsPassRowCount` | `apps/pgoutbox/outbox.go:271-283` | for the distinct locked rows of a transaction, any id list a batcher may return names distinct rows that are still stored, so the row-count check in doBatch cannot fail on it |
| `Publishers.EntryNamesTheSender` | `adapters/eventbridge/eventbridge.go:122-138` | the entry for a stored row has the detail type o5-message/v1, the source o5/env/app of the sidecar that sends it, and a detail that reads back as the message |
| `Publishers.PickedIff` | `adapters/eventbridge/eventbridge.go:93-117` | an id is returned exactly when the result at its message's position is a success |
| `Publishers.FirstFailureIsFirst` | `adapters/eventbridge/eventbridge.go:104-106` | the error names the first entry that failed, all before it having succeeded |
| `Publishers.EncodableIff` | `adapters/amqp/publisher.go:33-43` | offered over AMQP are exactly the messages with an encoding, in their order |
| `OutboxWorker.Outbox.ParseRows` | `apps/pgoutbox/outbox.go:260-268` | parses rows in order, one message per row, and fails exactly when some row does not parse |
| `OutboxWorker.Outbox.Publish` | `apps/pgoutbox/outbox.go:270-273` | what is recorded as sent is exactly what the client reported as sent, an ordered part of the selected rows, and all of them exactly when there is no send error |
| `OutboxWorker.Outbox.DeleteSent` | `apps/pgoutbox/outbox.go:275-283` | deletes exactly the sent ids or fails with the transaction untouched; the row-count error never arises |
| `OutboxWorker.Outbox.SendRows` | `apps/pgoutbox/outbox.go:256-291` | parse, publish and delete in that order; success means everything was sent, a send error that exactly the rows reported sent, and not all, are deleted; any other error leaves nothing to commit |
| `OutboxWorker.Outbox.DoBatch` | `apps/pgoutbox/outbox.go:210-291` | the worker's own steps are one of the sequences doBatch allows, the client calls are those of one batch, and without errors the rows sent are the page selected, which `OutboxProtocol.SelectTakesWhatIsDue` and `OutboxProtocol.DelayedRowsWait` say are due; when no call fails the only errors are a selected row that does not parse and a parsed one without an encoding, whatever others do |
| `OutboxWorker.Outbox.EndTx` | `apps/pgoutbox/outbox.go:187-200` | a send error still commits, every other error rolls back |
| `OutboxWorker.Outbox.DoPage` | `apps/pgoutbox/outbox.go:177-203` | one transaction asked for, and from begin to end a run of the protocol; after success the page was sent whole, after a send error exactly the rows the client reported sent, and what was sent is gone from the table; errors have the causes doBatch has when no call fails; undisturbed, it removes one page |
| `OutboxWorker.Outbox.LoopUntilEmpty` | `apps/pgoutbox/outbox.go:159-175` | the worker's steps, client calls and transactions are those of the pages counted, each but the last non-empty, the last deciding the result; counted form: ends only after an empty page, and undisturbed over n eligible rows takes ceil(n/10)+1 pages and removes exactly the eligible rows; as written: exactly one page, whatever happens |
| `OutboxWorker.PagesLeave` | `apps/pgoutbox/outbox.go:211-219` | k undisturbed pages over n eligible rows leave exactly max(0, n-10k) |
| `OutboxWorker.QuietPageShrinks` | `apps/pgoutbox/outbox.go:211-219` | an undisturbed page removes its own rows, min(10, n) of them, and nothing else, and is empty exactly when nothing was eligible |
| `OutboxWorker.OnePageDrainsIff` | `apps/pgoutbox/outbox.go:171-203` | as written one wake-up drains the table exactly when at most ten rows are eligible |
| `OutboxWorker.SentPassRowCount` | `apps/pgoutbox/outbox.go:280-283` | what the publisher reported is still there to be deleted, so as many rows are affected as ids were given |
| `OutboxListener.ListenerInvariant` | `apps/pgoutbox/listen.go:10-51` | counting pages, with one sidecar and no delayed rows: over any events table, locks and listener state stay consistent, and after a drain nothing is missed without a pending notification |
| `OutboxListener.NoLostWakeUp` | `apps/pgoutbox/listen.go:17-50` | one sidecar without delayed rows, counting pages: once a drain has ended under LISTEN, whenever the listener is parked with nothing pending the table is empty, after any number of reconnects and any inserts |
| `OutboxListener.AsWrittenSleepsOnFullTable` | `apps/pgoutbox/outbox.go:159-203` | as written, over every run of a lone sidecar without delayed rows: when it sleeps after a drain, max(0, n-10) of the n rows its last page was selected from are left, so the table is empty exactly when there were at most ten |
| `OutboxListener.AsWrittenLeavesRows` | `apps/pgoutbox/outbox.go:171-203` | for any rows that parse, committed together, there is a run without a failure after which the listener as written sleeps with all but ten of them in the table |
| `OutboxListener.LeftRowsAreHeldOrAbandoned` | `apps/pgoutbox/listen.go:21-49` | with any number of replicas, counting pages: whenever a listener that has drained sleeps, every row still stored is held by another worker's open transaction or was selected by a transaction that ended without removing it |
| `OutboxListener.UndrainedLeavesWhatListenFound` | `apps/pgoutbox/outbox.go:79-99` | a listener asleep without having drained leaves what LISTEN found: no other row is in the table, and alone it is empty exactly when it was then |
| `OutboxListener.StartupWindowStrandsRow` | `apps/pgoutbox/outbox.go:79-99` | a row committed after the drain at start-up and before LISTEN leaves the listener asleep with that row in the table |
| `OutboxListener.ReplicaStrandsRow` | `apps/pgoutbox/listen.go:21-49` | with a second replica a row that it selects and rolls back is left unlocked and unannounced while this listener sleeps |
| `OutboxListener.ErrorsStop` | `apps/pgoutbox/outbox.go:159-203` | the listener returns an error, and stops, on a failed drain, a send error although its page is committed, a rolled back or lost transaction, and a reconnection that fails |
| `OutboxListener.StoppedStays` | `apps/pgoutbox/listen.go:45-48` | once stopped it takes no further step of its own, whatever events follow |
| `OutboxListener.NeverStuck` | `apps/pgoutbox/listen.go:21-49` | parked with a notification or without a connection it can go on to a drain, and in a drain it can always begin a page or end the one it has open |
| `Converter.MessageConverter.ParseMessage` | `adapters/msgconvert/msgconvert.go:35-44` | decodes the row, replaces the message id by the row id and converts; fails exactly on an undecodable envelope or a failed conversion |
| `Converter.MessageConverter.ConvertMessage` | `adapters/msgconvert/msgconvert.go:46-80` | stamps source app, environment and version header, re-encodes binary and proto-JSON bodies as J5 when a reflection client is set, sets the reply address of requests |
| `Converter.RowIdBecomesMessageId` | `adapters/msgconvert/msgconvert.go:35-44` | the published message carries the row's id and keeps service, method, topic and any non-request extension of the stored one |
| `Converter.ConvertIsIdempotent` | `adapters/msgconvert/msgconvert.go:46-80` | converting a message the same sidecar already converted changes nothing |
| `Converter.StampsTheSender` | `adapters/msgconvert/msgconvert.go:46-80` | the message of every row that parses carries the sidecar's own app, environment and version header, all other stored headers and no more, and on a request the address env/app |
| `Converter.ReencodesExactlyProto` | `adapters/msgconvert/msgconvert.go:55-68` | without a reflection client the body stays as it is; with one, exactly binary and proto-JSON bodies leave as J5 under the same type URL |
| `Converter.RefusedIff` | `adapters/msgconvert/msgconvert.go:55-108` | a message is refused exactly when, with a reflection client, it has no body, or is to be re-encoded and its type is unknown, its bytes do not decode in their own encoding, or the content has no J5 form |
| `ServiceHandler.ParseMessageBody` | `apps/queueworker/messaging/service_handler.go:91-145` | what the application gets: raw payloads untouched, a type URL that must match when present, the body decoded by its encoding, the reply address injected into requests that carry one |
| `ServiceHandler.DynamicMessage.SetReplyTo` | `apps/queueworker/messaging/service_handler.go:147-179` | writes the reply address into the first RequestMetadata field, whose other content `ServiceHandler.InjectionChangesOnlyReplyTo` shows kept, or fails and leaves the message as it was |
| `ServiceHandler.ReencodingKeepsContent` | `adapters/msgconvert/msgconvert.go:82-115` | a converted body decodes to the same request as the stored body, for every encoding, given a J5 codec that inverts itself and a shared schema |
| `ServiceHandler.ConvertedMessageMeansTheSame` | `apps/queueworker/messaging/service_handler.go:91-145` | the handler decodes from the converted message the request stored in the row, with the sender's address injected when it is a request |
| `ServiceHandler.ContentIsKeptIffSharedSchema` | `adapters/msgconvert/msgconvert.go:82-115` | re-encoding keeps the content of every message, for every J5 codec that inverts itself, exactly when the sender knows no other schema under the handler's type name |
| `ServiceHandler.DifferentSchemasCanChangeContent` | `adapters/msgconvert/msgconvert.go:82-94` | for every two different schemas under one name there are a codec that inverts itself and a message whose content changes |
| `ServiceHandler.RequestDeliverableIff` | `apps/queueworker/messaging/service_handler.go:129-142` | a converted request is deliverable exactly when its content decodes and it is raw or its first RequestMetadata field exists and is not a list |
| `ServiceHandler.InjectionChangesOnlyReplyTo` | `apps/queueworker/messaging/service_handler.go:147-179` | injection sets reply_to of the first field of type j5.messaging.v1.RequestMetadata, keeps the rest of that field byte for byte and adds nothing where there was none; every other field keeps its value exactly when no set field shares a oneof with it |
| `ServiceHandler.ReadableIff` | `apps/queueworker/messaging/service_handler.go:91-127` | a message is readable exactly when it is raw, or names the handler's type or none and its bytes decode in their encoding; a raw one is handed over with its topic and payload |
| `ServiceHandler.InjectsIntoRequestsOnly` | `apps/queueworker/messaging/service_handler.go:129-142` | a message that is no request, or a request without an address, is handed over exactly as its bytes decode; only a request with an address is injected into, and it fails exactly when injection does |
| `ServiceHandler.ReplyReachesRequester` | `testproto/gen/test/v1/test_tpb/test.p.j5s_o5_messaging.pb.go:204-219` | a reply whose metadata is copied from the request leaves the responder addressed to exactly the requester's environment and app, whatever reply address was stored |
| `ServiceHandler.AddressIdentifiesSidecar` | `adapters/msgconvert/msgconvert.go:69-77` | an address names one sidecar as long as environment names hold no slash |
| `SqsParsing.ParseServiceMessage` | `adapters/sqsmsg/sqs_parse.go:120-197` | the branches on content type, base64, JSON look and SNS wrapper compute the specified message or error |
| `SqsParsing.EventBridgeRoundTrip` | `adapters/eventbridge/eventbridge.go:122-138` | a message put on the event bus and delivered in its envelope without a service attribute is parsed back field by field |
| `SqsParsing.Base64NeverLooksLikeJson` | `adapters/sqsmsg/sqs_parse.go:102-118` | base64 text is never taken for JSON |
| `SqsParsing.Base64BodyIsRecovered` | `adapters/sqsmsg/sqs_parse.go:145-177` | a service message with base64 of x and no content type yields exactly x, unless x is itself an SNS notification, and then the notification's message |
| `SqsParsing.ServiceNameIsSplit` | `adapters/sqsmsg/sqs_parse.go:120-127` | the attribute /service/method gives back service and method |
| `SqsParsing.ContentTypeDecidesDecoding` | `adapters/sqsmsg/sqs_parse.go:129-158` | through to the application: a JSON content type, or none and a JSON look, means proto-JSON of the body; another known content type means binary proto of the body; none otherwise means binary proto of its base64 content |
| `SqsParsing.NotificationReachesHandlerRaw` | `adapters/sqsmsg/sqs_parse.go:50-91` | an SNS notification outside a service message, which the event-bus reader also reads as a wrapper without a detail type, is accepted exactly when its topic ARN has six parts, and reaches its handler as the raw payload under the topic's own name |
| `SqsParsing.ServiceMessageAcceptedIff` | `adapters/sqsmsg/sqs_parse.go:120-158` | a service message is accepted exactly with three parts in its name and a known content type, or none and a JSON look or base64 content |
| `SqsParsing.ServiceMessageFields` | `adapters/sqsmsg/sqs_parse.go:180-197` | its id is derived from the queue's message id, its type URL is that of its message attribute, or empty, and it asks for no reply |
| `SqsParsing.ServiceMessageIsUnwrapped` | `adapters/sqsmsg/sqs_parse.go:160-178` | a notification as it stands or inside base64 is always unwrapped to its own message; the content type decides the encoding when there is one, the look of the inner message otherwise |
| `SqsParsing.RecognisedInOrder` | `adapters/sqsmsg/sqs_parse.go:50-100` | a message is a service message if it has the attribute, else an event-bus message if it has a detail type, and then accepted exactly as o5-message/v1 with a detail that decodes, else a notification, else exactly what its body decodes to |
| `SqsParsing.LooksLikeJsonIff` | `adapters/sqsmsg/sqs_parse.go:102-118` | between blanks, braces at both ends or brackets at both ends, and nothing else |
| `Base64.DecodeEncode` | `adapters/sqsmsg/sqs_parse.go:152-156` | decoding undoes encoding for every byte string (section 4 of RFC 4648) |
| `Base64.Alphabet` | `adapters/sqsmsg/sqs_parse.go:152-156` | the digits are those of table 1 in section 4 of RFC 4648, in both directions |
| `Base64.DecodesIff` | `adapters/sqsmsg/sqs_parse.go:152-156` | line breaks aside, a text decodes exactly when it is groups of four characters of the alphabet of which the last may end in one or two padding characters |
| `SqsWorker.Worker.KillMessage` | `adapters/sqsmsg/worker.go:146-204` | publishes the parsed message or the raw body as a dead letter and deletes only after that was accepted; panics exactly when a dead-letter handler is set and an attribute has no string value |
| `SqsWorker.Worker.HandleMessage` | `adapters/sqsmsg/worker.go:93-144` | what one delivery leads to, for every combination of parse, handler, dead-letter and delete results; the receive count plays no part; it panics exactly when a failed delivery with a dead-letter handler has an attribute without a string value |
| `SqsWorker.Worker.FetchOnce` | `adapters/sqsmsg/worker.go:48-78` | a batch is delivered message by message, in order, all of it unless a delivery panics and ends the process; that delivery is the last, and the only one that meets the panic condition |
| `SqsWorker.DeleteIsJustified` | `adapters/sqsmsg/worker.go:93-204` | a delete is the last thing done for a delivery and follows a handler success or an accepted dead letter holding the parsed message or raw body |
| `SqsWorker.FailuresAndDeadLetters` | `adapters/sqsmsg/worker.go:99-122` | without a dead-letter handler a failing delivery is never deleted; with one it is dead-lettered at once, whatever its receive count |
| `SqsWorker.RunDeletesAreJustified` | `adapters/sqsmsg/worker.go:40-144` | over a whole run every delete belongs to a delivery whose message was disposed of earlier in the run |
| `SqsWorker.DeadLetterHoldsDelivery` | `adapters/sqsmsg/worker.go:146-192` | a dead letter holds the sidecar that gave up, the message id, the queue and every attribute of the delivery, and the parsed message or, when it did not parse, the raw body byte for byte under the message's own id |
| `SqsWorker.DeletedUnhandledIsInDeadLetter` | `adapters/sqsmsg/worker.go:93-204` | what is deleted without having been handled is, whole, in the dead letter accepted just before: the parsed message, or the raw body under the message's id |
| `SqsWorker.HandledOnceIff` | `adapters/sqsmsg/worker.go:93-144` | a delivery reaches the application exactly when it parses, once, as what it parses to; a success is followed by the delete and nothing else |
| `AmqpWorker.Worker.HandleDelivery` | `adapters/amqp/subscriber.go:79-121` | what one delivery leads to and whether it ends the consume loop |
| `AmqpWorker.Worker.KillMessage` | `adapters/amqp/subscriber.go:123-174` | acks only after the dead letter was accepted |
| `AmqpWorker.Worker.RunLoopOnce` | `adapters/amqp/subscriber.go:51-77` | deliveries are handled in order until one ends the loop; the ones after it stay unsettled |
| `AmqpWorker.SettledOnceAndJustified` | `adapters/amqp/subscriber.go:79-174` | at most one ack or nack per delivery, as its last effect; an ack only after handler success or an accepted dead letter, a requeue only after a failure |
| `AmqpWorker.UnsettledIff` | `adapters/amqp/subscriber.go:88-112` | a delivery stays unsettled exactly when it is unreadable or its dead letter is refused, and that ends the loop |
| `AmqpWorker.AttemptsAreBounded` | `adapters/amqp/subscriber.go:79-121` | with a dead-letter handler and rising counts an always-failing message reaches the application at most 4 times plus the failed dead letters or acks |
| `AmqpWorker.WithoutCountIsUnbounded` | `adapters/amqp/subscriber.go:83-119` | without a delivery count no number bounds the attempts: for every n a readable delivery can reach the application n times, requeued each time and never acked, with no failure of the worker |
| `AmqpWorker.FourAttemptsAreReached` | `adapters/amqp/subscriber.go:83-119` | with a dead-letter handler every readable delivery has a history, with counts zero to three, of four failed attempts of which the last is dead-lettered and acked: the bound of four is exact |
| `AmqpWorker.FailureIsRequeuedIff` | `adapters/amqp/subscriber.go:102-121` | a failure is requeued exactly without a dead-letter handler, without a count, or with a count below three; otherwise, and only then, it is dead-lettered |
| `AmqpWorker.HandledIff` | `adapters/amqp/subscriber.go:79-100` | handled are exactly the deliveries of the o5 content type whose body decodes, as what it decodes to |
| `AmqpWorker.DeadLetterHoldsDelivery` | `adapters/amqp/subscriber.go:123-165` | a dead letter holds the sidecar that gave up, the delivery's message id and queue, and the message its body decodes to |
| `EndToEnd.RemovalMeansDisposed` | `apps/queueworker/messaging/death.go:33-53` | either worker lets go of a bus message only after that very message was handled or published as a dead letter |
| `EndToEnd.RowsAreConserved` | `apps/pgoutbox/outbox.go:177-291` | in every state of outbox, bus, queue and workers, a row ever committed is in the table, or its message is pending on the bus, or it was handled or dead-lettered |
| `Pipeline.StoredMessageReachesItsHandler` | `apps/queueworker/messaging/service_handler.go:91-145` | from stored row over event bus and queue: the router picks the handler registered for the stored service and method, and by its own request descriptor it is handed the stored content, with the sender's address when the row holds a request |
| `Pipeline.StoredMessageReachesItsHandlerOverAmqp` | `adapters/amqp/subscriber.go:94-100` | the same over an AMQP exchange |
| `Fetcher.FileFetcher.FindDescriptorByName` | `adapters/grpcreflect/fetcher.go:28-44` | a name is answered with the file that defines it; the registry grows by exactly that file's import closure on success, by part of it on an error, and not at all for a known name; on a steady stream every name the server defines is found |
| `Fetcher.FileFetcher.FindFileByPath` | `adapters/grpcreflect/fetcher.go:46-53` | a registered path is answered from the registry; any other leaves exactly the old registry plus the path's closure on success, import-closed on every outcome; on a steady stream every path the server has is resolved; terminates on import rank |
| `Fetcher.FileFetcher.FetchAndIncludeFile` | `adapters/grpcreflect/fetcher.go:79-90` | the same for a path that has to be fetched, whatever the order of the response; never a collision |
| `Fetcher.FileFetcher.RegisterFileResponse` | `adapters/grpcreflect/fetcher.go:55-77` | registering a response never collides, adds only files of the requested file's closure, and keeps the registry import-closed on every error path |
| `Fetcher.FileFetcher.NewFile` | `adapters/grpcreflect/fetcher.go:67-70` | resolving a file's imports registers only files of strictly lower rank, so never the file itself; on a steady stream it succeeds |
| `Fetcher.FileFetcher.RegisterFile` | `adapters/grpcreflect/fetcher.go:72-74` | refused exactly for a path or symbol already there, and then nothing changes; otherwise both indexes stay in agreement |
| `Fetcher.ReferencesAreLocal` | `adapters/grpcreflect/fetcher.go:67-70` | once a file's imports are registered, every name it refers to is answered from the registry |
| `CachedLookup.ClientInvAlways` | `adapters/grpcreflect/protoread.go:67-95` | in every interleaving of callers: lock exclusion, a sound registry, sound answers, and no name fetched again after a success |
| `CachedLookup.LookupIsTransparent` | `adapters/grpcreflect/protoread.go:67-95` | a successful lookup gives what the server defines, nobody sees a half-registered or open registry, and a name fetched with success is never fetched again |
| `CachedLookup.SecondLookSavesFetch` | `adapters/grpcreflect/protoread.go:82-87` | a caller that waited for the write lock while its name was fetched does not fetch |
| `CachedLookup.FailsOnlyAfterFailedFetch` | `adapters/grpcreflect/protoread.go:67-95` | in every interleaving a lookup ends without an answer only after a fetch of its own name that failed; a successful fetch answers |
| `CachedLookup.NoDeadlock` | `adapters/grpcreflect/protoread.go:67-95` | in every reachable state in which some lookup is unfinished, some caller can take its next step |
| `CachedLookup.KnownNameIsAnswered` | `adapters/grpcreflect/protoread.go:68-73` | a name in the registry is answered at the first look and its caller is done, with neither the write lock nor a fetch |
| `ServiceDiscovery.Collect` | `adapters/grpcreflect/protoread.go:165-183` | takes in a response file by file: undecodable exactly when a file is garbled, no path twice, and what counts as seen is defined by collected files |
| `ServiceDiscovery.SeenIsCovered` | `adapters/grpcreflect/protoread.go:156-158` | skipping an already seen service loses nothing: its defining file has been collected |
| `ServiceDiscovery.ServiceLister.CollectAll` | `adapters/grpcreflect/protoread.go:144-184` | after the loop the names are the listed non-reflection services in order and the collected files are import-closed, needed, and cover every service; on a steady stream it succeeds whenever the server defines them all |
| `ServiceDiscovery.CollectedIsGood` | `adapters/grpcreflect/protoread.go:186-189` | the descriptor set built by the loop is always accepted: no repeated path, no missing import, no symbol twice |
| `ServiceDiscovery.ExactlyNeeded` | `adapters/grpcreflect/protoread.go:144-184` | the files collected are exactly the import closures of the files that define the listed services |
| `ServiceDiscovery.ExposedIff` | `adapters/grpcreflect/protoread.go:150-156` | exposed are exactly the listed names that do not start with grpc.reflection, each as often as listed and in listed order |
| `ServiceDiscovery.ServiceLister.FetchServices` | `adapters/grpcreflect/protoread.go:129-209` | one descriptor per listed non-reflection service, in order, from its defining file; the registry holds exactly what they need; early errors leave the old registry; an unknown service or a non-service symbol is the only late error; on a steady stream it succeeds exactly when every listed name is a service the server has |
| `Passthrough.Pipe.CopyFrom` | `apps/pgproxy/pgserver/proxy.go:24-64` | the copy loop goes through a run of the one-direction machine and ends in the phase its result names; on a sound connection everything received is sent, up to Terminate if the input holds one, or else all of the input |
| `Passthrough.StreamsAreFaithful` | `apps/pgproxy/pgserver/proxy.go:28-62` | in every interleaving each direction has sent a prefix of what it received, at most one message behind, and nothing was received after Terminate |
| `Passthrough.TerminatedMeansForwarded` | `apps/pgproxy/pgserver/proxy.go:34-55` | a direction ends with Terminate exactly when it has forwarded Terminate without a write error, as its last message |
| `Passthrough.CleanEndIff` | `apps/pgproxy/pgserver/proxy.go:66-84` | passthrough returns nil exactly when the first error was Terminate or both directions only saw cancellation, and then loses nothing in the direction that ended it |
| `Passthrough.CancelledTakesOneMore` | `apps/pgproxy/pgserver/proxy.go:57-61` | after the shared context is cancelled each direction takes at most one more message |
| `Passthrough.FirstErrorIsFinal` | `apps/pgproxy/pgserver/proxy.go:66-73` | the result is settled by the first direction to fail |
| `Passthrough.OutcomeIsFirstFailure` | `apps/pgproxy/pgserver/proxy.go:66-84` | what is returned is the error of the direction whose failing event came first in the run, or nil if that was Terminate |
| `Passthrough.DirectionsAreCopiers` | `apps/pgproxy/pgserver/proxy.go:66-72` | in a session each direction goes through a run of the copier |
| `PgProxy.Backend.ClientHandshake` | `apps/pgproxy/pgserver/backend.go:109-152` | accepted exactly for a start-up message with a user and neither replication nor options; the database defaults to the user; every refusal but a cancel request or a failed read sends one FATAL |
| `PgProxy.Backend.Open` | `apps/pgproxy/pgserver/backend.go:24-54` | the handshake plus the version check: newer protocols are refused silently, older ones let through |
| `PgProxy.Backend.NewConn` | `apps/pgproxy/listener.go:71-115` | which outcome for which input, both ways: handshake, database, DSN, login, and with all of them in order the session, or a failed ready message only when a write failed; as written it crashes exactly on an unacceptable start-up message; the server connection is left open exactly when login fails after connecting |
| `PgProxy.TranscriptIsOneOfTwo` | `apps/pgproxy/listener.go:71-115` | the client reads one FATAL and nothing else, or AuthenticationOk, ReadyForQuery and then only the server's messages in order |
| `Router.Router.RegisterService` | `apps/queueworker/messaging/router.go:41-50` | every method of the service is registered with its request descriptor, in order, the newest registration for a name winning |
| `Router.Router.HandleMessage` | `apps/queueworker/messaging/router.go:78-99` | the handler is the newest registration for the message's full method, or else the fallback, or none |
| `Router.DispatchIsExact` | `apps/queueworker/messaging/router.go:52-99` | with services registered from descriptors a message goes to a method handler exactly when its own service and method were registered, and then to that very method's; all others go to the fallback |
| `Router.FullMethodIsInjective` | `apps/queueworker/messaging/router.go:87` | two messages with slash-free service names share a table key only if service and method agree |
| `Router.EveryMethodIsRegistered` | `apps/queueworker/messaging/router.go:41-50` | each method of a registered service, at whatever position, is registered under the service's name with its own request descriptor |
| `Router.LastRegistrationWins` | `apps/queueworker/messaging/router.go:52-76` | the last registration for a method or a full name gets its messages, whatever came before |
| `Router.FallbackIff` | `apps/queueworker/messaging/router.go:56-60` | there is a fallback exactly when the generic topic's method was registered, and it belongs to its last registration |
| `RoutingKey.KeyIsReadBackIff` | `adapters/amqp/ampq.go:86-96` | a routing key tells its service and method exactly when the service name has no slash |
| `RoutingKey.KeyText` | `adapters/amqp/ampq.go:86-96` | a key is service, the service name with every dot as a slash and all else as it was, and the method, joined by dots |
| `RoutingKey.ServicePatternBindsIff` | `adapters/amqp/ampq.go:77-79` | a service pattern binds exactly the one-word methods of services that agree with it after dots became slashes (section 3.1.3.3 of AMQP 0-9-1) |
| `RoutingKey.ServiceSubscriptionIsExact` | `adapters/amqp/ampq.go:77-79` | for slash-free names a service subscription gets that service's messages and no others |
| `RoutingKey.MethodSubscriptionIsExact` | `adapters/amqp/ampq.go:81-82` | a method subscription gets that method's messages and no others |
| `SnsBatches.Chunk` | `adapters/eventbridge/sns.xgo:123-136` | one topic's messages are cut, in order, into the fewest requests: all of ten but the last, which has the rest |
| `SnsBatches.Prepare` | `adapters/eventbridge/sns.xgo:111-137` | for each topic the requests carry exactly the messages for it, in order |
| `SnsBatches.BatchesConserve` | `adapters/eventbridge/sns.xgo:111-137` | grouping and chunking neither drop nor repeat a message |
| `SnsBatches.SnsPublisher.PublishBatch` | `adapters/eventbridge/sns.xgo:109-172` | the prepared requests go out in order until one is not answered or reports a failure; the ids returned are exactly those the answers name, all of them of entries SNS took, also when an unanswered request was taken in part; without an error every message was sent, taken and returned |
| `Connectors.TryParsePgString` | `adapters/pgclient/postgres.go:150-188` | the loop over the parts computes the specified database name or error |
| `Connectors.AuroraConfig.FixConfig` | `adapters/pgclient/aurora.go:56-82` | endpoint and port become what the specification says, or nothing changes |
| `Connectors.EndpointRoundTrip` | `adapters/pgclient/aurora.go:57-80` | host:port is taken apart again, and a port given separately must agree |
| `Connectors.FixingAgain` | `adapters/pgclient/aurora.go:56-82` | the fixed endpoint has no colon, and fixing it again changes nothing exactly when its port is not zero |
| `Connectors.ConnectorSet.DirectConnector` | `adapters/pgclient/postgres.go:68-77` | the first registration of a name wins |
| `Connectors.ConnectorSet.AddConfig` | `adapters/pgclient/aurora.go:84-96` | refused as a duplicate exactly when the name has a configuration; no error leaves a trace in the registry |
| `Connectors.ConnectorSet.AuroraConnector` | `adapters/pgclient/postgres.go:79-100` | exactly the Aurora connectors have a configuration, so the duplicate error never arises; a failed configuration registers nothing |
| `Connectors.ConnectorSet.GetConnector` | `adapters/pgclient/postgres.go:102-148` | what each reference leads to, given environment and registry; no failure changes the registry and no registration is ever replaced |
| `Connectors.ConnectorSet.ConnectionString` | `adapters/pgclient/aurora.go:123-142` | a registered Aurora connector always finds its configuration, and fails only with its token |
| `Connectors.PrintedDsnIsReadBackIff` | `adapters/pgclient/aurora.go:136-142` | a printed DSN whose values hold no spaces is read back with its database name exactly when no value holds an equals sign |
| `Connectors.AuroraDsnIsNotReadBack` | `adapters/pgclient/postgres.go:167-177` | with an AWS token, which is a query string, the DSN parser always refuses the printed DSN |
| `Connectors.PrintedDsnText` | `adapters/pgclient/aurora.go:136-142` | a printed DSN has user, token, host, port and database each under its own key, in that order |
| `Connectors.UrlNamesDatabaseIff` | `adapters/pgclient/postgres.go:151-165` | a postgres URL names a database exactly when its path is that one non-empty name, with or without a leading slash |
| `Connectors.NameIsLookedUp` | `adapters/pgclient/postgres.go:110-148` | a well-formed name is looked up under DB_CREDS_ and its screaming form, and connects under its snake form as the connection string or Aurora cluster its credentials are |
| `Connectors.NameLeadsNowhere` | `adapters/pgclient/postgres.go:110-148` | a malformed name, one without credentials and one whose credentials are neither a connection string nor a JSON object each give their own error |
| `Connectors.PlainEndpoint` | `adapters/pgclient/aurora.go:57-82` | an endpoint without a port keeps the given one, or gets 5432 |
| `Connectors.EndpointRefused` | `adapters/pgclient/aurora.go:57-72` | more than one colon, or a port that is no number, is refused |

## Left out

- Configuration and wiring (`entrypoint`, `cmd/server`, constructors, environment parsing), the HTTP server and the bridge: branching without invariants to keep.
- `waitForDB`, timeouts, tickers and log calls; `poll` is one more worker of the outbox machine, which may start a page at any time.
- The endless loops of `listen`, `poll` and `Run` appear as event sequences of any length, not as loops; `LoopUntilEmpty` and `CopyFrom` are loops, the first with a bound on the pages looked at, the second over a finite input.
- `send_after` is an integer time per row compared with the machine's clock; the timestamps of messages and dead letters are not modelled.
- Protobuf, proto-JSON, J5 and JSON codecs, URL and snake-case functions: abstract functions. Texts of errors are left out where no caller looks at them.
- Cyclic import graphs: the resolver would not terminate on them; every theorem about it is for acyclic graphs. protodesc's checks beyond paths, imports and symbols are not part of this model.
- `FindMessageByName`, `Invoke` and the codecs of `ReflectionClient`: thin wrappers around the lookup. Before `FetchServices` the registry is nil; the model starts after it.
- `FetchServices` assigns the registry without taking the lock (`adapters/grpcreflect/protoread.go:191`); the model of concurrent lookups starts when it has returned.
- `messageHeader`, `genericHandler` and the gRPC call itself: the handler's answer is a nondeterministic result.
- Messages are values: that `ConvertMessage` writes into the message it was given is not modelled.
- What `o5msg.WrapMessage` puts around a dead letter, and the fixed infrastructure type the AMQP worker shares with the SQS worker beyond the literal itself.
- SNS topics, queue subscriptions and bus rules: a message on the bus is assumed to reach some worker's queue. `prepareSNSMessage` is reduced to id, topic and content.
- Visibility timeouts, prefetch and broker limits: an unremoved message may come back at any time.
- `Connector.Channel` caching of AMQP connections, `ResendHandler`, and the accept loop of the proxy.
- The server's own login dialogue in `dialFrontend` is reduced to how far it got.
- EndToEnd.RowsAreConserved: says that a message is pending or was disposed of, not that it is eventually delivered; that needs fairness of broker and workers.
- OutboxWorker.Outbox.LoopUntilEmpty: with inserts and other workers around it need not end, so the number of pages is bounded by a parameter and the result may be that it is still running.
- ServiceHandler.ConvertedMessageMeansTheSame: holds when the sender's reflection client knows no other schema for the handler's type name; `ServiceHandler.ContentIsKeptIffSharedSchema` shows that this is needed as well as enough.
- Connectors.PrintedDsnIsReadBackIff: covers values free of spaces, of any other content; a key=value DSN with spaces in its values would need quoting.
