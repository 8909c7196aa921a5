# Idempotent payment settlement, modelled in Dafny

This project models the core of a Go payment gateway. The core is the pipeline that creates a payment, queues a processing instruction for it, and settles it exactly once even though the queue may deliver the same instruction many times.

- **Payment store** (`Database`, payment_repo.dfy). A class holding the payment table as a `map<Uuid, Payment>`.
  - `CreatePayment` inserts a PENDING row.
  - `GetPaymentByID` and `GetPaymentByReference` read without writing.
  - `ProcessPaymentIdempotent` is the transactional settle. It begins a transaction and reads the row. A row that is not PENDING comes back untouched. A PENDING row is written SUCCESS and committed. Every error after the begin drops the transaction's working copy, which is what the deferred rollback does.
  - The pure function `Settle` states the same transition. The lemmas beside it give idempotence, terminal immutability, "only this row changes" and rollback.
- **Data model** (`Models`, models.dfy):
  - the status values;
  - the payment record;
  - the creation request with its validation rules;
  - the two response projections;
  - the processing message.
- **Queue client** (`RabbitMQ`, rabbitmq.dfy). A class holding the ready messages of the `payment_processing` queue and the one delivery the consumer holds unacknowledged.
  - Publishing appends a persistent message that holds only the payment identifier.
  - `Next`, `Ack` and `Nack` are the manual-acknowledgement protocol. A requeued message goes to the end of the queue.
- **Pipeline** (`Pipeline`, pipeline.dfy). `Step` and `Run` are the consume loop as a pure state machine over the table and the queue. Its lemmas hold for every sequence of deliveries:
  - a payment's status changes at most once, PENDING to SUCCESS, and a status other than PENDING never changes;
  - no message is lost: every message is still queued, or was acknowledged or dropped;
  - every acknowledged payment ends up not PENDING;
  - a requeued message comes back to the head of the shared queue once every message queued with it has been delivered once, so each failed settle is retried;
  - when it is the only message queued, a message whose settle keeps failing converges once a settle succeeds;
  - a message for a missing payment is retried forever.
- **Worker** (`Worker`, payment_worker.dfy). A class holding only the store and the client.
  - `ProcessPayment` is the handler.
  - `HandleDelivery` is one pass of the consume loop.
  - `Start` runs the loop.
  - Each method is proved to follow `Settle`, `Step` and `Run`.
- **Ingress** (`Handlers`, payment_handlers.dfy):
  - `CreatePayment` runs bind, validate, reference pre-check, insert and best-effort publish, with an early exit at each step.
  - `GetPayment` is a lookup, a projection and the error-to-status mapping.
- **Scenarios** (scenarios.dfy). End-to-end runs proved through the contracts alone:
  - create then settle;
  - a duplicate reference is rejected;
  - a message that arrives before its row is requeued and later settles.

What the database, the broker and the libraries decide is passed in as a parameter:
- faults, each with the driver's error text;
- the identifier and instants the database assigns;
- whether the request body binds;
- whether the path identifier parses.

Some behaviour is not what a reader might expect:
- The model's insert does not check references. Whether the database rejects a duplicate is decided in SQL that is not part of this model; an insert fault stands for that rejection. The only reference check visible in the code is the handler's pre-check (`GetPaymentByReference` before the insert), and the lookup does not assume references are unique.
- A settle on a missing identifier fails with "payment not found". The worker returns that error, so the message is requeued.
- `Failed` exists as a status, but no code path writes it.

The status column is converted to the status type without a check. So besides PENDING, SUCCESS and FAILED, a row may hold other text. The model keeps that text as `Unrecognized(raw)`, and settle treats it like any other status that is not PENDING: it returns the row untouched.

## Model

| member | source | states |
|---|---|---|
| Models.Parse | internal/models/payment.go:10-16 | every status text parses to a status whose encoding is that text; the result is `Unrecognized` exactly when the text is not PENDING, SUCCESS or FAILED |
| Models.ParseEncode | internal/models/payment.go:12-16 | parsing inverts encoding, and each of the three named statuses has its own encoding, distinct from the others |
| Models.FieldErrors | internal/models/payment.go:28-32 | the validator reports each field whose rule fails, exactly those fields, once each, in declaration order |
| Models.ValidRequestRules | internal/models/payment.go:29-31 | a request is valid exactly when amount > 0, currency is ETB or USD and nothing else, and the reference is non-empty and at most 255 characters |
| Models.ResponsesProject | internal/models/payment.go:18-46 | the creation response distinguishes payments only by id and status; the read response distinguishes them by every field except UpdatedAt |
| Database.NotFoundMessageIsUnique | internal/database/payment_repo.go:54-60 | an error's text is "payment not found" exactly when the query found no row; no wrapped driver error has that text |
| Database.SettleMissing | internal/database/payment_repo.go:110-114 | settling an identifier with no row returns "payment not found" and leaves the table unchanged |
| Database.SettleNotPendingIsNoop | internal/database/payment_repo.go:118-131 | a row that is not PENDING, unexpected status text included, is returned unchanged and nothing is written |
| Database.SettlePending | internal/database/payment_repo.go:133-157 | a PENDING row is written SUCCESS; the returned record has status SUCCESS and the same ID, Amount, Currency, Reference and CreatedAt |
| Database.SettleOnlyTouchesItsRow | internal/database/payment_repo.go:135-138 | settle writes only the row keyed by its identifier; no other row changes and no row is added or removed |
| Database.SettleErrorRollsBack | internal/database/payment_repo.go:106-145 | a settle error at any statement leaves the table as it was before the call |
| Database.SettleIdempotent | internal/database/payment_repo.go:118-133 | after a successful settle, a second settle of the same identifier writes nothing, whatever the database does, and reports the same status |
| Database.EvolvesTransitive | internal/database/payment_repo.go:118-133 | the status machine (no row lost, identity kept, only PENDING to SUCCESS) composes over successive steps |
| Database.SettleEvolves | internal/database/payment_repo.go:118-157 | every settle outcome is one step of the status machine: terminal statuses and identities never change |
| Database.InsertEvolves | internal/database/payment_repo.go:28-48 | inserting under a new identifier changes no existing row |
| Database.PaymentRepository.CreatePayment | internal/database/payment_repo.go:25-49 | inserts and returns a PENDING row with the request's amount, currency and reference; on an insert error returns it and the table is unchanged |
| Database.PaymentRepository.GetPaymentByID | internal/database/payment_repo.go:51-73 | returns the stored row when it exists and the query succeeds; "payment not found" exactly when it is absent; a wrapped error on a query failure; reads only |
| Database.PaymentRepository.GetPaymentByReference | internal/database/payment_repo.go:75-97 | returns a stored row with that reference exactly when one exists; "payment not found" exactly when none does; a wrapped error on a query failure; writes nothing |
| Database.Settle | internal/database/payment_repo.go:99-158 | the settle transition as a function of the table; its properties are the Settle lemmas above |
| Database.PaymentRepository.ProcessPaymentIdempotent | internal/database/payment_repo.go:99-158 | follows `Settle` exactly; on error the table is as before; on success the returned payment has the requested id and the stored row is no longer PENDING |
| RabbitMQ.PaymentPublishing | internal/rabbitmq/rabbitmq.go:71-92 | the published message goes to the `payment_processing` queue, is persistent JSON, and decodes to exactly the given payment id |
| RabbitMQ.PaymentPublishingInjective | internal/rabbitmq/rabbitmq.go:74-76 | the message carries only the payment id: two messages are equal exactly when their ids are |
| RabbitMQ.Dispose | internal/rabbitmq/rabbitmq.go:120-138 | exactly one disposition per delivery: NackDrop iff the body does not decode, NackRequeue iff the handler failed, Ack iff it succeeded |
| RabbitMQ.Client.constructor | internal/rabbitmq/rabbitmq.go:52-69 | the declared queue is durable, so it starts with the messages it already held; nothing is in flight |
| RabbitMQ.Client.PublishPaymentProcessing | internal/rabbitmq/rabbitmq.go:71-99 | on success appends the payment's message to the queue; a marshal or publish failure is returned as an error and the queue is unchanged |
| RabbitMQ.Client.Next | internal/rabbitmq/rabbitmq.go:104-120 | with manual acknowledgement, a delivery is the head of the queue and stays held, unacknowledged, until it is settled |
| RabbitMQ.Client.Ack | internal/rabbitmq/rabbitmq.go:136 | acknowledging releases the held delivery; it does not come back |
| RabbitMQ.Client.Nack | internal/rabbitmq/rabbitmq.go:122-133 | a nack releases the held delivery; with requeue it goes back to the end of the queue, without requeue it is gone |
| Pipeline.Step | internal/rabbitmq/rabbitmq.go:120-138 | one pass of the consume loop with the worker's handler as a function of table and queue; its properties are StepDisposition, StepEvolves and StepConservesMessages |
| Pipeline.Run | internal/rabbitmq/rabbitmq.go:104-138 | the consume loop over a sequence of deliveries, stopping when the queue is empty; its properties are the Run lemmas below |
| Pipeline.StepDisposition | internal/rabbitmq/rabbitmq.go:120-138 | one pass takes the head delivery. A body that does not decode is dropped and the table is untouched. A settle error requeues it and the table is untouched. A settle success acks it, and the named payment exists and is not PENDING |
| Pipeline.StepEvolves | pkg/worker/payment_worker.go:30-40 | one delivery handled by the worker is one step of the status machine |
| Pipeline.RunEvolves | internal/rabbitmq/rabbitmq.go:120-138 | a whole run of the consume loop is a run of the status machine |
| Pipeline.StatusChangesAtMostOnce | internal/database/payment_repo.go:118-157 | for any sequence of deliveries, between any two moments each payment keeps its identity, and its status changes at most once, PENDING to SUCCESS; any other status never changes |
| Pipeline.StepConservesMessages | internal/rabbitmq/rabbitmq.go:120-138 | in one pass, a message leaves the queue only if it is acked or dropped |
| Pipeline.RunConservesMessages | internal/rabbitmq/rabbitmq.go:104-138 | with manual acknowledgement no message is lost: each one is still queued or was acked or dropped |
| Pipeline.RunAckedAreSettled | pkg/worker/payment_worker.go:33-40 | every acked delivery named an existing payment, which is not PENDING at the end of the run |
| Pipeline.RedeliveryConverges | internal/rabbitmq/rabbitmq.go:128-136 | when it is the only message queued and its payment is PENDING: if settle fails k times and then succeeds, the message is requeued k times and then acked, and the payment is written SUCCESS exactly once |
| Pipeline.StepAdvances | internal/rabbitmq/rabbitmq.go:120-138 | one pass delivers the head and moves every other queued message one place forward |
| Pipeline.RunReachesPosition | internal/rabbitmq/rabbitmq.go:120-138 | the queue is first in, first out: the message at position p is delivered after exactly the p messages ahead of it, in order, whatever their outcomes |
| Pipeline.RequeuedIsRedelivered | internal/rabbitmq/rabbitmq.go:128-133 | on a shared queue, a requeued message is delivered again right after each message queued with it has been delivered once, so every failed settle is retried |
| Pipeline.MissingPaymentRetriesForever | internal/rabbitmq/rabbitmq.go:128-133 | when it is the only message queued, a message for an absent payment is requeued on every delivery and nothing else changes: there is no retry limit |
| Pipeline.AbsentHeadRequeued | internal/rabbitmq/rabbitmq.go:128-133 | on a queue of any length, a head message for an absent payment is requeued to the end and the table is untouched |
| Pipeline.AbsentStaysAbsent | pkg/worker/payment_worker.go:30-40 | the consume loop never creates rows: a payment absent at the start is absent after any run, so its messages are requeued on every delivery |
| Database.PaymentRepository.constructor | internal/database/payment_repo.go:18-23 | the repository works on the table as it stands, with every row stored under its own identifier |
| Handlers.PaymentHandler.constructor | pkg/handlers/payment_handlers.go:19-25 | the handler holds the store and client references; the validator instance is library work |
| Worker.PaymentWorker.constructor | pkg/worker/payment_worker.go:12-22 | the worker holds only the store and client references |
| Worker.PaymentWorker.ProcessPayment | pkg/worker/payment_worker.go:30-41 | settles exactly the payment the message names and returns settle's error unchanged; on success, including the no-op, it returns no error and the payment is not PENDING |
| Worker.PaymentWorker.HandleDelivery | internal/rabbitmq/rabbitmq.go:120-138 | one pass of the consume loop with the worker's handler follows `Step`; the delivery is settled once and nothing stays in flight |
| Worker.PaymentWorker.Start | pkg/worker/payment_worker.go:24-28 | registers the handler and runs the loop, following `Run`; a registration failure is returned and nothing is consumed |
| Handlers.PaymentHandler.CreatePayment | pkg/handlers/payment_handlers.go:41-81 | A bind or validation failure gives 400. A reference the lookup finds gives 409. A lookup error falls through. An insert failure gives 500. None of these writes a row or publishes. After an insert, exactly one publish for the new id; 201 with the id and PENDING whether or not it succeeds |
| Handlers.PaymentHandler.GetPayment | pkg/handlers/payment_handlers.go:95-126 | malformed id gives 400, absent gives 404, any other error gives 500, found gives 200 with every field except UpdatedAt; reads only |
| Scenarios.CreateThenSettle | pkg/worker/payment_worker.go:24-40 | a created payment answers 201 PENDING, its message is acked on first delivery, and it reads back as SUCCESS |
| Scenarios.DuplicateReferenceRejected | pkg/handlers/payment_handlers.go:57-62 | a second creation with the same reference answers 409; one row and one message remain |
| Scenarios.LateRowSettlesOnRedelivery | internal/rabbitmq/rabbitmq.go:128-136 | a message for a not-yet-existing row is requeued; after the row is created, the redelivery settles it and the duplicate message is acked as a no-op |

## Left out

- JSON encoding and decoding. A body is either the encoding of a processing message or does not decode. The cases Go's decoder accepts silently, such as `{}` decoding to the zero UUID, are not modelled.
- Request binding, the validator instance the handler builds, UUID parsing and UUID generation. These are library work. Their outcomes are inputs.
- The validator's error text. The model keeps the list of failing fields instead of the "details" string.
- `float64` amounts are modelled as `real`. Only the sign is ever inspected, and NaN and infinities are not modelled.
- Timestamps are opaque.
- How `created_at` and `updated_at` are set is decided in SQL that is not part of this model.
  - A new row takes one instant supplied by the caller for both columns.
  - A settle writes an instant supplied by the caller.
  - The record settle returns keeps the UpdatedAt it read before the update, as the code does.
- Reference uniqueness and identifier uniqueness as database constraints. The SQL is not part of this model. An insert under a taken identifier fails. Whether the database rejects a duplicate reference is decided in that SQL; an insert fault stands for that rejection, and the only reference check visible in the code is the handler's pre-check.
- Concurrency is not modelled:
  - the goroutine around the consume loop;
  - parallel workers and requests;
  - the row locking that serialises concurrent settles.
  Each settle is one atomic method call, and deliveries are handled one at a time.
- The 5-second sleep before a requeue is not modelled.
- Where the broker puts a requeued message is not modelled. The model appends it to the end of the queue.
- The consume loop blocks forever in the service. `Start` handles one delivery per input it is given and stops early when the queue is empty.
- Connection management is not modelled: `NewClient`, `Close`, and the broker side of `declareQueue`. Only the queue's name is kept, as a constant; its durability shows as the client starting from the messages the queue already held.
- Logging is not modelled. The publish error the handler only logs is returned as `logged`, without its message text.
- Pipeline.RedeliveryConverges: proved only for a queue that holds this one message. On a shared queue, RequeuedIsRedelivered shows that each requeue is followed by another delivery once the messages queued with it have each been delivered once. StepDisposition, RunAckedAreSettled and StatusChangesAtMostOnce give what each attempt does. A single convergence statement over interleaved faults for all messages is not stated.
- Configuration, bootstrapping and routing are not part of this model: internal/config/config.go, cmd/api/main.go, cmd/worker/main.go and internal/server/routes.go.
- The `FAILED` status exists, but nothing writes it, because no code path produces it.
- Database.PaymentRepository.GetPaymentByReference: when several rows share a reference, the model does not say which one is returned. The query's ordering is in SQL that is not part of this model.
