# Execution Service: a verified model of the inbox/outbox pipeline

This project models the core of the OficinaCardozo Execution Service. The service is the part of a
car-workshop system that runs a repair once it has been paid for.

- **Consumer.** The queue consumer receives notification envelopes. It resolves `EventId`,
  `CorrelationId` and `EventType`, and routes `PaymentConfirmed` and `OsCanceled` events to their
  handlers.
- **Handlers.** A handler first checks the inbox ledger. A duplicate event id is ignored. A new id is
  recorded in the inbox, then the handler creates or cancels an execution job and enqueues an outbound
  event in the outbox.
- **Worker.** The execution worker sweeps the active jobs. It moves each one a single step along
  Queued → Diagnosing → Repairing → Finished and enqueues one event per step. A failed enqueue turns
  the job Failed.
- **Publisher.** The outbox publisher sends every unpublished row. A row is marked published only after
  its publish call returned.
- **Application services.** Four small services keep lists:
  - execution records, with status-dependent timestamps;
  - an append-only log of status updates;
  - quotes, numbered 1, 2, 3, …;
  - payments, numbered 1, 2, 3, ….

How the model is built:

- **The store.** The store is a class, `Store.ExecutionDb`. It holds the job, inbox and outbox tables
  as sequences, plus a counter that stands for `Guid.NewGuid`.
- **Operations on the store.** Every operation that changes the store is a method. Each method is
  proved against a pure function on the snapshot `DbState`, for example
  `db.State() == Handle(old(db.State()), evt, now)`. The properties of the service are lemmas about
  those functions:
  - idempotence of both handlers;
  - harmless redelivery through the consumer, for a message that carries an `EventId` attribute. A
    message without one gets a freshly drawn id on each delivery, so each delivery is recorded again;
  - at most one job per order, and at most one active job per order;
  - the exact effect of a sweep. Each job moves one step. Each successful step adds exactly one event,
    which carries that job's ids, the name of the status entered and the matching event type;
  - the outbox primary key, kept by every operation;
  - what one publisher pass leaves unpublished.
- **The application services.** Each is a class whose list field its methods reassign. Its lookups and
  filters are the generic `Query.Where` and `Query.FirstIndex`/`FirstOrDefault`.

Clocks are a `now: Instant` parameter. Failures of the transport or of the outbox write are oracle
parameters:

- `fails`: the event ids whose publish call throws;
- `errs`: the job positions whose enqueue throws, with the message;
- `deleteFails`: the batch positions whose delete throws.

The model follows what the code does:

- The consumer deletes every processed message, including one whose processing threw. The comment at
  src/Messaging/SqsConsumer.cs:67 says the message is deleted after successful processing. But the
  delete at lines 68-71 runs after every call, because the exception is caught inside
  `ProcessMessageAsync` at lines 164-167.
- The cancel handler writes `LastError = "Cancelado: " + Reason` (text in Portuguese).
- Each handler step saves on its own, and the model keeps that order of writes: the inbox row is written
  before the job check. No write can fail in the model, though (see "Left out"). So an atomic handler
  would leave the same final state, and the model exhibits no consequence of the missing atomicity,
  such as an event recorded as seen but never acted on.

## Model

| member | source | states |
|---|---|---|
| Common.GetString | src/Messaging/SnsPublisher.cs:80-91 | Reading a string property succeeds exactly for a JSON string or null. A string gives its text, null gives no value, and any other kind throws |
| Common.NatTextInjective | src/Messaging/SnsPublisher.cs:114 | Distinct Guids have distinct texts, so the text of an id names its row |
| Domain.SixStatuses | src/Domain/ExecutionJob.cs:5-13 | There are exactly six distinct statuses, and each is either active or terminal, never both |
| Domain.StatusNameInjective | src/Workers/ExecutionWorker.cs:128 | Distinct statuses have distinct names, so a payload's status text identifies the status |
| Domain.HappyPath | src/Workers/ExecutionWorker.cs:54-65 | The worker's successor of an active status is one step further on the path, never Failed or Canceled; Queued reaches Finished in three steps; only Repairing steps to a terminal status |
| Inbox.IsDuplicate | src/Inbox/InboxService.cs:26-29 | True exactly when some inbox row has that event id |
| Inbox.EmptyInboxHasNoDuplicates | src/Inbox/InboxService.cs:26-29 | An empty inbox reports no duplicate |
| Inbox.DuplicateAfterAdd | src/Inbox/InboxService.cs:31-35 | After an append, the appended id is a duplicate, and any other id keeps its previous answer |
| Outbox.Unpublished | src/Outbox/OutboxService.cs:44-49 | The result holds exactly the rows that are not published, and is no longer than the table |
| Outbox.FindRow | src/Outbox/OutboxService.cs:35 | The lookup by key returns a position holding that id, or none when no row has it |
| Outbox.MarkPublished | src/Outbox/OutboxService.cs:33-42 | Only a row with the id becomes published at `now`; every other row is kept; the length is unchanged |
| Outbox.UnpublishedConcat | src/Outbox/OutboxService.cs:44-49 | The unpublished view of a concatenation is the concatenation of the views, so the filter keeps table order |
| Outbox.UnpublishedAfterAdd | src/Outbox/OutboxService.cs:27-49 | Appending a row extends the unpublished list by that row exactly when the row is unpublished |
| Outbox.MarkUnknownIsNoOp | src/Outbox/OutboxService.cs:35-36 | Marking an id that no row has changes nothing |
| Outbox.MarkShrinksUnpublished | src/Outbox/OutboxService.cs:33-49 | With unique ids, marking removes exactly the marked row from the unpublished list |
| Outbox.MarkRemovesId | src/Outbox/OutboxService.cs:33-42 | Marking keeps the ids unique and removes exactly the marked id from the unpublished ids |
| Store.ExecutionDb.NewGuid | src/EventHandlers/PaymentConfirmedHandler.cs:56 | Returns an id never drawn before and advances the generator; the tables are unchanged |
| Store.ExecutionDb.AddInboxEvent | src/Inbox/InboxService.cs:31-35 | Appends the row to the inbox; nothing else changes |
| Store.ExecutionDb.AddOutboxEvent | src/Outbox/OutboxService.cs:27-31 | Appends the row to the outbox, with a fresh key, and keeps the primary key |
| Store.ExecutionDb.MarkAsPublished | src/Outbox/OutboxService.cs:33-42 | The outbox becomes `MarkPublished` of the old outbox; only the outbox changes |
| Store.ExecutionDb.AddJob | src/EventHandlers/PaymentConfirmedHandler.cs:88-89 | Appends the job; only the job table changes |
| Store.ExecutionDb.SetJob | src/Workers/ExecutionWorker.cs:85-86 | Replaces the job at that position; only the job table changes |
| PaymentConfirmed.HandleAsync | src/EventHandlers/PaymentConfirmedHandler.cs:38-117 | Its step-by-step effect on the store equals the specification `Handle` |
| PaymentConfirmed.DuplicateIsIgnored | src/EventHandlers/PaymentConfirmedHandler.cs:45-51 | An event id already in the inbox leaves the whole store unchanged |
| PaymentConfirmed.NewEventEffects | src/EventHandlers/PaymentConfirmedHandler.cs:54-112 | A new id adds one inbox row (id, type "PaymentConfirmed"). If the order already has a job, jobs and outbox are unchanged. Otherwise one job is added, pinned field by field: Queued, Attempt 1, CreatedAt = now, the event's OsId and CorrelationId, and null UpdatedAt, FinishedAt and LastError. One unpublished ExecutionStarted row created now is added too; its payload carries OsId, CorrelationId, the new JobId, "Queued" and the job's CreatedAt |
| PaymentConfirmed.Idempotent | src/EventHandlers/PaymentConfirmedHandler.cs:45-89 | Handling an event twice has exactly the effect of handling it once |
| PaymentConfirmed.KeepsOneJobPerOs | src/EventHandlers/PaymentConfirmedHandler.cs:67-89 | If every order has at most one job before the call, that still holds after it |
| PaymentConfirmed.KeepsWf | src/EventHandlers/PaymentConfirmedHandler.cs:54-112 | The outbox primary key and key freshness are preserved |
| OsCanceled.FindCancelable | src/EventHandlers/OsCanceledHandler.cs:65-69 | Returns the first job of the order that is not Finished, Failed or Canceled, or none when there is no such job |
| OsCanceled.HandleAsync | src/EventHandlers/OsCanceledHandler.cs:36-112 | Its step-by-step effect on the store equals the specification `Handle` |
| OsCanceled.DuplicateIsIgnored | src/EventHandlers/OsCanceledHandler.cs:43-49 | An event id already in the inbox leaves the whole store unchanged |
| OsCanceled.RecordsInbox | src/EventHandlers/OsCanceledHandler.cs:52-58 | A new id adds exactly one inbox row, with that id and type "OsCanceled" |
| OsCanceled.NoTargetNoChange | src/EventHandlers/OsCanceledHandler.cs:65-77 | Without a cancelable job, jobs and outbox are unchanged (the inbox row is still written) |
| OsCanceled.CancelsFirstTarget | src/EventHandlers/OsCanceledHandler.cs:79-107 | Only the first cancelable job changes: it becomes Canceled with UpdatedAt = now and LastError = "Cancelado: " + Reason, keeping every other field. One unpublished ExecutionCanceled row is appended. It carries the event's OsId and CorrelationId, the job's JobId, "Canceled", the Reason and CanceledAt = the job's new UpdatedAt |
| OsCanceled.Idempotent | src/EventHandlers/OsCanceledHandler.cs:43-83 | Handling a cancel event twice has exactly the effect of handling it once |
| OsCanceled.KeepsOneActiveJobPerOs | src/EventHandlers/OsCanceledHandler.cs:65-83 | At most one active job per order is preserved; the job count and each job's order are unchanged |
| OsCanceled.KeepsWf | src/EventHandlers/OsCanceledHandler.cs:52-107 | The outbox primary key and key freshness are preserved |
| ExecutionWorker.TransitionToAsync | src/Workers/ExecutionWorker.cs:81-155 | The job takes the new status and times. The event's Guid is drawn. When the enqueue succeeds, exactly that transition event is appended; when it fails, the job ends Failed with the message and no event is added; the inbox is untouched |
| ExecutionWorker.AdvanceJob | src/Workers/ExecutionWorker.cs:52-66 | One loop iteration's effect on the store equals the specification `Advance`: the visited row takes its step, one Guid is drawn when it is selected, and its event is appended unless the enqueue fails |
| ExecutionWorker.SweptJobs | src/Workers/ExecutionWorker.cs:52-66 | A sweep keeps the number of jobs |
| ExecutionWorker.SweepUpTo | src/Workers/ExecutionWorker.cs:52-66 | The store after the loop has visited the first i rows, one `Advance` per row in table order; the number of jobs is kept |
| ExecutionWorker.SweepRow | src/Workers/ExecutionWorker.cs:52-66 | One loop iteration takes the store from the state after i rows to the state after i + 1 rows, keeping the key invariant |
| ExecutionWorker.ExecuteSweep | src/Workers/ExecutionWorker.cs:46-68 | The loop over the selected jobs leaves the store equal to the closed-form `Sweep` and keeps the key invariant |
| ExecutionWorker.SweepUpToIs | src/Workers/ExecutionWorker.cs:52-66 | After every row, the loop's state equals the closed form: visited rows stepped, the events of the succeeding rows appended in table order, one Guid drawn per selected row |
| ExecutionWorker.SweepStep | src/Workers/ExecutionWorker.cs:52-66 | One more iteration applied to the closed form after i rows gives the closed form after i + 1 rows |
| ExecutionWorker.SweptOutboxStep | src/Workers/ExecutionWorker.cs:92-144 | Visiting one more row appends exactly the events of its step, carrying the Guid drawn next |
| ExecutionWorker.SweptOutboxEmit | src/Workers/ExecutionWorker.cs:107-139 | A visited row whose enqueue succeeds appends exactly its own event |
| ExecutionWorker.SweptJobsAt | src/Workers/ExecutionWorker.cs:52-66 | After the first i rows, those rows have taken their step and the rest are untouched |
| ExecutionWorker.NotYetSwept | src/Workers/ExecutionWorker.cs:52-56 | The row the next iteration visits is still as the sweep found it |
| ExecutionWorker.OneStepPerJob | src/Workers/ExecutionWorker.cs:81-154 | Per job: terminal jobs are untouched. An active job moves exactly one step, with UpdatedAt = now and FinishedAt = now on Finished, or ends Failed with the error when its enqueue fails. Id, OsId and CreatedAt never change |
| ExecutionWorker.KeepsOneActiveJobPerOs | src/Workers/ExecutionWorker.cs:46-66 | A sweep keeps at most one active job per order |
| ExecutionWorker.Emitting | src/Workers/ExecutionWorker.cs:52-139 | The rows whose step adds an event are visited rows, selected, without an enqueue failure |
| ExecutionWorker.EmittingIsSize | src/Workers/ExecutionWorker.cs:52-139 | There are exactly as many of them as selected rows without an enqueue failure |
| ExecutionWorker.EmittingPrefix | src/Workers/ExecutionWorker.cs:52-66 | Visiting more rows keeps the emitting rows found so far, in place |
| ExecutionWorker.EmittingAt | src/Workers/ExecutionWorker.cs:52-139 | Each selected row without an enqueue failure is an emitting row, at the position counting the emitting rows before it |
| ExecutionWorker.EmittingOwner | src/Workers/ExecutionWorker.cs:52-139 | Conversely, every emitting row sits at the position counting the emitting rows before it |
| ExecutionWorker.EmittingIncreasing | src/Workers/ExecutionWorker.cs:52-66 | Emitting rows come in table order |
| ExecutionWorker.ActiveCountGrows | src/Workers/ExecutionWorker.cs:107-139 | A selected row draws its Guid before every row visited after it |
| ExecutionWorker.EventCount | src/Workers/ExecutionWorker.cs:52-144 | A whole sweep adds exactly as many events as there are active jobs without an enqueue failure, and keeps the earlier rows in place |
| ExecutionWorker.StepEventKind | src/Workers/ExecutionWorker.cs:92-144 | A step enqueues one event exactly when the job is active and its enqueue succeeds. That event carries the drawn Guid and is the job's own transition event (`EventFor`): unpublished; ExecutionFinished when the step reaches Finished, otherwise ExecutionProgressed; the job's OsId, CorrelationId and JobId; the name of the status entered; FinishedAt and DurationSeconds, or UpdatedAt |
| ExecutionWorker.JobEventFor | src/Workers/ExecutionWorker.cs:92-139 | The event built for an active job carries the Guid given, is that job's transition event and is one of the two kinds a sweep enqueues |
| ExecutionWorker.SweptRow | src/Workers/ExecutionWorker.cs:52-139 | Each added row is the transition event of its emitting row, with the Guid drawn for that row |
| ExecutionWorker.SweptOutboxAdded | src/Workers/ExecutionWorker.cs:107-139 | The rows a sweep appends are transition events with strictly increasing ids drawn during the sweep |
| ExecutionWorker.SweptJobRow | src/Workers/ExecutionWorker.cs:52-139 | Each visited job whose step succeeds has its transition event, with its Guid, at the position counting the succeeding jobs before it |
| ExecutionWorker.SweepEventOfJob | src/Workers/ExecutionWorker.cs:46-144 | In a whole sweep, each active job without an enqueue failure has its row at the position counting the succeeding jobs before it: its own transition event (OsId, CorrelationId, JobId, status entered, event type, times), with the Guid drawn for it |
| ExecutionWorker.JobRowsInOrder | src/Workers/ExecutionWorker.cs:52-66 | A succeeding job visited earlier has its row strictly earlier, so two jobs never share a row |
| ExecutionWorker.SweptRowOwner | src/Workers/ExecutionWorker.cs:52-139 | Every added row belongs to some visited job whose step succeeded: at that job's position, with its Guid, its transition event |
| ExecutionWorker.SweepRowOwner | src/Workers/ExecutionWorker.cs:46-144 | In a whole sweep, every added row is the transition event of a job whose step succeeded, at that job's position, with that job's Guid |
| ExecutionWorker.KeepsWf | src/Workers/ExecutionWorker.cs:46-68 | A sweep preserves the outbox primary key and key freshness |
| Publisher.ExtractLogIds | src/Messaging/SnsPublisher.cs:74-93 | An unparseable payload gives "unknown" for both ids. The correlation id is the payload's CorrelationId when it is a JSON string, and "unknown" otherwise (absent, null, or a read that throws). A CorrelationId read that throws leaves both ids "unknown". Otherwise the entity id is OsId's string when OsId is present ("unknown" when it is null or not a string); without OsId, on the success path only, it is JobId's string; otherwise "unknown" |
| Publisher.Request | src/Messaging/SnsPublisher.cs:95-134 | The request goes to the output topic with the row's payload as message. Its attributes are the row's EventType, the row id's text as EventId, the publish time, and as CorrelationId the payload's CorrelationId when it is a JSON string and "unknown" in every other case |
| Publisher.PublishEventAsync | src/Messaging/SnsPublisher.cs:70-168 | A successful publish sends the request built from the row (EventId = row id text, payload, type, extracted correlation id) and then marks that row. A failing publish changes nothing and reports the error log ids, with no JobId fallback |
| Publisher.PublishPending | src/Messaging/SnsPublisher.cs:49-58 | One pass over the unpublished list leaves the outbox equal to `MarkedUpTo` and returns `SentUpTo` |
| Publisher.MarkedUpToIds | src/Messaging/SnsPublisher.cs:55-58 | The pass keeps ids unique and removes from the unpublished ids exactly those whose publish succeeded |
| Publisher.SentUpToContents | src/Messaging/SnsPublisher.cs:95-136 | The requests sent are exactly the requests of the attempted rows whose publish did not throw (both directions) |
| Publisher.PassSucceeds | src/Messaging/SnsPublisher.cs:49-58 | The ids a pass succeeds on are exactly the unpublished ids outside the failure oracle |
| Publisher.PublishPass | src/Messaging/SnsPublisher.cs:49-139 | After a pass, exactly the unpublished rows whose publish threw stay unpublished, the key stays unique, and every newly published row had a request sent with its id as EventId |
| Publisher.EventIdIdentifiesRow | src/Messaging/SnsPublisher.cs:109-115 | Two requests have the same EventId exactly when they come from rows with the same id |
| Publisher.CorrelationPropagates | src/Messaging/SnsPublisher.cs:80-87 | For the payloads the handlers and the worker write, the log ids are the job's or event's CorrelationId and OsId |
| Publisher.EntityFallsBackToJobId | src/Messaging/SnsPublisher.cs:84-91 | Without OsId, the success log uses JobId as entity id; the error log uses "unknown" |
| Consumer.LastSegment | src/Messaging/SqsConsumer.cs:108-110 | The result is a suffix of the ARN without ':', preceded by ':' when shorter than the ARN |
| Consumer.ProcessMessageAsync | src/Messaging/SqsConsumer.cs:84-168 | Its step-by-step effect on the store equals the specification `Process` |
| Consumer.DispatchAsync | src/Messaging/SqsConsumer.cs:116-162 | Calls the handler the route names, or none |
| Consumer.Reached | src/Messaging/SqsConsumer.cs:63-78 | The batch is processed up to and including the first message whose delete throws, or to the end |
| Consumer.ConsumeBatch | src/Messaging/SqsConsumer.cs:59-78 | The store equals the messages processed in receive order. The deleted handles are exactly those of the processed messages, in order, minus the one whose delete threw |
| Consumer.AllDeleted | src/Messaging/SqsConsumer.cs:63-72 | Without a failing delete, every message of the batch is processed |
| Consumer.NoHandlerNoChange | src/Messaging/SqsConsumer.cs:86-167 | A null or malformed envelope, an unparseable payload, a missing type, an unknown type or a payload read that throws leaves jobs, inbox and outbox unchanged |
| Consumer.RouteFor | src/Messaging/SqsConsumer.cs:116-162 | The payment handler is chosen exactly for "PaymentConfirmed" when OsId, PaymentId, Amount and Status all read. The cancel handler is chosen exactly for "OsCanceled" when OsId and Reason read. The event passed on carries those values and the resolved ids |
| Consumer.RoutesByType | src/Messaging/SqsConsumer.cs:116-162 | Only "PaymentConfirmed" reaches the payment handler and only "OsCanceled" the cancel handler; any other type reaches none |
| Consumer.PaymentFields | src/Messaging/SqsConsumer.cs:117-134 | The payment handler gets OsId, PaymentId, Amount and Status from the payload and the resolved ids |
| Consumer.CancelFields | src/Messaging/SqsConsumer.cs:139-152 | The cancel handler gets OsId and Reason from the payload and the resolved ids |
| Consumer.Resolution | src/Messaging/SqsConsumer.cs:99-110 | Present attributes are used as is; two missing ids get two different fresh Guids; a missing type comes from the ARN |
| Consumer.ResolveIds | src/Messaging/SqsConsumer.cs:100-106 | An EventId or CorrelationId attribute is used as is; each missing one draws a Guid, EventId's first, and its text is used. Only the Guid generator changes, by one per missing attribute |
| Consumer.RouteIgnoresIds | src/Messaging/SqsConsumer.cs:116-156 | Which handler is called does not depend on the resolved ids, and the handler gets the resolved EventId |
| Consumer.DispatchRecords | src/EventHandlers/PaymentConfirmedHandler.cs:45-60 | After either handler ran, its event id is in the inbox |
| Consumer.DispatchDuplicate | src/EventHandlers/PaymentConfirmedHandler.cs:45-51 | Either handler leaves the store unchanged for an id already in the inbox |
| Consumer.RedeliveryIsHarmless | src/Messaging/SqsConsumer.cs:100-102 | Processing a message with an EventId attribute a second time changes no table |
| Query.Where | src/Application/AtualizacaoStatusOsService.cs:19 | Holds exactly the elements that satisfy the predicate, no more of them than the input |
| Query.WhereAppend | src/Application/AtualizacaoStatusOsService.cs:19 | Filtering a concatenation concatenates the filtered parts, so the filter keeps order |
| Query.WhereSnoc | src/Application/OrcamentoService.cs:19-23 | An appended element (a new quote) goes to the end of the filtered list (its order's listing) when it matches, and changes nothing otherwise |
| Query.FirstIndex | src/Application/ExecucaoOsService.cs:32 | Returns the first matching position, or none exactly when nothing matches |
| Query.FirstOrDefault | src/Application/PagamentoService.cs:22 | Returns the first matching element of the list, or none exactly when nothing matches |
| Query.FirstAfterAppend | src/Application/ExecucaoOsService.cs:25-32 | Appending never changes an existing first match, and is the first match when there was none |
| ExecucaoOs.NovaExecucao | src/Application/ExecucaoOsService.cs:15-24 | A new record has the order id, status "Fila", Finalizado false and every optional field null |
| ExecucaoOs.Atualizado | src/Application/ExecucaoOsService.cs:35-70 | An update keeps the number of records |
| ExecucaoOs.ExecucaoOsService.CriarExecucao | src/Application/ExecucaoOsService.cs:13-28 | Appends the new record and returns it |
| ExecucaoOs.Obter | src/Application/ExecucaoOsService.cs:30-33 | The result is the first record with the order id, or none exactly when no record has it |
| ExecucaoOs.ExecucaoOsService.ObterExecucao | src/Application/ExecucaoOsService.cs:30-33 | Returns the first record for the order: a record with that id and none before it; none exactly when no record has the id |
| ExecucaoOs.ExecucaoOsService.AtualizarStatus | src/Application/ExecucaoOsService.cs:35-50 | The list becomes the status update applied to the first record for the order |
| ExecucaoOs.ExecucaoOsService.AtualizarDiagnostico | src/Application/ExecucaoOsService.cs:52-60 | The list becomes the diagnosis update applied to the first record for the order |
| ExecucaoOs.ExecucaoOsService.AtualizarReparo | src/Application/ExecucaoOsService.cs:62-70 | The list becomes the repair update applied to the first record for the order |
| ExecucaoOs.CreateThenFind | src/Application/ExecucaoOsService.cs:13-33 | Creating adds one record and keeps the earlier ones. The lookup then returns the new record, unless an earlier record for that order exists, which it keeps returning |
| ExecucaoOs.FindsNothing | src/Application/ExecucaoOsService.cs:30-33 | The lookup returns nothing exactly when no record has the order id |
| ExecucaoOs.UnknownIdNoChange | src/Application/ExecucaoOsService.cs:35-70 | Any update for an order without a record changes nothing |
| ExecucaoOs.OnlyFirstMatchChanges | src/Application/ExecucaoOsService.cs:35-70 | An update changes the first record for the order and no other |
| ExecucaoOs.StatusTimestamps | src/Application/ExecucaoOsService.cs:39-47 | Sets the status. "Em Diagnóstico" also stamps InicioExecucao; "Finalizado" also stamps FimExecucao and sets Finalizado. Other fields keep their value |
| ExecucaoOs.NotesChangeOwnField | src/Application/ExecucaoOsService.cs:52-70 | With i the first record for the order, a diagnosis update makes the list equal to the old one with only record i's Diagnostico set, and a repair update likewise with only its Reparo set |
| ExecucaoOs.FindAfterUpdate | src/Application/ExecucaoOsService.cs:30-70 | After an update, the lookup for that order returns the updated record |
| AtualizacaoStatusOs.AtualizacaoStatusOsService.AtualizarStatus | src/Application/AtualizacaoStatusOsService.cs:8-18 | Returns a record with the given order id, status and time, and appends it to the log |
| AtualizacaoStatusOs.AtualizacaoStatusOsService.ListarPorOrdem | src/Application/AtualizacaoStatusOsService.cs:19 | The listing holds exactly the logged updates of that order, and is no longer than the log |
| AtualizacaoStatusOs.ListsExactlyTheOrder | src/Application/AtualizacaoStatusOsService.cs:19 | The listing holds exactly the logged updates of the order, and is empty exactly when the order has none |
| AtualizacaoStatusOs.UpdateAppendsToListing | src/Application/AtualizacaoStatusOsService.cs:16-19 | A new update goes to the end of its order's listing; other orders' listings are unchanged |
| Orcamento.OrcamentoService.GerarEEnviarOrcamento | src/Application/OrcamentoService.cs:8-22 | The new quote has Id = count + 1, status Enviado and the given order, amount and e-mail. It is appended, and the ids stay 1..n |
| Orcamento.OrcamentoService.ListarPorOrdem | src/Application/OrcamentoService.cs:23 | The listing holds exactly the quotes of that order, and is no longer than the quote list |
| Orcamento.NextIdKeepsNumbering | src/Application/OrcamentoService.cs:12-19 | Appending the quote with the next id keeps the numbering, so no two quotes share an id |
| Pagamento.PagamentoService.RegistrarPagamento | src/Application/PagamentoService.cs:8-21 | The new payment has Id = count + 1, status Confirmado and the given order, amount and method. It is appended, and the ids stay 1..n |
| Pagamento.PagamentoService.ObterPagamento | src/Application/PagamentoService.cs:22 | Returns a payment with that id, or none exactly when no payment has it. With ids 1..n, id k returns the k-th payment |
| Pagamento.LookupById | src/Application/PagamentoService.cs:22 | With ids 1..n, looking up id k returns the k-th payment, and an id never issued returns none |
| Pagamento.RegisterThenFind | src/Application/PagamentoService.cs:12-22 | Looking up a newly registered payment's id returns that payment |

## Left out

- Logging, metrics and the log messages themselves. The publisher's log ids are modelled, because they
  also feed the `CorrelationId` attribute.
- The background loops, `Task.Delay`, cancellation tokens and concurrency between the consumer, worker
  and publisher. One batch, one sweep and one pass are modelled, each on its own.
- The SQS, SNS and AWS clients. Receive is the message sequence; publish and delete are oracle sets.
  The SNS response and `MessageId` are not modelled.
- JSON serialisation. A payload is either a record of the properties the services read and write
  (`Common.Props`) or unparseable text. Properties the code never reads are dropped, and so is non-object
  JSON, which is treated as unparseable. An envelope `Message` that is null also counts as
  unparseable.
- `DateTime.UtcNow` is a `now: Instant` parameter, and each call, pass, sweep or batch reads the clock
  once. So the publisher's `PublishedAt` attribute equals the mark time, and a worker job's
  `UpdatedAt`, `FinishedAt` and event `CreatedAt` coincide. The two differ by microseconds in the code.
- ExecutionWorker.TransitionPayload: `DurationSeconds` is the whole number `now - CreatedAt`, not a
  `TotalSeconds` double. Times in payloads are decimal text, not ISO 8601.
- `Guid.NewGuid` is a counter and a Guid's text is its decimal digits. Only freshness and
  distinctness are relied on.
- Consumer.ReadString: a JSON null in `OsId`, `PaymentId`, `Status` or `Reason` is treated as a failed
  read, so no handler runs. The code passes a null string to the handler instead.
- Consumer.ReadDecimal: the range limits of `GetDecimal` are not modelled; any JSON number is accepted
  as a decimal.
- A null attribute value (a `MessageAttribute` without `Value`) is not modelled; attributes map names to
  strings.
- Consumer.ProcessMessageAsync: exceptions thrown inside the handlers are not modelled. The handlers'
  database writes always succeed; `SaveChanges` failures are left out.
- The configured input queue and output topic are a `topic` parameter; the configuration providers
  are not part of this model.
- ExecutionWorker.ExecuteSweep: a failed enqueue is modelled as adding no row. In the code, a
  half-added outbox entity might still be saved. Either the next job's `AddEventAsync`, through its
  own `SaveChangesAsync` (src/Outbox/OutboxService.cs:30), or the worker's final `SaveChangesAsync`
  (src/Workers/ExecutionWorker.cs:68) might flush it.
- ExecutionWorker.ExecuteSweep: a sweep whose final `SaveChangesAsync` throws is not modelled.
- Publisher.PublishEventAsync: a `MarkAsPublishedAsync` that throws after a successful publish is not
  modelled. In the code, that row would be published again on the next pass.
- EF Core mapping, the database key of `ExecucaoOs` and `AtualizacaoStatusOs`, and the absent unique
  indexes. The model assumes no unique constraint on `EventId` or `OsId`. The outbox key uniqueness is
  proved from fresh Guids, not assumed.
- C# `int` overflow of `Count + 1` in the quote and payment services is not modelled, because ids are
  unbounded integers. A null status string in `AtualizacaoStatusOsService` is not modelled either,
  because statuses are strings.
- The e-mail the quote service claims to send is a comment in the code; nothing is sent.
- The HTTP controllers, middleware, host setup and the `OFICINACARDOZO.OSSERVICE` project are not part
  of this model.
