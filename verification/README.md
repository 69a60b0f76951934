# A verified model of the durable hand-off

gohex lets services hand work to each other without losing or repeating it: a service appends events to its own store,
a relay publishes them, a broker delivers them at least once, and the receiving side (a saga, a command consumer, an
inbox feeding a read model) makes repetition harmless. This project models that pipeline in Dafny and proves what it
promises, for every run: arbitrary interleaving, duplication, reordering, partial publishes, and crashes between any two
effects. It then instantiates the pipeline with the four services of the order-fulfillment example and proves the fate
of every order.

The whole project is checked with `dafny verify dfyconfig.toml`.

## Layers

1. **Store and aggregates.** `EventStore`, `Registry`, `Kernel`, `Repository`: the log with its per-stream index and
   optimistic concurrency, the upcaster chains, state as the replay of events, loading and saving. `Keys` and
   `Identifier` hold the string identities everything else rests on. `OptimisticConcurrency` shows why load, decide,
   append-at-version needs no lock.
2. **Saga engine.** `Saga` and `SagaRunner`: decisions inside Apply, one atomic append per delivery, bounded conflict
   retries, replay that re-runs the decisions.
3. **Hand-off.** `Messaging`, `RelayFeed`, `Relay`, `Broker`, `Inbox`, `Pipeline`: what a relay owes its topics, and the
   effectively-once path from a store to another service's inbox.
4. **Receiving.** `Consumer` for commands, and `CommandEffects` for what a mark says in the services that use it;
   `Projection` and `ProjectionRunner` for read models.
5. **The example.** `Contracts`, `CommandHandling`, `Billing`, `Inventory`, `Shipping`, `Ordering`, `Worklist`,
   `WorklistDrains`, `NotifierWorkers`, `OrderSummary`, `SummaryProjection`, `FulfillmentSaga`; then the system itself:
   `Script` says what is supposed to happen to an order, `Topology` who says what to whom, `FulfillmentSystem` is the
   step system, `FulfillmentInvariant`, `FulfillmentGrowth`, `FulfillmentSteps` and `FulfillmentWorkers` prove what every
   step keeps, `Fulfillment`, `FulfillmentStatus` and `FulfillmentOutcome` state the guarantees, `FulfillmentSettling`
   that nothing gets stuck on the way and `FulfillmentFairness` that fair runs get to the end, `FulfillmentNotices` what
   customers are told, and `ReadYourWrites` what a caller who waits for its own write sees.

Code that changes state step by step is a class whose methods are proved against a function of the old state; what other
actors do in the meantime, and where a run stops, are parameters of the method. Beside each such function stands a law
that does not name it: literal values, or the sequence of states the operation goes through. Whole-run properties are
proved over step systems built from the same functions.

## What turned out not to hold

- Message IDs are not injective for all categories: `Keys.CollidingCategories` says exactly when two categories collide.
  The modelled services use categories without a slash, for which they are.
- A failed `Raise` can leave an aggregate's state different from the replay of its events, because Apply works in place
  (a saga instance marks the envelope as seen before its handler fails). `Saga.ReceivedStaysLive` says exactly when,
  by whether a registered handler accepts the envelope, and `Saga.RejectedEnvelopeDrifts` gives a case. The four
  services' own aggregates never drift (`Topology.ServicesRefuseCleanly`), and callers drop a saga instance that failed.
- A group whose members were not limited to one would acknowledge messages twice: `Broker.UnguardedGroupRepeats`.
- Resetting a projection under a live runner loses items exactly when handled ones lie before the position it has
  reached: `Projection.LiveRebuild`, with a case in `Projection.LiveRebuildLoses`.
- Two placements of one order with different content do not commute: `OrderSummary.SummarizeTame`. The system never
  stores two.

## Model

| member | source | states |
|---|---|---|
| EventStore.MemoryStore.Append | eventstore/memory.go:27-55 | all-or-nothing: either the log gains exactly the events, stamped with the next sequence numbers and versions, and the reported position is the log's end, or there is a conflict and nothing changes; the per-stream index stays exact |
| EventStore.MemoryStore.Load | eventstore/memory.go:57-68 | reading through the index equals filtering the whole log by stream and dropping the first versions |
| EventStore.LoadLaw | eventstore/memory.go:57-68 | loading a stream after a version gives exactly its records with higher versions |
| EventStore.MemoryStore.ReadAll | eventstore/memory.go:70-85 | exactly the suffix of the log after a sequence number, cut to the limit when it is positive |
| EventStore.MemoryStore.Head | eventstore/memory.go:87-95 | the length of the log, hence the position of the last append |
| EventStore.TryAppendLaw | eventstore/memory.go:27-55 | an append succeeds exactly at the version the stream has; then that stream gains the events in order, no other stream changes, and sequence numbers and versions stay dense; otherwise nothing is stored |
| EventStore.StreamVersions | eventstore/memory.go:43-50 | the k-th record of a stream carries version k |
| EventStore.RecordKeyUnique | eventstore/memory.go:43-50 | stream and version identify one record of the log |
| EventStore.MemoryCheckpointStore.Set | eventstore/checkpoint.go:38-43 | one cursor moves, every other stays; an unknown one reads as 0 |
| Registry.EventRegistry.Register | eventstore/registry.go:35-53 | an empty or duplicate name is refused and changes nothing |
| Registry.EventRegistry.RegisterUpcaster | eventstore/registry.go:59-65 | an upcaster is appended to its own event's chain only |
| Registry.EventRegistry.Encode | eventstore/registry.go:79-90 | stored under the current schema version, one more than the number of upcasters; unregistered or unserializable events are errors |
| Registry.EventRegistry.Decode | eventstore/registry.go:94-113 | what comes back is what a chain of payloads leads to that starts with the stored one, is passed through every upcaster from the stored version on, and is decoded at its end; the first step that fails is the error, as are an unregistered name and a version out of range |
| Registry.DecodeLaw | eventstore/registry.go:94-113 | decoding gives a result, event or error, if and only if such a chain of payloads leads to it |
| Registry.LiftThroughMiddle | eventstore/registry.go:94-113 | lifting from v to the current version is lifting to any version between and then from there |
| Registry.NextUpcaster | eventstore/registry.go:59-65 | one more upcaster keeps every stored version in range, composes onto its old lift, and leaves other events alone |
| Registry.EncodeThenDecode | eventstore/registry.go:79-113 | under an inverse codec, decoding what was encoded gives the event back whatever upcasters are registered |
| Registry.DecodeAllLaw | eventstore/repository.go:44-52 | a stream decodes to these events if and only if each of its records decodes to the one in its place |
| Kernel.Root.Raise | kernel/aggregate.go:59-66 | an accepted event joins the pending ones and the state is still the replay of everything raised; a refused one is not recorded, and what was recorded stays replayable |
| Kernel.CleanRefusalStaysLive | kernel/aggregate.go:59-66 | for an Apply that keeps the state when it refuses, the object is the replay of its events after every Raise, refused or not |
| Topology.ServicesRefuseCleanly | gohex-example/billing/internal/domain/payment.go:114-127 | the Apply functions of payments, reservations, shipments and orders never change the state when they refuse, so the rule above covers all four |
| Kernel.Root.Rehydrate | kernel/aggregate.go:72-80 | goes through one state per event in order, stops at the first refused event with its error, and moves the version only when all were accepted |
| Kernel.ReplayLaw | kernel/aggregate.go:72-80 | a replay ends in a state, or with an error, if and only if a sequence of states leads there in which every event but a refused last one is accepted and moves on to the next |
| Kernel.Root.TakeUncommitted | kernel/aggregate.go:85-91 | hands over the pending events and counts them as committed; the state is still the replay of everything committed |
| Kernel.ReplayConcat | kernel/aggregate.go:72-80 | replaying two histories in a row is replaying their concatenation, errors included |
| Repository.Repository.Load | eventstore/repository.go:38-58 | not found exactly for an empty stream; otherwise the replayed state at the stream's version, nothing pending, or the first decoding or replay error |
| Repository.LoadedLaw | eventstore/repository.go:38-58 | an empty stream is not found; another loads at a state and version if and only if its records decode one by one, the events lead from the initial state to that state, and the version is their number |
| Repository.Repository.Save | eventstore/repository.go:69-91 | appends all pending events at the loaded version or none; on any error the aggregate's version and pending events are unchanged; the caller's position rises to the end of the store exactly when something was saved |
| Repository.SaveThenLoad | eventstore/repository.go:38-91 | replay equals live: after a successful save, loading yields the saver's state and version; after a failed one the store is as before |
| Repository.Position.Record | eventstore/position.go:36-42 | keeps the running maximum |
| Keys.MessageIDInjective | relay/relay.go:196-201 | when no category contains a slash, a message ID determines stream and version, even if stream IDs contain slashes or hashes |
| Keys.CollidingCategories | relay/relay.go:199-201 | exact limit of the above: two distinct categories can share a message ID, at any versions, if and only if one is the other followed by a slash and more; then they share one between streams with non-empty IDs |
| Keys.EventKeyInjective | saga/saga.go:125-127 | handler keys determine the contract name and the version, for all names and all integers; projection handlers use the same key (projection/projection.go:101-103) |
| Identifier.ParseID | kernel/id.go:40-59 | accepts exactly the 36-byte texts that are canonical after lower-casing, and returns them lower-cased |
| Identifier.FormatUUID | kernel/id.go:87-99 | the in-place encoding is the text form of section 3 of RFC 4122 |
| Identifier.FormatLaw | kernel/id.go:87-99 | the text form byte by byte: the two hexadecimal digits of each byte, the high one first, and dashes after 4, 6, 8 and 10 bytes |
| Identifier.NewID | kernel/id.go:30-36 | sets the version and variant bits of section 4.4 of RFC 4122 and leaves the other 122 bits, two of them in the variant's own digit, as given |
| Identifier.ParseOfFormat | kernel/id.go:40-99 | for all 16 bytes, parsing the printed text returns it unchanged |
| Identifier.FormatInjective | kernel/id.go:87-99 | printing is injective |
| Identifier.AcceptsExactlyFormats | kernel/id.go:40-59 | parsing accepts exactly the printed forms, up to the case of letters |
| Identifier.ParseNormalizes | kernel/id.go:38-44 | parsing ignores case and is idempotent on what it accepts |
| Broker.MemoryBroker.Publish | broker/memory.go:37-42 | messages are appended to one topic; nothing else changes |
| Broker.MemoryBroker.DeliverNext | broker/memory.go:60-91 | delivers the message at the group's offset and moves the offset only if the handler succeeded |
| Broker.MemoryBroker.Subscribe | broker/memory.go:44-93 | a second active member is refused without effect; otherwise, under interleaved publishes and failures, every round that finds a message delivers one, as long as the topic has messages; what was delivered and acknowledged is exactly the stutter of the log the offset moved over, and other groups keep their offsets |
| Broker.AckedIsStretch | broker/memory.go:60-91 | a group acknowledges exactly the stretch between its offsets: in order, nothing skipped, nothing twice |
| Broker.DeliveryAt | broker/memory.go:60-91 | every delivery is of the message behind those acknowledged before it, so one whose handler failed is delivered again |
| Broker.GuardedGroupAcksInOrder | broker/memory.go:44-58 | with the active-member guard, in every interleaving of members that read, handle unlocked and write the offset back, the acknowledged messages are exactly the first `offset` ones |
| Broker.MemberServed | broker/memory.go:44-93 | the guard keeps nobody out for good: in every run, once a group has no active member, one that joins is given the next message and moves the offset behind it |
| Broker.UnguardedGroupRepeats | broker/memory.go:44-58 | without the guard there is a run that acknowledges a message twice and moves the offset back |
| RelayFeed.DestinationsLaw | relay/relay.go:140-156 | a batch's topics are exactly those that get a message, each once, in first-encounter order |
| RelayFeed.FeedDistinct | relay/relay.go:196-201 | no two messages of a topic's feed share an ID |
| RelayFeed.PublishCovers | relay/relay.go:157-161 | publishing all or a first part of a batch, anew or again, keeps the topic's de-duplicated log a prefix of the feed, and a whole batch brings it to the batch's end |
| RelayFeed.CoversMembers | relay/relay.go:157-166 | every message of a topic is some record's translation, and every translatable record up to the checkpoint is on the topic |
| Relay.Relay.AddTranslator | relay/relay.go:84-100 | one reaction per event: a duplicate is refused and changes nothing |
| Relay.Relay.AddRoute | relay/relay.go:103-111 | a route is refused where a translator or route exists |
| Relay.Relay.TranslateRecord | relay/relay.go:169-194 | routes decide first, unlisted events stay private undecoded, translated ones carry the record's deterministic ID and its stream's ID as key |
| Relay.TranslateLaw | relay/relay.go:169-194 | an event with neither route nor translator is private; a listed one that cannot be decoded is an error; a route decides everything; a translated one goes to the relay's topic with the record's ID, its stream's key, and the name and version of what the translator gave |
| Relay.Relay.GroupBatch | relay/relay.go:140-156 | grouping preserves meaning: each topic gets exactly the filter of the batch's translations in store order, none lost, none repeated |
| Relay.Relay.PublishWithRetry | relay/relay.go:204-213 | however many attempts fail half-way, the topic still says a prefix of its feed, and success means the whole group arrived; other topics are untouched |
| Relay.Relay.PublishBatch | relay/relay.go:157-161 | a shutdown between two topics leaves every topic covered up to the old checkpoint; completion covers the batch |
| Relay.Relay.Run | relay/relay.go:117-167 | however the run ends, every topic covers the store up to the durable checkpoint; the checkpoint never passes a record that cannot be translated, and an error is that of such a record in the batch behind the checkpoint; without shutdown every pass advances until the store's end or such a record |
| Inbox.MemoryInbox.Append | projection/inbox.go:50-59 | a new ID is stored at the end, a known one changes nothing; IDs stay distinct |
| Inbox.MemoryInbox.ReadAll | projection/inbox.go:61-75 | the stored messages after a position in arrival order, cut to a positive limit |
| Inbox.MemoryInbox.Head | projection/inbox.go:77-84 | the number of stored messages, which is the position a caught-up reader reaches |
| Pipeline.NodeNextKeeps | relay/relay.go:117-167 | every atomic step of a store and its relay (append, read, partial publish, publish, checkpoint, crash) keeps topics covered |
| Pipeline.TopicsFaithful | relay/relay.go:117-213 | in every run with crashes between topics and changed batch boundaries, each topic without later duplicates is a prefix of the translated store, and includes everything up to the checkpoint |
| Pipeline.EffectivelyOnce | projection/inbox.go:50-106 | in every run with partial publishes, crashes, redeliveries and other services' messages, the inbox restricted to one source topic is an in-order, duplicate-free prefix of that service's translated events, and all of them once caught up |
| Pipeline.DeliveryAdvances | projection/inbox.go:102-106 | after any run, delivering and acknowledging takes the next message of the topic in and moves the group behind it |
| OptimisticConcurrency.Serializable | eventstore/memory.go:27-55 | for every interleaving of workers that load, decide and append at the loaded version, with crashes and appends elsewhere, each stream is the serial run of its committed commands, each decided on exactly the events before it |
| OptimisticConcurrency.AloneCommits | eventstore/repository.go:38-91 | after any run, a worker that loads, decides and appends with nobody in between adds exactly what it decided on the stream as it is |
| SagaRunner.SagaDefinition.OnEvent | saga/saga.go:91-123 | registers a reaction for one contract name and version and no other; a duplicate is refused |
| Saga.ReceivedStaysLive | saga/saga.go:204-231 | raising an envelope that has not been seen leaves an instance the replay of its events if and only if no handler is registered for it or the handler accepts it |
| Saga.RejectedEnvelopeDrifts | saga/saga.go:207-222 | such a drift exists: one rejected envelope leaves a fresh instance different from the replay of its empty history |
| Saga.DecideLaw | saga/runner.go:81-131 | a message is ignored if and only if the saga is over or has seen its ID; a failing handler's error is handed back; a command without a topic is an error; otherwise the envelope, one request per command on its topic under its own key or the saga's ID, and the end marker if the handler ends the saga |
| Saga.CorrelatedLaw | saga/runner.go:47-57 | a message is for the instance its handler correlates it with, if it has a handler and that ID is not empty, and for none otherwise |
| Saga.ReplayBlock | saga/saga.go:204-231 | replaying a recorded block re-runs the decision and gives the state the live handler had, plus the end marker |
| Saga.ReplayedState | saga/saga.go:204-231 | the instance after a recorded message: the state its handler left, its ID seen, and over exactly if the handler said so |
| Saga.EndedIsFinal | saga/runner.go:81-83 | once a stream holds the end marker, no continuation of any run ever appends to it, whatever is delivered by whomever |
| Saga.SerialShape | saga/runner.go:85-141 | a serial stream is a concatenation of blocks whose envelopes are the handled messages, no ID twice, replayable, with nothing after the end marker |
| Saga.SagaSerializable | saga/runner.go:45-142 | saga serializability: for every interleaving of concurrent deliveries on one instance, the stream is the serial stream of the messages it recorded, each block the decisions on the state replayed from the prefix before it |
| SagaRunner.StoredInstanceLaw | saga/runner.go:74-79 | an empty stream is a new saga at version 0, a readable one its decoded and replayed events at their number, and a stream that cannot be decoded is an error and not a new saga |
| SagaRunner.Runner.Process | saga/runner.go:73-142 | one delivery while others append between load and save: ignored, refused, or one append of the whole block at the loaded version, which stores everything or nothing |
| SagaRunner.Runner.Handle | saga/runner.go:45-69 | at most four attempts, another one only after a conflict; either the last one appended this message's block, decided on exactly the stream it extends, or nothing was appended, and then the saga ignores the message or the error is that of loading, of the handler, of encoding, or a conflict on the last attempt allowed; foreign and uncorrelated messages are acknowledged |
| SagaRunner.Runner.React | saga/runner.go:85-131 | raising the envelope, one request per command and the end marker leaves exactly the decided block pending |
| Consumer.Bus.Handle | cqrs/command.go:98-110 | one handler per command name; an empty or duplicate name is refused |
| Consumer.Bus.Dispatch | cqrs/command.go:116-143 | the states the handler was run in form a sequence that starts with the given one and goes on with what each attempt left, as others changed it; every attempt but the last failed in a way that may pass, and the last gives state and error; an unknown command changes nothing |
| Consumer.TriesEnd | cqrs/command.go:128-143 | every dispatch is such a sequence of attempts: no attempt follows a success or a definitive rejection, and a transient error is reported only when no attempt was left or the context was cancelled during the backoff |
| Consumer.TriesAttempt | cqrs/command.go:128-143 | a dispatch ends in a state with an error if and only if such a sequence of attempts does, so the sequence is the only one |
| Consumer.MemoryDeduplicator.MarkProcessed | cqrs/wire.go:116-121 | marks one ID; marking again changes nothing |
| Consumer.Consumer.Handle | cqrs/wire.go:162-187 | a marked message is acknowledged without effect; an undecodable one is rejected without effect; otherwise only a definitive answer, success or rejection, is marked and acknowledged, and a crash in between leaves it unmarked |
| Consumer.MarkedMeansSettled | cqrs/wire.go:134-187 | with concurrent duplicates, crashes, and other changes between the duplicate check, each attempt and the mark, an ID is marked only if its command took effect or the message was rejected, definitively or as undecodable, for every effect that neither commands nor other changes undo |
| Consumer.DeliveredAlone | cqrs/wire.go:162-187 | after any run, a worker alone that looks the mark up, executes and marks gets its message done, executed once and marked |
| CommandEffects.ServicesMarkTruly | cqrs/wire.go:162-187 | for billing, inventory and shipping and arbitrary messages: a marked message was rejected, or executing its command again changes nothing, at any later point of the run |
| Projection.Converges | projection/projection.go:15-24 | for idempotent, pairwise commuting handlers, the read model depends only on the set of items applied |
| Projection.CaughtUp | projection/catchup.go:36-94 | when both runners have caught up, whatever was re-applied and wherever handlers were cut short between two writes, the table is the fold of the two logs |
| Projection.HandlingRepairs | projection/projection.go:15-24 | handling an item repairs an earlier attempt at it that was cut short between its writes |
| Projection.RunsConverge | projection/inbox.go:126-173 | any two histories of a projection, with their own arrival orders, batch cuts, crashes, handlers cut short and rebuilds, end in the same table if their logs hold the same items |
| Projection.ReadYourWrites | projection/wait.go:39-76 | in every run, including crashes and rebuilds, once the store checkpoint has reached a position every own event up to it shows in the view |
| Projection.LiveRebuild | projection/projection.go:116-126 | why the runners must be stopped: after a rebuild under a live store runner, anywhere in its batch, the next checkpoint can be trusted if and only if nothing handled lies before the runner's position or it has nothing left to read |
| Projection.LiveRebuildLoses | projection/projection.go:116-126 | a case: of two items the first is missing from a table whose checkpoint covers both |
| ProjectionRunner.Projection.On | projection/projection.go:72-81 | one handler per domain event; a duplicate is refused |
| ProjectionRunner.Projection.OnIntegration | projection/projection.go:86-99 | a handler answers for one contract name and version only |
| ProjectionRunner.CheckpointsDiffer | projection/projection.go:105-114 | for any two projection objects the store cursor of one never has the name of the inbox cursor of the other, and each of the two names determines the projection |
| ProjectionRunner.CatchUp.Run | projection/catchup.go:36-94 | however the run ends, the tables gained exactly the records from the old checkpoint to some position in order, the checkpoint is not past it, an error is that of the record at that position, an undisturbed run advances a batch a turn to the store's end, and no inbox cursor of any projection moves |
| ProjectionRunner.InboxReader.Run | projection/inbox.go:126-173 | the same over the inbox, while messages keep arriving; no store cursor moves |
| ProjectionRunner.StoreRunLaw | projection/catchup.go:59-92 | a run amounts to one table per record: without a handler the table stays, otherwise the record was decoded and its handler succeeded; an error is that of decoding or handling the record at which it stopped, which the checkpoint has not passed |
| ProjectionRunner.InboxRunLaw | projection/inbox.go:149-171 | the same for facts from the inbox: every one with a handler was handled successfully, and an error is that of the fact the run stopped at |
| ProjectionRunner.Resumed | projection/catchup.go:33-35 | a stopped run followed by one that picks up at its checkpoint leaves the tables as if every item had been handled once |
| ProjectionRunner.SavedShows | docs/adr/0014-read-your-writes-position-and-wait.md:3 | once the awaited checkpoint has reached a save's position, every record up to it shows in the tables the store runner left |
| ProjectionRunner.Reset | projection/projection.go:118-126 | both cursors of the projection go to 0, no other cursor moves |
| ProjectionRunner.WaitForCheckpoint | projection/wait.go:55-76 | success means nothing was asked for or the checkpoint is there now; failure means it was short at every poll; the awaited cursor ends where the last poll's progress left it, so the wait itself moves nothing |
| Billing.Handlers.CapturePayment | gohex-example/billing/internal/app/app.go:65-82 | the handler appends exactly what the payment's history and the command call for: nothing when already decided, a rejection for a non-positive amount, a recorded failure above the limit, a capture otherwise |
| Billing.CaptureLaw | gohex-example/billing/internal/app/app.go:65-82 | for every history: an undecided payment of a non-positive amount is rejected as invalid_amount, over 99999 cents it is recorded as failed, otherwise as captured; a decided one needs nothing |
| Billing.Handlers.RefundPayment | gohex-example/billing/internal/app/app.go:85-97 | refunds a captured payment once, treats a refunded one as done, and rejects an unknown or declined one |
| Billing.RefundLaw | gohex-example/billing/internal/app/app.go:85-97 | for every history: without a payment not_found, after a capture one refund for that payment's order, after a refund nothing, after a failure not_captured |
| Billing.Handlers.Capture | gohex-example/billing/internal/domain/payment.go:87-99 | both outcomes are facts: the limit decides which one is pending |
| Billing.Handlers.Refund | gohex-example/billing/internal/domain/payment.go:102-111 | only a captured payment gains a pending refund |
| Billing.PaymentStreams | gohex-example/billing/internal/domain/payment.go:87-127 | with concurrent consumers, redeliveries and crashes every payment stream is empty, captured within the limit, declined, or captured and then refunded, and names its own order |
| Billing.ReplaySafe | gohex-example/billing/internal/app/app.go:63-64 | executing a command again after it took effect, even after later commands, succeeds and changes nothing |
| Inventory.Handlers.ReserveStock | gohex-example/inventory/internal/app/app.go:50-67 | decides a reservation once, by the stock on hand, and is a no-op afterwards |
| Inventory.ReserveLaw | gohex-example/inventory/internal/app/app.go:50-67 | for every history: an undecided reservation of a non-positive quantity is rejected as invalid_quantity, over 10 it is recorded as rejected, otherwise as reserved; a decided one needs nothing |
| Inventory.Handlers.Reserve | gohex-example/inventory/internal/domain/reservation.go:68-80 | both outcomes are facts: the stock decides which one is pending |
| Inventory.ReservationStreams | gohex-example/inventory/internal/domain/reservation.go:68-94 | a reservation stream holds at most one decision, a reservation within stock or a rejection, for its own order, in every interleaving |
| Inventory.ReplaySafe | gohex-example/inventory/internal/app/app.go:49-54 | a decided reservation makes the command a successful no-op |
| Shipping.Handlers.CreateShipment | gohex-example/shipping/internal/app/app.go:46-59 | dispatches an order's shipment once and is a no-op afterwards |
| Shipping.CreateLaw | gohex-example/shipping/internal/app/app.go:46-59 | for every history: the first command dispatches the shipment, later ones need nothing |
| Shipping.Handlers.Create | gohex-example/shipping/internal/domain/shipment.go:40-46 | creation dispatches immediately |
| Shipping.ShipmentStreams | gohex-example/shipping/internal/domain/shipment.go:40-57 | an order is dispatched at most once in every interleaving |
| Shipping.ReplaySafe | gohex-example/shipping/internal/app/app.go:45-50 | a dispatched shipment makes the command a successful no-op |
| Script.PlaceableIsParsed | gohex-example/ordering/internal/domain/order.go:38-91 | the orders that can be placed are exactly those built from a positive total, a three-letter currency and a positive quantity |
| Ordering.Handlers.PlaceOrder | gohex-example/ordering/internal/app/app.go:91-97 | a new order becomes version 1 of a stream that must not exist; a reused ID is a conflict and stores nothing; the write position covers it |
| Ordering.PlaceLaw | gohex-example/ordering/internal/domain/order.go:154-163 | a total that was never parsed is rejected as empty_order, an existing stream is a conflict, and otherwise exactly the ordered content is recorded |
| Ordering.Handlers.NotifyCustomer | gohex-example/ordering/internal/app/app.go:102-115 | rejects malformed and unknown orders and empty reasons; telling a reason again stores nothing; otherwise exactly one notification is appended |
| Ordering.NotifyLaw | gohex-example/ordering/internal/app/app.go:102-115 | for every history an order can have: without an order not_found, without a reason empty_reason, a reason the history tells needs nothing, and a new one is recorded for that order |
| Ordering.Handlers.Notify | gohex-example/ordering/internal/domain/order.go:168-176 | a reason already notified, or an empty one, leaves nothing pending |
| Ordering.NotifiedInHistory | gohex-example/ordering/internal/domain/order.go:178-194 | the replayed order remembers exactly the reasons in its history |
| Ordering.OrderStreams | gohex-example/ordering/internal/app/app.go:91-115 | with concurrent requests, workers and crashes every order stream is its own placement followed by notifications of that order, none without a reason and no two for the same one |
| Ordering.NotifySucceeds | gohex-example/ordering/internal/domain/order.go:165-176 | a notify command that succeeds leaves the reason in the history, and repeating it is a no-op |
| Worklist.NotificationQueue.Enqueue | gohex-example/ordering/internal/adapters/postgres/notifications.go:55-69 | one row per order and reason, sent or not; re-enqueuing changes no row |
| Worklist.NotificationQueue.EnqueueAll | gohex-example/ordering/internal/adapters/postgres/notifications.go:55-69 | after any number of milestones each of them is queued, and the rows that were there are as they were |
| Worklist.NotificationQueue.Pending | gohex-example/ordering/internal/adapters/postgres/notifications.go:71-82 | the unsent rows by age, at most the limit; every unsent row left out is newer than all of them and there was no room for it |
| Worklist.NotificationQueue.MarkSent | gohex-example/ordering/internal/adapters/postgres/notifications.go:104-111 | retires exactly the row with that number |
| Worklist.Notifier.Dispatch | cqrs/command.go:128-143 | up to three notify commands, each on what the one before left and others made of it, another one exactly after a failure that may pass |
| Worklist.Notifier.Send | gohex-example/ordering/internal/app/notifier.go:91-106 | a failed dispatch or a crash leaves every row as it was; otherwise exactly this row is retired, and its notification is in the order's stream |
| Worklist.Notifier.Tick | gohex-example/ordering/internal/app/notifier.go:81-88 | every claimed row is dispatched, in order, and its error reported; one without an error is told in the order's stream, and sent unless the worker died before marking it; no other row changes |
| Worklist.Notifier.Run | gohex-example/ordering/internal/app/notifier.go:59-88 | every tick claims the oldest unsent rows up to the batch size, dispatches each and retires those that succeed, on exactly the worklist and log the tick before left and others added to; every row marked sent has its notification stored |
| WorklistDrains.Drained | gohex-example/ordering/internal/app/notifier.go:59-88 | after n ticks in which every dispatch succeeds and no worker dies, every row is sent that had fewer than n batches of unsent rows before it, whatever was enqueued in between |
| NotifierWorkers.NotifiedOnce | gohex-example/ordering/internal/app/notifier.go:81-106 | with any number of workers that claim a row, load its order and save as separate steps, crashes, and rows marked by others in between: no order stream holds two notifications with one reason, no row is sent before its notification is stored, one row per order and reason |
| NotifierWorkers.WorkedAlone | gohex-example/ordering/internal/app/notifier.go:81-106 | after any run, a worker alone that claims, loads, saves and marks a row whose command does not fail leaves it sent and told |
| OrderSummary.SummaryStore.UpsertPlaced | gohex-example/ordering/internal/adapters/postgres/summary.go:51-71 | the base columns take the placed values and a status that a foreign fact raised stays raised |
| OrderSummary.SummaryStore.SetStatus | gohex-example/ordering/internal/adapters/postgres/summary.go:73-87 | the rank becomes the larger of the two, the base columns stay, a missing row is created with defaults |
| OrderSummary.SummarizeTame | gohex-example/ordering/internal/app/projection.go:34-82 | the handlers are idempotent and pairwise commutative if and only if no order is placed twice with different content |
| OrderSummary.SummaryRepairable | gohex-example/ordering/internal/app/projection.go:57-80 | raising the status without queueing the notification, then failing, is repaired by the next attempt in every order with other items, under exactly the same condition |
| OrderSummary.FoldRow | gohex-example/ordering/internal/ports/ports.go:18-26 | a row exists exactly for the orders mentioned, with the highest-ranked status among the facts applied and the placed columns |
| OrderSummary.FoldStatus | gohex-example/ordering/internal/app/projection.go:45-80 | a row exists exactly if a placement of the order or one of the six facts about it was handled, and its status and rank are refunded 12 if a refund was, else rejected 11, payment_failed 10, shipped 4, reserved 3, paid 2, placed 1 |
| OrderSummary.StatusNamesRank | gohex-example/ordering/internal/ports/ports.go:15-26 | a row's status is always the name of its rank |
| OrderSummary.FoldQueue | gohex-example/ordering/internal/app/projection.go:60-80 | an order is on the worklist for exactly the milestones seen |
| SummaryProjection.NewOrderSummaryProjection | gohex-example/ordering/internal/app/projection.go:34-82 | registers one store handler and six fact handlers, without duplicates, each for its own contract at version 1 |
| SummaryProjection.FactsSummarized | gohex-example/ordering/internal/app/projection.go:57-80 | handling a published fact does what the read model's specification says and never fails; what that is, fact by fact, is the next row |
| SummaryProjection.FactRaises | gohex-example/ordering/internal/app/projection.go:57-80 | the six facts raise the row of their order to paid 2, reserved 3, shipped 4, payment_failed 10, rejected 11, refunded 12 if it was lower or missing, and leave base columns and other rows alone; a failed payment and a shipment are queued |
| SummaryProjection.OthersSkipped | gohex-example/ordering/internal/app/projection.go:57-80 | every other contract changes nothing |
| SummaryProjection.RecordsSummarized | gohex-example/ordering/internal/app/projection.go:45-55 | handling a stored record does what the specification says; only placements are decoded |
| SummaryProjection.PlacementWritten | gohex-example/ordering/internal/app/projection.go:45-55 | a stored placement writes exactly the ordered columns and the status placed 1 only where none was raised |
| FulfillmentSaga.NewFulfillmentSaga | gohex-example/ordering/internal/app/saga.go:30-89 | six registrations build a definition that answers for exactly the six contracts at version 1, each with its own handler |
| FulfillmentSaga.FactHandled | gohex-example/ordering/internal/app/saga.go:33-86 | the engine treats a published fact by the workflow's decision, correlated by order, or not at all |
| Topology.WiredAs | saga/saga.go:170-184 | for every record as a service stores it, the registered translators and the command route say exactly what the system model lets the relay say |
| Topology.RegisterTranslators | gohex-example/billing/internal/app/app.go:31-43 | the translators a service registers, with ordering's command route, are accepted one after the other and make the relay the one whose messages are identified by position, which is what a relay run needs |
| Topology.WiringByPosition | gohex-example/ordering/internal/app/app.go:28-41 | what each of the four services wires identifies every message by its record's stream and version, whatever is stored |
| Script.TriggerIDInjective | relay/relay.go:196-201 | the IDs of the messages about an order determine the order and the message |
| Script.BlocksReplay | gohex-example/ordering/internal/app/saga.go:33-86 | the scripted saga stream replays to an instance that knows the order's total and quantity from its first block on |
| FulfillmentSteps.Beat | gohex-example/ordering/internal/app/saga.go:25-89 | receiving a message of the script plays exactly the next beat if it is due, changes nothing if it was played, and is never refused |
| FulfillmentInvariant.CommandSaid | saga/runner.go:100-126 | every command on a service's topic is the one the saga's script sends that service at that point |
| FulfillmentInvariant.FactSaid | relay/relay.go:169-201 | every fact on a service's topic is one the script has spoken |
| Fulfillment.NextKeeps | gohex-example/ordering/cmd/ordering/main.go:84-124 | every atomic step of stores, relays, workers, deduplicators, inbox and view keeps the system invariant |
| Fulfillment.AlwaysOnScript | gohex-example/ordering/internal/app/saga.go:25-89 | in every run each order's saga, payment, reservation and shipment streams are exactly its script up to some beat, and an order that was not placed has no history |
| Fulfillment.ShippedMeansPaidAndReserved | gohex-example/ordering/internal/app/saga.go:59-65 | in every run a dispatched order was captured for exactly its total, not refunded, and reserved for exactly its quantity, within limit and stock |
| Fulfillment.RefundedMeansRejected | gohex-example/ordering/internal/app/saga.go:68-80 | in every run a refunded order was captured for exactly its total, rejected by stock, and never shipped |
| Fulfillment.NoCommandRejected | cqrs/wire.go:178-185 | in every run no command the saga sends is ever met with an error by the service as it then is |
| Fulfillment.MarkedMeansDone | cqrs/wire.go:162-187 | in every run a service marks a command as processed only after its beat has been played |
| ReadYourWrites.PlacedShows | projection/wait.go:39-76 | an order saved at a position, in any run and with any continuation: whenever the store checkpoint has reached that position, its row is in the summary with the ordered columns |
| ReadYourWrites.PlaceAndWait | projection/wait.go:55-76 | the operations in sequence: when placing an order under a fresh position and waiting for that position both succeed, and the cursor that ended the wait is the store checkpoint the view has in some continuation of the run, the order's row is in that view; placing succeeds exactly for an ID nobody used, and the wait fails only if no poll saw the cursor at the store's end |
| FulfillmentNotices.NoticesTrue | gohex-example/ordering/internal/app/notifier.go:59-106 | with the projection filling the worklist and any number of workers draining it inside the system: an order's stream says shipped only if its shipment was dispatched, payment_failed only if its payment was declined, nothing else, and nothing twice |
| FulfillmentNotices.NoticesComplete | gohex-example/ordering/internal/app/projection.go:57-80 | once nothing is left to relay, deliver or project and every row is sent, an order's stream is its placement followed by exactly the notification its total and quantity call for, or none |
| FulfillmentOutcome.Outcome | gohex-example/ordering/internal/ports/ports.go:18-26 | in every run, once nothing is left to relay, deliver or project, every placed order's saga has ended and its summary row shows what was ordered with status payment_failed above 99999 cents, else refunded above 10 units, else shipped, and the matching notification is queued |
| FulfillmentStatus.StatusTrue | gohex-example/ordering/internal/app/projection.go:34-82 | in every reachable state, with runners behind, cut short or rebuilding, a row is of a placed order and its status says nothing that has not happened to it: paid means captured, shipped means captured, reserved and dispatched, and so on |
| FulfillmentStatus.StatusExact | gohex-example/ordering/internal/ports/ports.go:15-26 | once the services' facts are in the inbox and both runners have caught up, however far fulfillment has come, a placed order's status is the one its histories call for: refunded, else rejected, payment_failed, shipped, reserved, paid, placed |
| FulfillmentSettling.CanSettle | gohex-example/ordering/cmd/ordering/main.go:84-124 | nothing gets stuck: every reachable state has a continuation, without new orders, after which nothing is left to relay, deliver or project |
| FulfillmentSettling.FateReached | gohex-example/ordering/internal/app/saga.go:25-89 | every order that can be placed meets its fate in some run, so each of the three outcomes does occur |
| FulfillmentFairness.FairRunsSettle | gohex-example/ordering/cmd/ordering/main.go:84-124 | every infinite run in which, from some point on, nobody orders or notifies and nothing fails, and in which no relay, group or runner that stays due is put off for ever, comes to a moment from which on nothing is left to relay, deliver or project |
| FulfillmentFairness.EveryOrderServed | gohex-example/ordering/internal/app/saga.go:25-89 | in every such run each placed order has, from some moment on for ever, played its whole script, with its final status in the summary |

## Left out

- Metadata, occurrence times and `placed_at`: copied through the code and read by nothing that is modelled here, so envelopes and rows do not carry them.
- JSON: payloads are values of a type parameter and codecs are partial functions; where a property needs it, `Registry.Inverse` states that decoding undoes encoding. In the four-service system a payload is the event itself. Encoding an integration event or a command cannot fail in the model of the relay and the saga.
- Integer width: cents, quantities, versions and positions are unbounded.
- Postgres and Kafka adapters as I/O: their ports are modelled by the in-memory versions; of the SQL only the row-merge, insert-once and mark-sent meaning is kept. I/O errors of stores, checkpoints and the deduplicator appear as crashes.
- Goroutines, mutexes, sleeps, backoff and contexts: replaced by atomic steps, arbitrary interleaving, and stops or crashes between effects. `saga.Runner.Run` and `cqrs.Consumer.Run` only start subscriptions.
- Tracing, metrics, logging, backlog gauges and the projection observer.
- The HTTP edge, the query bus, command middleware and `main`: wiring. Panics on wiring mistakes are a false result of the registering method.
- Snapshots and dead-lettering: described in the decision records, not in the code.
- Rebuilding a read model is one step (runners stopped, tables truncated, both checkpoints reset, runners restarted), as the documentation prescribes; the case of a live runner is `Projection.LiveRebuild`.
- One runner per checkpoint name, handlers are pure, topics are fed only by the services' relays: assumed, as the documentation asks.
- The worklist row numbers depend on the order in which facts are applied, so the read model's convergence speaks of the set of queued order and reason pairs.
- FulfillmentOutcome.Outcome: says what holds once nothing is left to do. That such a state can always be reached is `FulfillmentSettling.CanSettle`, and that fair runs reach it `FulfillmentFairness.FairRunsSettle`; that the scheduler is fair is assumed there, because the code cannot promise it.
- FulfillmentNotices.NoticesTrue: orders are placed under identifiers in canonical form, which is what parsing and generating them yields; everything else about the system holds for any non-empty ID. A rebuild of the summary leaves the worklist as it is.
- Topology.WiredAs: covers records stored at schema version 1, because no service of the example registers an upcaster.
