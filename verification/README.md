# Donation and trade marketplace: a verified model

The system lets people give things away or trade them. Catalog owns listings, their moderation and their images;
Marketplace owns proposals, transactions and an outbox; Notification keeps an inbox. They share no transaction: not
with each other, not with RabbitMQ, not with the object storage. Every guarantee rests on a few conditional updates,
on the order of the steps around them, and on retries that do no harm. This project models those steps in Dafny and
proves what follows from them.

Check everything with `dafny verify dfyconfig.toml`.

## How the model is built

Two kinds of modules share one set of table operations (`Catalog`, `Ledger`, `Listings`).

* **State machines**, for what has to hold under any interleaving. A state holds the tables and every request in
  flight; an action is one atomic step of one request (one read, one conditional update, one local transaction), one
  step of a server that runs whether or not its caller still waits, or a fault. A disabled action changes nothing, so
  a run is any sequence of actions, with any number of concurrent requests, crashes, lost replies and redeliveries.
* **Classes**, for what one request does. Their methods update the tables in place as the services do. Where another
  request may interfere between a read and a write, the tables found later are parameters, and the methods rely only
  on what the state machines prove about later tables.

| part | machine | classes |
|---|---|---|
| Reservation protocol (`accept`, `confirm`, `create`, `reject`) | `Saga`, `SagaInvariant`, `SagaSteps`, `SagaTheorems`, `SagaFaults`, `SagaOutcomes`, `SagaAnnouncements`, `SagaRecovery`, `SagaRaces`, `SagaGuards`, `SagaServices` | `Catalog.InternalListings`, `CatalogClient.Client`, `Marketplace.ProposalsService`, `Marketplace.TransactionsService` |
| Rejection delivery (outbox, broker, inbox) | `Delivery`, `DeliverySteps`, `DeliveryTheorems` | `Publisher.EventPublisher`, `OutboxWorker.Worker`, `Consumer.NotificationStore`, `Consumer.RabbitMqConsumer` |
| Moderation and galleries | `Moderation`, `ModerationSteps`, `ModerationTheorems`, `ModerationOutcomes`, `ModerationRaces` | `ListingService.ListingsService`, `ListingImages.ListingImagesService` |
| Agreements between separately written halves | `PublicationForm` (wizard and correction form) | `EventContract`, `PublicationRules`, `AdminSummary` |

The commit protocol keeps a history variable, `holder`: who took each listing out of Available. A hold whose call,
request or release has vanished without giving the listing back is a leak. The gallery machine keeps one too,
`place`: what became of each object key. No guard reads either.

### Assumptions

* A database transaction that throws has aborted.
* Every write to a listing strictly increases `updatedAt`, including `reserve`, `complete` and `release`. Two writes
  of the same row within one millisecond could in fact produce equal timestamps; the model excludes it.
* Generated identifiers are new, event ids fit their column, and user and listing ids are not blank. A listing never
  changes hands.
* `publish` answers with a boolean and never throws. It is called inside the `try` block of `accept`, after the
  commit, so that nothing is compensated after a commit depends on this.
* The schema validator's library is not part of this model: its measure of a text is a parameter that never exceeds
  the number of UTF-16 code units and never grows under trimming. Counting characters is one such measure.
* A confirmed message is in the queue if some binding routes it. The broker may deliver a message again at any time
  until it is settled.

### What turned out false

* *A reserved listing is approved.* `updateOwned` writes without a condition. `ModerationRaces.ReservedButPending`
  gives the run; `ModerationTheorems.ReservedStaysApprovedExactly` says exactly which step loses it.
* *Stored wishes fit the listing's type.* An edit that sends wishes without a type validates them against the type it
  read. `ModerationRaces.DonationWithTradeWishes` gives the run, `ModerationRaces.EditKeepsFitExactly` the exact
  condition. Approval validates again, so nothing of the kind is ever published.
* *No proposal is pending on an accepted target.* `create` checks and inserts later.
  `SagaRaces.LateProposalHappens` gives the run, `SagaRaces.LateStepExactly` and `SagaRaces.LateRunExactly` the exact
  condition, and `SagaRaces.LateProposalIsNeverAccepted` shows that it does no harm.
* *No reservation leaks.* `SagaFaults.LeakHappens` gives the run, `SagaFaults.LeaksExactly` says exactly which steps
  leak, and without faults nothing does.
* *What the wizard submits, the server accepts.* The wizard counts UTF-16 code units, the schema characters.
  `PublicationForm.WizardTitleRefused` runs the wizard to its last step with a title the schema finds too short;
  `PublicationForm.WizardSubmitsExactly` is the exact condition, and with one measure on both sides nothing is refused.
* *What the correction form submits, the server accepts.* The form checks texts as typed and sends them trimmed.
  `PublicationForm.SpacedTitleRefused` gives the input, `PublicationForm.CorrectionAcceptedExactly` the exact condition.

## Model

| member | source | states |
|---|---|---|
| SagaTheorems.NoDoubleAllocation | apps/marketplace-service/src/proposals/proposals.service.ts:180-255 | over every run, each listing appears, as target or as offered item, in at most one transaction ever created |
| SagaTheorems.HoldConservation | apps/catalog-service/src/internal/internal-listings.service.ts:43-107 | in every reachable state a listing has at most one claimant; it is Available exactly when nobody claims it and it has not leaked; a leaked one is Reserved and unclaimed; a Completed one is claimed by a transaction |
| SagaTheorems.ReleaseNeverMeetsComplete | apps/catalog-service/src/internal/internal-listings.service.ts:63-107 | a release that may still write and a complete are never pending on the same listing, however long the server delays either |
| SagaTheorems.ConflictBranchesAreDead | apps/catalog-service/src/internal/internal-listings.service.ts:72-97 | no complete or release that the protocol sends is ever refused: the 404 and 409 branches behind the unconditional writes are unreachable |
| SagaTheorems.CompletedIsFinal | apps/catalog-service/src/internal/internal-listings.service.ts:63-107 | once Completed, a listing stays Completed in every continuation of the run, although both writes are unconditional after a stale read |
| SagaTheorems.CompletionSafety | apps/marketplace-service/src/transactions/transactions.service.ts:65-89 | a Completed transaction has both confirmations, two different parties and all its listings Completed; a listing is Completed only in a transaction both parties confirmed |
| SagaTheorems.OnlyThePartyConfirms | apps/marketplace-service/src/transactions/transactions.service.ts:36-55 | a confirmation flag rises only in a step of a request made by that very party |
| SagaTheorems.CompletionAnnouncedAtMostOnce | apps/marketplace-service/src/transactions/transactions.service.ts:77-111 | `transaction.completed` is handed to the publisher at most once per transaction, and only after it completed |
| SagaAnnouncements.AnnouncedExactly | apps/marketplace-service/src/transactions/transactions.service.ts:77-111 | over every run a transaction is announced exactly when the claim that completed it lived to hand the event over, and it is completed but never announced exactly when that request died in between; so without such a death the announced transactions are the completed ones |
| SagaTheorems.ProposalLedger | apps/marketplace-service/src/proposals/proposals.service.ts:123-150 | in every reachable state a proposal is pending with no transaction and no outbox row, accepted with exactly one agreeing transaction, or rejected with exactly one agreeing outbox row |
| SagaTheorems.RejectionsNameTheOwner | apps/marketplace-service/src/proposals/proposals.service.ts:113-147 | every rejection in the outbox names the owner of the listing its proposal was about, who is not the requester |
| SagaTheorems.RunGrows | apps/marketplace-service/src/proposals/proposals.service.ts:192-255 | along every run nothing is deleted, a proposal leaves Pending once and for all, confirmations and completions stay, an outbox row keeps its event and is never unmarked |
| SagaTheorems.ActionIsLedgerOp | apps/marketplace-service/src/proposals/proposals.service.ts:123-255 | every action of the protocol changes the ledger by one enabled ledger operation or not at all, so what is proved of ledger operations holds of the protocol |
| SagaSteps.RunKeepsInv | apps/marketplace-service/src/proposals/proposals.service.ts:153-281 | every run of the protocol keeps its global invariant on holders, calls, requests and ledger |
| SagaFaults.LeaksExactly | apps/marketplace-service/src/proposals/proposals.service.ts:270-289 | a step makes a listing leak exactly when it loses the one claim on it: a reserve applied unseen, a crash while holding, or a release that never arrives |
| SagaFaults.LeakHappens | apps/marketplace-service/src/catalog/catalog-client.service.ts:91-104 | a concrete run in which a reserve is applied, its reply lost, and the listing stays Reserved for nobody |
| SagaFaults.LeakIsPermanent | apps/marketplace-service/src/proposals/proposals.service.ts:283-289 | a leak is for good: no later step of the protocol takes the listing back |
| SagaFaults.NoFaultNoLeak | apps/marketplace-service/src/proposals/proposals.service.ts:180-281 | a run in which no call is lost or in doubt and no acceptance crashes leaks nothing |
| SagaFaults.AllOrNothing | apps/marketplace-service/src/proposals/proposals.service.ts:180-281 | in a run without faults, once no acceptance and no release is under way, a listing is unavailable exactly when one transaction, and only one, has it |
| SagaOutcomes.UnavailableExactlyWhenClaimed | apps/marketplace-service/src/proposals/proposals.service.ts:180-281 | at every moment of a run without faults, with any number of requests under way, a listing is unavailable exactly when somebody has a claim on it, and then only one has |
| SagaOutcomes.AcceptanceEndsWhole | apps/marketplace-service/src/proposals/proposals.service.ts:153-281 | without faults, under any interference, an acceptance that ends either has just created its one transaction, with every listing Reserved for it, or has committed nothing in its whole life and holds nothing but through releases it has sent |
| SagaRecovery.CrashRecovery | apps/marketplace-service/src/transactions/transactions.service.ts:57-97 | from every reachable state with a doubly confirmed transaction in progress, whatever subset of its listings is already Completed, one fault-free `confirm` by either party completes all its listings and the transaction |
| SagaRaces.LateExactlyByInsertion | apps/marketplace-service/src/proposals/proposals.service.ts:39-68 | among all ledger operations, only an insertion on a target accepted meanwhile puts a pending proposal on an accepted target |
| SagaRaces.LateStepExactly | apps/marketplace-service/src/proposals/proposals.service.ts:39-68 | in a reachable state without a late proposal, a step of the protocol brings one exactly when it is the insertion of a `create` whose target was accepted since its check |
| SagaRaces.LateRunExactly | apps/marketplace-service/src/proposals/proposals.service.ts:39-68 | a run is free of late proposals throughout exactly when none of its steps is such an insertion |
| SagaRaces.LateProposalHappens | apps/marketplace-service/src/proposals/proposals.service.ts:32-82 | a concrete run that ends with a pending proposal on an accepted target |
| SagaRaces.LateProposalIsNeverAccepted | apps/marketplace-service/src/proposals/proposals.service.ts:174-208 | a proposal on a listing that some transaction involves is never accepted afterwards |
| SagaGuards.ProposalsWereChecked | apps/marketplace-service/src/proposals/proposals.service.ts:32-82 | over every run, although guards read early and inserts come late, each proposal asks for a listing that was once somebody else's, approved, available and of the right type, and offers, for a trade, another one that was once the requester's own and open too |
| SagaGuards.TradedWasApproved | apps/catalog-service/src/internal/internal-listings.service.ts:43-61 | over every run each listing of each transaction was approved and available at the very step that reserved it, and belonged to the party that gives it away |
| SagaServices.ReachableStatesServe | apps/marketplace-service/src/marketplace/marketplace-rules.service.ts:26-122 | in every reachable state each transaction still has its listings in hand, and each proposal joins different listings of different people |
| SagaServices.LaterTablesServe | apps/marketplace-service/src/transactions/transactions.service.ts:27-115 | between any two moments of a run both services' tables change only in the ways the service methods allow for: listings stay and keep their owner, ledger records only grow, and the ledger is consistent |
| Ledger.OpKeepsConsistent | apps/marketplace-service/src/proposals/proposals.service.ts:123-255 | each atomic statement of the ledger keeps proposals, transactions and outbox in one-to-one agreement |
| Ledger.ConsistentAccounts | apps/marketplace-service/prisma/schema.prisma:29-81 | in a consistent ledger every proposal is accounted for exactly once, by a record that agrees with it on all ids |
| Ledger.AcceptMovesExactlyTheRivals | apps/marketplace-service/src/proposals/proposals.service.ts:192-255 | an acceptance moves its own proposal and exactly the pending rivals on its target, leaves none pending there, creates one unconfirmed transaction with the proposal's ids, and adds exactly one unpublished outbox row for each rival |
| Ledger.RejectKeepsConsistent | apps/marketplace-service/src/proposals/proposals.service.ts:123-150 | a rejection and its outbox row, committed together, keep the ledger consistent |
| Ledger.MarkKeepsConsistent | apps/marketplace-service/src/events/outbox.worker.ts:73-79 | counting an attempt or marking a row changes no agreement |
| Catalog.InternalListings.Reserve | apps/catalog-service/src/internal/internal-listings.service.ts:43-61 | succeeds exactly when the listing was approved and available; then it and nothing else becomes Reserved; the error tells a missing listing from a conflict |
| Catalog.InternalListings.Complete | apps/catalog-service/src/internal/internal-listings.service.ts:63-84 | succeeds exactly on a listing that is reserved or completed; a reserved one is overwritten as Completed whatever it has become meanwhile, and nothing else is written; the error tells a missing listing from a conflict |
| Catalog.InternalListings.Release | apps/catalog-service/src/internal/internal-listings.service.ts:86-107 | succeeds exactly on a listing that is available or reserved; a reserved one is overwritten as Available whatever it has become meanwhile, a completed one stays; the error tells a missing listing from a conflict |
| CatalogClient.ReadResponse | apps/marketplace-service/src/catalog/catalog-client.service.ts:106-126 | not found exactly on 404, conflict exactly on 409, success exactly on a 2xx response with a well-formed snapshot, which it hands over; everything else leaves the caller in doubt |
| CatalogClient.Client.ReserveListing | apps/marketplace-service/src/catalog/catalog-client.service.ts:71-73 | the reserve is applied exactly when the request arrives and finds the listing approved and available; a clear answer tells exactly that, and a refusal why; otherwise it may have been applied without the caller knowing |
| CatalogClient.Client.CompleteListing | apps/marketplace-service/src/catalog/catalog-client.service.ts:75-77 | a call succeeds exactly when clear and on a reserved or completed listing, which is then Completed; the write lands on the table as others left it after the read; a refusal says why |
| CatalogClient.Client.ReleaseListing | apps/marketplace-service/src/catalog/catalog-client.service.ts:79-81 | takes effect exactly when the request arrives and finds the listing reserved, on the table as others left it after the read; a clear call succeeds exactly on a listing not completed and leaves it Available; a refusal says why |
| CatalogClient.Client.GetListing | apps/marketplace-service/src/catalog/catalog-client.service.ts:67-69 | succeeds exactly when the call is clear and the listing exists, with its row; not found only on a clear call |
| MarketplaceRules.CanRequestDonation | apps/marketplace-service/src/marketplace/marketplace-rules.service.ts:26-37 | passes exactly on somebody else's donation that is approved and available |
| MarketplaceRules.CanOfferTrade | apps/marketplace-service/src/marketplace/marketplace-rules.service.ts:39-71 | passes exactly for one's own open trade listing against a different open trade listing of somebody else |
| MarketplaceRules.CanAccept | apps/marketplace-service/src/marketplace/marketplace-rules.service.ts:73-89 | passes exactly for a pending proposal whose listings are all approved and available |
| MarketplaceRules.CanConfirm | apps/marketplace-service/src/marketplace/marketplace-rules.service.ts:91-109 | passes exactly for a party of a transaction in progress |
| Marketplace.ProposalsService.Create | apps/marketplace-service/src/proposals/proposals.service.ts:32-68 | from the raw request body: a proposal is stored, pending and with its trimmed message, exactly when identifiers, type and message are well formed and every guard passes on the listings read; otherwise nothing changes |
| Marketplace.ProposalsService.Reject | apps/marketplace-service/src/proposals/proposals.service.ts:104-151 | succeeds exactly for a pending proposal on the actor's own listing, and then commits the rejection together with its outbox row |
| Marketplace.ProposalsService.Accept | apps/marketplace-service/src/proposals/proposals.service.ts:153-281 | under interference before the reserves and before the commit: success exactly for the owner of the target, who becomes the owner in the transaction, on a pending proposal whose listings are approved and available as read and again as reserved; then exactly these listings become Reserved, the one transaction exists, and every transaction still names the owner of its target. Anybody else fails with ledger and catalog untouched. A failure commits nothing and leaves the catalog as the rivals left it except for exactly what was taken and not given back, so on clear calls exactly as they left it |
| Marketplace.ProposalsService.Admit | apps/marketplace-service/src/proposals/proposals.service.ts:153-178 | an acceptance starts reserving exactly for the owner of an approved, available target of a pending proposal whose offered listing, if any, is approved and available too; anybody else is told so |
| Marketplace.ProposalsService.ReserveAll | apps/marketplace-service/src/proposals/proposals.service.ts:180-190 | the flags say exactly which reserves were seen to succeed, and the table shows exactly those that were applied, the target first |
| Marketplace.ProposalsService.GiveBack | apps/marketplace-service/src/proposals/proposals.service.ts:270-289 | every flagged listing is Available again unless its release was lost; nothing else changes |
| Marketplace.ProposalsService.Commit | apps/marketplace-service/src/proposals/proposals.service.ts:192-255 | commits exactly when the proposal is still pending and the database does not throw, and otherwise keeps nothing |
| Marketplace.FailureLeavesNothingIff | apps/marketplace-service/src/proposals/proposals.service.ts:270-289 | the catalog after a failed acceptance is the one the rivals left exactly when no applied reserve went unseen and no owed release was lost |
| Marketplace.TransactionsService.CompleteListings | apps/marketplace-service/src/transactions/transactions.service.ts:70-74 | succeeds exactly when no call is lost and every listing of the transaction is reserved or completed; then all are Completed; only listings of the transaction change, from Reserved to Completed |
| Marketplace.TransactionsService.SetFlag | apps/marketplace-service/src/transactions/transactions.service.ts:36-55 | afterwards the flag of a party is up exactly if it was up or that party is the actor; every other column and row, proposals and outbox stay as they were |
| Marketplace.TransactionsService.Confirm | apps/marketplace-service/src/transactions/transactions.service.ts:27-115 | under interference before the re-read and before the claim: the flag of the actor is set first; if both flags are then up, whoever set them, the transaction ends Completed with all its listings, by this claim or a concurrent one, exactly when no call is lost and every listing is in hand; a failed attempt keeps the flags. A party that confirms first, nobody interfering, gets the transaction in progress with its own flag and no other, and no listing is touched |
| DeliveryTheorems.InboxIsTruthful | apps/notification-service/src/notifications/notification.store.ts:21-31 | in every run the inbox has one row per event id, every rejection in it announces a proposal that really is rejected, with its ids, and no two announce the same one |
| DeliveryTheorems.PublishedIsNeverLost | apps/marketplace-service/src/events/outbox.worker.ts:71-79 | in every run a row marked as published is in the queue, delivered and unsettled, or in the inbox |
| DeliveryTheorems.DrainedIsOneToOne | apps/notification-service/src/rabbitmq/rabbitmq.consumer.ts:195-240 | once outbox and queue are drained, rejections in the inbox and rejected proposals correspond one to one |
| DeliveryTheorems.InboxIsPermanent | apps/notification-service/src/notifications/notification.store.ts:21-31 | an inbox row is never removed or rewritten, however often its event comes back |
| DeliveryTheorems.DeliveryStaysPossible | apps/marketplace-service/src/events/outbox.worker.ts:54-86 | from every reachable state, whatever crashed on the way, every rejection can still reach the inbox |
| DeliverySteps.RunKeepsInv | apps/marketplace-service/src/events/outbox.worker.ts:54-86 | every run of workers, broker and consumers keeps the delivery invariant |
| DeliverySteps.RowMessageUnderstood | apps/marketplace-service/src/events/outbox.worker.ts:63-70 | the envelope a worker builds from a stored row always reads back as that row's rejection |
| DeliverySteps.MarkedRowReached | apps/marketplace-service/src/events/outbox.worker.ts:72-79 | the row a worker marks as published is the one whose message the broker has |
| DeliverySteps.AckReached | apps/notification-service/src/rabbitmq/rabbitmq.consumer.ts:222-231 | acking a recorded delivery loses no event |
| DeliverySteps.DiscardReached | apps/notification-service/src/rabbitmq/rabbitmq.consumer.ts:210-220 | discarding a message that breaks the contract loses no event |
| DeliverySteps.RequeueReached | apps/notification-service/src/rabbitmq/rabbitmq.consumer.ts:232-239 | a requeued or redelivered message loses no event |
| Publisher.EveryEventIsRouted | apps/marketplace-service/src/events/event-contract.ts:3-14 | under AMQP topic matching, one of the two bindings routes every event type, so no confirmed message is dropped by the exchange |
| Publisher.RoutedExactly | apps/marketplace-service/src/events/event-contract.ts:3-14 | of the keys of two words the notification queue gets exactly those that begin with `proposal` or `transaction` |
| Publisher.WaitEndsWhenReady | apps/marketplace-service/src/events/event-publisher.service.ts:83-95 | a wait succeeds exactly when the publisher is ready at some moment of it, before, between or after the signals, and ends at the first such moment |
| Publisher.RebuildMakesUp | apps/marketplace-service/src/events/event-publisher.service.ts:117-157 | on a live connection a first attempt that fails is made up for by a channel rebuilt during the second wait and a confirmation: the second attempt uses that channel |
| Publisher.EventPublisher.IsReady | apps/marketplace-service/src/events/event-publisher.service.ts:79-81 | in every state the handlers can reach, `ready` alone decides: the check of `blocked` is redundant |
| Publisher.EventPublisher.OnSignal | apps/marketplace-service/src/events/event-publisher.service.ts:188-282 | every handler keeps "ready means there is a channel and nothing blocks it"; events of a channel that has been replaced change nothing |
| Publisher.EventPublisher.InvalidateChannel | apps/marketplace-service/src/events/event-publisher.service.ts:284-296 | drops the channel only if it is still the one that failed, and schedules a rebuild exactly unless stopping, blocked or unconnected |
| Publisher.EventPublisher.ScheduleChannelRebuild | apps/marketplace-service/src/events/event-publisher.service.ts:298-320 | one rebuild at a time, and none while stopping, blocked or without a connection |
| Publisher.EventPublisher.InstallChannel | apps/marketplace-service/src/events/event-publisher.service.ts:237-282 | a new channel makes the publisher ready unless it is blocked |
| Publisher.EventPublisher.Destroy | apps/marketplace-service/src/events/event-publisher.service.ts:56-72 | afterwards it is stopping, unready, and without channel or connection |
| Publisher.EventPublisher.WaitUntilReady | apps/marketplace-service/src/events/event-publisher.service.ts:83-95 | reacts to one signal after the other until ready: at once if it already was, and on the first signal that makes it so; it returns normally exactly when ready |
| Publisher.EventPublisher.Try | apps/marketplace-service/src/events/event-publisher.service.ts:120-156 | succeeds exactly when ready in time and confirmed; enqueues the message once or not at all, and exactly once when confirmed; nothing without a channel |
| Publisher.EventPublisher.PublishEnvelope | apps/marketplace-service/src/events/event-publisher.service.ts:115-163 | two attempts, the second exactly when the first fails; success exactly when one of them is ready in time and confirmed, in particular when a first failure on a live connection is followed by a rebuilt channel and a confirmation; the queue gains this very message once for each attempt that reached the broker, and a failure leaves a rebuild under way unless nothing could come of it |
| OutboxWorker.DrainedAfter | apps/marketplace-service/src/events/outbox.worker.ts:54-86 | with a broker that confirms, n pending rows are drained after exactly ceil(n / 25) sweeps |
| OutboxWorker.SweepRowByRow | apps/marketplace-service/src/events/outbox.worker.ts:61-85 | a sweep publishes exactly the first k pending rows, counts one attempt on each and on the one that failed, and changes nothing else |
| OutboxWorker.SweepLeaves | apps/marketplace-service/src/events/outbox.worker.ts:55-85 | after a sweep that got k rows through, exactly the pending rows from k on are pending, in the same order |
| OutboxWorker.MarkHead | apps/marketplace-service/src/events/outbox.worker.ts:73-79 | marking the oldest pending row takes it, and only it, out of the pending rows, or counts one more attempt on it |
| OutboxWorker.PendingInTableOrder | apps/marketplace-service/src/events/outbox.worker.ts:55-59 | each pending row is listed once, in the order of the table, and no other row is |
| OutboxWorker.Worker.ReadBatch | apps/marketplace-service/src/events/outbox.worker.ts:55-59 | the first 25 pending rows, oldest first |
| OutboxWorker.Worker.Send | apps/marketplace-service/src/events/outbox.worker.ts:63-72 | succeeds exactly when one of the two attempts does; up to two copies of the row's own envelope, at least one on success |
| OutboxWorker.Worker.TakeTurn | apps/marketplace-service/src/events/outbox.worker.ts:62-84 | stops before the row when told to, keeps the row as it was when the update throws, marks it exactly when it was published, and goes on exactly when it was both published and marked |
| OutboxWorker.Worker.DeliverPending | apps/marketplace-service/src/events/outbox.worker.ts:54-86 | with k the rows that got through, the table is that of a sweep of k rows and the broker got their envelopes in order, each once or twice; k is exactly the number of rows before the first whose turn is stopped, undelivered or not marked |
| OutboxWorker.Worker.Flush | apps/marketplace-service/src/events/outbox.worker.ts:43-52 | nothing once stopping, and nothing beside the sweep under way, which the caller shares; otherwise one sweep that gets exactly as far as its turns allow; a publisher that is ready, or becomes ready during the first wait, gets a whole batch through if every turn is smooth |
| OutboxWorker.Worker.RunTimer | apps/marketplace-service/src/events/outbox.worker.ts:27-35 | m smooth flushes in a row drain n pending rows exactly when m reaches ceil(n / 25) |
| Consumer.NotificationStore.Record | apps/notification-service/src/notifications/notification.store.ts:21-31 | the first event under an id stays, later ones change nothing, and the answer tells which it was |
| Consumer.RabbitMqConsumer.Consume | apps/notification-service/src/rabbitmq/rabbitmq.consumer.ts:195-240 | acks only what is in the inbox, discards only what breaks the contract, requeues on a database failure, settles nothing on a closed channel, and never touches readiness because of the database |
| Consumer.RabbitMqConsumer.ScheduleChannelRebuild | apps/notification-service/src/rabbitmq/rabbitmq.consumer.ts:242-263 | one rebuild at a time, and none while stopping or without a connection |
| EventContract.ProducersAgreeWithParser | apps/notification-service/src/notifications/event-contract.ts:158-268 | what Marketplace builds, for each of the four event types, is accepted with every field unchanged exactly when its ids are not blank, its event id fits and its date parses; otherwise it is refused |
| EventContract.ParsingIsStable | apps/notification-service/src/notifications/event-contract.ts:158-268 | whatever the parser lets through is well formed, and parsing it again gives it back |
| EventContract.DataAgrees | apps/notification-service/src/notifications/event-contract.ts:176-265 | data that carry a producer's record parse to that record under its own type exactly when its ids are not blank, and are refused otherwise |
| EventContract.ParserReadsExactly | apps/notification-service/src/notifications/event-contract.ts:108-268 | the parser yields an event if and only if the event is well formed and the JSON value conveys it: right type, version, source, date and every data field; anything else is refused, extra fields are ignored |
| EventContract.ParserReadsFields | apps/notification-service/src/notifications/event-contract.ts:108-268 | the contract with every name and constant written out: an event is parsed if and only if the JSON value has exactly these fields with these values for its type, a nullable one being null or not blank but never absent |
| EventContract.CreatedAgrees | apps/marketplace-service/src/proposals/proposals.service.ts:70-79 | data that carry the record built at creation parse to it exactly when its ids are not blank, the offered one being null or not blank |
| EventContract.RejectedAgrees | apps/marketplace-service/src/proposals/proposals.service.ts:135-147 | data that carry the record built at rejection parse to it exactly when its ids are not blank |
| EventContract.SettledAgrees | apps/marketplace-service/src/transactions/transactions.service.ts:100-110 | data that carry the six fields of an acceptance or completion parse to them exactly when the ids are not blank, in whichever order the parser reads them |
| PublicationRules.NormalizeTradeWishes | apps/catalog-service/src/marketplace/marketplace-rules.service.ts:50-70 | the loop returns the trimmed first occurrence, in order, of each distinct meaning among the non-blank wishes |
| PublicationRules.NormalisationIsAFixpoint | apps/catalog-service/src/marketplace/marketplace-rules.service.ts:50-70 | the fixpoints of normalisation are exactly the clean lists, normalising always reaches one, and it keeps exactly one wish for each meaning |
| PublicationRules.OccurrencesAreClean | apps/catalog-service/src/marketplace/marketplace-rules.service.ts:54-67 | at every point of the loop the result is clean and says exactly what the wishes so far say |
| PublicationRules.OccurrencesInOrder | apps/catalog-service/src/marketplace/marketplace-rules.service.ts:54-67 | the wishes kept are trims of wishes in their order, each the first to say what it says, and every wish dropped is blank or says what an earlier one says |
| PublicationRules.WishesPassIff | apps/catalog-service/src/marketplace/marketplace-rules.service.ts:20-48 | wishes pass exactly when they say nothing (donation) or five to ten different things (trade), ten included |
| PublicationRules.PublicationPassesIff | apps/catalog-service/src/marketplace/marketplace-rules.service.ts:11-18 | a listing can be published exactly with five to eight images, eight included, and wishes that say nothing (donation) or five to ten different things (trade) |
| PublicationRules.SentWishesPassIff | apps/web/lib/publication.ts:44-58 | the wishes the web sends pass Catalog's rule exactly when a trade says five to ten different things as typed |
| PublicationRules.StoredWishesRevalidate | apps/catalog-service/src/marketplace/marketplace-rules.service.ts:20-48 | what validation hands over for storage validates to itself, so an approval never refuses wishes as they were stored for the type |
| PublicationRules.WebAgreesWithCatalog | apps/web/lib/publication.ts:60-106 | with photos selected the draft check passes exactly when five to eight of them, all of an allowed type and size, are selected and Catalog's rules accept the wishes that will be sent, however many images the listing has; with none selected exactly when the listing has five to eight and the wishes pass |
| PublicationForm.WizardSubmitsExactly | apps/web/lib/publication-wizard.ts:6-31 | whatever was done in the wizard, at its last step the final draft check passes, and the server's schema and rules accept what is sent exactly when the trimmed title and description measure at least 3 and 10 in the schema's own measure: no wish and no upper bound can be at fault |
| PublicationForm.ChecksAreKept | apps/web/components/personal-space.tsx:498-502 | going back and forth in the wizard undoes no check: what was validated on the way to a step still holds there |
| PublicationForm.SameMeasureNeverRefuses | apps/web/lib/publication-wizard.ts:8-21 | if the schema counted code units as the wizard does, every submission would be accepted |
| PublicationForm.WizardTitleRefused | apps/web/lib/publication-wizard.ts:9-10 | a concrete run of the wizard that submits a title of two characters and four code units, which a schema counting characters refuses |
| PublicationForm.CorrectionAcceptedExactly | apps/web/components/personal-space.tsx:210-246 | whatever was done in the correction form, a draft that passes its check is accepted by schema and rules exactly when the trimmed title and description measure at least 3 and 10; wishes and upper bounds cannot be at fault |
| PublicationForm.SpacedTitleRefused | apps/web/components/personal-space.tsx:615-624 | for every listing the form could send back unchanged, a title of one letter and two spaces passes the browser's constraints and the draft check, and is refused |
| PublicationForm.FillKeepsSlots | apps/web/components/personal-space.tsx:503-545 | five to ten wish slots for a trade and none for a donation, whatever is typed, added, removed or chosen |
| PublicationForm.OnlyTooShort | apps/catalog-service/src/listings/dto/create-listing.dto.ts:15-61 | of a draft with no overlong field and at most ten slots, trimming and dropping blanks included, the schema refuses only what says too little |
| PublicationForm.SchemaEdges | apps/catalog-service/src/listings/dto/create-listing.dto.ts:15-61 | for texts of n plain characters the schema accepts exactly titles of 3 to 120, descriptions of 10 to 2000, and at most ten wishes of up to 120 |
| PublicationForm.WizardEdges | apps/web/lib/publication-wizard.ts:6-31 | the wizard takes texts of the same lengths, and at its photo step exactly five to eight non-empty photos of an allowed type and size together with wishes that Catalog accepts |
| PublicationRules.ImagesPassIff | apps/web/lib/publication.ts:77-85 | the image loop finds nothing exactly when every image has an allowed type and size |
| AdminSummary.AdminCatalogSummary | apps/catalog-service/src/listings/listings.service.ts:95-128 | for every collection of listings, grouped in any order, each of the nine counters is the direct count |
| AdminSummary.GroupedIsDirect | apps/catalog-service/src/listings/listings.service.ts:96-107 | adding up the sizes of the groups that match a counter is counting the listings that match it |
| AdminSummary.OneMoreListing | apps/catalog-service/src/listings/listings.service.ts:108-128 | one more listing adds one to the total, to the counters of its status and type, and, if approved, of its availability, and changes no other; without listings every counter is zero |
| AdminSummary.SummaryIsAccepted | apps/web/lib/admin-dashboard.ts:31-70 | the web accepts what Catalog counts, unchanged, for every collection up to the largest safe integer, and refuses larger ones |
| AdminSummary.ParsesIff | apps/web/lib/admin-dashboard.ts:31-70 | a summary is accepted exactly when every counter is a safe non-negative integer and the three sums agree |
| AdminSummary.ResponseTakenIff | apps/web/lib/admin-dashboard.ts:31-70 | any response is taken for a summary exactly when it holds the nine counters under their names, each a safe non-negative integer, and the three sums agree |
| AdminSummary.DirectCountsAddUp | apps/web/lib/admin-dashboard.ts:60-67 | the three sum equations hold of direct counting |
| AdminSummary.OneWrongCounterIsRefused | apps/web/lib/admin-dashboard.ts:60-67 | no accepted summary differs from another in a single counter |
| ModerationTheorems.NoBrokenImageReference | apps/catalog-service/src/listings/listing-images.service.ts:68-162 | in every run, with failing uploads, transactions and clean-ups and crashes anywhere, every image row names an object in storage, and no key is used twice |
| ModerationTheorems.OnlyUnreferencedObjectsRemain | apps/catalog-service/src/listings/listing-images.service.ts:395-410 | what a gallery shows or a request still uploads is never up for deletion; unless a replacement dies with uploads on its hands, every stored object is referenced, being uploaded, or due for deletion |
| ModerationTheorems.ApprovedMeansComplete | apps/catalog-service/src/listings/listings.service.ts:266-303 | in every run, torn reads included, an approved listing has 5 to 8 images and, for a trade, 5 to 10 clean wishes, for a donation none; a reason stands exactly on rejected listings |
| ModerationTheorems.ApprovedContentIsFrozen | apps/catalog-service/src/listings/listings.service.ts:198-202 | as long as a listing stays approved, its title, description, type, wishes and images stay the same |
| ModerationTheorems.OnlyAStaleEditUnpublishes | apps/catalog-service/src/listings/listings.service.ts:224-245 | a step takes a listing out of Approved exactly when it writes an edit that was checked against an older revision; no other step changes its content |
| ModerationTheorems.ReservedStaysApprovedExactly | apps/catalog-service/src/listings/listings.service.ts:224-231 | a step loses "reserved implies approved" for a listing exactly when it writes an edit while the listing is reserved; no listing is reserved before it is approved |
| ModerationTheorems.RevisionNamesOneRow | apps/catalog-service/prisma/schema.prisma:28-46 | along every run a revision that is still current still names the same row |
| ModerationTheorems.DecisionBindsToReviewedRevision | apps/catalog-service/src/listings/listings.service.ts:266-338 | an approval or rejection that goes through falls on the revision the moderator named, whose title, description, type, wishes and images are those every reader of that revision saw, and leaves them alone |
| ModerationTheorems.ReplacementClaimSuffices | apps/catalog-service/src/listings/listing-images.service.ts:104-148 | when a replacement commits, its claim on owner and revision alone implies the listing was still not approved, still available and still showed the images read before uploading |
| ModerationTheorems.DeletionClaimIsNoStronger | apps/catalog-service/src/listings/listing-images.service.ts:184-209 | the status and availability checks in the claim of a deletion are redundant: owner and revision decide in the same cases |
| ModerationTheorems.CommitProtocolSeesItsOwnWrites | apps/catalog-service/src/internal/internal-listings.service.ts:43-107 | moderation, edits and galleries change at most the type and status of a listing as the commit protocol sees it, never its owner or availability; the protocol's own writes look the same in both machines |
| ModerationOutcomes.EditGoesThroughIff | apps/catalog-service/src/listings/listings.service.ts:174-248 | an edit changes the row exactly when it edits something, the listing was the actor's and not approved as read, and the wishes it touches say nothing (donation) or five to ten things (trade); the row then has the given texts, type and wishes, is pending without a reason, and keeps everything else |
| ModerationOutcomes.RejectedListingReturnsIff | apps/catalog-service/src/listings/listings.service.ts:198-231 | in every run the correction of a rejected listing by its owner takes it back to pending, its reason gone, exactly when the correction edits something and the wishes it touches fit; otherwise it stays as it was |
| ModerationOutcomes.DecisionGoesThroughIff | apps/catalog-service/src/listings/listings.service.ts:266-338 | a decision goes through exactly when the listing is pending at the revision read and named, and, for an approval, has five to eight images and wishes that fit; nothing but status, reason and revision changes |
| ModerationOutcomes.ReplacementCommitsIff | apps/catalog-service/src/listings/listing-images.service.ts:103-162 | a replacement commits exactly when everything is uploaded, the transaction does not fail and the row is still the one read, the actor's, not approved and available; then it shows the uploads, and exactly what it showed before is to be deleted |
| ModerationOutcomes.DeletionCommitsIff | apps/catalog-service/src/listings/listing-images.service.ts:169-226 | a deletion empties a gallery that is not empty under the same conditions |
| ModerationOutcomes.ChosenPhotosMakeABatch | apps/catalog-service/src/listings/listing-images.service.ts:49-67 | good photos with wishes that pass get through the draft check exactly when their number is one the gallery service takes in one batch, five to eight, whatever the listing shows already |
| ModerationSteps.RunKeepsInv | apps/catalog-service/src/listings/listing-images.service.ts:49-226 | every run of moderation and galleries keeps its invariant |
| ModerationSteps.WriteAgesViews | apps/catalog-service/src/listings/listings.service.ts:340-353 | after any write, whatever was read before belongs to an older revision, so a torn read can no longer pass for current |
| ModerationSteps.ApprovedRowFacts | apps/catalog-service/src/listings/listings.service.ts:278-294 | the conditional update makes up for the torn read: what was validated is what gets approved |
| ModerationSteps.FailedUploadKeepsInv | apps/catalog-service/src/listings/listing-images.service.ts:75-99 | an upload that fails, having stored its object or not, is rolled back without touching anything a row shows |
| ModerationSteps.ReplacedKeepsInv | apps/catalog-service/src/listings/listing-images.service.ts:103-162 | commit and clean-up, or conflict and rollback, keep every reference whole |
| ModerationSteps.DeletedKeepsInv | apps/catalog-service/src/listings/listing-images.service.ts:169-226 | emptying a gallery dooms exactly the objects it showed |
| ModerationSteps.SweptKeepsInv | apps/catalog-service/src/listings/listing-images.service.ts:395-410 | a deletion that reaches the storage at any later time breaks nothing |
| ModerationRaces.EditKeepsFitExactly | apps/catalog-service/src/listings/listings.service.ts:204-243 | an edit leaves wishes fitting the type exactly unless it sends wishes without a type and the type changed after it read the listing |
| ModerationRaces.DonationWithTradeWishes | apps/catalog-service/src/listings/listings.service.ts:174-248 | a concrete run that ends with a donation carrying trade wishes |
| ModerationRaces.ReservedButPending | apps/catalog-service/src/listings/listings.service.ts:224-231 | a concrete run that ends with a listing reserved and pending |
| ListingService.ListingsService.ValidWishes | apps/catalog-service/src/marketplace/marketplace-rules.service.ts:20-48 | the imperative check computes the validation rule |
| Listings.EditPassesIff | apps/catalog-service/src/listings/listings.service.ts:174-222 | the checks of an edit pass exactly when it edits something, is the owner's, finds the listing pending or rejected, and touches only wishes and types that fit |
| ListingService.ListingsService.Create | apps/catalog-service/src/listings/listings.service.ts:65-92 | succeeds exactly when the wishes say nothing (donation) or five to ten different things (trade); the new listing is pending, available, without images, and its wishes fit its type |
| ListingService.ListingsService.UpdateOwned | apps/catalog-service/src/listings/listings.service.ts:174-248 | succeeds exactly when the edit has a field, the listing exists, is the owner's and is not approved, and the wishes it touches say nothing (donation) or five to ten different things (trade); then the row, whatever it has become, is pending without a reason at the next revision with exactly the given fields replaced and its images untouched |
| ListingService.ListingsService.Approve | apps/catalog-service/src/listings/listings.service.ts:266-303 | succeeds exactly when the listing was pending at the named revision, still is at it, and has five to eight images and wishes that validate; nothing but its status and reason changes |
| ListingService.ListingsService.Reject | apps/catalog-service/src/listings/listings.service.ts:305-338 | succeeds exactly when the listing was pending at the named revision and still is at it; it keeps its content and gets the reason |
| ListingImages.ListingImagesService.UploadAll | apps/catalog-service/src/listings/listing-images.service.ts:68-99 | on success exactly the new keys are added; after a failure nothing new remains except what could not be deleted |
| ListingImages.ListingImagesService.ReplaceOwnedImages | apps/catalog-service/src/listings/listing-images.service.ts:49-167 | succeeds exactly with five to eight valid files, all stored, on the owner's listing that is neither approved nor unavailable and still at the revision read; the row then shows exactly the uploads and the old objects go; on failure no row changes and nothing new remains except what could not be deleted; references stay whole either way |
| ListingImages.ListingImagesService.DeleteOwnedImages | apps/catalog-service/src/listings/listing-images.service.ts:169-226 | success and its exact condition; the gallery and its objects go together, after the commit; a failure deletes nothing |
| ListingImages.ListingImagesService.RequireEditableListing | apps/catalog-service/src/listings/listing-images.service.ts:336-379 | yields the row exactly for the owner's listing that is neither approved nor reserved nor completed |
| ListingImages.ListingImagesService.BestEffortDelete | apps/catalog-service/src/listings/listing-images.service.ts:395-410 | removes the given keys, except those the storage will not delete, and never fails |
| ListingImages.ListingImagesService.ReplacementIsSound | apps/catalog-service/src/listings/listing-images.service.ts:104-162 | swapping one gallery for unused stored keys and deleting what it showed breaks no other gallery |
| Text.TrimSplits | apps/catalog-service/src/marketplace/marketplace-rules.service.ts:55 | trimming cuts white space off both ends and leaves none there |
| Text.TrimIdempotent | apps/catalog-service/src/marketplace/marketplace-rules.service.ts:55 | trimming twice is trimming once |

## Left out

- The copies of the listing and marketplace code under `apps/api`, the gateway, authentication, roles, metrics, health checks and user interface.
- Identifiers are interned as numbers and compared only; titles, descriptions and reasons too, except where their length matters (`PublicationForm`) and in the request body of `create`.
- The browser's refusal to submit a form whose fields break `required` or `minLength`: the results on the forms hold for every submission, blocked ones included, and the input that is refused is one the browser would let pass.
- Timestamps of proposals and transactions are reduced to whether they are set; `Date.parse` and `toLowerCase` are parameters about which nothing is assumed.
- The JSON text of a message: a message is its JSON value, or bytes that are not JSON. A response that is not JSON counts as in doubt, whatever error the caller raises for it.
- Outbox rows created in one transaction may share a creation time; the model lists rows in creation order and takes equal times in that order.
- The promise `flush` hands out for a sweep under way: here such a call returns at once, having changed nothing.
- Delivery of `proposal.created`, `proposal.accepted` and `transaction.completed` beyond their shape and routing: they are sent once, without an outbox, and may be lost.
- The consumer's connection handlers: they repeat the publisher's, without blocking.
- MIME type, size and position of an image row, and the recognition of image signatures: a gallery is a sequence of object keys, a file is valid or not.
- A database transaction that commits although it reports an error: a replacement would then roll back images that are in use. The assumption above excludes it.
- Cancelled proposals and transactions: no code creates them.
- Marketplace.ProposalsService.Accept: rivals act before the reserves and before the commit; what they do between two reserves or two releases is left to the state machine, which has every interleaving.
- Marketplace.TransactionsService.Confirm: between its two completions other requests do not act; the state machine has that too.
- ListingImages.ListingImagesService.ReplaceOwnedImages: other requests change the listings meanwhile but not the storage; the state machine has both.
