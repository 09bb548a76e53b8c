# Message delivery pipeline: a verified model

The repository accepts message requests over HTTP, stores them, hands them to per-channel workers over Kafka and
retries what fails. This project models that delivery pipeline, together with the rate limiter, the payload masking
and the template lookup of its gateway, and proves what the pipeline guarantees under every interleaving of its
parts.

`dafny verify dfyconfig.toml` checks everything.

## How the pipeline is modelled

Four kinds of actors share six tables and one append-only topic: gateway calls (`send`, `handleExistingRequest`),
outbox relay runs, retry scheduler runs, and one worker per channel. Any number of them run at once. `Pipeline.Apply`
is one step of the whole system: one awaited repository or Kafka call of one actor and the code up to its next one, a
tick of the clock, or the crash of an actor. What the surroundings decide (which call throws, how often the broker
duplicates a message, generated ids, the order of unordered query results) comes in through an `Answer`, and the
theorems hold for every one.

* Reads, saves and the transaction take effect or throw without effect; a `save` writes the whole row held in
  memory, so the last writer wins. A publish that returns has appended its message once or more; one that throws may
  have appended it too.
* The messages of one partition key are taken by one channel's worker in order and one at a time; after a crash the
  worker restarts from some earlier committed offset.
* Rows and events pass through JSON on their way to a table or the topic (`Json.Clean`): undefined properties vanish.

| file | what it holds |
|---|---|
| `Json`, `Domain`, `Crypto`, `Events` | values, rows, the abstract cipher, the three builders of the `message.send` event |
| `World`, `Gateway`, `Relay`, `Scheduler`, `Worker`, `Pipeline` | the shared tables, one step function per service, their interleaving |
| `Invariants`, `Steps`, `Jobs`, `Actors`, `Safety`, `NoLoss`, `Finality` | the invariant and its preservation, step by step |
| `Theorems`, `Recovery`, `OutOfReach` | the results over reachable states and whole runs; what can still become of a request |
| `Columns`, `Calls`, `Vetting` | what rows and events say, field by field; what a gateway call answers and when; what it found before it committed |
| `Undisturbed`, `Scenario`, `Retries` | what one call leaves when nothing interferes; runs that show what is false |
| `Store`, `GatewayService`, `RelayService`, `SchedulerService`, `WorkerService` | the services as programs that update repositories in place, each proved to be a run of the pipeline |
| `Ladder` | the retry ladder of the failure handler, for any `maxRetryCount` |
| `RateLimit`, `Masking`, `Templates` | the sliding-window guard, payload masking, template lookup and listing |

The programs and the step functions meet in the `...IsARun` lemmas: what a program does when nobody interferes is a run
of the pipeline, so every theorem about runs applies to it, and `Theorems.ServicesMayRun` shows that the programs'
preconditions hold in every reachable state.

## Where the code differs from its documentation

The model follows the code; these are proved, not assumed.

* `README.md:134-136` and `README.md:178` promise retries after 1, 5 and 15 minutes and then the dead-letter topic.
  Every delivery inserts a fresh dispatch with `retryCount: 0`, so no row ever fails twice, every wait is one minute,
  and neither FAILED nor the dead-letter topic is ever reached (`Theorems.LadderStaysOnFirstRung`). A request can fail
  and be retried any number of times that way (`Retries.RetriesNeverEnd`). The handler itself would climb the
  documented ladder on one row (`Ladder.WaitsThenFails`).
* Request status is not monotone: the gateway's late QUEUED save overwrites COMPLETED (`Scenario.CompletedIsOverwritten`
  is such a run, `Theorems.CompletedIsOverwrittenIff` says exactly when). Neither COMPLETED nor QUEUED ever goes back
  to VALIDATED. A delivered request that is not COMPLETED, for that reason or for a crash between the two saves, never
  becomes so (`Theorems.NeverCompletedAgain`, `Scenario.OverwrittenForGood`, `Scenario.CrashBeforeCompleted`).
* A comment in `send` says that the relay will pick up a failed publish. It does while the row is PENDING; once the
  relay has marked a row FAILED no query selects it again (`Theorems.FailedEntryStays`; `Theorems.EntryFailsIff` says
  when that happens, and `Scenario.OneRelayErrorStrandsARow` is such a run).
* A request can be lost. `eachMessage` swallows an error of a read, of the insert, of the REQUEST log or of the retry
  save; the request is forgotten by that step exactly when it has no SUCCESS dispatch, no later message, no unsent
  outbox row and no retry row left (`Theorems.ForgottenExactlyByAbandoning`; `Scenario.OneReadErrorLosesARequest` is
  such a run).
* An exception after the SUCCESS save turns that row into RETRY_WAIT, so a delivered message may be delivered again
  (`Theorems.SuccessIsTakenBackIff`, and the run `Scenario.SuccessIsTakenBack`); at most one dispatch is SUCCESS all the same.
* The event of a retry is not always the event that was sent: absent receiver fields become null, and an upper-case
  `userId`, which `@IsUUID()` accepts, comes back from its uuid column in lower case (`Events.RetryEqualsSentIff`,
  `Events.UpperCaseUserIdDiffers`).
* Channel CHAT passes validation but has no worker (`Theorems.ChatIsNeverDispatched`).
* `mask` drops a payload key named `__proto__`, because assigning it sets a prototype (`Masking.MaskKeepsKeysIff`).
  This is a fact about `mask` alone: the gateway's validation pipe transforms the body
  (`apps/api-gateway/src/main.ts:33-38`) and drops such a key before `send` runs.
* Two spec files expect the payload to be decrypted before it is published again; the code publishes the envelope.

## Model

| member | source | states |
|---|---|---|
| `Theorems.NoRequestVanishes` | libs/kafka/src/worker/base-worker.service.ts:71-203 | after any run each committed request has a SUCCESS dispatch, a message waiting or being processed (for CHAT, lying on the topic), a PENDING or FAILED outbox row or a RETRY_WAIT dispatch, if and only if no step of the run abandoned it without a later one bringing it back |
| `Theorems.ForgottenExactlyByAbandoning` | libs/kafka/src/worker/base-worker.service.ts:71-83 | a step leaves nothing of a request that had something left if and only if it is a delivery of that request whose read, insert, REQUEST log or retry save throws while there is no SUCCESS dispatch, later message, unsent outbox row or retry row of it |
| `Recovery.StillDeliverable` | apps/main/src/modules/retry-scheduler/retry-scheduler.service.ts:36-97 | from every reachable state a request for a channel with a worker that has a SUCCESS dispatch, a waiting message, a PENDING outbox row or a RETRY_WAIT dispatch has a continuation without any client or gateway after which it has exactly one SUCCESS dispatch |
| `Recovery.PendingIsPublished` | apps/main/src/modules/outbox-relay/outbox-relay.service.ts:22-58 | a PENDING row gets its event onto the topic however many older rows are in its way |
| `Recovery.WaitingIsDeliverable` | libs/kafka/src/worker/base-worker.service.ts:71-154 | a message waiting behind others, or in a delivery under way, can be delivered |
| `OutOfReach.NeverDeliveredByItself` | apps/main/src/modules/outbox-relay/outbox-relay.service.ts:22-27 | a request with no waiting message, no PENDING, SUCCESS or RETRY_WAIT row and in nobody's hands is not delivered by any run in which no client sends its request id again and its consumer does not restart |
| `Scenario.OneReadErrorLosesARequest` | libs/kafka/src/worker/base-worker.service.ts:80-98 | a concrete run after which a QUEUED request has no dispatch, a PUBLISHED outbox row and a consumed message: nothing of it is left, and it is out of reach in the sense above |
| `Theorems.AtRestEachIsDeliveredOnce` | libs/kafka/src/worker/base-worker.service.ts:103-154 | once the workers are through with all messages, every outbox row is PUBLISHED and no retry waits, a request for a channel with a worker has exactly one SUCCESS dispatch if and only if no step of the run abandoned it without a later one bringing it back |
| `Scenario.DeliveredAndAtRest` | libs/kafka/src/worker/base-worker.service.ts:93-154 | a concrete run that comes to rest in this sense with a delivered request |
| `Theorems.AtMostOneSuccess` | libs/kafka/src/worker/base-worker.service.ts:103-154 | however many duplicates the four publishers produced, two SUCCESS dispatches of one request are the same row, for its one recipient and channel |
| `Theorems.OneLanePerRequest` | libs/kafka/src/kafka.service.ts:42-46 | two deliveries of one request under way are the same delivery: all publishers agree on key and channel |
| `Theorems.EveryMessageIsTheEvent` | libs/kafka/src/kafka.service.ts:42-62 | every message on the topic is its request's own event, as `Columns.OutboxColumns` spells it out, under its own key, up to absent versus null receiver properties and the case of the user id |
| `Columns.MessageColumns` | apps/api-gateway/src/modules/message-request/message-request.service.ts:111-123 | every message on the topic, whoever published it, says request id, recipient, client, template code, channel name, priority (NORMAL if none was given), callback URL and request time as in the body and the commit, opens to exactly the variables sent, and has each receiver field under its own name |
| `Columns.OutboxColumns` | apps/api-gateway/src/modules/message-request/message-request.service.ts:125-134 | the outbox row has that event with every receiver field exactly as sent, and no publish time or error while PENDING, a publish time and no error once PUBLISHED, an error and no publish time once FAILED |
| `Columns.RequestColumns` | apps/api-gateway/src/modules/message-request/message-request.service.ts:63-85 | a request row, whatever its status, names the client, template and template code, priority, callback URL and times of its commit, its metadata is the client's own with channel and receiver put in, and `queuedAt` and `completedAt` come with the status |
| `Columns.PayloadColumns` | apps/api-gateway/src/modules/message-request/message-request.service.ts:88-97 | the payload row is an envelope that opens to exactly the variables sent, with nothing beside it |
| `Columns.MaskedColumn` | apps/api-gateway/src/modules/message-request/message-request.service.ts:88-95 | its masked copy has every place of the variables but those under a key `__proto__`, and each text in it, at whatever depth, shows only what its own key allows |
| `Columns.RecipientColumns` | apps/api-gateway/src/modules/message-request/message-request.service.ts:99-109 | the recipient row has each field of the body in its own column, null where it was absent or null, the user id in lower case |
| `Vetting.CommittedWasVetted` | apps/api-gateway/src/modules/template/template.service.ts:23-35 | in every run, the client named in a committed request did send its body, and one call, before the commit, found a template active under that code, found it PUBLIC or found this very client's access row, and found the variables to fit |
| `Vetting.RepliesToItsBody` | apps/api-gateway/src/modules/message-request/message-request.service.ts:47-54 | in every run a reply names the request id of the body that this call was started with |
| `Theorems.OneSetOfRows` | apps/api-gateway/src/modules/message-request/message-request.service.ts:48-138 | under concurrent sends with one request id there is one request with exactly one payload, one recipient and one outbox row carrying its event |
| `Theorems.PublishedMeansSent` | apps/main/src/modules/outbox-relay/outbox-relay.service.ts:38-57 | a PUBLISHED outbox row has its own event on the topic under its own key, whoever marked it |
| `Theorems.ServicesMayRun` | apps/api-gateway/src/modules/message-request/message-request.service.ts:178-192 | in every reachable state each `findOne` of the services has at most one row to find and rows sit under their primary keys |
| `Theorems.CompletedIsFinal` | libs/kafka/src/worker/base-worker.service.ts:142-154 | a COMPLETED request has one SUCCESS dispatch that every further run of any actors leaves unchanged |
| `Theorems.SettledForever` | apps/main/src/modules/retry-scheduler/retry-scheduler.service.ts:36-42 | a SUCCESS dispatch whose `process` call is over is the very same row after every further run |
| `Finality.SettledStays` | libs/kafka/src/worker/base-worker.service.ts:103-116 | no single step of any actor changes such a dispatch |
| `Finality.CompletedStep` | libs/kafka/src/worker/base-worker.service.ts:152-154 | every step keeps that COMPLETED requests have a settled SUCCESS dispatch |
| `Theorems.SuccessIsTakenBackIff` | libs/kafka/src/worker/base-worker.service.ts:149-166 | a SUCCESS dispatch stops being one if and only if its own delivery, after a later exception, successfully saves it as RETRY_WAIT |
| `Scenario.SuccessIsTakenBack` | libs/kafka/src/worker/base-worker.service.ts:149-166 | a concrete run to a SUCCESS dispatch and the step that makes it RETRY_WAIT |
| `Theorems.NeverValidatedAgain` | apps/api-gateway/src/modules/message-request/message-request.service.ts:146-148 | a request past VALIDATED has its event on the topic and no run of stale saves takes it back |
| `Theorems.LaterSendIsSilent` | apps/api-gateway/src/modules/message-request/message-request.service.ts:172-176 | a send whose first read comes after that point answers with the stored status and the request's channel, publishes nothing and writes nothing |
| `Theorems.CompletedIsOverwrittenIff` | apps/api-gateway/src/modules/message-request/message-request.service.ts:146-148 | a COMPLETED request leaves that status if and only if the step is a successful late QUEUED save of that request |
| `Theorems.NeverCompletedAgain` | libs/kafka/src/worker/base-worker.service.ts:103-116 | a request with a settled SUCCESS dispatch that does not say COMPLETED never says it after any further run |
| `Scenario.CompletedIsOverwritten` | apps/api-gateway/src/modules/message-request/message-request.service.ts:140-148 | a concrete run to COMPLETED and the step that makes it QUEUED again |
| `Scenario.OverwrittenForGood` | apps/api-gateway/src/modules/message-request/message-request.service.ts:146-148 | after that run the request is delivered and QUEUED, and no continuation makes it COMPLETED |
| `Scenario.CrashBeforeCompleted` | libs/kafka/src/worker/base-worker.service.ts:149-154 | the same after a worker crash between the SUCCESS save and the COMPLETED save |
| `Theorems.RepliesAreTrue` | apps/api-gateway/src/modules/message-request/message-request.service.ts:157-196 | a reply names a stored request, its one channel and a status past VALIDATED, and the event is on the topic; the payload-missing and data-missing errors never go out |
| `Calls.ReplyTellsTheRow` | apps/api-gateway/src/modules/message-request/message-request.service.ts:154-170 | when a reply is given, the row of its request id says exactly the status it names, the channel is the request's own and the event is on the topic |
| `Calls.RejectedExactly` | apps/api-gateway/src/modules/message-request/message-request.service.ts:140-223 | a step ends its call with MSG_KAFKA_PUBLISH_FAILED if and only if a publish, or one of the two saves after the first publish, throws; with each other error code if and only if its read did not find what it needs; with an error of the database if and only if any other call throws or the transaction violates a constraint; and it then writes no row |
| `Calls.RefusedIff` | apps/api-gateway/src/modules/template/template.service.ts:82-92 | an undisturbed call with a new request id is refused with MSG_TEMPLATE_NOT_FOUND if and only if no template of the code is active and PUBLIC or allowed to the client, with the variables error if and only if one is and the variables do not fit, and then changes nothing |
| `Calls.Resend` | apps/api-gateway/src/modules/message-request/message-request.service.ts:172-223 | from every reachable state, sending a VALIDATED request again, with every call taking effect, publishes the very event of its outbox row, makes the row QUEUED as of now, answers that with the request's channel and changes nothing else |
| `Calls.ResendThrows` | apps/api-gateway/src/modules/message-request/message-request.service.ts:212-216 | if its publish throws, the answer is MSG_KAFKA_PUBLISH_FAILED and no row changes |
| `Theorems.ProcessGetsWhatWasSent` | libs/kafka/src/worker/base-worker.service.ts:74-79 | whoever published the event, `process` gets exactly the variables the client sent, opened once, also when they have an `_enc` key |
| `Theorems.LadderStaysOnFirstRung` | libs/kafka/src/worker/base-worker.service.ts:118-178 | in every reachable state rows have failed at most once and wait exactly 60 seconds, nothing is FAILED, nothing is on the give-up path or the dead-letter topic |
| `Retries.RetriesNeverEnd` | libs/kafka/src/worker/base-worker.service.ts:118-170 | for every n there is a run in which one request fails n times: it has n dispatches, each with one failure, rescheduled exactly a minute after it, none FAILED, and the dead-letter topic is empty |
| `Retries.OneMoreFailure` | apps/main/src/modules/retry-scheduler/retry-scheduler.service.ts:35-97 | from any reachable state after n such failures, one more delivery, minute and scheduler run lead to n + 1 |
| `Theorems.NoEarlyRetry` | apps/main/src/modules/retry-scheduler/retry-scheduler.service.ts:36-42 | a scheduler about to publish a retry does so a minute or more after the failure it answers |
| `Theorems.RowsAndLogsFit` | libs/kafka/src/worker/base-worker.service.ts:118-181 | every row is consistent with its status: the provider id names its channel and comes with equal `sentAt` and `successAt`, the error code is its channel's, at most 3 retries are allowed, a wait has a due time and an error message; its log is a beginning of REQUEST, SUCCESS, RETRY, in which a RETRY entry means a recorded failure, a failure or a success means a REQUEST entry, and a SUCCESS entry means a row that is or was successful |
| `Columns.SuccessWasSaved` | libs/kafka/src/worker/base-worker.service.ts:143-149 | in every run a SUCCESS dispatch is as one step of its own channel's worker saved it: `sentAt` and `successAt` are the time of that step, its provider id is the one drawn in it |
| `Theorems.ChatIsNeverDispatched` | libs/kafka/src/worker/base-worker.service.ts:75 | a CHAT request gets no dispatch and never says COMPLETED |
| `Theorems.FailedEntryStays` | apps/main/src/modules/outbox-relay/outbox-relay.service.ts:22-27 | a FAILED outbox row that no actor holds stays as it is over every run |
| `Theorems.EntryFailsIff` | apps/main/src/modules/outbox-relay/outbox-relay.service.ts:51-57 | an outbox row becomes FAILED if and only if a relay run that holds it as FAILED saves it |
| `Theorems.FailedMeansThrown` | apps/main/src/modules/outbox-relay/outbox-relay.service.ts:38-57 | in every run, a row says FAILED, or is about to, only if an earlier relay publish of that very row threw |
| `Scenario.OneRelayErrorStrandsARow` | apps/main/src/modules/outbox-relay/outbox-relay.service.ts:38-58 | a concrete run after which the row is FAILED in nobody's hands, the request VALIDATED, the topic empty, and the request out of reach in the sense above |
| `Theorems.RunKeepsInv` | libs/kafka/src/worker/base-worker.service.ts:71-203 | every run of all actors keeps the invariant and only moves the world forward: the topic grows, requests keep their origin, statuses stay past VALIDATED |
| `Safety.ConsistentStep` | apps/main/src/modules/outbox-relay/outbox-relay.service.ts:38-58 | every step of every actor keeps the tables, the topic and every other actor's stale rows mutually consistent |
| `NoLoss.AccountedStep` | apps/main/src/modules/retry-scheduler/retry-scheduler.service.ts:53-103 | every step of every actor, also between a publish and the save that records it, leaves a request accounted for, except exactly when it abandons it |
| `Jobs.DeliveryStep` | libs/kafka/src/worker/base-worker.service.ts:93-203 | every awaited call of a delivery, failed or not, keeps rows and logs proper, touches no other request's dispatches and never enters the give-up branch; the save that completes the request changes no dispatch |
| `Events.ResendRebuildsTheEvent` | apps/api-gateway/src/modules/message-request/message-request.service.ts:186-210 | the event rebuilt on re-send is the stored outbox payload, for every request body, also with `channel` or `receiver` keys in `metadata` |
| `Events.RetryRebuildsTheEvent` | apps/main/src/modules/retry-scheduler/retry-scheduler.service.ts:67-90 | the event rebuilt on retry agrees with the stored outbox payload up to absent versus null receiver properties and the case of the user id |
| `Events.RetryEqualsSentIff` | apps/main/src/modules/retry-scheduler/retry-scheduler.service.ts:77-85 | it is the very same event if and only if no optional receiver field was left out and the user id, if any, was in lower case |
| `Events.UpperCaseUserIdDiffers` | migrations/1000000000000-InitialSchema.ts:275 | a complete receiver with an upper-case user id, whose retry event differs from the one sent in more than absent versus null |
| `Events.MetadataReads` | apps/api-gateway/src/modules/message-request/message-request.service.ts:75-79 | reading channel and receiver back from stored metadata gives what was sent, whatever keys the client put there |
| `Events.ReceiverRebuilt` | apps/main/src/modules/retry-scheduler/retry-scheduler.service.ts:79-85 | the recipient's columns give the sent receiver up to absent versus null and the case of the user id, which its uuid column lower-cases |
| `Crypto.EnvelopeRoundTrip` | libs/common/src/crypto/payload-crypto.service.ts:23-55 | an envelope has the three parts of one sealing of the data and nothing else, is recognised, survives JSON and opens to the data, whatever keys the data has |
| `Json.CleanKeepsJson` | libs/kafka/src/kafka.service.ts:59 | JSON text changes no value that it can carry |
| `Json.CleanRecordTwice` | libs/kafka/src/kafka.service.ts:59 | a record that went through JSON once is unchanged by going through again |
| `GatewayService.MessageRequestService.Send` | apps/api-gateway/src/modules/message-request/message-request.service.ts:47-155 | a call leaves the tables, the topic and the reply that the pipeline's gateway steps leave, for every pattern of failures, each read of the template, the access and the variables being a call of its own (`Calls.RefusedIff`, `Undisturbed.Send` and `Calls.Resend` say what that is) |
| `GatewayService.MessageRequestService.Transact` | apps/api-gateway/src/modules/message-request/message-request.service.ts:61-138 | building the rows one by one, with the masking loop, gives the four rows of the pipeline's commit, which `Columns` spells out, or nothing when the request id is taken |
| `GatewayService.MessageRequestService.PublishNew` | apps/api-gateway/src/modules/message-request/message-request.service.ts:140-155 | the same for publish, outbox save and request save after the transaction |
| `GatewayService.MessageRequestService.HandleExistingRequest` | apps/api-gateway/src/modules/message-request/message-request.service.ts:172-223 | a request past VALIDATED is answered without any effect; otherwise the same as the re-send steps (`Calls.Resend`, `Calls.ResendThrows`) |
| `GatewayService.SendRunIsARun` | apps/api-gateway/src/modules/message-request/message-request.service.ts:47-155 | an uninterrupted call is a run of the pipeline |
| `RelayService.RelayPendingEvents` | apps/main/src/modules/outbox-relay/outbox-relay.service.ts:22-36 | a run whose query throws changes nothing; any other works on a possible result of its query and leaves what the pipeline's relay steps leave (`RunWithSaves` and `RunAborts` say what that is) |
| `RelayService.RelayEvent` | apps/main/src/modules/outbox-relay/outbox-relay.service.ts:38-58 | one entry is published once under its own key and its outcome saved once: PUBLISHED as of now with the error cleared, or FAILED with the error of its publish; the run goes on from there |
| `RelayService.RelayRunIsARun` | apps/main/src/modules/outbox-relay/outbox-relay.service.ts:22-58 | an uninterrupted relay run is a run of the pipeline |
| `RelayService.RunWithSaves` | apps/main/src/modules/outbox-relay/outbox-relay.service.ts:33-57 | with saves taking effect a relay run attempts each entry of its batch in order |
| `RelayService.RunAborts` | apps/main/src/modules/outbox-relay/outbox-relay.service.ts:33-57 | when the save of an entry throws, the entries before it are attempted and saved, its own is published and not saved, and those behind it are not touched |
| `RelayService.RunShrinks` | apps/main/src/modules/outbox-relay/outbox-relay.service.ts:22-36 | one run takes exactly a hundred pending rows, or all of them, out of PENDING and leaves the others pending |
| `RelayService.OutboxDrains` | apps/main/src/modules/outbox-relay/outbox-relay.service.ts:22-58 | with n rows PENDING, k runs leave max(0, n - 100 k); no row is attempted twice, rows go oldest first, and the topic grows by exactly the messages of those attempts in that order |
| `SchedulerService.RetryPendingDispatches` | apps/main/src/modules/retry-scheduler/retry-scheduler.service.ts:35-51 | a run whose query throws changes nothing; any other works on a possible result of its query and leaves what the pipeline's scheduler steps leave, whatever throws |
| `SchedulerService.RetryDispatch` | apps/main/src/modules/retry-scheduler/retry-scheduler.service.ts:53-103 | one dispatch is published and made PROCESSING as of now with no retry time, marked FAILED as of now for missing data, or skipped after an error, and the run goes on |
| `SchedulerService.RunAttemptsAll` | apps/main/src/modules/retry-scheduler/retry-scheduler.service.ts:49-103 | whatever throws for one dispatch, a run goes on to the next: it leaves what its whole batch, retried one after the other, leaves |
| `SchedulerService.SchedRunIsARun` | apps/main/src/modules/retry-scheduler/retry-scheduler.service.ts:35-103 | an uninterrupted scheduler run is a run of the pipeline |
| `WorkerService.ChannelWorker.EachMessage` | libs/kafka/src/worker/base-worker.service.ts:71-83 | another channel's message and an envelope that does not open change nothing, an envelope is opened once, and an error escaping `process` is swallowed |
| `WorkerService.ChannelWorker.Process` | libs/kafka/src/worker/base-worker.service.ts:93-203 | a delivery leaves the tables and ends as the pipeline's delivery steps do, for every pattern of failures |
| `WorkerService.ChannelWorker.Attempt` | libs/kafka/src/worker/base-worker.service.ts:142-155 | the same for the try block: whichever of its three awaited calls throws, the handler runs on the row as it is then |
| `WorkerService.ChannelWorker.Recover` | libs/kafka/src/worker/base-worker.service.ts:155-171 | the same for the handler, which waits for a retry while attempts are left and gives up otherwise |
| `WorkerService.ChannelWorker.GiveUp` | libs/kafka/src/worker/base-worker.service.ts:172-200 | the same for the give-up branch, whose failed dead-letter publish is ignored |
| `WorkerService.HandledIsARun` | libs/kafka/src/worker/base-worker.service.ts:71-203 | handling the next message of a lane without interruption is a run of the pipeline that ends one message further |
| `Undisturbed.Delivery` | libs/kafka/src/worker/base-worker.service.ts:93-154 | with every call taking effect a first delivery adds one SUCCESS dispatch, given column by column, with its two log entries, completes the request as of now and changes nothing else |
| `Undisturbed.FailedDelivery` | libs/kafka/src/worker/base-worker.service.ts:142-171 | when only the SUCCESS save throws, a delivery adds one RETRY_WAIT dispatch, given column by column and due in a minute, with its two log entries and changes nothing else |
| `Undisturbed.Retry` | apps/main/src/modules/retry-scheduler/retry-scheduler.service.ts:53-97 | with every call taking effect the scheduler publishes one dispatch's rebuilt event, puts the dispatch back to PROCESSING and changes nothing else |
| `Undisturbed.GivenUp` | libs/kafka/src/worker/base-worker.service.ts:172-200 | a row without attempts left whose SUCCESS save throws ends FAILED with its error, its FAIL entry, the request FAILED and one dead-letter event, if that publish returns, and nothing else changes |
| `Undisturbed.Send` | apps/api-gateway/src/modules/message-request/message-request.service.ts:47-155 | for any tables, client and body, a first call with a usable template, valid variables and every call taking effect replies QUEUED with the requested channel, adds one set of rows with the outbox row PUBLISHED, puts its one event on the topic and changes nothing else |
| `Ladder.WaitsThenFails` | libs/kafka/src/worker/base-worker.service.ts:157-178 | for any `maxRetryCount`, repeated failures of one row give exactly max - retryCount RETRY_WAIT states with the rungs' waits and FAILED from then on |
| `Ladder.TotalWaitIsClosed` | libs/kafka/src/worker/base-worker.service.ts:22 | the waits from any rung on add up to a difference of the closed form 0, 60, 360, 1260, then 900 more each |
| `Ladder.GivesUpNoEarlier` | libs/kafka/src/worker/base-worker.service.ts:157-178 | a row whose failures come no earlier than their retries is given up no earlier than the closed form after its first failure |
| `Store.Repositories.FindRequestByKey` | apps/api-gateway/src/modules/message-request/message-request.service.ts:48-50 | finds the stored request with this request id, or none if there is none |
| `Store.Repositories.FindPayloadOf` | apps/api-gateway/src/modules/message-request/message-request.service.ts:178-180 | finds the payload of this request, or none if there is none |
| `Store.Repositories.FindRecipientOf` | apps/api-gateway/src/modules/message-request/message-request.service.ts:189-192 | finds an oldest recipient of this request, or none if there is none |
| `Store.Repositories.FindSuccess` | libs/kafka/src/worker/base-worker.service.ts:103-111 | tells whether a SUCCESS dispatch exists for this request, recipient and channel |
| `Store.Repositories.FindPending` | apps/main/src/modules/outbox-relay/outbox-relay.service.ts:23-27 | returns the hundred oldest pending rows, or all of them, each once, oldest first |
| `Store.Repositories.FindDue` | apps/main/src/modules/retry-scheduler/retry-scheduler.service.ts:36-42 | returns a hundred due rows, or all of them, each once |
| `Store.Repositories.InsertSendRows` | apps/api-gateway/src/modules/message-request/message-request.service.ts:61-138 | inserts four rows or none; a request id or primary key that is taken inserts none |
| `Steps.PublishKeeps` | libs/kafka/src/kafka.service.ts:42-65 | publishing a request's event, duplicated or failed, keeps all tables consistent, only extends the topic, and puts the event on it when it returns |
| `RateLimit.RateLimitGuard.CanActivate` | apps/api-gateway/src/guards/rate-limit.guard.ts:15-37 | after the call the client's set is exactly the members of its calls, accepted or not, of (now - 60000, now], it expires 60 seconds later, other sets are untouched, and the call is accepted exactly when that count is within the limit |
| `RateLimit.AtMostLastLimit` | apps/api-gateway/src/guards/rate-limit.guard.ts:19-34 | with a non-decreasing clock, in every history, also one in which the client's limit changes, a half-open minute of 60000 ms holds at most as many accepted requests as the limit at the last of them |
| `RateLimit.AtMostLimitPerWindow` | apps/api-gateway/src/guards/rate-limit.guard.ts:19-34 | so every half-open minute holds at most as many accepted requests as a bound on the client's limits |
| `RateLimit.WindowOfAccepted` | apps/api-gateway/src/guards/rate-limit.guard.ts:24-34 | any minute that ends after an accepted call and contains it holds no more earlier requests than the call's own minute |
| `RateLimit.AcceptedAreMembers` | apps/api-gateway/src/guards/rate-limit.guard.ts:25 | accepted requests of a stretch of time are no more than its members when no two members collide |
| `RateLimit.TrimIsExact` | apps/api-gateway/src/guards/rate-limit.guard.ts:24-27 | trimming leaves exactly the last 60000 ms, and the key expiry changes no answer |
| `RateLimit.CallKeepsIndex` | apps/api-gateway/src/guards/rate-limit.guard.ts:21-27 | a call moves its own client's index and leaves every other client's |
| `RateLimit.CallIsIndexed` | apps/api-gateway/src/guards/rate-limit.guard.ts:23-34 | trimming and adding gives the last minute of the longer history, and everything stays consistent |
| `Masking.LookaheadCounts` | libs/common/src/crypto/payload-crypto.service.ts:86 | the lookahead of the phone pattern asks exactly for that many digits further on |
| `Masking.MaskPhoneReplacesMatches` | libs/common/src/crypto/payload-crypto.service.ts:85-87 | one right-to-left counting pass replaces exactly the matches of the pattern |
| `Masking.MaskPhoneHidesAllButFour` | libs/common/src/crypto/payload-crypto.service.ts:85-87 | length, non-digits and the last four digits stay, every earlier digit becomes a star, and masking twice is masking once |
| `Masking.MaskGenericBound` | libs/common/src/crypto/payload-crypto.service.ts:93-96 | the least number of characters that makes a third of the string shows, and something is hidden exactly from length two on |
| `Masking.MaskNameBound` | libs/common/src/crypto/payload-crypto.service.ts:89-91 | two characters of a name show, or all it has, and something is hidden exactly from length three on |
| `Masking.MaskEmailBound` | libs/common/src/crypto/payload-crypto.service.ts:76-83 | the domain stays whole; two characters of the local part show, one of two, the only one of one |
| `Masking.MaskRecord` | libs/common/src/crypto/payload-crypto.service.ts:57-63 | the loop over an object's properties computes the recursive mask |
| `Masking.MaskOne` | libs/common/src/crypto/payload-crypto.service.ts:65-74 | so does the case split on one value, and a text under a key shows what `MaskShows` says of it |
| `Masking.MaskAtEveryPath` | libs/common/src/crypto/payload-crypto.service.ts:57-74 | at every depth masking keeps exactly the paths without `__proto__`, turns each string into one that depends on it and its own lower-cased key alone, and leaves other leaves and whole arrays identical |
| `Masking.MaskShows` | libs/common/src/crypto/payload-crypto.service.ts:65-96 | at every depth a text under a key with "email" in it, in any case, shows its domain and at most two characters of the rest; otherwise under "phone" every character but the digits that have four more behind them; otherwise under "name" two characters; otherwise a third of it |
| `Masking.MaskKeepsKeysIff` | libs/common/src/crypto/payload-crypto.service.ts:57-63 | taken alone, `mask` keeps the key set if and only if no key is `__proto__` |
| `Templates.ListedIffFound` | apps/api-gateway/src/modules/template/template.service.ts:23-93 | for all tables meeting the unique constraints, a template is listed for a client if and only if looking its code up returns it, and that is when it is active and PUBLIC or has the client's access row |
| `Templates.ListedOnce` | apps/api-gateway/src/modules/template/template.service.ts:53-71 | and it is listed once |

## Left out

- Assumed of Kafka: a key's messages are consumed serially and in order; a rebalance that lets two workers process one key at once is not modelled, nor is `fromBeginning: false` skipping messages before the first start.
- Assumed of time: one clock that never runs backwards for all processes, so `NoEarlyRetry` does not cover a scheduler whose clock is ahead of a worker's.
- Assumed of Postgres: a call that throws had no effect; a save that took effect but whose acknowledgement was lost is not modelled.
- Assumed of Redis: the pipeline of one call runs as a whole and returns; the fail-open case of a null reply, and a clock that differs between Redis and the application, are not modelled.
- AtMostLastLimit: assumes that no two sorted-set members of one client collide; `AcceptedAreMembers` says where collisions would matter.
- EnvelopeRoundTrip: assumes that the cipher opens what it sealed; AES-256-GCM, base64 and key derivation are not modelled.
- SettledForever: says nothing about a row while its own `process` call is still in the try block, where the code may take SUCCESS back.
- NoRequestVanishes: a request whose outbox row is FAILED counts as not forgotten because the row still says so; no code sends it by itself, only a client's re-send of a VALIDATED request does.
- A body without `receiver`, which the body class admits, makes `receiverToRecord` throw inside the transaction; the model has it as a transaction that fails.
- The template tables are not written by any actor of the pipeline; each read of them is answered by the surroundings.
- The template variable validator is a yes-or-no answer of the surroundings.
- Replies carry request id, status and channel only; the other response fields are copies of columns.
- Columns that are constants or copies (provider type, template channel, recipient type, message type, encryption status, log details) are not in the rows.
- Timestamps are integers; their ISO text in events is not modelled, and one step reads the clock once.
- JSON property order, and numbers beyond an integer code, are not modelled.
- Authentication guards, IP filtering, admin listings, the dead-letter consumer, chat rooms, metrics, tracing and module wiring.
- Connection lifecycle of the producer and the consumers.
