# Iter, verified in Dafny

Iter captures coding sessions on a developer's machine and moves them through a WebSocket gateway and Redis Streams into Postgres, an embedding queue and an R2 archive. This project models the small hand-written protocols on that path and proves what each promises over whole runs. `dafny verify dfyconfig.toml` checks everything.

Concurrent code is a relation `Step(s, a, t)` with one step per channel, Redis, Postgres, R2 or network call; a call can succeed, fail, or take effect and lose its answer (`Common.Outcome`), and a crash can fall between any two steps. A `Run` is a sequence of such steps, and the main lemmas hold in every state of every run. Code that updates fields, slices or maps in place is a class or a method with loops, proved against that relation (through a ghost `history`) or against a specification function whose own properties are proved beside it. Every lemma carries `{:induction false}`: each inductive step is written out, none is left to automatic induction.

| files | subject |
|---|---|
| Outbox, Connection, ConnectionEnqueue, ConnectionShutdown | the gateway's outbound queue; reader, writer, heartbeat and shutdown |
| Ingest, IngestWorker, IngestCopies | XADD-then-ack handlers, the consumer group, retries and dead letters, how many copies of an event can be live |
| Capture, CaptureRuns, EndToEnd, EndToEndOrder, EndToEndRuns | the daemon's WAL and publisher, and daemon and server interleaved in one machine |
| SessionTree, Archive, ArchiveSweep, ArchiveReturn | the nightly sweep to R2, subagents deleted with their parents, and sessions that come back |
| ArchiveOverlap, ArchiveSchedule | sweeps that overlap, and which schedules of them lose the archived object |
| Redact, Redactor | finding, merging and rewriting secrets |
| Breaker, Router | circuit breakers and provider fallback |
| EmbedQueue, EmbedWorker, Codec | the embedding queue, its workers, the cached vector format |
| Langfuse | the trace client's batcher and its shutdown |
| Forest, Signals, Composite | subagent trees, event signals, the composite score and the Python port |
| Suggestions, Poll | the daemon's suggestion queue; device-code polling |

What the code does that its comments or documentation do not say (each is stated by a lemma below):

- Half-open breakers admit every caller until an outcome is recorded, not one probe (`Breaker.HalfOpenAdmitsEveryone`).
- Redaction widens mismatched overlaps to one placeholder; it does not report failure for them (`Redactor.RedactionSucceedsIff`). Empty findings at one offset would keep their order (`Redactor.EmptyFindingsKeepTheirOrder`).
- Only non-overlapping occurrences of a secret are searched, so of two that overlap the tail of the second is not redacted ("aba" in "ababa", `Redactor.OverlapIsMissed`); a secret is covered in every payload exactly when no proper prefix of it is also its suffix (`Redactor.WholeIffUnbordered`).
- Deleting an archived session cascades to its subagent sessions, which the comments do not mention. A subagent that has not been archived by then is gone without a pointer, and the same sweep can still upload an empty bundle for it although every call is answered (`Archive.CascadeLosesTheSubagent`); a missing session has a pointer exactly when this did not happen to it (`Archive.ArchiveIsCrashSafeIff`).
- A write to a session between gathering and deletion is deleted unarchived (`Archive.LateWriteIsLost`).
- The scheduler lets sweeps overlap, and then a slow sweep can upload an empty bundle over an archived session although every call succeeds (`ArchiveOverlap.SlowSweepEmptiesTheArchive`), or the deletion can rest on an upload that an older one has replaced (`ArchiveSchedule.StaleUploadIsCommitted`). Without writers the object is lost exactly through an upload whose sweep gathered after the deletion (`ArchiveSchedule.LateGatherIff`); with writers, exactly through a step that puts a bundle in place of one between whose readings the session was written (`ArchiveSchedule.ArchiveIntactIff`). Sweeps that take turns lose it, if writes never restore earlier content, exactly by uploading a session again that has a pointer (`ArchiveSchedule.TurnsIff`).
- A late event inserts an archived session again, beside its pointer. The next sweep uploads the little that came back over the archived object, and then fails on the pointer's primary key: Postgres aborts the transaction, so the branch that treats the violation as a success cannot complete, and the session stays until a session above it is archived (`ArchiveReturn.LateEventReplacesTheArchive`, `ArchiveReturn.CoexistIffBack`, `ArchiveReturn.BundleKeptIff`).
- A publish that timed out can still be added later, so the stream can receive rows 1, 2, 1; row order holds on sent messages, and on the whole stream exactly when no abandoned attempt is added after a later row (`EndToEndRuns.LateAddReorders`, `EndToEndOrder.StreamInOrderIff`).
- Reclaiming an entry that a slow worker still holds can leave two live copies of one event although every Redis call succeeds (`IngestCopies.OverlappingReclaimDuplicates`); the four kinds of step that break the single copy are exact (`IngestCopies.OneLiveCopyIff`).
- The aggregated signals depend on the order of the events when one id comes with two kinds, and on a replay when counted events have no id (`Signals.OrderShows`, `Signals.ReplayShows`). Consistent ids make every order equal, and nothing less does once further events may join (`Signals.OrderIndependentIff`); a replay is harmless exactly when the id-less events leave every ratio as it was (`Signals.ReplayIsIdempotentIff`).
- A subagent row that names itself as its parent disappears with everything below it (`Forest.EveryRowOnce`, `Forest.SelfParentVanishes`).
- An embed worker can lose jobs it has popped: to a malformed entry, a lost reply (silently, if the pop was cancelled), a failed push, or a rate-limit or backoff sleep cut short by shutdown, and to nothing else; an error alone does not mean a loss (`EmbedWorker.LosesIff`, `EmbedWorker.ShutdownLosesRateLimitedBatch`, `EmbedWorker.CancelledPopLosesSilently`).
- A trace event submitted while Close runs can be accepted and never posted (`Langfuse.LateSubmitIsLost`, `Langfuse.PostedIffBeforeExit`).
- Device-code polling shortens intervals over its caps and takes back the raise of a slow-down (`Poll.CapsShorten`).

## Model

| member | source | states |
|---|---|---|
| Outbox.EnqueueKeepsAcks | internal/ws/gateway.go:525-595 | acks never drop: the acks after `enqueue` are those before plus the new one, as a multiset; the queue stays within 64; it blocks exactly on an all-ack full queue |
| Outbox.Channel.Drain | internal/ws/gateway.go:559-583 | draining a full channel keeps the acks before the first non-ack and evicts just that one |
| Outbox.Channel.Requeue | internal/ws/gateway.go:584-590 | the preserved acks go back behind what was left, in order |
| Outbox.Channel.Enqueue | internal/ws/gateway.go:542-595 | the drain-and-requeue code computes the exact rotation `q[k+1..] + q[..k] + [msg]`, drops a non-ack on a full queue, and blocks only when every entry is an ack |
| ConnectionEnqueue.SoloEnqueue | internal/ws/gateway.go:542-595 | the channel steps of `enqueue` without interleaving refine that rotation, and a blocked caller has no step |
| Connection.AcksNeverDrop | internal/ws/gateway.go:381-488 | in every interleaving each produced ack is written, unmarshallable, discarded after the first write failure, queued or in hand |
| Connection.NeverPanics | internal/ws/gateway.go:280-375 | no goroutine sends on the closed channel and it is closed once |
| Connection.CloseFrameIsFirstSetClose | internal/ws/gateway.go:280-375 | the close frame is that of the first `setClose`, which exists whenever shutdown is triggered, so "bye" is never sent |
| ConnectionShutdown.RunWork | internal/ws/gateway.go:280-523 | every step inside the server uses up a bounded amount of work, so only outside frames and ticks can prolong a connection |
| ConnectionShutdown.NotStuck | internal/ws/gateway.go:280-523 | after shutdown is triggered no reachable state is stuck before everyone has exited |
| ConnectionShutdown.ShutdownCompletes | internal/ws/gateway.go:280-375 | from every such state the server alone can bring reader, writer, heartbeat and orchestrator to exit |
| Ingest.NoLoss | internal/ingest/consumer.go:194-386 | every event acked ok is persisted, audited, dead-lettered or an un-acked entry the group still delivers, under crashes and lost answers |
| Ingest.DirtyNeverPersisted | internal/ingest/consumer.go:240-347 | only bodies with a non-Dirty verdict are persisted, with that verdict's text; only bodies judged Dirty are audited |
| Ingest.StableClassifierSeparates | internal/ingest/consumer.go:240-347 | with a classifier that is a function of the event nothing is both persisted and audited |
| Ingest.AtMostOneEmbedJob | internal/ingest/consumer.go:307-360 | each event id yields at most one embed job, after it was persisted |
| Ingest.RetriesBounded | internal/ingest/consumer.go:362-386 | live entries carry 0 to 4 retries; a dead letter is a fifth failure |
| IngestWorker.RetriesRoundTrip | internal/ingest/consumer.go:488-500 | the retry count written by `fail` is the one read at the next delivery |
| IngestWorker.Worker.AuditLeak | internal/ingest/consumer.go:327-347 | the audit row appears exactly when the transaction took effect, and an error leads to `fail` |
| IngestWorker.Worker.Persist | internal/ingest/consumer.go:272-325 | insert-if-absent on the event id, reporting whether it inserted |
| IngestWorker.Worker.EnqueueEmbedding | internal/ingest/consumer.go:349-360 | one job is queued for the event; a failure is not fatal |
| IngestWorker.Worker.Fail | internal/ingest/consumer.go:362-386 | re-add with one more retry or dead-letter at five, then ack |
| IngestWorker.Worker.HandleMessage | internal/ingest/consumer.go:240-270 | every call is a step of the ingest machine; with reliable calls the event ends in exactly one sink or is re-added with one more retry |
| IngestCopies.OneLiveCopyIff | internal/ingest/consumer.go:194-386 | over every run with fresh message ids, any number of workers, crashes and lost answers: each unsettled event has exactly one live copy apart from entries about to be acked, and every entry one holder, if and only if every step is careful (no reclaim of a held entry, no failed ack, no re-add with a lost answer, no crash between re-add and ack) |
| IngestCopies.OneLiveCopyUntilSettled | internal/ingest/consumer.go:240-386 | in a careful run an unsettled event waits in exactly one copy, whose retry count is the number of earlier attempts, at most five in all; transactions may lose their answers |
| IngestCopies.DeadLetterAtFifth | internal/ingest/consumer.go:362-386 | in a careful run the step that dead-letters an unsettled event is its fifth failure |
| IngestCopies.SettlesOnce | internal/ingest/consumer.go:240-386 | if moreover no transaction loses its answer, an event settles in exactly one sink and the only live copies left are entries a worker is about to ack |
| IngestCopies.OverlappingReclaimDuplicates | internal/ingest/consumer.go:215-238 | a run with every add, re-add and ack answered and no crash that ends with two live copies |
| Capture.CaptureWAL.Append | internal/daemon/capture_wal.go:103-123 | re-appending an event adds and changes no row and returns the original |
| Capture.CaptureWAL.AppendBatch | internal/daemon/capture_wal.go:126-136 | appends in order and stops at the first error |
| Capture.CaptureWAL.ListUnsent | internal/daemon/capture_wal.go:139-153 | the oldest unsent rows in id order, at most the limit, 100 by default |
| Capture.CaptureWAL.MarkSent | internal/daemon/capture_wal.go:156-185 | marks exactly the given ids or rolls everything back |
| Capture.WaitAck | internal/daemon/ws_publisher.go:109-151 | succeeds if and only if the first frame that may not be skipped is the ok ack of this message |
| Capture.PublishOne | internal/daemon/ws_publisher.go:44-97 | a row is marked only after its own ok ack was read |
| Capture.PublishEntries | internal/daemon/capture.go:277-289 | one publish at a time, in order, stopping at the first failure |
| Capture.ScanAndPublish | internal/daemon/capture.go:251-296 | a pass is append, list, publish, as the pass relation of the runs |
| CaptureRuns.ReappendIsNoOp | internal/daemon/capture_wal.go:103-123 | re-appending any held event changes nothing and never un-sends a row |
| CaptureRuns.SentMeansAcked | internal/daemon/capture.go:251-296 | over every run sent rows are a prefix of id order, each was published under a message whose ok ack was read, and rows are published in non-decreasing order under distinct message ids |
| CaptureRuns.RowsAreKept | internal/daemon/capture_wal.go:103-185 | over every run no row disappears or is un-sent |
| CaptureRuns.DeliveredInv | internal/daemon/capture.go:277-289 | the publish loop sends the unsent rows from the oldest on, without gaps |
| CaptureRuns.HealthyDelivery | internal/daemon/capture.go:251-296 | when nothing fails a pass marks exactly the rows it lists |
| EndToEndOrder.AcksOnlyAfterAdd | internal/ingest/handler.go:26-87 | an ok ack is sent only for a message that is in the stream, as exactly one first entry |
| EndToEndOrder.SentRowsAreNeverLost | internal/daemon/capture.go:251-296 | in every state of daemon and server interleaved, a row marked sent is persisted, audited, dead-lettered or deliverable on the server |
| EndToEndOrder.ConfirmedLandInOrder | internal/daemon/ws_publisher.go:44-97 | a confirmed attempt lands in the stream before every later attempt, so on confirmed messages row ids never go down |
| EndToEndOrder.SentRowsLandInOrder | internal/daemon/capture.go:277-289 | the stream restricted to messages whose mark took effect holds every sent row, in strictly increasing id order |
| EndToEndOrder.StreamInOrderIff | internal/daemon/ws_publisher.go:44-97 | the server adds the daemon's rows in non-decreasing order if and only if no XADD of an attempt the daemon gave up on lands after a later row's |
| EndToEndRuns.LateAddReorders | internal/ws/gateway.go:381-434 | a run in which the stream receives rows 1, 2, 1 |
| EndToEndRuns.ConfirmedTwice | internal/daemon/capture.go:277-289 | a run in which a failed mark lets one row be confirmed twice |
| EndToEndRuns.PassIsSteps | internal/daemon/capture.go:251-296 | every pass of the daemon's code is a sequence of the joint machine's daemon steps |
| SessionTree.BelowIff | migrations/0001_initial.sql:49-71 | a session is below another exactly if it is that session or its parent is below it |
| SessionTree.BelowIsLeast | migrations/0001_initial.sql:49-71 | a deletion takes nothing but what the cascade forces it to: the sessions below are the least such set |
| SessionTree.BelowAfterDelete | migrations/0001_initial.sql:49-71 | a deletion cuts whole branches and leaves the others as they were |
| Archive.ParentsArePresent | migrations/0001_initial.sql:49-71 | the foreign key holds in every state of every run: a session's parent is there |
| Archive.ArchiveIsCrashSafeIff | internal/archive/cron.go:327-415 | with one sweep at a time, crashes and lost answers anywhere and sessions inserted again: a session missing from Postgres has a pointer and an object in every state, if and only if no write transaction committed for a session above it while it had no pointer |
| Archive.CascadeLosesTheSubagent | migrations/0001_initial.sql:53 | a run, every call answered, in which a session and its subagent are listed together and the subagent ends without rows, without a pointer and with an empty object |
| Archive.UntouchedSessionsSurvive | internal/archive/cron.go:327-415 | a session is archived exactly as its write transaction deleted it if it was not written to after gathering nor inserted again after listing, and only then, if writes do not restore what the sweep has read |
| Archive.LateWriteIsLost | internal/archive/cron.go:327-415 | a run in which a write between gathering and deletion is lost |
| ArchiveReturn.CoexistIffBack | internal/db/repo/sessions.go:184-218 | pointer and session coexist if and only if the session was inserted beside its pointer and no session above it was archived since |
| ArchiveReturn.ViolationsAreReturned | internal/archive/cron.go:381-391 | the unique violation happens only to sessions that were inserted beside their pointer |
| ArchiveReturn.BundleKeptIff | internal/archive/cron.go:327-415 | the object under a pointer stays the gathered bundle if no sweep uploads the session to that key again, and only if, when the bundle has children and late writes differ from it |
| ArchiveReturn.OnlyReturnedAreReuploaded | internal/archive/cron.go:327-415 | a session never inserted beside its pointer is not uploaded again; if no session above it was archived before it either, then whenever it is missing R2 holds the bundle gathered for it |
| ArchiveReturn.LateEventReplacesTheArchive | internal/ingest/consumer.go:286-304 | a run in which a late event brings an archived session back and the next sweep replaces the archived object |
| ArchiveOverlap.MissingSessionHasAnObject | internal/archive/cron.go:327-415 | with any number of overlapping sweeps a pointer comes with an object; a missing session has a pointer in every state if and only if no session above it was archived while it had none; pointer and session coexist if and only if the session was inserted beside its pointer and no session above it was archived since |
| ArchiveOverlap.TurnsKeepTheArchive | internal/archive/cron.go:327-415 | sweeps that take turns on a session keep its archive intact, with crashes and lost answers anywhere, unless one uploads it after it was inserted again |
| ArchiveOverlap.SlowSweepEmptiesTheArchive | internal/archive/scheduler.go:74-82 | a run of two overlapping sweeps, every call answered, that replaces the archived session by one without children |
| ArchiveSchedule.ArchiveIntactIff | internal/archive/cron.go:327-415 | with any overlapping sweeps, writers and re-insertions the object stays the committed bundle if, and for writes that never restore earlier content only if, nothing is uploaded after the deletion that was read apart from the deleting sweep, and nothing is deleted while the latest upload was read apart; read apart means that the row was written between the two listings, or the children were written, or deleted with a session above them, between two gatherings of which one found the session |
| ArchiveSchedule.LateGatherIff | internal/archive/cron.go:327-415 | for a session with children that nobody writes to, sweeps and cascades deleting it as they may, the archive is lost if and only if some upload took effect whose sweep gathered after the deletion |
| ArchiveSchedule.TurnsIff | internal/archive/cron.go:327-415 | if writes never restore earlier content, sweeps that take turns lose the archive if and only if one uploads a session that has a pointer |
| ArchiveSchedule.StaleUploadIsCommitted | internal/archive/cron.go:327-415 | a run in which a slow sweep stores older children over newer ones and the session is then deleted |
| ArchiveSweep.Archiver.UploadWithRetry | internal/archive/cron.go:419-442 | at most the configured attempts, waits doubling from the backoff; success means the object is stored |
| ArchiveSweep.Archiver.ArchiveOne | internal/archive/cron.go:327-415 | every call is a step of the sweep machine, also for a session that is gone by now; it succeeds exactly when all calls worked and the session was there without a pointer, and then pointer, object and the deletion of its branch are in place |
| ArchiveSweep.Archiver.Run | internal/archive/cron.go:195-262 | unless paused or unable to list, Eligible = Archived + Failed, and Archived counts exactly the sessions whose calls all worked, that had no pointer, and above which no earlier listed session was archived |
| Redact.SortSorts | internal/redact/classify.go:358-365 | the findings are put in order of start, then end |
| Redact.Merge | internal/redact/classify.go:367-385 | the in-place merge loop computes the merge of the ordered findings |
| Redact.MergedDisjoint | internal/redact/classify.go:367-385 | the merged ranges are ordered and disjoint |
| Redact.MergedTiles | internal/redact/classify.go:367-385 | the merged ranges are exactly the overlap classes: they cover the union and carry the common or the overlap tag |
| Redactor.Rewrite | internal/redact/classify.go:387-402 | the output loop computes the rewriting of the ranges or its failure |
| Redactor.RedactAll | internal/redact/classify.go:346-403 | sort, merge and rewrite composed |
| Redactor.RedactionSucceedsIff | internal/redact/classify.go:346-403 | redaction fails exactly when a finding is not redactable or runs past the payload |
| Redactor.RedactionIsReference | internal/redact/classify.go:346-403 | the result is the uncovered bytes in order with one placeholder per overlap class |
| Redactor.OrderDoesNotMatter | internal/redact/classify.go:346-403 | neither order nor repetition of the findings changes the result |
| Redactor.EmptyFindingsKeepTheirOrder | internal/redact/classify.go:346-403 | empty findings at one offset would show their order |
| Redactor.AllIndex | internal/redact/classify.go:287-302 | the offsets are non-overlapping occurrences and every occurrence starts inside one |
| Redactor.WholeIffUnbordered | internal/redact/classify.go:287-302 | the offsets cover every occurrence in every payload if and only if no proper prefix of the text is also its suffix |
| Redactor.BorderedTailIsMissed | internal/redact/classify.go:287-302 | for every such prefix, the payload in which two occurrences overlap by it leaves the last byte of the second uncovered |
| Redactor.OverlapIsMissed | internal/redact/classify.go:269-302 | "aba" is found once in "ababa" and its second occurrence keeps two bytes |
| Redactor.ParseReports | internal/redact/classify.go:249-284 | the findings are occurrences of reported secrets; they cover the first byte of every occurrence, and all of it if the secret has no prefix that is also its suffix |
| Redactor.Classify | internal/redact/classify.go:89-120 | Dirty, Clean and Strippable exactly when the scan says so; Strippable text is the reference redaction of everything found |
| Breaker.TrailingMeans | internal/embed/breaker.go:108-121 | trailing failures are at least k if and only if the last k outcomes are all failures |
| Breaker.BreakerIsStateless | internal/embed/breaker.go:81-132 | over every call sequence with a non-decreasing clock `allow` refuses exactly when the last K outcomes are failures and the latest is younger than the delay; Closed iff fewer than K trail; the snapshot is Open iff `allow` would refuse |
| Breaker.HalfOpenAdmitsEveryone | internal/embed/breaker.go:78-96 | any number of earlier `allow` calls leaves the next answer as it was |
| Breaker.CircuitBreaker.constructor | internal/embed/breaker.go:65-76 | starts with no outcomes; non-positive settings take the defaults 5 and 30s |
| Breaker.CircuitBreaker.Allow | internal/embed/breaker.go:81-96 | answers as the stateless function of the outcome history |
| Breaker.CircuitBreaker.Success | internal/llm/breaker.go:109-114 | appends a success to the history the fields represent |
| Breaker.CircuitBreaker.Failure | internal/llm/breaker.go:118-131 | appends a failure at this instant to the history the fields represent |
| Breaker.CircuitBreaker.Snapshot | internal/llm/breaker.go:134-142 | Open iff `allow` would refuse, Closed iff fewer than K failures trail |
| Router.WalkIsUnique | internal/embed/router.go:113-147 | histories and replies determine the walk |
| Router.FirstSuccessAnswers | internal/llm/router.go:108-164 | for every chain and whatever other requests record meanwhile, position p answers if and only if its prospect is success and no earlier prospect ends the walk; no later provider is called |
| Router.FreshProspect | internal/embed/router.go:113-147 | without other requests a provider's first mention is judged by its history before the call alone |
| Router.ShortCircuit | internal/embed/health.go:43-60 | while every breaker refuses, a walk at that instant calls no provider and records nothing |
| Router.ProviderRouter.constructor | internal/embed/router.go:44-55 | one fresh breaker per registered name |
| Router.ProviderRouter.Registered | internal/embed/router.go:58-65 | finds a provider exactly when the name is registered |
| Router.ProviderRouter.CircuitOpen | internal/embed/health.go:47-60 | true if and only if there are providers and every breaker refuses now |
| Router.ProviderRouter.HealthSnapshot | internal/embed/health.go:25-41 | down exactly while the breaker refuses, ok exactly while fewer than K failures trail |
| Router.ProviderRouter.Decide | internal/embed/router.go:113-131 | unregistered, unsupported, refused and expired positions are skipped or end the walk as the breaker's history says; asking records nothing |
| Router.ProviderRouter.Settle | internal/embed/router.go:131-144 | exactly one outcome is recorded per call, with that provider's breaker |
| Router.ProviderRouter.Visit | internal/llm/router.go:121-160 | one position, with other requests using the breakers before and during the call |
| Router.ProviderRouter.Walk | internal/embed/router.go:113-147 | every position meets the fate its breaker's history gives it; each breaker is told one outcome per call of its provider besides what others tell it |
| Router.ProviderRouter.Embed | internal/embed/router.go:85-148 | empty input, empty chain, expired context and a cache hit call nobody; otherwise the answer is what the walk reports, and the cache is written exactly for a single input answered by a single vector |
| Router.ProviderRouter.Complete | internal/llm/router.go:108-164 | the same walk with tier support and without stopping on a rate limit; an unnamed reply gets the provider's name |
| EmbedQueue.EveryJobAccounted | internal/embed/worker.go:196-320 | with any number of workers a pushed job is in exactly one place, a queued job shows the failures charged to it, and it is dead-lettered if and only if five were charged |
| EmbedQueue.NothingLostIff | internal/embed/worker.go:196-320 | while no job was mislaid or dropped, every pushed job is in exactly one of the queue, a worker's hands, done and the dead-letter list (the answers that lose jobs are exact in EmbedWorker.LosesIff) |
| EmbedQueue.DoneIsStored | internal/embed/worker.go:286-293 | a job counted as done has its embedding stored |
| EmbedWorker.BackoffDoubles | internal/embed/worker.go:342-350 | one second doubling to sixteen, never more |
| EmbedWorker.LosesIff | internal/embed/worker.go:250-320 | a batch loses jobs if and only if its rate-limit pause is cut short, or its first failing call had no effect or left jobs behind it; a batch handled without an error loses none |
| EmbedWorker.ShutdownLosesRateLimitedBatch | internal/embed/worker.go:257-271 | a pause cut short loses a rate-limited batch but not one put back behind an open circuit |
| EmbedWorker.LosingRoundIff | internal/embed/worker.go:196-227 | a round loses jobs if and only if a pop mislays one, a broken pop abandons a batch, or handling the batch loses |
| EmbedWorker.CancelledPopLosesSilently | internal/embed/worker.go:202-208 | a cancelled pop whose reply is dropped loses a job without an error |
| EmbedWorker.Worker.Pop | internal/embed/worker.go:229-248 | takes the head in FIFO order; exactly a malformed head, or the head of a cancelled or failed pop whose reply was lost, is mislaid |
| EmbedWorker.Worker.RequeueBatch | internal/embed/worker.go:301-308 | charges nothing; without an error the whole batch is back in order; exactly the jobs from the first failing push on are lost |
| EmbedWorker.Worker.RetryOrDLQ | internal/embed/worker.go:310-320 | one charge: back with one more attempt, or to the dead-letter list as it is on the fifth |
| EmbedWorker.Worker.StoreBatch | internal/embed/worker.go:286-293 | jobs whose upsert succeeded are done, the others are charged once |
| EmbedWorker.Worker.HandleBatch | internal/embed/worker.go:250-294 | rate limits and open circuits requeue without a charge; other errors and a wrong vector count charge every job once; otherwise the batch is stored; exactly the jobs named by `LostBy` are lost |
| EmbedWorker.Worker.ProcessOneBatch | internal/embed/worker.go:196-227 | an open circuit pops nothing; the worker is left holding nothing; what is lost, when something is lost, and when an error is returned are each stated exactly |
| Codec.EncodeThenDecode | internal/embed/cache.go:152-186 | every encodable vector decodes to itself |
| Codec.DecodesIffEncoding | internal/embed/cache.go:168-186 | an entry is accepted if and only if it is the encoding of some vector |
| Codec.TruncationIsRejected | internal/embed/cache.go:177-180 | no proper prefix or extension of an accepted entry is accepted |
| Langfuse.AcceptedIsPosted | internal/langfuse/client.go:120-203 | posted batches, open batch and queue together are the accepted events in order, batches hold 1 to BatchSize events; after exit everything accepted before the stop channel closed is posted |
| Langfuse.PostedIffBeforeExit | internal/langfuse/client.go:162-203 | after exit an accepted event is posted if and only if it was accepted before the worker left |
| Langfuse.LateSubmitIsLost | internal/langfuse/client.go:120-158 | a run in which an accepted event is never posted |
| Langfuse.ShutdownIsBounded | internal/langfuse/client.go:143-203 | once stop is closed only boundedly many worker and submitter steps remain |
| Langfuse.WorkerNeverStuck | internal/langfuse/client.go:162-203 | until it exits the worker always has such a step |
| Langfuse.Worker.Flush | internal/langfuse/client.go:170-176 | a non-empty batch is posted whole and reset |
| Langfuse.Worker.Tick | internal/langfuse/client.go:199-201 | a step of the machine that posts the open batch |
| Langfuse.Worker.Receive | internal/langfuse/client.go:194-198 | a step of the machine that moves one event from the queue to the batch or a post |
| Langfuse.Worker.Drain | internal/langfuse/client.go:180-193 | takes only steps of the machine; everything batched and queued is posted, in order, and the worker exits |
| Forest.UnderIsComplete | internal/api/handler/session_detail.go:245-262 | every row is listed under its parent, once and in row order |
| Forest.ShownIffAnchored | internal/api/handler/session_detail.go:240-276 | a row appears once if its chain of parents ends at a root and not at all otherwise |
| Forest.EveryRowOnce | internal/api/handler/session_detail.go:240-276 | every row appears exactly once if and only if no row names itself as its parent |
| Forest.SelfParentVanishes | internal/api/handler/session_detail.go:240-276 | a concrete list that comes back empty |
| Forest.Attach | internal/api/handler/session_detail.go:246-262 | one row's node joins the latest earlier node with the parent's id, or the roots |
| Forest.Build | internal/api/handler/session_detail.go:240-263 | after the loop every mutable node holds exactly its children, in row order |
| Forest.Freeze | internal/api/handler/session_detail.go:266-276 | the recursion ends, since a child's row comes after its parent's, and yields the frozen trees |
| Forest.MapSubagentTree | internal/api/handler/session_detail.go:240-276 | returns the specified forest |
| Signals.Aggregate | internal/signals/signals.go:49-133 | the loop counts first occurrences in one partition and derives the signals |
| Signals.RatesInRange | internal/signals/signals.go:113-130 | both rates lie in [0, 1] and the override rate is never 0 |
| Signals.CountedIsReference | internal/signals/signals.go:54-94 | for consistent events a count is the number of distinct ids of the kind plus its id-less events |
| Signals.ConsistentIsOrderFree | internal/signals/signals.go:7-8 | if events that share an id share their kind, every order gives the same signals |
| Signals.OrderShows | internal/signals/signals.go:54-57 | two orders of one list with acceptance 1 and 0 |
| Signals.OrderIndependentIff | internal/signals/signals.go:7-8 | events that share an id share their kind if and only if, with any unrelated events added, every order gives the same signals |
| Signals.ReplayAdds | internal/signals/signals.go:9-11 | appending already-counted ids adds exactly the id-less events |
| Signals.ReplayIsIdempotentIff | internal/signals/signals.go:9-11 | a replay leaves the signals unchanged if and only if the id-less events leave both reuse counts and both ratios as they were; in particular when every counted event has an id |
| Signals.ReplayShows | internal/signals/signals.go:9-11 | one id-less reuse event is counted twice |
| Signals.PartitionsIndependent | internal/signals/signals.go:12-15 | parent and subagent counts do not depend on each other's events |
| Signals.AggregatePort | modal/scoring.py:200-265 | the Python loop agrees with the Go one when there are no subagent events |
| Composite.Composite | internal/scoring/scoring.go:46-96 | the accumulated quotient is the weighted mean of the present signals, in [0, 1] |
| Composite.ScoreInRange | internal/scoring/scoring.go:82-86 | the mean is in [0, 1] before it is clamped |
| Composite.ScoreIsMonotone | internal/scoring/scoring.go:46-86 | no signal that improves lowers the score; the override rate counts reversed |
| Composite.NewSignalPullsTheScore | internal/scoring/scoring.go:11-13 | a missing signal that turns up moves the score towards its own value and never past it |
| Composite.CompositePort | modal/scoring.py:268-320 | the Python score equals the Go score |
| Poll.PollToken | internal/localauth/client.go:85-115 | it ends for every server; no request starts after the deadline; requests are at least min(interval, 15s) apart, which bounds their number; sleeps are the prescribed ones; the result is that of the last reply |
| Poll.WaitBounds | internal/localauth/client.go:85-115 | no sleep is under min(interval, 15s) or over max(interval, 20s) |
| Poll.GrowsIffUnderCap | internal/localauth/client.go:104-106 | the delay does not shrink over a round if and only if it was not over that round's cap |
| Poll.CapsShorten | internal/localauth/client.go:104-106 | concrete rounds in which it does shrink |
| Suggestions.SuppressedIsNeverShown | internal/daemon/server.go:452-508 | over every mix of operations nothing suppressed beforehand is shown or pending |
| Suggestions.ShownInOrder | internal/daemon/server.go:452-493 | suggestions are shown in the order they were offered, each at most once |
| Suggestions.Queue.SuppressSuggestion | internal/daemon/server.go:473-493 | the in-place filter keeps exactly the other entries, in order |
| Suggestions.Queue.PopSuggestion | internal/daemon/server.go:461-471 | returns the first entry and shifts the rest down |
| Suggestions.Queue.EnqueueSuggestion | internal/daemon/server.go:452-459 | appends unless suppressed |

## Left out

- HTTP, WebSocket framing, SQL, Redis, R2, tar and zstd: each call is a step that succeeds, fails, or takes effect and loses its answer; Postgres transactions are atomic and `UpsertSessionEvent` is insert-if-absent on the event id.
- Regular expressions, JSON, base64, hashing, time parsing, prompt normalisation and the trufflehog process: their outputs are arbitrary inputs; the WAL's event key is taken as injective.
- File scanning, prompt extraction and the publish path without a WAL in internal/daemon/capture.go; the watermark of `run_batch` and the windowed signals in modal/scoring.py; keyset pagination; JWKS, AuthKit and token signing: easy members, or behaviour that lives in SQL outside the repository's text.
- Fairness: shutdown is proved possible, bounded in inner steps and never stuck, not inevitable under a scheduler; outside frames and timer ticks are unbounded.
- Archive.ArchiveIsCrashSafeIff: one sweep at a time, as one replica whose nightly sweep ends within a day; the scheduler does not enforce it. Overlapping sweeps are modelled, one session under one object key at a time, in ArchiveOverlap and ArchiveSchedule, where the archiving of a session above is a step that deletes it. That an error aborts a Postgres transaction is taken from Postgres, as no savepoint is set. Deletions of users and tenants, which also cascade, are not modelled.
- Archive.UntouchedSessionsSurvive: for writes that restore what the sweep has read only the first half holds, since a restored value leaves the archive correct. What a cascade deletes is not compared with R2.
- ArchiveReturn.BundleKeptIff: when a session comes back with exactly the archived children, or was archived without any, only the first half holds, since the upload may then be harmless.
- ArchiveSchedule.ArchiveIntactIff: for writes that restore earlier content, or children written to be none, only the first half holds, since a replaced bundle may then be equal.
- ArchiveSchedule.TurnsIff: the same holds; for all writes, that such an upload is needed to lose the archive is `ArchiveOverlap.TurnsKeepTheArchive`.
- Breaker.CircuitBreaker.Allow: needs a clock that does not go back between calls, as Go's monotonic clock guarantees; a backward clock is not modelled.
- Router.ShortCircuit: for a walk during which no other request uses the breakers; one that records a success meanwhile would close a breaker.
- Router.ProviderRouter.Complete: the trace emitted per call and the attempts string are not modelled beyond the fate of each position.
- EmbedWorker.Worker.ProcessOneBatch: the wall-clock limit on collecting a batch is one of the answers of the pop script.
- EmbedQueue.EveryJobAccounted: two pushes for the same session are two jobs; attempts of a fresh push are zero.
- Composite.Composite: exact reals instead of float64, and 1 - exp(-n/k) only through being zero at zero, monotone and in [0, 1); the rationale string is not modelled.
- IngestCopies.OneLiveCopyIff: message ids are fresh on arrival, as minted uuids are; a careless step is one that puts a second copy or a second holder in place, whether or not it later leads to a second delivery.
- Signals.OrderIndependentIff: for a single list with nothing to be added, a clash of kinds can happen not to show in the signals; the condition is exact for the list together with every list of unrelated events.
- Signals.AggregatePort: on lists with subagent events it counts them as the parent's; whether the batch query filters them is not modelled.
- Poll.PollToken: the factor 1.5 is exact up to truncation to nanoseconds; conformance with section 3.5 of RFC 8628 is not claimed.
- Langfuse.AcceptedIsPosted: posted means handed to `post`; the HTTP outcome is ignored there as in the code.
