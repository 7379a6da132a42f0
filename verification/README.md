# Live-data subscriptions: a verified model

The observer service publishes live game data to subscribers. One mutex-guarded state holds
sessions, topics, subscribers with bounded queues and a run-wide sequence counter. A delivery
layer may replace a full snapshot by a JSON Patch against a baseline that the client has
acknowledged. A client SDK validates every frame, folds the frames into a replica, and hands
coalesced state and ordered events to listeners. A provider host feeds the service with polls,
and a lifecycle scheduler attaches to game processes.

This project models those parts and proves that they agree on every run: the client never
refuses an honest server, a live replica equals a fresh bootstrap, deltas are invisible, no
stale output is published, and no transaction is ever seen half done.

## How the model is laid out

- **Vocabulary.** `Wire`, `WireSize`, `Ordering`, `Sums`, `Selecting`.
- **Service, as functions on one state value.** `Service` (emission, closure, settling, expiry,
  subscribing, sessions), `Publication` (tickets, staging, commit, discard), `PollBatch`,
  `SubscriptionQueue`. `Inner.Core` is the same service as an object whose methods update its
  fields with the loops of the original; each method is proved to compute the function.
- **Client.** `ClientValidation` and its object `Validator`, `Replica`, `Listening`, `Feeds`,
  `SharedFeeds`.
- **Views.** `Views` states what the service publishes as one value and when an update is legal
  against it. The service side (`Streams`, `Sweeps`, `Settling`, `Bootstrapping`, `Subscribing`,
  `SessionSync`, `StagingProofs`, `Committing`, `Transactions`, `Commits`, `Discards`) shows that
  every operation emits legal updates that carry the old view to the new one; the client side
  shows that a client which knows the selected part of a view accepts a legal update and knows
  the selected part of the next.
- **What each operation does, read off its inputs.** These modules state the main operations without
  the functions that compute them. `Journal` (whom an update reaches, who takes it in and who lags),
  `PollOutcomes`, `PollNews` and `PollAdmission` (what a batch makes of each topic, what a poll
  publishes, when it is accepted), `PollFailures` (what a discard breaks), `Exhaustion` (when the service
  closes), `BatchCalls` (what a batch holds), `Reports` (what a host report
  leaves and says), `Admission` (when a request is admitted), `Draining` (what reads give and a drop
  leaves), `FrameLanguage` and `MetadataBound` (which streams a client accepts), `Picking` and
  `Keeping` (which events a listener keeps), `DeltaChoices` (when a snapshot travels as a delta),
  `PollTimes` (when the host polls again), `Attachments` (what a lifecycle step does to each process).
- **Whole runs.** `Invariant`, `Runs`, `Epochs`, `Fence`, `Expiry`, `ResetSurvival`, `FrameSizes`,
  `Retention`, `Flips`, `Cursors`.
- **Delta delivery.** `Delta`, `Delivering`, `Reading`, `DeltaRuns`, `ServiceDeltas`.
- **Around the service.** `Hosting`, `HostRuns`, `Scheduling`.

Concurrency is an interleaving of atomic steps: every service operation runs under one lock, the
link between service and client is a FIFO in each direction, and feeds and listeners take turns.
Strings stand for their UTF-8 bytes, times are milliseconds, and u64 counters are naturals that
the invariant keeps within range.

## What is assumed of the surroundings

- The host reports sessions with identifiers of 1 to 256 bytes, of providers in the catalog
  (`SessionSync.HonestStatus`), and commits batches built against the manifest of the provider
  that runs the session (`Commits.HonestPoll`).
- A session identifier is not used again for a later session (identifiers are 128 random bits):
  results about one session over a run ask for it to be present throughout
  (`Fence.Persists`, `HostRuns.HostedRun`).
- Differencing, patching, printing and hashing obey `Delta.Laws` and `Delta.CollisionFree`, and
  published texts are canonical: printing the parsed text gives it back. `Delta.DeltaIffCanonical`
  shows that canonical text is exactly what the delta path needs.
- The one further reason for a client to refuse an honest stream is its own 8 MiB bound on active
  metadata; the acceptance theorem is an if-and-only-if with that bound.

## Model

| member | source | states |
|---|---|---|
| SubscriptionQueue.QueueLanguage | crates/wf-observer-cli/src/service/queue.rs:37-115 | For every mix of offers, finishes and pops: queued bytes are exactly the pending sizes and within budget, Begin is first and only first, everything taken in leaves in order, an end cuts the stream but never before Begin, one terminal item is last and nothing follows it; when an offer ends the stream is OfferedByRoom |
| SubscriptionQueue.SharedQueue.TryOffer | crates/wf-observer-cli/src/service/queue.rs:37-64 | An open queue takes an update exactly when it and all that waits fit the budget; otherwise the stream ends as lagged, by message size or by queue size, and only an unsent Begin still waits; returns whether the item was taken |
| SubscriptionQueue.SharedQueue.FinishQueue | crates/wf-observer-cli/src/service/queue.rs:66-76 | The first end wins, optionally discarding what waits except an unsent Begin |
| SubscriptionQueue.SharedQueue.PopNext | crates/wf-observer-cli/src/service/queue.rs:87-101 | Bootstrap, then updates, then the terminal item once; the byte counter never underflows |
| SubscriptionQueue.SharedQueue.DiscardContents | crates/wf-observer-cli/src/service/queue.rs:105-115 | Keeps only a Begin that was not sent |
| SubscriptionQueue.OfferedByRoom | crates/wf-observer-cli/src/service/queue.rs:37-64 | For every balanced open queue: an update is appended exactly when the bytes that wait and its own size are within budget; else the stream ends as lagged, for the message size exactly when the update alone is too large, and only an unsent Begin still waits |
| Draining.ReadsGiveAll | crates/wf-observer-cli/src/service/queue.rs:87-101 | Reading any number of times gives all that waits, first in first out, then the end once, then nothing |
| Draining.TakeHands | crates/wf-observer-cli/src/service/subscriptions.rs:138-149 | One read hands its subscriber the first waiting item or its end, and touches no other handle |
| PollBatch.EveryBatchIsWellFormed | crates/wf-observer-cli/src/service/batch.rs:52-212 | Whatever a provider calls in whatever order: within the byte bound, no topic reset twice, reset intents equal the reset operations, only declared capabilities and snapshot capabilities carry snapshots |
| PollBatch.FailureSticks | crates/wf-observer-cli/src/service/batch.rs:76-79 | A refused call fails the batch for good, and reset intents are never lost |
| PollBatch.Batch.Invoke | crates/wf-observer-cli/src/service/batch.rs:52-212 | The batch object performs a provider call as specified and stays well formed |
| PollBatch.Batch.Publish | crates/wf-observer-cli/src/service/batch.rs:81-100 | An operation is added within the byte budget or fails the batch |
| BatchCalls.BatchRecordsCalls | crates/wf-observer-cli/src/service/batch.rs:52-212 | For every sequence of provider calls: the batch stands exactly when each call was declared, allowed by its capability, not a repeated reset and within the byte bound after those before it; then its operations are, call by call and in order, those of the calls with their own payloads, Healthy as Available and reasons cut to length, and its build is the last one named |
| ClientValidation.AcceptedIffMetadataFits | crates/wf-observer-sdk/src/subscription/validation.rs:39-116 | A stream without protocol errors is accepted exactly when no prefix passes the metadata bound |
| Validator.StreamValidator.Judge | crates/wf-observer-sdk/src/subscription/validation.rs:39-116 | The acceptor object, with its completeness and metadata loops, gives the verdict and state of the specification, whose streams are exactly those of AdmittedIffLawful |
| Validator.StreamValidator.Apply | crates/wf-observer-sdk/src/subscription/validation.rs:196-252 | Verdict and new state for each kind of live update |
| Validator.StreamValidator.Topic | crates/wf-observer-sdk/src/subscription/validation.rs:166-194 | A topic frame is new in a bootstrap, keeps its generation live, and agrees with its snapshot |
| Validator.StreamValidator.Enter | crates/wf-observer-sdk/src/subscription/validation.rs:136-149 | Only selected sessions enter, once |
| Validator.AllComplete | crates/wf-observer-sdk/src/subscription/validation.rs:67-82 | The loops find exactly whether every session has as many topics as the selection has of its provider; that these are the same topics is part of AdmittedIffLawful |
| FrameLanguage.AdmittedIffLawful | crates/wf-observer-sdk/src/subscription/validation.rs:39-252 | For every selection and every sequence of frames: the acceptor admits it exactly when each frame is lawful after those before it, judged by the frames alone. Ready repeats the cursor of Begin and finds of each standing session exactly the selected topics of its provider; a bootstrap topic is new; cursors rise; a live topic keeps the generation last given, a reset raises it, an event repeats it and carries its own cursor; sessions are selected, start once and end once |
| FrameLanguage.AdmittedMeans | crates/wf-observer-sdk/src/subscription/validation.rs:39-252 | What the acceptor knows of an admitted stream is what the stream last said: which sessions stand, with which metadata, and which generation each topic was last given |
| FrameLanguage.ReadyShowsTopic | crates/wf-observer-sdk/src/subscription/feed.rs:154-223 | When a stream of one topic becomes ready, the replica holds that topic of every session of the bootstrap, in the generation the stream gave it |
| MetadataBound.MetadataCounts | crates/wf-observer-sdk/src/subscription/validation.rs:93-115 | Active metadata is nothing without sessions, and each session adds exactly what it counts |
| MetadataBound.SeenCounts | crates/wf-observer-sdk/src/subscription/validation.rs:93-112 | A session counts its encoded metadata and 256 bytes, and each of its topics the length of its names and 256 bytes |
| Views.ClientStep | crates/wf-observer-sdk/src/subscription/validation.rs:84-252 | A client in step with a view accepts every legal routed update and is in step with the next view |
| Views.UnroutedStep | crates/wf-observer-cli/src/service/subscriptions.rs:22-62 | An update that is not routed to a subscriber does not change its selected part of the view |
| Views.ReplicaStep | crates/wf-observer-sdk/src/subscription/feed.rs:154-223 | The feed's fold of a routed update holds exactly the next view |
| Streams.EmitSynced | crates/wf-observer-cli/src/service/inner.rs:75-99 | Emission of a legal update keeps every subscriber's client in step or ends its stream cleanly |
| Journal.EmittedByRoom | crates/wf-observer-cli/src/service/inner.rs:75-99 | For every open active subscriber: an update that is for it is taken in at the next cursor exactly when it fits beside all that waits, else its stream ends as lagged; a subscriber that it is not for is untouched. Whom an update is for is stated on the selection alone |
| Journal.ClosedFor | crates/wf-observer-cli/src/service/inner.rs:101-115 | Closing ends every open stream for the given reason and takes back all that waits except an unsent Begin |
| Journal.SettleTells | crates/wf-observer-cli/src/service/inner.rs:118-172 | All that settling publishes, to every subscriber that stays open, are topics resumed in a new generation or released to idle |
| Journal.ExpireTells | crates/wf-observer-cli/src/service/inner.rs:229-259 | Expiry publishes topics whose deadline passed, as unavailable and without data, and then only flips of demand |
| Bootstrapping.BootstrapTracks | crates/wf-observer-cli/src/service/subscriptions.rs:163-201 | A captured bootstrap is accepted whole by a fresh client, which then knows exactly the selected part of the service |
| Service.RoundLoses | crates/wf-observer-cli/src/service/inner.rs:118-172 | A settling round whose own publications ended subscribers has strictly fewer live ones, so settling terminates |
| Sweeps.SweepAllWalk | crates/wf-observer-cli/src/service/inner.rs:118-172 | The updates a sweep owes are legal one after another and lead from the old published view to the new one |
| Sweeps.ReconcileExact | crates/wf-observer-cli/src/service/inner.rs:123-158 | After a sweep a topic is demanded exactly when a subscriber selects it |
| Settling.SettleSteady | crates/wf-observer-cli/src/service/inner.rs:118-172 | Settling ends with exact demand, no ended subscriber and every client in step, though its emissions may remove further subscribers |
| Settling.SettleIdempotent | crates/wf-observer-cli/src/service/inner.rs:118-172 | Settling a settled service changes nothing |
| Exhaustion.RoundClosesIff | crates/wf-observer-cli/src/service/inner.rs:118-172 | A settling round closes the service exactly when a topic whose demand turns has no epoch left, or none of the generations that resuming takes, or fewer sequence numbers are left than topics turn |
| Exhaustion.SettleRunsOn | crates/wf-observer-cli/src/service/inner.rs:118-172 | Settling never closes a service whose counters last for one round more than it has live subscribers |
| Settling.CloseSteady | crates/wf-observer-cli/src/service/inner.rs:101-115 | Closing from the middle of any operation leaves a silent, well-formed service and cleanly ended streams |
| Settling.EmitAllKeeps | crates/wf-observer-cli/src/service/inner.rs:60-99 | Publishing a legal list lands every client at its end, or closes the whole service |
| Settling.ExpireInv | crates/wf-observer-cli/src/service/inner.rs:229-259 | Expiry keeps the invariant |
| Expiry.ExpireAhead | crates/wf-observer-cli/src/service/inner.rs:229-259 | After expiry at now every remaining deadline is later than now |
| Exhaustion.ExpiryClosesIff | crates/wf-observer-cli/src/service/inner.rs:229-259 | Expiry publishes one update for each topic whose deadline has passed, and closes exactly when one of these has no epoch left or fewer sequence numbers are left |
| Flips.SettleAt | crates/wf-observer-cli/src/service/inner.rs:118-172 | Settling leaves a topic that ends up demanded exactly as it was, or resumed once in a new empty generation with a grace deadline; a released one is Idle without data or deadline |
| Flips.ExpireAt | crates/wf-observer-cli/src/service/inner.rs:229-259 | Expiry leaves a topic that stays demanded exactly as it was, or overdue: unavailable, without data, one epoch on |
| Flips.OpenStarts | crates/wf-observer-cli/src/service/subscriptions.rs:71-134 | A request either opens a fresh handle whose queue is the bootstrap of the very state it leaves, or leaves neither handle nor demand |
| Admission.AdmittedIff | crates/wf-observer-cli/src/service/subscriptions.rs:71-134 | A request is admitted exactly when it fits its frame, asks for registered topics only, of one present session of this run and of its own provider if it names one, an identity is left, no counter runs out while overdue topics expire and its demand is created, and each bootstrap frame and all of them together fit |
| Admission.DeliverableIff | crates/wf-observer-cli/src/service/subscriptions.rs:163-201 | The capture check accepts exactly frames that each fit a message and together fit 32 MiB, wherever the running total stands |
| Flips.EndReachesSubscribers | crates/wf-observer-cli/src/service/inner.rs:296-329 | A session's own subscribers are told of its end after everything queued, then ended, unless that overflows them |
| Expiry.ExpiryRaisesEpoch | crates/wf-observer-cli/src/service/inner.rs:229-259 | An expired topic has a strictly larger epoch afterwards |
| Subscribing.OpenInv | crates/wf-observer-cli/src/service/subscriptions.rs:71-134 | Subscribing keeps the invariant whether admitted, refused, or failed while capturing |
| Subscribing.DropInv | crates/wf-observer-cli/src/service/subscriptions.rs:151-160 | Dropping a handle releases its demand and keeps the invariant |
| Draining.DropReleases | crates/wf-observer-cli/src/service/subscriptions.rs:151-160 | After a drop the handle and its subscriber are gone, a topic is demanded exactly when a remaining subscriber asks for it, such a topic is as it was and any other idle and empty, and only flips of demand were published |
| Subscribing.TakeInv | crates/wf-observer-cli/src/service/queue.rs:87-101 | Reading an item keeps the invariant |
| SessionSync.SyncInv | crates/wf-observer-cli/src/service/inner.rs:261-407 | An honest host report never fails, and keeps the invariant while sessions end and start; which ones do is ReportedSessions |
| Reports.ReportedSessions | crates/wf-observer-cli/src/service/inner.rs:261-407 | For every honest changed report after which the service runs: the sessions are exactly the observed ones; a known one keeps its metadata, a new one has the run, provider, game, process and executable of the last target that observes it, no build, and every topic of its provider in its first generation until demand resumes it. Published are, in order: each gone session as ended, failed exactly when a target that observed it is now retried; each new one as started with its topics; then only flips of demand. No subscriber of a gone session remains |
| Reports.IncomingDescribes | crates/wf-observer-cli/src/service/inner.rs:265-291 | The sessions of a report are those some target observes, each as the last such target describes it |
| Reports.EndedByRoom | crates/wf-observer-cli/src/service/inner.rs:296-329 | A subscriber of exactly the ending session takes in the end exactly when it fits beside all that waits and its stream is then over; otherwise it has lagged |
| Reports.ReportRunsOn | crates/wf-observer-cli/src/service/inner.rs:261-407 | A report reaches its settling on a running service whenever a sequence number is left for each session that goes, each that comes with each of its topics, and one more |
| FoldedStaging.PrepareFolds | crates/wf-observer-cli/src/service/publication.rs:240-310 | The operations of other topics do not touch a staged topic, and the staged events are those no later reset of their topic withdrew; what a topic's own operations amount to is PrepareDescribes |
| PollOutcomes.PrepareDescribes | crates/wf-observer-cli/src/service/publication.rs:240-310 | For every batch that can be staged, on its operations alone: exactly the named topics are staged; counters rise by the number of resets; health and deadline are those of the last operation that sets them; the data is the payload of the last snapshot that no later reset or unavailable health withdrew, none if withdrawn, and the old data if the batch neither stores nor withdraws |
| StagingProofs.PrepareKeeps | crates/wf-observer-cli/src/service/publication.rs:240-310 | Staging moves a topic along by exactly its resets, with counters in range and snapshots that agree |
| Retention.RetainedReplaces | crates/wf-observer-cli/src/service/publication.rs:349-370 | The admission check's subtraction never underflows, and its result is exactly the bytes retained afterwards |
| PollAdmission.RetainedCounts | crates/wf-observer-cli/src/service/publication.rs:340-370 | Storing a topic moves the retained total by exactly the difference of the two payload sizes |
| PollAdmission.AcceptedIff | crates/wf-observer-cli/src/service/publication.rs:167-238 | For every batch a provider can build: a poll is accepted exactly when its ticket still holds, no counter runs out, it names only topics of the ticket, and the outcome the batch describes has data where it must, events only of available topics, and frames at every cursor, retained bytes and sequence numbers within their bounds |
| PollAdmission.TicketCovers | crates/wf-observer-cli/src/service/publication.rs:57-81 | A ticket is issued exactly for a present session of a running service; it holds, and covers every demanded topic |
| Transactions.StagedLands | crates/wf-observer-cli/src/service/publication.rs:375-422 | Resets, topics and events amount to one transaction that leaves every client in step |
| Commits.CommitInv | crates/wf-observer-cli/src/service/publication.rs:167-230 | A commit keeps the invariant whichever way it ends |
| Commits.CommitIsTransaction | crates/wf-observer-cli/src/service/publication.rs:167-422 | Err changes nothing, Ok(false) changes nothing or closes the service, Ok(true) lands every staged topic at once and then settles; what is landed and published is AcceptedPoll |
| PollNews.AcceptedPoll | crates/wf-observer-cli/src/service/publication.rs:167-422 | For every accepted poll that leaves the service running, in terms of the batch: every named topic becomes what the batch makes of it, keeping its old envelope if nothing visible changed, and all else stays. Published are, in order and once each: new metadata, the resets, each topic that now looks different at its own cursor, and each event no later reset withdrew; then only flips of demand; each open subscriber took in exactly those that are for it |
| PollNews.AcceptedSettles | crates/wf-observer-cli/src/service/publication.rs:207-230 | An accepted poll has landed as its batch says on a running service; only settling can then close it |
| Commits.SilentCommit | crates/wf-observer-cli/src/service/publication.rs:389-409 | A poll equal to the current data renews deadlines, consumes no sequence number and changes nothing else |
| Commits.PollUsesExactly | crates/wf-observer-cli/src/service/publication.rs:207-219 | A landed poll used exactly one sequence number for new metadata, each reset, each changed topic and each surviving event, within what it reserved |
| Discards.DiscardInv | crates/wf-observer-cli/src/service/publication.rs:89-164 | A discard keeps the invariant |
| Discards.OwedIsReserved | crates/wf-observer-cli/src/service/publication.rs:123-127 | A discard publishes exactly as many updates as it reserved, so it is never cut short |
| PollFailures.DiscardBreaks | crates/wf-observer-cli/src/service/publication.rs:89-164 | For every ticket however old: exactly the topics that the poll still bears on become unavailable without data, in a new generation if it had reset them, and all else stays but for demand released on the way; each is told once and in order, with its reset if it has one, and then only flips of demand are published |
| PollFailures.DiscardClosesIff | crates/wf-observer-cli/src/service/publication.rs:89-164 | A discard closes the service exactly when a topic it must reset has no counter left or fewer sequence numbers are left than it has updates; otherwise it uses exactly that many and settles |
| ResetSurvival.DiscardResetsOwed | crates/wf-observer-cli/src/service/publication.rs:89-164 | The generation rises by one exactly for demanded topics still at the ticket's generation that the poll reset, even if expiry moved the epoch, and for no other topic |
| ResetSurvival.DiscardStands | crates/wf-observer-cli/src/service/publication.rs:128-162 | Each affected topic that stays demanded shows the failed acquisition without data or deadline, and every other topic that stays demanded is untouched |
| ResetSurvival.DiscardOnce | crates/wf-observer-cli/src/service/publication.rs:89-164 | Discarding the same poll again without a failure changes nothing |
| ResetSurvival.TicketReturnsIff | crates/wf-observer-cli/src/service/publication.rs:129-164 | A ticket comes back exactly when the service survived and no demand but the discard's own resets changed, and it is current |
| Runs.RunInv | crates/wf-observer-cli/src/service/state.rs:16-20 | The service invariant holds after every interleaving of honest steps |
| Runs.EveryStreamIsAccepted | crates/wf-observer-sdk/src/subscription/validation.rs:39-252 | In every reachable state every subscription's whole stream, sent and still queued, has no protocol error and is accepted exactly within the metadata bound |
| Runs.ReplicaAgrees | crates/wf-observer-sdk/src/subscription/feed.rs:154-223 | In every reachable state, folding what a subscriber was sent and what is still queued gives exactly what a fresh capture would give now |
| Cursors.EveryCursorRises | crates/wf-observer-cli/src/service/inner.rs:60-99 | In every reachable state, in all that any subscriber took in, no cursor repeats or falls back and each snapshot and event carries the cursor of its own update |
| Runs.EveryTopicIsSound | crates/wf-observer-cli/src/service/inner.rs:101-259 | In every reachable state: Idle iff not demanded, demanded iff an unended subscriber selects it, snapshots agree with their topic and only on available data, available snapshot topics have one, available data has a deadline, counters within u64, retained bytes within 32 MiB |
| Epochs.SettleForward | crates/wf-observer-cli/src/service/inner.rs:118-172 | Settling never lowers an epoch or generation, and an unchanged epoch means unchanged demand and generation |
| Fence.StepForward | crates/wf-observer-cli/src/service/inner.rs:118-343 | Every step moves every topic of a session that stays onward: any demand flip or reset raises its epoch |
| Fence.FenceHolds | crates/wf-observer-cli/src/service/publication.rs:57-75 | If a ticket that was current is accepted any number of steps later, each of its topics was demanded at the same epoch and generation in every state in between |
| WireSize.VarintMonotone | crates/wf-observer-cli/src/service/publication.rs:425-435 | A larger number never takes fewer bytes |
| WireSize.VarintDigits | crates/wf-observer-cli/src/service/publication.rs:425-435 | A number takes as many bytes as it has digits in base 128, and at least one |
| FrameSizes.AcceptedTopicFits | crates/wf-observer-cli/src/service/publication.rs:312-348 | Every topic of an accepted poll fits its frame at every sequence it could get |
| FrameSizes.AcceptedEventFits | crates/wf-observer-cli/src/service/publication.rs:330-348 | So does every event |
| FrameSizes.CachedFits | crates/wf-observer-cli/src/service/publication.rs:425-435 | Every cached snapshot still fits, live at any later sequence and in a bootstrap |
| Delta.MemoIsFresh | crates/protocol/src/v1/payload.rs:47-62 | A remembered patch is the patch that would be computed |
| Delta.DeltaIffCanonical | crates/protocol/src/v1/delta.rs:43-118 | A delta against its own baseline rebuilds the target exactly when the target text is canonical, and is otherwise refused for its hash |
| Delta.Payload.Digest | crates/protocol/src/v1/payload.rs:40-45 | The hash cell is written once with the digest of the text |
| Delta.Payload.PatchAgainst | crates/protocol/src/v1/payload.rs:47-62 | Whichever cell answers, the patch is the fresh one, and a remembered patch is never replaced |
| Delivering.EncodeNeverGrows | crates/wf-observer-cli/src/transport/delivery.rs:45-77 | Encoding never enlarges an item |
| Delivering.Sender.Send | crates/wf-observer-cli/src/transport/delivery.rs:25-78 | The delivery object encodes an item and moves its baselines as specified |
| Delivering.Sender.HearAck | crates/wf-observer-cli/src/transport/delivery.rs:80-91 | An acknowledgement confirms only a baseline with the same metadata and hash |
| Delivering.Sender.LoseAcks | crates/wf-observer-cli/src/transport/delivery.rs:113-120 | Losing the acknowledgement side turns deltas off for good |
| DeltaChoices.DeltaExactlyWhenSmaller | crates/wf-observer-cli/src/transport/delivery.rs:25-78 | A snapshot of a delta topic leaves as a delta exactly when there is an acknowledged baseline of its source and generation, both texts parse and the delta is strictly smaller, else in full; it becomes the new unacknowledged baseline |
| DeltaChoices.SnapshotLeavesAck | crates/wf-observer-sdk/src/subscription/reader.rs:59-128 | A delta reader that accepts a snapshot frame holds it as baseline and leaves an acknowledgement of exactly it due; no other frame makes one due |
| DeltaChoices.AcknowledgedEnablesDelta | crates/wf-observer-cli/src/transport/delivery.rs:53-91 | Once a snapshot was sent and acknowledged, the next one of its source and generation travels as a delta whenever that is smaller |
| Reading.StreamReader.Next | crates/wf-observer-sdk/src/subscription/reader.rs:59-114 | The reader decodes, validates, mirrors baselines and notes the acknowledgement due, as specified |
| Reading.StreamReader.TakeAck | crates/wf-observer-sdk/src/subscription/reader.rs:117-128 | A due acknowledgement is handed over once |
| DeltaRuns.DeltasAreTransparent | crates/wf-observer-sdk/src/subscription/reader.rs:59-114 | Over every run with any timing of frames and acknowledgements the reader refuses nothing and yields exactly the items handed to the encoder |
| DeltaRuns.DeltasRestOnInstalledBaselines | crates/wf-observer-cli/src/transport/delivery.rs:53-135 | A delta is only sent against a baseline the client holds and acknowledged, of the same source and generation and a smaller sequence; a stream with a closed acknowledgement side carries none |
| DeltaRuns.AckNamesBaseline | crates/wf-observer-cli/src/transport/delivery.rs:80-91 | A late or superseded acknowledgement never confirms a newer baseline |
| ServiceDeltas.StreamFits | crates/wf-observer-cli/src/transport/delivery.rs:45-77 | The service's own streams carry rising, agreeing, frame-sized snapshots of published texts |
| ServiceDeltas.EndToEnd | crates/wf-observer-cli/src/transport/delivery.rs:94-135 | From any reachable service state through the delta link, the client yields a prefix of exactly the items popped for it and refuses none |
| Listening.MergeIsMerged | crates/wf-observer-sdk/src/subscription/listener.rs:54-70 | The merged state shows every topic of every feed, and for each session the newest metadata any feed has |
| Listening.Listener.Snapshot | crates/wf-observer-sdk/src/subscription/listener.rs:54-70 | The merge loop computes that state |
| Listening.Listener.SetState | crates/wf-observer-sdk/src/subscription/listener.rs:104-125 | A queued event stays, in order and as often as it was there, exactly when it is of another topic or the new state shows its session at its generation; byte accounting stays exact |
| Listening.Listener.Offer | crates/wf-observer-sdk/src/subscription/listener.rs:127-145 | An event is queued within the byte budget or ends the listener as lagged |
| Listening.Listener.Close | crates/wf-observer-sdk/src/subscription/listener.rs:147-168 | The first end wins and clears the queue; a plain close also withdraws an unread end |
| Listening.Listener.Read | crates/wf-observer-sdk/src/subscription/listener.rs:185-212 | A read gives the end, then changed state, then the next event |
| Keeping.StateKeeps | crates/wf-observer-sdk/src/subscription/listener.rs:104-125 | On every open queue a state keeps an entry, in order and with its multiplicity, exactly when it is of another topic or the state shows its session at its generation |
| Keeping.EventKeeps | crates/wf-observer-sdk/src/subscription/listener.rs:127-145 | On every open queue an event joins at the end exactly when it fits beside all that waits; otherwise the listener has lagged and holds nothing more |
| Draining.ListenerReadsGive | crates/wf-observer-sdk/src/subscription/listener.rs:185-212 | Reading an undisturbed listener gives its end or failure first, then changed state once, then every event in order, then nothing |
| Feeds.ItemConsistent | crates/wf-observer-sdk/src/subscription/feed.rs:154-223 | Validator and replica always hold the same sessions, topic and generations, whatever the server sent |
| Feeds.GivenEventsAreCurrent | crates/wf-observer-sdk/src/subscription/listener.rs:185-212 | Every event a listener is given has the generation that the last state it was given shows for that session and topic |
| Feeds.GivenEventsKeepOrder | crates/wf-observer-sdk/src/subscription/listener.rs:104-212 | Events are given in arrival order, none twice, with exact byte accounting within budget |
| Keeping.NoEventIsLost | crates/wf-observer-sdk/src/subscription/listener.rs:104-212 | For every run of an open event listener: what it was given and what waits are arrived events in order, each once, and every other arrived event was outshown after it arrived, by a state of its topic that does not show its session at its generation |
| Keeping.Arrives | crates/wf-observer-sdk/src/subscription/feed.rs:137-223 | An event reaches a listener exactly when its feed is attached and the validator accepts it |
| Feeds.ResyncPurges | crates/wf-observer-sdk/src/subscription/feed.rs:117-135 | A resync leaves none of that feed's events queued |
| SharedFeeds.SharedFeed.Take | crates/wf-observer-sdk/src/subscription/feed.rs:153-223 | One validated item changes the replica by the fold and every listener's queue accordingly |
| SharedFeeds.SharedFeed.PublishState | crates/wf-observer-sdk/src/subscription/feed.rs:231-237 | A complete feed shows its state to every listener and an incomplete one to none |
| SharedFeeds.SharedFeed.Restart | crates/wf-observer-sdk/src/subscription/feed.rs:121-131 | A resync clears the replica and what listeners hold of it |
| SharedFeeds.SharedFeed.Attach | crates/wf-observer-sdk/src/subscription/feed.rs:46-56 | A listener joins unless the feed stopped, and is shown a complete state at once |
| SharedFeeds.SharedFeed.Detach | crates/wf-observer-sdk/src/subscription/feed.rs:58-68 | The last listener to leave stops the feed |
| Hosting.DeadlinesOutlast | crates/wf-observer-cli/src/provider_host/session.rs:155-161 | The next poll is never sooner than the least delay nor than the provider asked, the deadline outlasts it by the grace period, and a plan fails exactly when that passes the clock's range |
| Hosting.HostedSession.Start | crates/wf-observer-cli/src/provider_host/session.rs:48-88 | Whether a poll is due, and which generations the provider must begin |
| Hosting.HostedSession.Accepted | crates/wf-observer-cli/src/provider_host/session.rs:118-130 | An accepted poll's own resets are folded into what is on record |
| Hosting.HostedSession.Rejected | crates/wf-observer-cli/src/provider_host/session.rs:131-147 | A rejected poll records the ticket handed back and the retry delay |
| PollTimes.AcceptedWaits | crates/wf-observer-cli/src/provider_host/session.rs:117-161 | After an accepted poll an unchanged demand is due exactly from the longer of the asked and the least delay after the poll ended, never for an idle provider, and a changed demand at once |
| PollTimes.OutOfRangeFails | crates/wf-observer-cli/src/provider_host/session.rs:101-161 | A poll whose output would count past the range of the clock is discarded as failed and retried after a second |
| HostRuns.BeginGenerationIsExact | crates/wf-observer-cli/src/provider_host/session.rs:42-152 | Over every sequence of polls and service steps, begin_generation is called for a demanded topic exactly when its generation is not the one last told, moved on by the provider's own accepted resets |
| HostRuns.RetryWaitsIff | crates/wf-observer-cli/src/provider_host/session.rs:48-61 | After a rejection the next poll waits out the retry delay exactly when nothing but the poll's own resets changed the demand |
| Scheduling.ObservingIffAttached | crates/wf-observer-cli/src/lifecycle/worker.rs:93-209 | In every reachable state a target is Observing exactly while an attachment is held |
| Scheduling.AttachmentsAreKept | crates/wf-observer-cli/src/lifecycle/worker.rs:107-143 | An attachment that stays current keeps its session identity over every run, whatever discovery reports |
| Scheduling.RetriesAreSpaced | crates/wf-observer-cli/src/lifecycle/worker.rs:145-198 | A failed process that stays listed is not tried again before the deadline its failure set |
| Scheduling.FailuresSetDeadline | crates/wf-observer-cli/src/lifecycle/worker.rs:74-78 | Both ways of failing set that deadline one retry interval ahead |
| Attachments.StepExactly | crates/wf-observer-cli/src/lifecycle/worker.rs:93-209 | For every process in every step: a current attachment is left alone, a lost one leaves, a failed process leaves when an enumeration no longer lists it and waits out its deadline while listed, and every other listed process is tried once and recorded under its own session and token or its error and deadline |
| Attachments.ObservedWasAttached | crates/wf-observer-cli/src/lifecycle/worker.rs:145-209 | In every reachable state, whoever is observed is so under the session and token of an attempt that succeeded at that process |
| Attachments.RetiredExactly | crates/wf-observer-cli/src/lifecycle/worker.rs:74-78 | A retired attachment is given up with its error and a deadline one interval ahead, and nobody else is affected |
| Attachments.NextEnumeration | crates/wf-observer-cli/src/lifecycle/worker.rs:107-143 | The next enumeration is one interval after the listing, longer after a failure, and a step before its time keeps the plan |
| Scheduling.Worker.Advance | crates/wf-observer-cli/src/lifecycle/worker.rs:93-200 | The worker's step computes the specified lifecycle |
| Scheduling.Worker.Try | crates/wf-observer-cli/src/lifecycle/worker.rs:145-198 | Each eligible candidate is attempted once and no other |
| Scheduling.Worker.Retire | crates/wf-observer-cli/src/lifecycle/worker.rs:74-78 | A retired attachment is released and its target waits |
| Inner.SweepSessions | crates/wf-observer-cli/src/service/inner.rs:122-158 | The nested loops over sessions and topics compute the sweep and stop where a counter runs out |
| Inner.CaptureFor | crates/wf-observer-cli/src/service/subscriptions.rs:163-201 | The capture loops build the bootstrap or report the first limit it breaks |
| Inner.StageAll | crates/wf-observer-cli/src/service/publication.rs:240-310 | The staging loop computes the staged output or the first refusal; exactly the named topics are staged, each with the counters, health, deadline and data that the last operations of the batch give it |
| Inner.Core.Shut | crates/wf-observer-cli/src/service/inner.rs:101-115 | Closing ends every subscriber and quiets every topic |
| Inner.Core.Ensure | crates/wf-observer-cli/src/service/inner.rs:43-58 | Reserves sequence numbers or closes the service |
| Inner.Core.Tick | crates/wf-observer-cli/src/service/inner.rs:60-73 | Advances the sequence without wrapping, or closes the service |
| Inner.Core.Tell | crates/wf-observer-cli/src/service/inner.rs:75-99 | Offers an update to every active subscriber that it is routed to |
| Inner.Core.SettleDemand | crates/wf-observer-cli/src/service/inner.rs:118-172 | The fixpoint loop terminates and computes settling |
| Inner.Core.ExpireOverdue | crates/wf-observer-cli/src/service/inner.rs:229-259 | Expires overdue topics and settles |
| Inner.Core.Sync | crates/wf-observer-cli/src/service/inner.rs:261-343 | Computes the report of the specification, whose effect is ReportedSessions |
| Inner.Core.StartOne | crates/wf-observer-cli/src/service/inner.rs:345-407 | Adds a session with all its topics and announces them |
| Inner.Core.Subscribe | crates/wf-observer-cli/src/service/subscriptions.rs:71-134 | Expires, checks, creates demand, captures, and takes demand back on failure |
| Inner.Core.DropHandle | crates/wf-observer-cli/src/service/subscriptions.rs:151-160 | Removes a subscriber and settles |
| Inner.Core.Land | crates/wf-observer-cli/src/service/publication.rs:375-422 | The commit loops land metadata, resets, topics and events in order |
| Inner.Core.Commit | crates/wf-observer-cli/src/service/publication.rs:167-230 | Computes the commit of the specification with every early return; when it accepts is AcceptedIff and what it then leaves and publishes is AcceptedPoll |
| Inner.Core.Discard | crates/wf-observer-cli/src/service/publication.rs:89-164 | The whole discard, with every early return |

## Left out

- Endpoints, framing, timeouts and connection admission: input and output. The link is a FIFO of whole frames in each direction; request errors sent instead of a stream are not items of the model.
- Wakeups, task spawning and cancellation: only safety over interleaved steps. In the lifecycle step the stop signal and publishing errors are left out, so a step always completes.
- The internals of JSON parsing, patching, hashing and postcard: only the laws above, and a size function for the encoding.
- The text of request errors is one tag each; the two health messages that the service itself writes are kept because they have a size.
- Sharing of queue objects between a subscriber record and its handle: the service holds queues as values inside channels (`SubscriptionQueue.SharedQueue` models the shared object by itself), so aliasing is not captured.
- Inner.Core.Sync: a report of an unregistered provider returns its error half way and without settling, as in the original; the invariant is proved for honest reports only.
- A ticket's sorted vector of topics is a map from topic to generation and epoch.
- Runs.ReplicaAgrees: the replica part is for selections of one topic, which is what every feed subscribes to (crates/wf-observer-sdk/src/subscription/manager.rs:50-54); the validator part is for every selection.
- The order of the vectors in a listener's state, and the retained capacity of its queues.
- Delta.Payload.PatchAgainst: the patch and hash cells are modelled in the payload object by itself; the encoder takes the remembered patch as an argument that any earlier use of the same payload may have written.
- Failed memory verification during a poll, which retires the attachment: the discard it causes is an ordinary discard step.
- HostRuns.BeginGenerationIsExact: the provider's list of demanded capabilities is taken to be the ticket's topics, which the service invariant makes the same.
- BatchCalls.BatchRecordsCalls: a health message is cut to 256 characters; strings stand for their bytes, so the model cuts to 256 bytes.
- Catalog construction, health reason mapping, settings, identity and process access: no hard property lives there.
