/** The version-one wire vocabulary shared by the service and the client SDK.
    A string stands for its UTF-8 bytes, so its length is its byte length, and
    u64 counters are naturals that the model keeps at or below U64_MAX. */
module Wire {

  const U64_MAX: nat := 0xFFFF_FFFF_FFFF_FFFF

  datatype Option<+T> = None | Some(value: T)

  datatype Result<+T, +E> = Ok(value: T) | Err(error: E)

  datatype SessionRef = SessionRef(runId: string, sessionId: string)

  datatype TopicRef = TopicRef(providerId: string, topic: string, schemaVersion: nat)

  datatype TopicSource = TopicSource(session: SessionRef, gameId: string, topic: TopicRef)

  datatype ServiceCursor = ServiceCursor(runId: string, sequence: nat)

  datatype TargetProcess = TargetProcess(pid: nat, executable: string)

  datatype SessionInfo = SessionInfo(
    session: SessionRef,
    providerId: string,
    gameId: string,
    target: TargetProcess,
    gameBuild: Option<string>)

  datatype DependencyFailure =
    | DependencyNotReady
    | DependencyUnsupported
    | DependencyReadFailed
    | DependencyInvalid
    | DependencyFailed

  datatype UnavailableReason =
    | TargetNotReady
    | UnsupportedBuild
    | ReadFailed(message: string)
    | ValidationFailed(message: string)
    | ProviderFailed(message: string)
    | DependencyUnavailable(dependency: string, failure: DependencyFailure)

  datatype CapabilityHealth =
    | Idle
    | Initializing
    | Available
    | Unavailable(reason: UnavailableReason)

  /** JSON text; equality of payloads is equality of their texts. */
  type JsonPayload = string

  /** A 32-byte digest, read as a number. */
  type Hash = nat

  datatype EnvelopeMetadata = EnvelopeMetadata(source: TopicSource, generation: nat, sequence: nat)

  datatype DataEnvelope = DataEnvelope(metadata: EnvelopeMetadata, payload: JsonPayload)

  datatype EventEnvelope = EventEnvelope(metadata: EnvelopeMetadata, payload: JsonPayload)

  datatype TopicSnapshot = TopicSnapshot(
    source: TopicSource,
    generation: nat,
    health: CapabilityHealth,
    snapshot: Option<DataEnvelope>)

  datatype SessionSelector = AllSessions | OneSession(reference: SessionRef)

  /** A subscription request as it arrives: topics in any order, possibly repeated. */
  datatype Subscribe = Subscribe(sessions: SessionSelector, topics: seq<TopicRef>)

  /** A request after sorting and deduplication, which both ends perform. */
  datatype Selection = Selection(sessions: SessionSelector, topics: set<TopicRef>)

  function Normalize(request: Subscribe): (r: Selection) {
    Selection(request.sessions, set t | t in request.topics)
  }

  datatype SessionEndReason = TargetExited | SessionProviderFailed

  datatype ResetReason = SourceChanged | DemandResumed

  datatype Resource =
    | MessageBytes
    | QueuedBytes
    | InitialBytes
    | RetainedSnapshotBytes
    | Subscriptions

  datatype ResyncReason = Lagged(resource: Resource) | SequenceExhausted

  datatype SubscriptionEnd =
    | SessionOver
    | ServiceStopped
    | ResyncRequired(reason: ResyncReason)

  datatype SubscriptionUpdate =
    | SessionStarted(info: SessionInfo)
    | SessionChanged(info: SessionInfo)
    | SessionEnded(session: SessionRef, endReason: SessionEndReason)
    | TopicReset(source: TopicSource, generation: nat, resetReason: ResetReason)
    | TopicChanged(topic: TopicSnapshot)
    | Event(event: EventEnvelope)

  datatype UpdateEnvelope = UpdateEnvelope(cursor: ServiceCursor, update: SubscriptionUpdate)

  datatype SnapshotPayload =
    | Full(payload: JsonPayload)
    | Delta(baseSequence: nat, hash: Hash, patch: JsonPayload)

  datatype SnapshotFrame = SnapshotFrame(
    cursor: Option<ServiceCursor>,
    metadata: EnvelopeMetadata,
    payload: SnapshotPayload)

  datatype SnapshotAck = SnapshotAck(metadata: EnvelopeMetadata, hash: Hash)

  datatype SubscriptionItem =
    | Begin(cursor: ServiceCursor)
    | SessionFrame(info: SessionInfo)
    | TopicFrame(topic: TopicSnapshot)
    | SnapshotItem(frame: SnapshotFrame)
    | Ready(cursor: ServiceCursor)
    | Update(envelope: UpdateEnvelope)
    | Closed(end: SubscriptionEnd)

  /** Which of the fixed messages an invalid request is refused with. */
  datatype Fault =
    | ClosedDuringSetup
    | IdentityExhausted
    | UnregisteredProvider
    | RejectionIgnored
    | GenerationExhausted
    | EpochExhausted
    | UndemandedTopic
    | SnapshotMissing
    | EventUnavailable
    | InvalidTopic
    | InvalidSession
    | ForeignTopic
    | Stopped
    | EmptySelection

  datatype RequestError =
    | ServiceRestarted(runId: string)
    | UnknownSession(sessionId: string)
    | UnknownProvider(providerId: string)
    | UnknownTopic(providerId: string, topic: string)
    | UnsupportedSchema(requested: TopicRef, supported: set<nat>)
    | InvalidRequest(fault: Fault)
    | LimitExceeded(resource: Resource)

  /** Both ends accept identifiers of 1 to 256 bytes. */
  predicate Identifier(value: string) {
    1 <= |value| <= 256
  }
}
