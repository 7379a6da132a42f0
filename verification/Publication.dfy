/** Poll tickets, staged provider output, and the generation-fenced commit. */
module Publication {
  import opened Wire
  import opened WireSize
  import opened Ordering
  import opened Sums
  import opened Service
  import opened PollBatch

  datatype Demand = Demand(generation: nat, epoch: nat)

  /** The demanded topics of a session, each with the generation and epoch seen.
      The map stands for a vector sorted by its distinct keys. */
  datatype PollTicket = PollTicket(sessionId: string, topics: map<TopicRef, Demand>)

  predicate SameDemand(a: PollTicket, b: PollTicket) {
    && a.sessionId == b.sessionId
    && a.topics.Keys == b.topics.Keys
    && forall k :: k in a.topics ==> a.topics[k].generation == b.topics[k].generation
  }

  predicate SameGeneration(a: PollTicket, b: PollTicket, key: TopicRef) {
    key in a.topics && key in b.topics && a.topics[key].generation == b.topics[key].generation
  }

  function RebaseResets(ticket: PollTicket, resets: seq<TopicRef>): PollTicket {
    ticket.(topics := map k | k in ticket.topics ::
      if k in resets then Demand(Bump(ticket.topics[k].generation), Bump(ticket.topics[k].epoch))
      else ticket.topics[k])
  }

  function CurrentTicket(s: State, sessionId: string): Option<PollTicket> {
    if s.stopped || sessionId !in s.sessions then None
    else
      var topics := s.sessions[sessionId].topics;
      Some(PollTicket(sessionId, map k | k in topics && topics[k].demanded ::
        Demand(topics[k].state.generation, topics[k].epoch)))
  }

  // ---- staging

  datatype Staged = Staged(
    topics: map<TopicRef, Topic>,
    resets: seq<TopicRef>,
    events: seq<(TopicRef, JsonPayload)>)

  const NOTHING_STAGED: Staged := Staged(map[], [], [])

  function WithoutEvents(events: seq<(TopicRef, JsonPayload)>, key: TopicRef): seq<(TopicRef, JsonPayload)> {
    if events == [] then []
    else
      WithoutEvents(events[..|events| - 1], key)
      + if events[|events| - 1].0 != key then [events[|events| - 1]] else []
  }

  /** The effect of one operation on a staged topic. */
  function Staging(topic: Topic, op: Operation, deadline: nat): Result<Topic, RequestError> {
    match op
    case ResetOp(_) =>
      if topic.state.generation >= U64_MAX then Err(InvalidRequest(GenerationExhausted))
      else if topic.epoch >= U64_MAX then Err(InvalidRequest(EpochExhausted))
      else
        Ok(topic.(state := topic.state.(generation := topic.state.generation + 1, snapshot := None,
                                        health := Initializing),
                  epoch := topic.epoch + 1,
                  deadline := Some(deadline)))
    case SnapshotOp(_, payload) =>
      Ok(topic.(state := topic.state.(
                  health := Available,
                  snapshot := Some(DataEnvelope(
                    EnvelopeMetadata(topic.state.source, topic.state.generation, 0), payload))),
                deadline := Some(deadline)))
    case EventOp(_, _) => Ok(topic)
    case HealthOp(_, health) =>
      Ok(topic.(state := topic.state.(
                  health := health,
                  snapshot := if health.Available? then topic.state.snapshot else None),
                deadline := if health.Available? then Some(deadline) else None))
  }

  function StageOp(session: Session, ticket: PollTicket, st: Staged, op: Operation, deadline: nat)
    : Result<Staged, RequestError>
  {
    if op.key !in ticket.topics || op.key !in session.topics then
      Err(InvalidRequest(UndemandedTopic))
    else
      var topic := if op.key in st.topics then st.topics[op.key] else session.topics[op.key];
      match Staging(topic, op, deadline)
      case Err(e) => Err(e)
      case Ok(next) =>
        Ok(Staged(
             st.topics[op.key := next],
             if op.ResetOp? then st.resets + [op.key] else st.resets,
             match op
             case ResetOp(key) => WithoutEvents(st.events, key)
             case EventOp(key, payload) => st.events + [(key, payload)]
             case _ => st.events))
  }

  function Prepare(session: Session, ticket: PollTicket, ops: seq<Operation>, deadline: nat)
    : Result<Staged, RequestError>
  {
    if ops == [] then Ok(NOTHING_STAGED)
    else
      match Prepare(session, ticket, ops[..|ops| - 1], deadline)
      case Err(e) => Err(e)
      case Ok(st) => StageOp(session, ticket, st, ops[|ops| - 1], deadline)
  }

  // ---- admission

  /** An update fits the frame limit even at the largest cursor. */
  predicate UpdateFits(s: State, update: SubscriptionUpdate) {
    ReplySize(Update(UpdateEnvelope(ServiceCursor(s.runId, U64_MAX), update))) <= s.messageBytes
  }

  function AtLargestSequence(state: TopicSnapshot): TopicSnapshot {
    if state.snapshot.None? then state
    else state.(snapshot := Some(state.snapshot.value.(
                  metadata := state.snapshot.value.metadata.(sequence := U64_MAX))))
  }

  function AdmitTopic(s: State, key: TopicRef, topic: Topic): Option<RequestError> {
    match FindCapability(s.catalog, key)
    case Err(e) => Some(e)
    case Ok(cap) =>
      if topic.state.health.Available? && cap.snapshots && topic.state.snapshot.None? then
        Some(InvalidRequest(SnapshotMissing))
      else if !UpdateFits(s, TopicChanged(AtLargestSequence(topic.state))) then Some(LimitExceeded(MessageBytes))
      else None
  }

  function AdmitTopics(s: State, topics: map<TopicRef, Topic>, keys: seq<TopicRef>): Option<RequestError>
    requires forall k :: k in keys ==> k in topics
  {
    if keys == [] then None
    else
      match AdmitTopic(s, keys[0], topics[keys[0]])
      case Some(e) => Some(e)
      case None => AdmitTopics(s, topics, keys[1..])
  }

  function EventAt(state: TopicSnapshot, sequence: nat, payload: JsonPayload): SubscriptionUpdate {
    Event(EventEnvelope(EnvelopeMetadata(state.source, state.generation, sequence), payload))
  }

  function AdmitEvents(s: State, st: Staged, events: seq<(TopicRef, JsonPayload)>): Option<RequestError> {
    if events == [] then None
    else
      var (key, payload) := events[0];
      if key !in st.topics || !st.topics[key].state.health.Available? then
        Some(InvalidRequest(EventUnavailable))
      else if !UpdateFits(s, EventAt(st.topics[key].state, U64_MAX, payload)) then Some(LimitExceeded(MessageBytes))
      else AdmitEvents(s, st, events[1..])
  }

  function SnapshotBytes(topic: Topic): nat {
    if topic.state.snapshot.None? then 0 else |topic.state.snapshot.value.payload|
  }

  function TopicWeight(topics: map<TopicRef, Topic>): TopicRef -> nat {
    k => if k in topics then SnapshotBytes(topics[k]) else 0
  }

  function TopicsBytes(topics: map<TopicRef, Topic>, keys: seq<TopicRef>): nat {
    SumOver(keys, TopicWeight(topics))
  }

  function SessionRetains(session: Session): nat {
    TopicsBytes(session.topics, TopicsInOrder(session.topics.Keys))
  }

  function SessionWeight(sessions: Sessions): string -> nat {
    id => if id in sessions then SessionRetains(sessions[id]) else 0
  }

  /** Snapshot bytes that the service keeps over all sessions. */
  function Retained(sessions: Sessions): nat {
    SumOver(IdsInOrder(sessions.Keys), SessionWeight(sessions))
  }

  function Validate(s: State, session: Session, st: Staged): Option<RequestError> {
    var keys := TopicsInOrder(st.topics.Keys);
    var refused := AdmitTopics(s, st.topics, keys);
    if refused.Some? then refused
    else
      var refusedEvent := AdmitEvents(s, st, st.events);
      if refusedEvent.Some? then refusedEvent
      else if Retained(s.sessions) - TopicsBytes(session.topics, keys) + TopicsBytes(st.topics, keys)
              > RETAINED_SNAPSHOT_BYTES
      then Some(LimitExceeded(RetainedSnapshotBytes))
      else None
  }

  // ---- commit

  function ResetUpdates(st: Staged): (r: seq<SubscriptionUpdate>)
    requires forall k :: k in st.resets ==> k in st.topics
    ensures |r| == |st.resets|
    ensures forall i :: 0 <= i < |r| ==>
              r[i] == TopicReset(st.topics[st.resets[i]].state.source, st.topics[st.resets[i]].state.generation,
                                 SourceChanged)
  {
    seq(|st.resets|, i requires 0 <= i < |st.resets| =>
      TopicReset(st.topics[st.resets[i]].state.source, st.topics[st.resets[i]].state.generation, SourceChanged))
  }

  function PayloadOf(state: TopicSnapshot): Option<JsonPayload> {
    if state.snapshot.None? then None else Some(state.snapshot.value.payload)
  }

  predicate Changed(current: TopicSnapshot, next: TopicSnapshot) {
    || current.generation != next.generation
    || current.health != next.health
    || PayloadOf(current) != PayloadOf(next)
  }

  function Stamp(state: TopicSnapshot, sequence: nat): TopicSnapshot {
    if state.snapshot.None? then state
    else state.(snapshot := Some(state.snapshot.value.(
                  metadata := state.snapshot.value.metadata.(sequence := sequence))))
  }

  /** A changed topic is stamped with the sequence that is about to publish it;
      an unchanged one keeps the envelope it already had. */
  function Landing(current: TopicSnapshot, topic: Topic, sequence: nat): Topic {
    if Changed(current, topic.state) then topic.(state := Stamp(topic.state, sequence))
    else topic.(state := topic.state.(snapshot := current.snapshot))
  }

  function CommitTopic(s: State, p: Place, topic: Topic): State {
    if !Placed(s.sessions, p) then s
    else
      var current := At(s.sessions, p).state;
      var landed := Landing(current, topic, s.sequence + 1);
      var stored := s.(sessions := Put(s.sessions, p, landed));
      if Changed(current, topic.state) then Emit(stored, TopicChanged(landed.state)) else stored
  }

  function CommitTopics(s: State, id: string, topics: map<TopicRef, Topic>, keys: seq<TopicRef>): State
    requires forall k :: k in keys ==> k in topics
  {
    if keys == [] then s
    else
      var key := keys[|keys| - 1];
      CommitTopic(CommitTopics(s, id, topics, keys[..|keys| - 1]), Place(id, key), topics[key])
  }

  function CommitEvent(s: State, id: string, event: (TopicRef, JsonPayload)): State {
    if !Placed(s.sessions, Place(id, event.0)) then s
    else Emit(s, EventAt(At(s.sessions, Place(id, event.0)).state, s.sequence + 1, event.1))
  }

  function CommitEvents(s: State, id: string, events: seq<(TopicRef, JsonPayload)>): State {
    if events == [] then s
    else CommitEvent(CommitEvents(s, id, events[..|events| - 1]), id, events[|events| - 1])
  }

  predicate StagedOk(st: Staged) {
    && (forall k :: k in st.resets ==> k in st.topics)
    && (forall e :: e in st.events ==> e.0 in st.topics)
  }

  function CommitStaged(s: State, id: string, st: Staged): State
    requires StagedOk(st)
  {
    var reset := EmitAll(s, ResetUpdates(st));
    var stored := CommitTopics(reset, id, st.topics, TopicsInOrder(st.topics.Keys));
    CommitEvents(stored, id, st.events)
  }

  lemma {:induction false} WithoutEventsSubset(events: seq<(TopicRef, JsonPayload)>, key: TopicRef)
    ensures forall e :: e in WithoutEvents(events, key) <==> e in events && e.0 != key
  {
    if events != [] {
      WithoutEventsSubset(events[..|events| - 1], key);
      assert events == events[..|events| - 1] + [events[|events| - 1]];
    }
  }

  lemma {:induction false} PrepareOk(session: Session, ticket: PollTicket, ops: seq<Operation>, deadline: nat)
    requires Prepare(session, ticket, ops, deadline).Ok?
    ensures StagedOk(Prepare(session, ticket, ops, deadline).value)
    ensures forall k :: k in Prepare(session, ticket, ops, deadline).value.topics ==>
              k in ticket.topics && k in session.topics
  {
    if ops != [] {
      PrepareOk(session, ticket, ops[..|ops| - 1], deadline);
      var st := Prepare(session, ticket, ops[..|ops| - 1], deadline).value;
      WithoutEventsSubset(st.events, ops[|ops| - 1].key);
    }
  }

  /** Whether a ticket still describes the topics it was issued for. */
  predicate Current(s: State, ticket: PollTicket) {
    && ticket.sessionId in s.sessions
    && var topics := s.sessions[ticket.sessionId].topics;
       forall k :: k in ticket.topics ==>
         && k in topics
         && topics[k].demanded
         && topics[k].state.generation == ticket.topics[k].generation
         && topics[k].epoch == ticket.topics[k].epoch
  }

  /** A reset in the batch would run a counter of its topic past the end. */
  predicate ResetExhausts(session: Session, ops: seq<Operation>) {
    exists op :: op in ops && op.ResetOp? && op.key in session.topics
      && (session.topics[op.key].state.generation >= U64_MAX || session.topics[op.key].epoch >= U64_MAX)
  }

  function MetadataUpdate(session: Session, batch: Pending): seq<SubscriptionUpdate> {
    if batch.gameBuild != session.info.gameBuild
    then [SessionChanged(session.info.(gameBuild := batch.gameBuild))]
    else []
  }

  /** How many sequence numbers a commit reserves before it changes anything. */
  function Reserve(session: Session, batch: Pending, st: Staged): nat {
    |st.resets| + |st.topics| + |st.events| + |MetadataUpdate(session, batch)|
  }

  function CommitMetadata(s: State, id: string, batch: Pending): State
    requires id in s.sessions
  {
    var session := s.sessions[id];
    if batch.gameBuild == session.info.gameBuild then s
    else
      var info := session.info.(gameBuild := batch.gameBuild);
      Emit(s.(sessions := s.sessions[id := session.(info := info)]), SessionChanged(info))
  }

  /** Everything a poll may be refused for before it touches the service. */
  function Vet(s: State, ticket: PollTicket, batch: Pending, deadline: nat): Result<Staged, RequestError>
    requires ticket.sessionId in s.sessions
  {
    var session := s.sessions[ticket.sessionId];
    match Prepare(session, ticket, batch.ops, deadline)
    case Err(e) => Err(e)
    case Ok(st) =>
      var refused := Validate(s, session, st);
      if refused.Some? then Err(refused.value)
      else if exists u :: u in MetadataUpdate(session, batch) && !UpdateFits(s, u) then
        Err(LimitExceeded(MessageBytes))
      else Ok(st)
  }

  function CommitPoll(s: State, ticket: PollTicket, batch: Pending, deadline: nat, now: nat)
    : (State, Result<bool, RequestError>)
  {
    if batch.failed then (s, Err(InvalidRequest(RejectionIgnored)))
    else if s.stopped || !Current(s, ticket) then (s, Ok(false))
    else if ResetExhausts(s.sessions[ticket.sessionId], batch.ops) then (Close(s, EXHAUSTED), Ok(false))
    else
      var vetted := Vet(s, ticket, batch, deadline);
      if vetted.Err? then (s, Err(vetted.error))
      else
        PrepareOk(s.sessions[ticket.sessionId], ticket, batch.ops, deadline);
        var st := vetted.value;
        var (t, room) := EnsureSequences(s, Reserve(s.sessions[ticket.sessionId], batch, st));
        if !room then (t, Ok(false))
        else (Settle(CommitStaged(CommitMetadata(s, ticket.sessionId, batch), ticket.sessionId, st), now), Ok(true))
  }

  // ---- discard

  const ACQUISITION_FAILED: CapabilityHealth :=
    Unavailable(ProviderFailed("provider acquisition failed; see local service logs"))

  /** The topics a discarded poll still affects, and whether each is reset. */
  function Affected(session: Session, ticket: PollTicket, resets: seq<TopicRef>, failed: bool): map<TopicRef, bool> {
    map k | && k in ticket.topics
            && k in session.topics
            && session.topics[k].demanded
            && session.topics[k].state.generation == ticket.topics[k].generation
            && (k in resets || (failed && session.topics[k].epoch == ticket.topics[k].epoch))
        :: k in resets
  }

  function ResetCount(affected: map<TopicRef, bool>): nat {
    |set k | k in affected && affected[k]|
  }

  function Failing(topic: Topic, reset: bool): Topic {
    Topic(
      topic.state.(generation := if reset then topic.state.generation + 1 else topic.state.generation,
                   health := ACQUISITION_FAILED,
                   snapshot := None),
      topic.demanded,
      if reset then topic.epoch + 1 else topic.epoch,
      None)
  }

  function FailingUpdates(topic: Topic, reset: bool): seq<SubscriptionUpdate> {
    var next := Failing(topic, reset);
    (if reset then [TopicReset(topic.state.source, next.state.generation, SourceChanged)] else [])
    + [TopicChanged(next.state)]
  }

  /** The sessions and updates after failing the given topics in order. */
  function FailTopics(sessions: Sessions, id: string, affected: map<TopicRef, bool>, keys: seq<TopicRef>)
    : (Sessions, seq<SubscriptionUpdate>)
    requires forall k :: k in keys ==> k in affected
  {
    if keys == [] then (sessions, [])
    else
      var (front, updates) := FailTopics(sessions, id, affected, keys[..|keys| - 1]);
      var p := Place(id, keys[|keys| - 1]);
      if !Placed(front, p) then (front, updates)
      else
        (Put(front, p, Failing(At(front, p), affected[p.key])),
         updates + FailingUpdates(At(front, p), affected[p.key]))
  }

  /** The ticket moved along by the resets that the discard itself applied. */
  function Rebased(ticket: PollTicket, session: Session, affected: map<TopicRef, bool>): PollTicket {
    ticket.(topics := map k | k in ticket.topics ::
      if k in affected && affected[k] && k in session.topics
      then Demand(session.topics[k].state.generation + 1, session.topics[k].epoch + 1)
      else ticket.topics[k])
  }

  predicate DiscardExhausts(session: Session, affected: map<TopicRef, bool>) {
    exists k :: k in affected && affected[k] && k in session.topics
      && (session.topics[k].state.generation >= U64_MAX || session.topics[k].epoch >= U64_MAX)
  }

  function DiscardPoll(s: State, ticket: PollTicket, resets: seq<TopicRef>, failed: bool, now: nat)
    : (State, Option<PollTicket>)
  {
    if s.stopped || ticket.sessionId !in s.sessions then (s, None)
    else
      var session := s.sessions[ticket.sessionId];
      var affected := Affected(session, ticket, resets, failed);
      if DiscardExhausts(session, affected) then (Close(s, EXHAUSTED), None)
      else
        var (t, room) := EnsureSequences(s, |affected| + ResetCount(affected));
        if !room then (t, None)
        else
          var (sessions, changes) :=
            FailTopics(s.sessions, ticket.sessionId, affected, TopicsInOrder(affected.Keys));
          var settled := Settle(EmitAll(s.(sessions := sessions), changes), now);
          var current := CurrentTicket(settled, ticket.sessionId);
          (settled,
           if current.Some? && SameDemand(current.value, Rebased(ticket, session, affected)) then current else None)
  }
}
