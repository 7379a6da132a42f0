/** When a poll is accepted, read off the batch and the service before it. */
module PollAdmission {
  import opened Wire
  import opened WireSize
  import opened Ordering
  import opened Service
  import opened PollBatch
  import opened Publication
  import opened Invariant
  import opened Retention
  import opened FoldedStaging
  import opened Commits
  import opened PollOutcomes
  import opened PollNews
  import StagingProofs
  import Sums

  predicate Addressable(catalog: Catalog, key: TopicRef) {
    Identifier(key.providerId) && Identifier(key.topic) && key.schemaVersion != 0 && Registered(catalog, key)
  }

  /** A topic is found exactly when it is well named and registered, with its own capability. */
  lemma FindsIff(catalog: Catalog, key: TopicRef)
    ensures FindCapability(catalog, key).Ok? <==> Addressable(catalog, key)
    ensures Addressable(catalog, key) ==> FindCapability(catalog, key).value == CapabilityOf(catalog, key)
  {
    if Addressable(catalog, key) {
      var caps := catalog[key.providerId];
      var c := CapabilityKey(key.topic, key.schemaVersion);
      var versions := set c | c in caps && c.topic == key.topic :: c.schemaVersion;
      assert c.schemaVersion in versions;
      assert FindCapability(catalog, key) == if versions == {} then Err(UnknownTopic(key.providerId, key.topic)) else Ok(caps[c]);
    }
  }

  // ---- what fits

  /** The update that would publish a topic at a sequence. */
  function Sent(runId: string, topic: TopicSnapshot, n: nat): SubscriptionItem {
    Update(UpdateEnvelope(ServiceCursor(runId, n), TopicChanged(
      if topic.snapshot.None? then topic
      else topic.(snapshot := Some(topic.snapshot.value.(metadata := topic.snapshot.value.metadata.(sequence := n)))))))
  }

  function SentEvent(runId: string, topic: TopicSnapshot, payload: JsonPayload, n: nat): SubscriptionItem {
    Update(UpdateEnvelope(ServiceCursor(runId, n),
                          Event(EventEnvelope(EnvelopeMetadata(topic.source, topic.generation, n), payload))))
  }

  function SentInfo(runId: string, info: SessionInfo, n: nat): SubscriptionItem {
    Update(UpdateEnvelope(ServiceCursor(runId, n), SessionChanged(info)))
  }

  ghost predicate TopicSendable(s: State, topic: TopicSnapshot) {
    forall n: nat :: n <= U64_MAX ==> ReplySize(Sent(s.runId, topic, n)) <= s.messageBytes
  }

  ghost predicate EventSendable(s: State, topic: TopicSnapshot, payload: JsonPayload) {
    forall n: nat :: n <= U64_MAX ==> ReplySize(SentEvent(s.runId, topic, payload, n)) <= s.messageBytes
  }

  ghost predicate InfoSendable(s: State, info: SessionInfo) {
    forall n: nat :: n <= U64_MAX ==> ReplySize(SentInfo(s.runId, info, n)) <= s.messageBytes
  }

  lemma TopicSendableIff(s: State, topic: TopicSnapshot)
    ensures TopicSendable(s, topic) <==> UpdateFits(s, TopicChanged(AtLargestSequence(topic)))
  {
    assert Sent(s.runId, topic, U64_MAX)
           == Update(UpdateEnvelope(ServiceCursor(s.runId, U64_MAX), TopicChanged(AtLargestSequence(topic))));
    forall n: nat | n <= U64_MAX
      ensures ReplySize(Sent(s.runId, topic, n)) <= ReplySize(Sent(s.runId, topic, U64_MAX))
    {
      VarintMonotone(n, U64_MAX);
    }
  }

  lemma EventSendableIff(s: State, topic: TopicSnapshot, payload: JsonPayload)
    ensures EventSendable(s, topic, payload) <==> UpdateFits(s, EventAt(topic, U64_MAX, payload))
  {
    assert SentEvent(s.runId, topic, payload, U64_MAX)
           == Update(UpdateEnvelope(ServiceCursor(s.runId, U64_MAX), EventAt(topic, U64_MAX, payload)));
    forall n: nat | n <= U64_MAX
      ensures ReplySize(SentEvent(s.runId, topic, payload, n)) <= ReplySize(SentEvent(s.runId, topic, payload, U64_MAX))
    {
      VarintMonotone(n, U64_MAX);
    }
  }

  lemma InfoSendableIff(s: State, info: SessionInfo)
    ensures InfoSendable(s, info) <==> UpdateFits(s, SessionChanged(info))
  {
    assert SentInfo(s.runId, info, U64_MAX) == Update(UpdateEnvelope(ServiceCursor(s.runId, U64_MAX), SessionChanged(info)));
    forall n: nat | n <= U64_MAX
      ensures ReplySize(SentInfo(s.runId, info, n)) <= ReplySize(SentInfo(s.runId, info, U64_MAX))
    {
      VarintMonotone(n, U64_MAX);
    }
  }

  // ---- the conditions

  /** The ticket names only demanded topics, each at the generation and epoch they have now. */
  predicate Holds(s: State, ticket: PollTicket) {
    && ticket.sessionId in s.sessions
    && forall k :: k in ticket.topics ==>
         && k in s.sessions[ticket.sessionId].topics
         && var topic := s.sessions[ticket.sessionId].topics[k];
            topic.demanded && ticket.topics[k] == Demand(topic.state.generation, topic.epoch)
  }

  predicate Countable(topics: Topics, ops: seq<Operation>) {
    forall op :: op in ops && op.ResetOp? && op.key in topics ==>
      topics[op.key].state.generation < U64_MAX && topics[op.key].epoch < U64_MAX
  }

  /** Available data of a snapshot capability is there, and the topic can be sent whenever its turn comes. */
  ghost predicate TopicAcceptable(s: State, k: TopicRef, topic: TopicSnapshot) {
    && Addressable(s.catalog, k)
    && (topic.health == Available && CapabilityOf(s.catalog, k).snapshots ==> topic.snapshot.Some?)
    && TopicSendable(s, topic)
  }

  /** An event that no later reset withdrew belongs to a topic that ends up available. */
  ghost predicate EventAcceptable(s: State, ops: seq<Operation>, topics: Topics, i: nat)
    requires i < |ops|
  {
    ops[i].EventOp? && (forall j :: i < j < |ops| ==> ops[j] != ResetOp(ops[i].key)) ==>
      && ops[i].key in topics
      && topics[ops[i].key].state.health == Available
      && EventSendable(s, topics[ops[i].key].state, ops[i].payload)
  }

  /** The batch, whose outcome these topics are, may be published. */
  ghost predicate Acceptable(s: State, session: Session, ticket: PollTicket, batch: Pending, topics: Topics) {
    && (forall op :: op in batch.ops ==> op.key in ticket.topics)
    && (forall k :: k in topics ==> TopicAcceptable(s, k, topics[k].state))
    && (forall i: nat :: i < |batch.ops| ==> EventAcceptable(s, batch.ops, topics, i))
    && Retained(s.sessions[ticket.sessionId := session.(topics := session.topics + topics)]) <= 32 * 1024 * 1024
    && (batch.gameBuild != session.info.gameBuild ==> InfoSendable(s, session.info.(gameBuild := batch.gameBuild)))
    && s.sequence + |NewMetadata(session.info, batch.gameBuild)| + |batch.resets| + |Named(batch.ops)|
       + |SurvivingEvents(batch.ops, |batch.ops|)| <= U64_MAX
  }

  ghost predicate Publishable(s: State, ticket: PollTicket, batch: Pending, deadline: nat, topics: Topics) {
    && !batch.failed && !s.stopped
    && Holds(s, ticket)
    && Countable(s.sessions[ticket.sessionId].topics, batch.ops)
    && Describes(s.sessions[ticket.sessionId], batch.ops, deadline, topics)
    && Acceptable(s, s.sessions[ticket.sessionId], ticket, batch, topics)
  }

  // ---- the outcome of a batch is one

  lemma {:induction false} LastSetExists(ops: seq<Operation>, k: TopicRef) returns (i: nat)
    requires !NoneSets(ops, k)
    ensures LastSet(ops, k, i)
    decreases |ops|
  {
    hide Sets;
    var front, op := ops[..|ops| - 1], ops[|ops| - 1];
    assert ops == front + [op];
    if Sets(op, k) {
      i := |front|;
    } else {
      NoneMore(front, op, k);
      i := LastSetExists(front, k);
      LastMore(front, op, k, i);
    }
  }

  lemma {:induction false} LastDecidedExists(ops: seq<Operation>, k: TopicRef) returns (i: nat)
    requires !NoneDecides(ops, k)
    ensures LastDecided(ops, k, i)
    decreases |ops|
  {
    hide Decides;
    var front, op := ops[..|ops| - 1], ops[|ops| - 1];
    assert ops == front + [op];
    if Decides(op, k) {
      i := |front|;
    } else {
      NoneMore(front, op, k);
      i := LastDecidedExists(front, k);
      LastMore(front, op, k, i);
    }
  }

  lemma SameShown(before: Topic, ops: seq<Operation>, deadline: nat, k: TopicRef, a: Topic, b: Topic)
    requires ShowsLast(before, ops, deadline, k, a) && ShowsLast(before, ops, deadline, k, b)
    ensures a.state.health == b.state.health && a.deadline == b.deadline
  {
    hide NoneSets;
    if !NoneSets(ops, k) {
      var i := LastSetExists(ops, k);
    }
  }

  lemma SameKept(before: Topic, ops: seq<Operation>, k: TopicRef, a: Topic, b: Topic)
    requires KeepsLast(before, ops, k, a) && KeepsLast(before, ops, k, b)
    requires a.state.source == b.state.source && a.state.generation == b.state.generation
    requires Unpublished(before, ops, k, a) && Unpublished(before, ops, k, b)
    ensures a.state.snapshot == b.state.snapshot
  {
    hide NoneDecides;
    if !NoneDecides(ops, k) {
      var i := LastDecidedExists(ops, k);
      assert DecidedBy(ops[i], a) && DecidedBy(ops[i], b);
    }
  }

  lemma OutcomeIsOne(session: Session, ops: seq<Operation>, deadline: nat, a: Topics, b: Topics)
    requires Describes(session, ops, deadline, a) && Describes(session, ops, deadline, b)
    ensures a == b
  {
    hide ShowsLast, KeepsLast, Unpublished, Names;
    forall k | k in a ensures k in b && a[k] == b[k] {
      assert Names(ops, k);
      SameShown(session.topics[k], ops, deadline, k, a[k], b[k]);
      SameKept(session.topics[k], ops, k, a[k], b[k]);
    }
    forall k | k in b ensures k in a {
      assert Names(ops, k);
    }
  }

  // ---- staging succeeds

  lemma {:induction false} NotReset(ops: seq<Operation>, k: TopicRef)
    requires k !in ResetsOf(ops)
    ensures ResetsAt(ops, k) == {}
    decreases |ops|
  {
    if ops != [] {
      var front := ops[..|ops| - 1];
      NotReset(front, k);
      forall i: nat | i < |ops| ensures ops[i] != ResetOp(k) {
        if i < |front| {
          assert front[i] == ops[i] && (ops[i] == ResetOp(k) ==> i in ResetsAt(front, k));
        }
      }
    }
  }

  lemma {:induction false} StagingRuns(session: Session, ticket: PollTicket, ops: seq<Operation>, deadline: nat)
    requires NoRepeats(ResetsOf(ops)) && Countable(session.topics, ops)
    requires forall op :: op in ops ==> op.key in ticket.topics && op.key in session.topics
    ensures Prepare(session, ticket, ops, deadline).Ok?
    decreases |ops|
  {
    hide StageOp, Describes;
    if ops != [] {
      var front, op := ops[..|ops| - 1], ops[|ops| - 1];
      assert op in ops && forall o :: o in front ==> o in ops;
      StagingProofs.DistinctFront(ops);
      StagingRuns(session, ticket, front, deadline);
      var st := Prepare(session, ticket, front, deadline).value;
      PrepareDescribes(session, ticket, front, deadline, st);
      StagingStepRuns(session, ticket, front, op, deadline, st);
    }
  }

  lemma StagingStepRuns(session: Session, ticket: PollTicket, ops: seq<Operation>, op: Operation, deadline: nat, st: Staged)
    requires Describes(session, ops, deadline, st.topics)
    requires op.key in ticket.topics && op.key in session.topics
    requires op.ResetOp? ==> op.key !in ResetsOf(ops)
    requires op.ResetOp? ==> session.topics[op.key].state.generation < U64_MAX && session.topics[op.key].epoch < U64_MAX
    ensures StageOp(session, ticket, st, op, deadline).Ok?
  {
    hide ShowsLast, KeepsLast, Unpublished, Names;
    if op.ResetOp? {
      NotReset(ops, op.key);
    }
  }

  // ---- validation

  lemma TopicAcceptableIff(s: State, k: TopicRef, topic: Topic)
    ensures AdmitTopic(s, k, topic).None? <==> TopicAcceptable(s, k, topic.state)
  {
    FindsIff(s.catalog, k);
    TopicSendableIff(s, topic.state);
  }

  lemma {:induction false} TopicsAcceptableIff(s: State, topics: Topics, keys: seq<TopicRef>)
    requires forall k :: k in keys ==> k in topics
    ensures AdmitTopics(s, topics, keys).None? <==> forall k :: k in keys ==> TopicAcceptable(s, k, topics[k].state)
    decreases |keys|
  {
    hide TopicAcceptable, AdmitTopic;
    if keys != [] {
      TopicAcceptableIff(s, keys[0], topics[keys[0]]);
      TopicsAcceptableIff(s, topics, keys[1..]);
      assert keys == [keys[0]] + keys[1..];
    }
  }

  ghost predicate Announceable(s: State, topics: Topics, e: (TopicRef, JsonPayload)) {
    e.0 in topics && topics[e.0].state.health == Available && EventSendable(s, topics[e.0].state, e.1)
  }

  lemma {:induction false} EventsAcceptableIff(s: State, st: Staged, events: seq<(TopicRef, JsonPayload)>)
    ensures AdmitEvents(s, st, events).None? <==> forall e :: e in events ==> Announceable(s, st.topics, e)
    decreases |events|
  {
    hide EventSendable;
    if events != [] {
      var e := events[0];
      if e.0 in st.topics {
        EventSendableIff(s, st.topics[e.0].state, e.1);
      }
      EventsAcceptableIff(s, st, events[1..]);
      assert events == [e] + events[1..];
      assert AdmitEvents(s, st, events).None? <==> Announceable(s, st.topics, e) && AdmitEvents(s, st, events[1..]).None?;
    }
  }

  lemma {:induction false} SurvivorsAt(ops: seq<Operation>, n: nat, e: (TopicRef, JsonPayload))
    requires n <= |ops|
    ensures e in SurvivingEvents(ops, n) <==>
            exists i: nat :: i < n && ops[i] == EventOp(e.0, e.1) && Survives(ops, i)
  {
    hide Survives;
    if n > 0 {
      SurvivorsAt(ops, n - 1, e);
    }
  }

  lemma SurvivorsAcceptable(s: State, ops: seq<Operation>, topics: Topics)
    ensures (forall e :: e in SurvivingEvents(ops, |ops|) ==> Announceable(s, topics, e))
            <==> (forall i: nat :: i < |ops| ==> EventAcceptable(s, ops, topics, i))
  {
    hide EventSendable;
    var events := SurvivingEvents(ops, |ops|);
    forall i: nat | i < |ops| && ops[i].EventOp?
      ensures Survives(ops, i) <==> forall j :: i < j < |ops| ==> ops[j] != ResetOp(ops[i].key)
    {
      SurvivesMeans(ops, i);
    }
    if forall e :: e in events ==> Announceable(s, topics, e) {
      forall i: nat | i < |ops| && ops[i].EventOp? && Survives(ops, i)
        ensures Announceable(s, topics, (ops[i].key, ops[i].payload))
      {
        SurvivorsAt(ops, |ops|, (ops[i].key, ops[i].payload));
      }
    }
    if forall i: nat :: i < |ops| ==> EventAcceptable(s, ops, topics, i) {
      forall e | e in events ensures Announceable(s, topics, e) {
        SurvivorsAt(ops, |ops|, e);
        var i: nat :| i < |ops| && ops[i] == EventOp(e.0, e.1) && Survives(ops, i);
        assert EventAcceptable(s, ops, topics, i);
      }
    }
  }

  lemma SurvivesMeans(ops: seq<Operation>, i: nat)
    requires i < |ops|
    ensures Survives(ops, i) <==> forall j :: i < j < |ops| ==> ops[j] != ResetOp(ops[i].key)
  {
    if !Survives(ops, i) {
      var j :| i < j < |ops| && ops[j].ResetOp? && ops[j].key == ops[i].key;
      assert ops[j] == ResetOp(ops[i].key);
    }
  }

  // ---- retained bytes

  function Bytes(topic: Topic): nat {
    if topic.state.snapshot.Some? then |topic.state.snapshot.value.payload| else 0
  }

  lemma OneWeight(k: TopicRef, weight: TopicRef -> nat)
    ensures Sums.SumOver(TopicsInOrder({k}), weight) == weight(k)
  {
    var keys := TopicsInOrder({k});
    Sums.SumAtMost(keys, [k], weight, weight);
    Sums.SumAtMost([k], keys, weight, weight);
    Sums.SumSingle(k, weight);
  }

  /** Storing a topic moves what a service retains by exactly the difference of the two
      payloads; while no topic has data it is nothing. */
  lemma RetainedCounts(sessions: Sessions, p: Place, topic: Topic)
    requires Placed(sessions, p)
    ensures Retained(Put(sessions, p, topic)) + Bytes(At(sessions, p)) == Retained(sessions) + Bytes(topic)
  {
    hide Retained, Enumerates;
    RetainedReplaces(sessions, Put(sessions, p, topic), p.id, map[p.key := topic]);
    OneWeight(p.key, TopicWeight(sessions[p.id].topics));
    OneWeight(p.key, TopicWeight(map[p.key := topic]));
    assert (map[p.key := topic]).Keys == {p.key};
  }

  lemma RetainedNothing(sessions: Sessions)
    requires forall p :: Placed(sessions, p) ==> At(sessions, p).state.snapshot.None?
    ensures Retained(sessions) == 0
  {
    forall id | id in sessions ensures SessionWeight(sessions)(id) == 0 {
      forall k | k in sessions[id].topics ensures sessions[id].topics[k].state.snapshot.None? {
        assert Placed(sessions, Place(id, k)) && At(sessions, Place(id, k)) == sessions[id].topics[k];
      }
      SessionRetainsNothing(sessions[id]);
    }
    Sums.SumAtMost(IdsInOrder(sessions.Keys), [], SessionWeight(sessions), SessionWeight(sessions));
  }

  // ---- the law

  lemma BytesIff(s: State, id: string, topics: Topics)
    requires id in s.sessions && topics.Keys <= s.sessions[id].topics.Keys
    ensures var keys := TopicsInOrder(topics.Keys);
            Retained(s.sessions[id := s.sessions[id].(topics := s.sessions[id].topics + topics)])
            == Retained(s.sessions) - TopicsBytes(s.sessions[id].topics, keys) + TopicsBytes(topics, keys)
  {
    RetainedReplaces(s.sessions, s.sessions[id := s.sessions[id].(topics := s.sessions[id].topics + topics)], id, topics);
  }

  /** A staged batch is vetted exactly when it is acceptable. */
  lemma VetIff(s: State, ticket: PollTicket, batch: Pending, deadline: nat, st: Staged)
    requires ticket.sessionId in s.sessions
    requires Prepare(s.sessions[ticket.sessionId], ticket, batch.ops, deadline) == Ok(st)
    requires batch.resets == ResetsOf(batch.ops)
    ensures var session := s.sessions[ticket.sessionId];
            Vet(s, ticket, batch, deadline) == Ok(st) && Room(s, Reserve(session, batch, st))
            <==> Acceptable(s, session, ticket, batch, st.topics)
  {
    hide AdmitTopics, AdmitEvents, Announceable, EventAcceptable, TopicAcceptable, InfoSendable, Retained, Prepare,
         StagesAs, FoldsAt, UpdateFits, Survives, Names, SurvivingEvents;
    var session := s.sessions[ticket.sessionId];
    StagedKeys(session, ticket, batch, deadline, st);
    TopicsAcceptableIff(s, st.topics, TopicsInOrder(st.topics.Keys));
    EventsAcceptableIff(s, st, st.events);
    SurvivorsAcceptable(s, batch.ops, st.topics);
    BytesIff(s, ticket.sessionId, st.topics);
    InfoSendableIff(s, session.info.(gameBuild := batch.gameBuild));
    MetadataSendable(s, session, batch);
  }

  lemma MetadataSendable(s: State, session: Session, batch: Pending)
    ensures (exists u :: u in MetadataUpdate(session, batch) && !UpdateFits(s, u))
            <==> batch.gameBuild != session.info.gameBuild
                 && !UpdateFits(s, SessionChanged(session.info.(gameBuild := batch.gameBuild)))
    ensures |MetadataUpdate(session, batch)| == |NewMetadata(session.info, batch.gameBuild)|
  {
    if batch.gameBuild != session.info.gameBuild {
      assert SessionChanged(session.info.(gameBuild := batch.gameBuild)) in MetadataUpdate(session, batch);
    }
  }

  /** What staging says of the batch: its topics are those named, all of them demanded by the ticket. */
  lemma StagedKeys(session: Session, ticket: PollTicket, batch: Pending, deadline: nat, st: Staged)
    requires Prepare(session, ticket, batch.ops, deadline) == Ok(st)
    requires batch.resets == ResetsOf(batch.ops)
    ensures st.topics.Keys == Named(batch.ops) && st.topics.Keys <= session.topics.Keys
    ensures st.resets == batch.resets && st.events == SurvivingEvents(batch.ops, |batch.ops|)
    ensures forall op :: op in batch.ops ==> op.key in ticket.topics
  {
    hide StagesAs, FoldsAt, Names;
    PrepareDescribes(session, ticket, batch.ops, deadline, st);
    PrepareFolds(session, ticket, batch.ops, deadline, st);
    PrepareOk(session, ticket, batch.ops, deadline);
    NamedKeys(session, batch.ops, deadline, st.topics);
    forall op | op in batch.ops ensures op.key in ticket.topics {
      assert op.key in Named(batch.ops);
    }
  }

  lemma HoldsIff(s: State, ticket: PollTicket)
    ensures Current(s, ticket) <==> Holds(s, ticket)
  {
  }

  lemma CountableIff(session: Session, ops: seq<Operation>)
    ensures Countable(session.topics, ops) <==> !ResetExhausts(session, ops)
  {
  }

  /** The law of admission, for every batch that a provider can build: a poll is accepted
      exactly when its ticket still holds, no counter runs out, it names only the ticket's
      topics, and the outcome that the batch describes can be published: data where it must
      be, events only of available topics, and every frame, the retained bytes and the
      sequence within their bounds. */
  lemma AcceptedIff(s: State, ticket: PollTicket, batch: Pending, manifest: Manifest, deadline: nat, now: nat)
    requires WellFormed(batch, manifest)
    ensures CommitPoll(s, ticket, batch, deadline, now).1 == Ok(true)
            <==> exists topics :: Publishable(s, ticket, batch, deadline, topics)
  {
    hide Prepare, Vet, Acceptable, Reserve, Describes, CommitPoll, Current, Countable, ResetExhausts, Room, Landed,
         Close, Settle;
    OutcomeCases(s, ticket, batch, deadline, now);
    CommittedIff(s, ticket, batch, deadline, manifest);
  }

  lemma CommittedIff(s: State, ticket: PollTicket, batch: Pending, deadline: nat, manifest: Manifest)
    requires WellFormed(batch, manifest)
    ensures OutcomeOf(s, ticket, batch, deadline).Committed?
            <==> exists topics :: Publishable(s, ticket, batch, deadline, topics)
  {
    hide Prepare, Vet, Acceptable, Reserve, Describes, Current, Countable, ResetExhausts, Room;
    HoldsIff(s, ticket);
    if !batch.failed && !s.stopped && Current(s, ticket) {
      var session := HeldSession(s, ticket);
      CountableIff(session, batch.ops);
      if Countable(session.topics, batch.ops) {
        AcceptedStagedIff(s, ticket, batch, deadline);
        forall topics
          ensures Publishable(s, ticket, batch, deadline, topics)
                  <==> Describes(session, batch.ops, deadline, topics) && Acceptable(s, session, ticket, batch, topics)
        {
        }
      }
    }
  }

  lemma HeldSession(s: State, ticket: PollTicket) returns (session: Session)
    requires Holds(s, ticket)
    ensures ticket.sessionId in s.sessions && session == s.sessions[ticket.sessionId]
  {
    session := s.sessions[ticket.sessionId];
  }

  lemma AcceptedStagedIff(s: State, ticket: PollTicket, batch: Pending, deadline: nat)
    requires ticket.sessionId in s.sessions && Holds(s, ticket)
    requires Countable(s.sessions[ticket.sessionId].topics, batch.ops)
    requires batch.resets == ResetsOf(batch.ops) && NoRepeats(batch.resets)
    ensures var session := s.sessions[ticket.sessionId];
            (Vet(s, ticket, batch, deadline).Ok?
             && Room(s, Reserve(session, batch, Vet(s, ticket, batch, deadline).value)))
            <==> exists topics :: Describes(session, batch.ops, deadline, topics)
                                  && Acceptable(s, session, ticket, batch, topics)
  {
    hide Validate, Describes, Countable, Reserve, UpdateFits;
    var session := s.sessions[ticket.sessionId];
    var prepared := Prepare(session, ticket, batch.ops, deadline);
    if prepared.Ok? {
      var st := prepared.value;
      PrepareDescribes(session, ticket, batch.ops, deadline, st);
      VetIff(s, ticket, batch, deadline, st);
      forall topics | Describes(session, batch.ops, deadline, topics) ensures topics == st.topics {
        OutcomeIsOne(session, batch.ops, deadline, topics, st.topics);
      }
    } else if exists topics :: Describes(session, batch.ops, deadline, topics)
                               && Acceptable(s, session, ticket, batch, topics) {
      StagingRuns(session, ticket, batch.ops, deadline);
    }
  }

  // ---- tickets

  /** A ticket is issued exactly for a session that is there while the service runs; it holds,
      and it covers every topic that is demanded. */
  lemma TicketCovers(s: State, id: string)
    ensures var ticket := CurrentTicket(s, id);
            && (ticket.Some? <==> !s.stopped && id in s.sessions)
            && (ticket.Some? ==>
                  && ticket.value.sessionId == id && Holds(s, ticket.value)
                  && forall k :: k in s.sessions[id].topics && s.sessions[id].topics[k].demanded ==> k in ticket.value.topics)
  {
  }
}
