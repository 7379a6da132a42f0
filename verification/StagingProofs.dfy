/** What staging a well-formed batch produces, topic by topic. */
module StagingProofs {
  import opened Wire
  import opened Ordering
  import opened ClientValidation
  import opened Service
  import opened Streams
  import opened PollBatch
  import opened Publication
  import opened Invariant

  /** A snapshot that staging holds: in step with its topic, published by a provider. */
  predicate StagedSnapshotOk(state: TopicSnapshot, cap: Capability, texts: set<JsonPayload>) {
    state.snapshot.Some? ==>
      && state.health.Available?
      && cap.snapshots
      && state.snapshot.value.metadata.source == state.source
      && state.snapshot.value.metadata.generation == state.generation
      && state.snapshot.value.payload in texts
  }

  /** A staged topic is the current one moved along by at most one reset. */
  predicate StagedTopicOk(current: Topic, topic: Topic, reset: bool, cap: Capability, texts: set<JsonPayload>) {
    && topic.state.source == current.state.source
    && topic.demanded && current.demanded
    && topic.state.generation == current.state.generation + (if reset then 1 else 0)
    && topic.epoch == current.epoch + (if reset then 1 else 0)
    && topic.state.generation <= U64_MAX && topic.epoch <= U64_MAX
    && !topic.state.health.Idle?
    && (topic.state.health.Available? ==> topic.deadline.Some?)
    && StagedSnapshotOk(topic.state, cap, texts)
  }

  ghost predicate PreparedAt(session: Session, st: Staged, manifest: Manifest, texts: set<JsonPayload>, k: TopicRef)
    requires k in st.topics
  {
    && k in session.topics
    && CapabilityKey(k.topic, k.schemaVersion) in manifest.capabilities
    && StagedTopicOk(session.topics[k], st.topics[k], k in st.resets,
                     manifest.capabilities[CapabilityKey(k.topic, k.schemaVersion)], texts)
  }

  ghost predicate Prepared(session: Session, st: Staged, manifest: Manifest, texts: set<JsonPayload>) {
    && StagedOk(st)
    && (forall k :: k in st.topics ==> PreparedAt(session, st, manifest, texts, k))
    && (forall e :: e in st.events ==> e.1 in texts)
  }

  /** The current topics of a session that a ticket demands, as staging needs them. */
  ghost predicate Stageable(session: Session, ticket: PollTicket, manifest: Manifest, texts: set<JsonPayload>) {
    forall k :: k in ticket.topics && k in session.topics
                && CapabilityKey(k.topic, k.schemaVersion) in manifest.capabilities ==>
      StagedTopicOk(session.topics[k], session.topics[k], false,
                    manifest.capabilities[CapabilityKey(k.topic, k.schemaVersion)], texts)
  }

  predicate PayloadFrom(op: Operation, texts: set<JsonPayload>) {
    (op.SnapshotOp? || op.EventOp?) ==> op.payload in texts
  }

  lemma StagingOk(current: Topic, topic: Topic, reset: bool, op: Operation, deadline: nat, cap: Capability,
                  texts: set<JsonPayload>)
    requires StagedTopicOk(current, topic, reset, cap, texts)
    requires op.ResetOp? ==> !reset
    requires op.SnapshotOp? ==> cap.snapshots
    requires op.HealthOp? ==> op.health.Available? || op.health.Unavailable?
    requires PayloadFrom(op, texts)
    requires Publication.Staging(topic, op, deadline).Ok?
    ensures StagedTopicOk(current, Publication.Staging(topic, op, deadline).value, reset || op.ResetOp?, cap, texts)
  {
  }

  lemma StageOpOk(session: Session, ticket: PollTicket, st: Staged, op: Operation, deadline: nat,
                  manifest: Manifest, texts: set<JsonPayload>)
    requires Prepared(session, st, manifest, texts) && Stageable(session, ticket, manifest, texts)
    requires OpOk(op, manifest) && PayloadFrom(op, texts) && (op.ResetOp? ==> op.key !in st.resets)
    requires StageOp(session, ticket, st, op, deadline).Ok?
    requires forall k :: k in st.resets ==> k in st.topics
    ensures Prepared(session, StageOp(session, ticket, st, op, deadline).value, manifest, texts)
  {
    var next := StageOp(session, ticket, st, op, deadline).value;
    var cap := manifest.capabilities[CapabilityKey(op.key.topic, op.key.schemaVersion)];
    if op.key in st.topics {
      assert PreparedAt(session, st, manifest, texts, op.key);
      StagingOk(session.topics[op.key], st.topics[op.key], op.key in st.resets, op, deadline, cap, texts);
    } else {
      StagingOk(session.topics[op.key], session.topics[op.key], false, op, deadline, cap, texts);
    }
    WithoutEventsSubset(st.events, op.key);
    forall k | k in next.topics ensures PreparedAt(session, next, manifest, texts, k) {
      if k != op.key {
        assert PreparedAt(session, st, manifest, texts, k);
        assert k in next.resets <==> k in st.resets;
      }
    }
  }

  lemma DistinctFront(ops: seq<Operation>)
    requires ops != [] && NoRepeats(ResetsOf(ops))
    ensures NoRepeats(ResetsOf(ops[..|ops| - 1]))
    ensures ops[|ops| - 1].ResetOp? ==> ops[|ops| - 1].key !in ResetsOf(ops[..|ops| - 1])
  {
    var front := ResetsOf(ops[..|ops| - 1]);
    var all := ResetsOf(ops);
    assert forall i :: 0 <= i < |front| ==> all[i] == front[i];
    if ops[|ops| - 1].ResetOp? {
      assert all[|front|] == ops[|ops| - 1].key;
    }
  }

  /** Staging a well-formed batch moves each topic along by its resets, in order. */
  lemma {:induction false} PrepareKeeps(session: Session, ticket: PollTicket, ops: seq<Operation>, deadline: nat,
                                        manifest: Manifest, texts: set<JsonPayload>)
    requires Stageable(session, ticket, manifest, texts)
    requires forall op :: op in ops ==> OpOk(op, manifest) && PayloadFrom(op, texts)
    requires NoRepeats(ResetsOf(ops))
    requires Prepare(session, ticket, ops, deadline).Ok?
    ensures var st := Prepare(session, ticket, ops, deadline).value;
            Prepared(session, st, manifest, texts) && st.resets == ResetsOf(ops)
  {
    if ops != [] {
      var front, op := ops[..|ops| - 1], ops[|ops| - 1];
      DistinctFront(ops);
      assert op in ops && forall o :: o in front ==> o in ops;
      PrepareKeeps(session, ticket, front, deadline, manifest, texts);
      var st := Prepare(session, ticket, front, deadline).value;
      StageOpOk(session, ticket, st, op, deadline, manifest, texts);
      assert ResetsOf(front) + [] == ResetsOf(front);
    }
  }

  lemma {:induction false} AdmittedTopics(s: State, topics: map<TopicRef, Topic>, keys: seq<TopicRef>)
    requires forall k :: k in keys ==> k in topics
    requires AdmitTopics(s, topics, keys).None?
    ensures forall k :: k in keys ==> AdmitTopic(s, k, topics[k]).None?
  {
    if keys != [] {
      AdmittedTopics(s, topics, keys[1..]);
      assert keys == [keys[0]] + keys[1..];
    }
  }

  lemma {:induction false} AdmittedEvents(s: State, st: Staged, events: seq<(TopicRef, JsonPayload)>)
    requires AdmitEvents(s, st, events).None?
    ensures forall e :: e in events ==>
              && e.0 in st.topics && st.topics[e.0].state.health.Available?
              && UpdateFits(s, EventAt(st.topics[e.0].state, U64_MAX, e.1))
  {
    if events != [] {
      AdmittedEvents(s, st, events[1..]);
      assert events == [events[0]] + events[1..];
    }
  }

  /** Everything that a vetted poll is known to satisfy. */
  lemma Vetted(s: State, ticket: PollTicket, batch: Pending, deadline: nat)
    requires ticket.sessionId in s.sessions && Vet(s, ticket, batch, deadline).Ok?
    ensures var session := s.sessions[ticket.sessionId];
            var st := Vet(s, ticket, batch, deadline).value;
            && Prepare(session, ticket, batch.ops, deadline) == Ok(st)
            && (forall k :: k in st.topics ==> AdmitTopic(s, k, st.topics[k]).None?)
            && (forall e :: e in st.events ==>
                  && e.0 in st.topics && st.topics[e.0].state.health.Available?
                  && UpdateFits(s, EventAt(st.topics[e.0].state, U64_MAX, e.1)))
            && Retained(s.sessions) - TopicsBytes(session.topics, TopicsInOrder(st.topics.Keys))
               + TopicsBytes(st.topics, TopicsInOrder(st.topics.Keys)) <= RETAINED_SNAPSHOT_BYTES
  {
    var st := Vet(s, ticket, batch, deadline).value;
    AdmittedTopics(s, st.topics, TopicsInOrder(st.topics.Keys));
    AdmittedEvents(s, st, st.events);
  }
}
