/** What every reachable service state satisfies. */
module Invariant {
  import opened Wire
  import opened Selecting
  import opened SubscriptionQueue
  import opened ClientValidation
  import opened Views
  import opened Service
  import opened Streams
  import opened Publication

  /** Identity and counters of a topic. */
  predicate TopicShape(topic: Topic, info: SessionInfo, key: TopicRef) {
    && topic.state.source == TopicSource(info.session, info.gameId, key)
    && 1 <= topic.state.generation <= U64_MAX
    && topic.epoch <= U64_MAX
  }

  /** Idle exactly when not demanded; a snapshot exactly on an available snapshot
      capability, agreeing with its topic; available data always has a deadline. */
  predicate TopicOk(topic: Topic, cap: Capability, sequence: nat) {
    && (topic.state.health.Idle? <==> !topic.demanded)
    && (!topic.demanded ==> topic.deadline.None?)
    && SnapshotMatches(topic.state, sequence)
    && (topic.state.health.Available? ==>
          topic.deadline.Some? && (cap.snapshots <==> topic.state.snapshot.Some?))
  }

  predicate Registered(catalog: Catalog, key: TopicRef) {
    key.providerId in catalog && CapabilityKey(key.topic, key.schemaVersion) in catalog[key.providerId]
  }

  function CapabilityOf(catalog: Catalog, key: TopicRef): Capability
    requires Registered(catalog, key)
  {
    catalog[key.providerId][CapabilityKey(key.topic, key.schemaVersion)]
  }

  ghost predicate SessionShape(session: Session, id: string, catalog: Catalog, runId: string) {
    && session.info.session == SessionRef(runId, id)
    && InfoOk(session.info, runId)
    && session.info.providerId in catalog
    && (forall k :: k in session.topics <==> k.providerId == session.info.providerId && Registered(catalog, k))
    && (forall k :: k in session.topics ==> TopicShape(session.topics[k], session.info, k))
  }

  ghost predicate Shaped(sessions: Sessions, catalog: Catalog, runId: string) {
    forall id :: id in sessions ==> SessionShape(sessions[id], id, catalog, runId)
  }

  ghost predicate TopicsOk(sessions: Sessions, catalog: Catalog, sequence: nat) {
    forall p :: Placed(sessions, p) && Registered(catalog, p.key) ==>
      TopicOk(At(sessions, p), CapabilityOf(catalog, p.key), sequence)
  }

  predicate SelectionOk(selection: Selection, catalog: Catalog) {
    forall k :: k in selection.topics ==> Registered(catalog, k)
  }

  /** Counters within u64, identities below the next one, and a stopped service silent. */
  ghost predicate StateOk(s: State) {
    && s.sequence <= U64_MAX && s.nextSubscription <= U64_MAX && s.revision <= U64_MAX
    && Identifier(s.runId)
    && Shaped(s.sessions, s.catalog, s.runId)
    && TopicsOk(s.sessions, s.catalog, s.sequence)
    && (forall id :: id in s.subscribers ==>
          id <= s.nextSubscription && SelectionOk(s.subscribers[id].selection, s.catalog))
    && (forall id :: id in s.channels ==> id <= s.nextSubscription)
    && (s.stopped ==> s.subscribers == map[] && forall p :: Placed(s.sessions, p) ==> !At(s.sessions, p).demanded)
  }

  ghost predicate DemandExact(s: State) {
    forall p :: Placed(s.sessions, p) ==>
      At(s.sessions, p).demanded == Demanded(s.subscribers, s.sessions[p.id].info.session, p.key)
  }

  /** No subscriber has ended, and a topic is demanded exactly when one selects it. */
  ghost predicate Settled(s: State) {
    !Unsettled(s) && DemandExact(s)
  }

  ghost predicate AllActive(s: State) {
    forall id :: id in s.subscribers ==> s.subscribers[id].active
  }

  /** Every cached snapshot was published by a provider and fits a frame at every later sequence. */
  ghost predicate Cached(s: State, texts: set<JsonPayload>) {
    forall p :: Placed(s.sessions, p) && At(s.sessions, p).state.snapshot.Some? ==>
      && TopicFrom(At(s.sessions, p).state, texts)
      && UpdateFits(s, TopicChanged(AtLargestSequence(At(s.sessions, p).state)))
  }

  ghost predicate Bounded(s: State) {
    Retained(s.sessions) <= RETAINED_SNAPSHOT_BYTES
  }

  /** The invariant of the service between locked operations. */
  ghost predicate Inv(s: State, texts: set<JsonPayload>) {
    && StateOk(s)
    && Synced(s, Public(s.sessions), texts)
    && Settled(s)
    && AllActive(s)
    && Cached(s, texts)
    && Bounded(s)
  }

  lemma PublicFiled(s: State)
    requires Shaped(s.sessions, s.catalog, s.runId)
    ensures Filed(Public(s.sessions), s.runId)
  {
  }

  /** Every snapshot of the new sessions was already there, in the same topic state. */
  ghost predicate Sheds(before: Sessions, after: Sessions) {
    forall p :: Placed(after, p) && At(after, p).state.snapshot.Some? ==>
      Placed(before, p) && At(before, p).state == At(after, p).state
  }

  lemma CachedSheds(s: State, t: State, texts: set<JsonPayload>)
    requires Cached(s, texts) && Sheds(s.sessions, t.sessions)
    requires t.runId == s.runId && t.messageBytes == s.messageBytes
    ensures Cached(t, texts)
  {
    forall p | Placed(t.sessions, p) && At(t.sessions, p).state.snapshot.Some?
      ensures TopicFrom(At(t.sessions, p).state, texts)
      ensures UpdateFits(t, TopicChanged(AtLargestSequence(At(t.sessions, p).state)))
    {
      assert At(s.sessions, p).state == At(t.sessions, p).state;
    }
  }

  /** Closing quiets every topic, whatever state the operation had reached. */
  lemma CloseOk(s: State, end: SubscriptionEnd)
    requires s.sequence <= U64_MAX && s.nextSubscription <= U64_MAX && s.revision <= U64_MAX && Identifier(s.runId)
    requires Shaped(s.sessions, s.catalog, s.runId)
    requires forall id :: id in s.channels ==> id <= s.nextSubscription
    ensures StateOk(Close(s, end)) && Settled(Close(s, end)) && AllActive(Close(s, end))
  {
    var t := Close(s, end);
    forall id | id in t.sessions ensures SessionShape(t.sessions[id], id, t.catalog, t.runId) {
      assert SessionShape(s.sessions[id], id, s.catalog, s.runId);
    }
    forall p | Placed(t.sessions, p)
      ensures !At(t.sessions, p).demanded && At(t.sessions, p).state.health.Idle?
      ensures At(t.sessions, p).state.snapshot.None? && At(t.sessions, p).deadline.None?
    {
      assert Placed(s.sessions, p) && At(t.sessions, p) == Quiet(At(s.sessions, p));
    }
  }
}
