/** Committing a vetted poll is one transaction: every staged topic lands, every
    subscriber follows, and the service is well formed again at the end. */
module Committing {
  import opened Wire
  import opened Ordering
  import opened ClientValidation
  import opened Views
  import opened Service
  import opened Streams
  import opened PollBatch
  import opened Publication
  import opened Invariant
  import opened Sweeps
  import opened Retention
  import opened Settling
  import opened SessionSync
  import opened StagingProofs

  // ---- storing one topic

  lemma PutShapedBy(sessions: Sessions, p: Place, topic: Topic, catalog: Catalog, runId: string)
    requires Placed(sessions, p) && Shaped(sessions, catalog, runId)
    requires TopicShape(topic, sessions[p.id].info, p.key)
    ensures Shaped(Put(sessions, p, topic), catalog, runId)
  {
    var next := Put(sessions, p, topic);
    PutAt(sessions, p, topic);
    forall q | Placed(next, q) ensures TopicShape(At(next, q), next[q.id].info, q.key) {
      ShapeAt(sessions, catalog, runId, q);
    }
    ShapedFrame(sessions, next, catalog, runId);
  }

  lemma PutTopicsOk(sessions: Sessions, p: Place, topic: Topic, catalog: Catalog, sequence: nat, later: nat)
    requires Placed(sessions, p) && TopicsOk(sessions, catalog, sequence) && sequence <= later
    requires Registered(catalog, p.key) && TopicOk(topic, CapabilityOf(catalog, p.key), later)
    ensures TopicsOk(Put(sessions, p, topic), catalog, later)
  {
    var next := Put(sessions, p, topic);
    PutAt(sessions, p, topic);
    TopicsOkLater(sessions, catalog, sequence, later);
  }

  /** Storing a well-formed topic and advancing the sequence keeps the state well formed. */
  lemma PutOk(s: State, t: State, p: Place, topic: Topic)
    requires StateOk(s) && !s.stopped && Placed(s.sessions, p)
    requires t == s.(sessions := Put(s.sessions, p, topic), sequence := t.sequence, channels := t.channels)
    requires s.sequence <= t.sequence <= U64_MAX && t.channels.Keys == s.channels.Keys
    requires TopicShape(topic, s.sessions[p.id].info, p.key)
    requires Registered(s.catalog, p.key) && TopicOk(topic, CapabilityOf(s.catalog, p.key), t.sequence)
    ensures StateOk(t)
  {
    PutShapedBy(s.sessions, p, topic, s.catalog, s.runId);
    PutTopicsOk(s.sessions, p, topic, s.catalog, s.sequence, t.sequence);
    forall id | id in t.channels ensures id <= t.nextSubscription {
      assert id in s.channels.Keys;
    }
  }

  /** A change within a generation, with a snapshot stamped by the publishing sequence. */
  lemma PublishChange(sessions: Sessions, p: Place, topic: Topic, sequence: nat, catalog: Catalog, runId: string)
    requires Placed(sessions, p) && Shaped(sessions, catalog, runId)
    requires topic.state.source == At(sessions, p).state.source
    requires topic.state.generation == At(sessions, p).state.generation && SnapshotAt(topic.state, sequence)
    ensures Legal(Public(sessions), TopicChanged(topic.state), sequence, runId)
    ensures Views.Apply(Public(sessions), TopicChanged(topic.state), sequence, runId) == Public(Put(sessions, p, topic))
  {
    ShapeAt(sessions, catalog, runId, p);
    assert KnownTopic(Public(sessions), At(sessions, p).state.source);
    PublicPut(sessions, p, topic);
  }

  // ---- the view while resets are announced ahead of the data

  function ResetTo(topic: Topic, generation: nat): Topic {
    topic.(state := TopicSnapshot(topic.state.source, generation, Initializing, None))
  }

  function LaggingTopics(topics: map<TopicRef, Topic>, st: Staged, pending: set<TopicRef>): map<TopicRef, Topic> {
    map k | k in topics ::
      if k in pending && k in st.topics then ResetTo(topics[k], st.topics[k].state.generation) else topics[k]
  }

  /** The stored sessions, except that topics announced as reset and not yet
      stored already show their new, empty generation. */
  function Lagging(sessions: Sessions, id: string, st: Staged, pending: set<TopicRef>): Sessions
    requires id in sessions
  {
    sessions[id := sessions[id].(topics := LaggingTopics(sessions[id].topics, st, pending))]
  }

  predicate Generations(st: Staged) {
    forall k :: k in st.topics ==> 1 <= st.topics[k].state.generation <= U64_MAX
  }

  lemma LaggingNone(sessions: Sessions, id: string, st: Staged)
    requires id in sessions
    ensures Lagging(sessions, id, st, {}) == sessions
  {
    assert LaggingTopics(sessions[id].topics, st, {}) == sessions[id].topics;
  }

  lemma LaggingMore(sessions: Sessions, id: string, st: Staged, pending: set<TopicRef>, k: TopicRef)
    requires id in sessions && k in sessions[id].topics && k in st.topics && k !in pending
    ensures Lagging(sessions, id, st, pending + {k})
            == Put(Lagging(sessions, id, st, pending), Place(id, k),
                   ResetTo(sessions[id].topics[k], st.topics[k].state.generation))
  {
    var topics := sessions[id].topics;
    assert LaggingTopics(topics, st, pending + {k})
        == LaggingTopics(topics, st, pending)[k := ResetTo(topics[k], st.topics[k].state.generation)];
  }

  lemma LaggingStored(sessions: Sessions, id: string, st: Staged, pending: set<TopicRef>, k: TopicRef, topic: Topic)
    requires id in sessions && k in sessions[id].topics
    ensures Lagging(Put(sessions, Place(id, k), topic), id, st, pending - {k})
            == Put(Lagging(sessions, id, st, pending), Place(id, k), topic)
  {
    var topics := sessions[id].topics;
    assert LaggingTopics(topics[k := topic], st, pending - {k}) == LaggingTopics(topics, st, pending)[k := topic];
  }

  lemma LaggingShaped(sessions: Sessions, id: string, st: Staged, pending: set<TopicRef>, catalog: Catalog,
                      runId: string)
    requires id in sessions && Shaped(sessions, catalog, runId)
    requires Generations(st)
    ensures Shaped(Lagging(sessions, id, st, pending), catalog, runId)
  {
    var next := Lagging(sessions, id, st, pending);
    assert next[id].topics.Keys == sessions[id].topics.Keys;
    FramePlaced(sessions, next);
    forall p | Placed(next, p) ensures TopicShape(At(next, p), next[p.id].info, p.key) {
      ShapeAt(sessions, catalog, runId, p);
    }
    ShapedFrame(sessions, next, catalog, runId);
  }

  function Keys(s: seq<TopicRef>): set<TopicRef> {
    set k | k in s
  }

  /** What the staged topics of a session look like before any of them is stored. */
  ghost predicate Resettable(sessions: Sessions, id: string, st: Staged)
    requires id in sessions
  {
    forall k :: k in st.topics ==>
      && k in sessions[id].topics
      && 1 <= st.topics[k].state.generation <= U64_MAX
      && st.topics[k].state.source == sessions[id].topics[k].state.source
      && (k in st.resets ==> st.topics[k].state.generation > sessions[id].topics[k].state.generation)
  }

  lemma ResetStep(sessions: Sessions, id: string, st: Staged, pending: set<TopicRef>, k: TopicRef, sequence: nat,
                  catalog: Catalog, runId: string)
    requires id in sessions && Shaped(sessions, catalog, runId) && Resettable(sessions, id, st)
    requires k in st.resets && k in st.topics && k !in pending
    ensures var update := TopicReset(st.topics[k].state.source, st.topics[k].state.generation, SourceChanged);
            var mid := Public(Lagging(sessions, id, st, pending));
            && Legal(mid, update, sequence, runId)
            && Views.Apply(mid, update, sequence, runId) == Public(Lagging(sessions, id, st, pending + {k}))
  {
    var mid := Lagging(sessions, id, st, pending);
    var topic := ResetTo(sessions[id].topics[k], st.topics[k].state.generation);
    var update := TopicReset(st.topics[k].state.source, st.topics[k].state.generation, SourceChanged);
    assert At(mid, Place(id, k)) == sessions[id].topics[k];
    LaggingShaped(sessions, id, st, pending, catalog, runId);
    PublishPut(mid, Place(id, k), topic, update, sequence, catalog, runId);
    LaggingMore(sessions, id, st, pending, k);
  }

  lemma KeysMore(s: seq<TopicRef>, n: nat)
    requires 0 < n <= |s| && NoRepeats(s)
    ensures Keys(s[..n]) == Keys(s[..n - 1]) + {s[n - 1]} && s[n - 1] !in Keys(s[..n - 1])
  {
    TakeMore(s, n);
  }

  lemma TakeMore<T>(s: seq<T>, n: nat)
    requires 0 < n <= |s|
    ensures s[..n] == s[..n - 1] + [s[n - 1]]
  {
  }

  lemma ResetsWalkStep(view: View, updates: seq<SubscriptionUpdate>, n: nat, mid: View, next: View, sequence: nat,
                       runId: string)
    requires 0 < n <= |updates|
    requires Walk(view, updates[..n - 1], sequence, runId) == Some(mid)
    requires Legal(mid, updates[n - 1], sequence + n, runId)
    requires next == Views.Apply(mid, updates[n - 1], sequence + n, runId)
    ensures Walk(view, updates[..n], sequence, runId) == Some(next)
  {
    TakeMore(updates, n);
    WalkAppend(view, updates[..n - 1], mid, updates[n - 1], sequence, runId);
  }

  /** Announcing the resets leads every client to the lagging view. */
  lemma {:induction false} ResetsWalk(sessions: Sessions, id: string, st: Staged, n: nat, sequence: nat,
                                      catalog: Catalog, runId: string)
    requires id in sessions && Shaped(sessions, catalog, runId) && Resettable(sessions, id, st)
    requires StagedOk(st) && NoRepeats(st.resets) && n <= |st.resets|
    ensures Walk(Public(sessions), ResetUpdates(st)[..n], sequence, runId)
            == Some(Public(Lagging(sessions, id, st, Keys(st.resets[..n]))))
  {
    if n == 0 {
      LaggingNone(sessions, id, st);
      assert Keys(st.resets[..0]) == {};
      assert ResetUpdates(st)[..0] == [];
    } else {
      var k := st.resets[n - 1];
      var pending := Keys(st.resets[..n - 1]);
      ResetsWalk(sessions, id, st, n - 1, sequence, catalog, runId);
      KeysMore(st.resets, n);
      ResetStep(sessions, id, st, pending, k, sequence + n, catalog, runId);
      ResetsWalkStep(Public(sessions), ResetUpdates(st), n, Public(Lagging(sessions, id, st, pending)),
                     Public(Lagging(sessions, id, st, Keys(st.resets[..n]))), sequence, runId);
    }
  }

  // ---- landing

  /** How a staged topic lands: as staged when it changed, with its old envelope when not. */
  predicate LandedAs(before: Topic, staged: Topic, landed: Topic) {
    && landed.demanded == staged.demanded && landed.epoch == staged.epoch && landed.deadline == staged.deadline
    && landed.state.source == staged.state.source
    && landed.state.generation == staged.state.generation
    && landed.state.health == staged.state.health
    && PayloadOf(landed.state) == PayloadOf(staged.state)
    && (if Changed(before.state, staged.state)
        then AtLargestSequence(landed.state) == AtLargestSequence(staged.state)
        else landed.state == before.state)
  }

  lemma LandingLands(before: Topic, staged: Topic, reset: bool, cap: Capability, sequence: nat,
                     texts: set<JsonPayload>)
    requires StagedTopicOk(before, staged, reset, cap, texts) && TopicOk(before, cap, sequence)
    requires staged.state.health.Available? && cap.snapshots ==> staged.state.snapshot.Some?
    ensures var landed := Landing(before.state, staged, sequence + 1);
            && LandedAs(before, staged, landed)
            && TopicOk(landed, cap, sequence + 1)
            && (Changed(before.state, staged.state) ==> SnapshotAt(landed.state, sequence + 1))
            && (!Changed(before.state, staged.state) ==> !reset && TopicOk(landed, cap, sequence))
            && TopicFrom(landed.state, texts)
  {
  }

  predicate LandedAt(before: Topic, st: Staged, k: TopicRef, done: bool, topic: Topic) {
    if done && k in st.topics then LandedAs(before, st.topics[k], topic) else topic == before
  }

  /** What the transaction knows about its session and its staged output. */
  ghost predicate Plan(s: State, id: string, st: Staged, manifest: Manifest, texts: set<JsonPayload>) {
    && id in s.sessions && StateOk(s) && !s.stopped
    && manifest.id in s.catalog && s.catalog[manifest.id] == manifest.capabilities
    && s.sessions[id].info.providerId == manifest.id
    && Prepared(s.sessions[id], st, manifest, texts) && NoRepeats(st.resets)
    && (forall k :: k in st.topics ==> AdmitTopic(s, k, st.topics[k]).None?)
  }

  lemma PlanAt(s: State, id: string, st: Staged, manifest: Manifest, texts: set<JsonPayload>, k: TopicRef)
    requires Plan(s, id, st, manifest, texts) && k in st.topics
    ensures Placed(s.sessions, Place(id, k)) && Registered(s.catalog, k)
    ensures var cap := CapabilityOf(s.catalog, k);
            && StagedTopicOk(s.sessions[id].topics[k], st.topics[k], k in st.resets, cap, texts)
            && (st.topics[k].state.health.Available? && cap.snapshots ==> st.topics[k].state.snapshot.Some?)
            && TopicOk(s.sessions[id].topics[k], cap, s.sequence)
            && TopicShape(s.sessions[id].topics[k], s.sessions[id].info, k)
  {
    assert PreparedAt(s.sessions[id], st, manifest, texts, k);
    var p := Place(id, k);
    assert Placed(s.sessions, p) && At(s.sessions, p) == s.sessions[id].topics[k];
    ShapeAt(s.sessions, s.catalog, s.runId, p);
    assert AdmitTopic(s, k, st.topics[k]).None?;
  }

  /** The bookkeeping of a transaction part way, leaving aside the clients. */
  ghost predicate Stored(s: State, t: State, id: string, st: Staged, done: set<TopicRef>)
    requires id in s.sessions
  {
    && !t.stopped
    && t == s.(sequence := t.sequence, channels := t.channels, sessions := t.sessions)
    && s.sequence <= t.sequence <= s.sequence + |done|
    && t.channels.Keys == s.channels.Keys
    && t.sessions.Keys == s.sessions.Keys
    && (forall n :: n in s.sessions && n != id ==> t.sessions[n] == s.sessions[n])
    && t.sessions[id].info == s.sessions[id].info
    && t.sessions[id].topics.Keys == s.sessions[id].topics.Keys
    && (forall k :: k in s.sessions[id].topics ==>
          LandedAt(s.sessions[id].topics[k], st, k, k in done, t.sessions[id].topics[k]))
  }

  /** The next state stores one topic and uses at most one sequence number. */
  predicate Puts(t: State, next: State, p: Place, topic: Topic) {
    && p.id in t.sessions
    && next == t.(sessions := Put(t.sessions, p, topic), sequence := next.sequence, channels := next.channels)
    && t.sequence <= next.sequence <= t.sequence + 1
    && next.channels.Keys == t.channels.Keys
  }

  lemma LandStored(s: State, t: State, next: State, id: string, st: Staged, done: set<TopicRef>, k: TopicRef,
                   landed: Topic)
    requires id in s.sessions && k in s.sessions[id].topics && k in st.topics && k !in done
    requires Stored(s, t, id, st, done)
    requires LandedAs(s.sessions[id].topics[k], st.topics[k], landed)
    requires Puts(t, next, Place(id, k), landed)
    ensures Stored(s, next, id, st, done + {k})
  {
    forall n | n in s.sessions[id].topics
      ensures LandedAt(s.sessions[id].topics[n], st, n, n in done + {k}, next.sessions[id].topics[n])
    {
      assert LandedAt(s.sessions[id].topics[n], st, n, n in done, t.sessions[id].topics[n]);
    }
  }

  lemma LandChanged(t: State, next: State, id: string, st: Staged, pending: set<TopicRef>, k: TopicRef, landed: Topic,
                    texts: set<JsonPayload>)
    requires StateOk(t) && !t.stopped && t.sequence < U64_MAX && Placed(t.sessions, Place(id, k))
    requires Synced(t, Public(Lagging(t.sessions, id, st, pending)), texts)
    requires Generations(st)
    requires k in st.topics && landed.state.source == At(t.sessions, Place(id, k)).state.source
    requires landed.state.generation == st.topics[k].state.generation
    requires k !in pending ==> landed.state.generation == At(t.sessions, Place(id, k)).state.generation
    requires SnapshotAt(landed.state, t.sequence + 1) && TopicFrom(landed.state, texts)
    requires next == Emit(t.(sessions := Put(t.sessions, Place(id, k), landed)), TopicChanged(landed.state))
    ensures Synced(next, Public(Lagging(next.sessions, id, st, pending - {k})), texts)
    ensures next == t.(sessions := Put(t.sessions, Place(id, k), landed), sequence := t.sequence + 1,
                       channels := next.channels)
    ensures next.channels.Keys == t.channels.Keys
  {
    var p := Place(id, k);
    var mid := Lagging(t.sessions, id, st, pending);
    var stored := t.(sessions := Put(t.sessions, p, landed));
    LaggingShaped(t.sessions, id, st, pending, t.catalog, t.runId);
    PublishChange(mid, p, landed, t.sequence + 1, t.catalog, t.runId);
    LaggingStored(t.sessions, id, st, pending, k, landed);
    SyncedFrame(t, stored, Public(mid), texts);
    EmitShape(stored, TopicChanged(landed.state));
    EmitSynced(stored, TopicChanged(landed.state), Public(mid), Public(Put(mid, p, landed)), texts);
  }

  lemma LandUnchanged(t: State, id: string, st: Staged, pending: set<TopicRef>, k: TopicRef, landed: Topic,
                      texts: set<JsonPayload>)
    requires Placed(t.sessions, Place(id, k)) && k !in pending
    requires Synced(t, Public(Lagging(t.sessions, id, st, pending)), texts)
    requires landed.state == At(t.sessions, Place(id, k)).state
    ensures var next := t.(sessions := Put(t.sessions, Place(id, k), landed));
            Synced(next, Public(Lagging(next.sessions, id, st, pending - {k})), texts)
  {
    var p := Place(id, k);
    var mid := Lagging(t.sessions, id, st, pending);
    var next := t.(sessions := Put(t.sessions, p, landed));
    LaggingStored(t.sessions, id, st, pending, k, landed);
    SameStatePublic(mid, p, landed);
    SyncedFrame(t, next, Public(mid), texts);
  }

  lemma SameStatePublic(sessions: Sessions, p: Place, topic: Topic)
    requires Placed(sessions, p) && topic.state == At(sessions, p).state
    ensures Public(Put(sessions, p, topic)) == Public(sessions)
  {
    var next := Put(sessions, p, topic);
    assert PublicOf(next[p.id]).topics == PublicOf(sessions[p.id]).topics;
  }

  /** Where one staged topic lands, and that the result is well formed. */
  lemma LandOk(s: State, t: State, id: string, st: Staged, k: TopicRef, before: Topic, landed: Topic,
               manifest: Manifest, texts: set<JsonPayload>)
    requires Plan(s, id, st, manifest, texts) && k in st.topics && StateOk(t) && !t.stopped
    requires t.catalog == s.catalog && s.sequence <= t.sequence
    requires Placed(t.sessions, Place(id, k)) && t.sessions[id].info == s.sessions[id].info
    requires k in s.sessions[id].topics && s.sessions[id].topics[k] == before && t.sessions[id].topics[k] == before
    requires landed == Landing(before.state, st.topics[k], t.sequence + 1)
    ensures LandedAs(before, st.topics[k], landed) && TopicFrom(landed.state, texts)
    ensures Registered(t.catalog, k) && TopicShape(landed, t.sessions[id].info, k)
    ensures TopicOk(landed, CapabilityOf(t.catalog, k), t.sequence + 1)
    ensures Changed(before.state, st.topics[k].state) ==> SnapshotAt(landed.state, t.sequence + 1)
    ensures !Changed(before.state, st.topics[k].state) ==>
              k !in st.resets && TopicOk(landed, CapabilityOf(t.catalog, k), t.sequence)
    ensures k !in st.resets ==> landed.state.generation == before.state.generation
  {
    hide Plan, StateOk, StagedTopicOk, TopicOk, Landing, LandedAs, TopicShape, SnapshotAt, Changed, TopicFrom;
    var cap := LandFacts(s, t, id, st, k, before, manifest, texts);
    LandingLands(before, st.topics[k], k in st.resets, cap, t.sequence, texts);
    LandedShape(before, st.topics[k], k in st.resets, cap, landed, t.sessions[id].info, k, texts);
  }

  lemma LandFacts(s: State, t: State, id: string, st: Staged, k: TopicRef, before: Topic, manifest: Manifest,
                  texts: set<JsonPayload>) returns (cap: Capability)
    requires Plan(s, id, st, manifest, texts) && k in st.topics && StateOk(t)
    requires t.catalog == s.catalog && Placed(t.sessions, Place(id, k)) && t.sessions[id].info == s.sessions[id].info
    requires k in s.sessions[id].topics && s.sessions[id].topics[k] == before && t.sessions[id].topics[k] == before
    ensures Registered(t.catalog, k) && cap == CapabilityOf(t.catalog, k)
    ensures StagedTopicOk(before, st.topics[k], k in st.resets, cap, texts) && TopicOk(before, cap, t.sequence)
    ensures TopicShape(before, t.sessions[id].info, k)
    ensures st.topics[k].state.health.Available? && cap.snapshots ==> st.topics[k].state.snapshot.Some?
  {
    hide StagedTopicOk, TopicOk, Prepared;
    PlanAt(s, id, st, manifest, texts, k);
    cap := CapabilityOf(t.catalog, k);
    assert At(t.sessions, Place(id, k)) == before;
  }

  lemma LandedShape(before: Topic, staged: Topic, reset: bool, cap: Capability, landed: Topic, info: SessionInfo,
                    k: TopicRef, texts: set<JsonPayload>)
    requires StagedTopicOk(before, staged, reset, cap, texts) && TopicShape(before, info, k)
    requires LandedAs(before, staged, landed)
    ensures TopicShape(landed, info, k)
    ensures !reset ==> landed.state.generation == before.state.generation
  {
  }

  lemma PlanGenerations(s: State, id: string, st: Staged, manifest: Manifest, texts: set<JsonPayload>)
    requires Plan(s, id, st, manifest, texts)
    ensures Resettable(s.sessions, id, st) && Generations(st)
  {
    forall k | k in st.topics
      ensures k in s.sessions[id].topics && 1 <= st.topics[k].state.generation <= U64_MAX
      ensures st.topics[k].state.source == s.sessions[id].topics[k].state.source
      ensures k in st.resets ==> st.topics[k].state.generation > s.sessions[id].topics[k].state.generation
    {
      PlanAt(s, id, st, manifest, texts, k);
    }
  }

  /** The transaction part way: what is stored, and what clients know. */
  ghost predicate Underway(s: State, t: State, id: string, st: Staged, done: set<TopicRef>, texts: set<JsonPayload>)
    requires id in s.sessions
  {
    && Stored(s, t, id, st, done)
    && StateOk(t)
    && Synced(t, Public(Lagging(t.sessions, id, st, Keys(st.resets) - done)), texts)
  }

  /** What makes a landed topic safe to store and publish. */
  ghost predicate Landable(t: State, id: string, st: Staged, pending: set<TopicRef>, k: TopicRef, landed: Topic,
                           changed: bool, texts: set<JsonPayload>)
  {
    && Placed(t.sessions, Place(id, k)) && k in st.topics && Generations(st)
    && landed.state.source == t.sessions[id].topics[k].state.source
    && landed.state.generation == st.topics[k].state.generation && TopicFrom(landed.state, texts)
    && (k !in pending ==> landed.state.generation == t.sessions[id].topics[k].state.generation)
    && Registered(t.catalog, k) && TopicShape(landed, t.sessions[id].info, k)
    && (if changed
        then SnapshotAt(landed.state, t.sequence + 1) && TopicOk(landed, CapabilityOf(t.catalog, k), t.sequence + 1)
        else landed.state == t.sessions[id].topics[k].state && k !in pending
             && TopicOk(landed, CapabilityOf(t.catalog, k), t.sequence))
  }

  /** Landing one topic: the service is well formed again, and clients have followed. */
  lemma LandNext(t: State, next: State, id: string, st: Staged, pending: set<TopicRef>, k: TopicRef, landed: Topic,
                 changed: bool, texts: set<JsonPayload>)
    requires StateOk(t) && !t.stopped && t.sequence < U64_MAX
    requires Landable(t, id, st, pending, k, landed, changed, texts)
    requires Synced(t, Public(Lagging(t.sessions, id, st, pending)), texts)
    requires next == if changed
                     then Emit(t.(sessions := Put(t.sessions, Place(id, k), landed)), TopicChanged(landed.state))
                     else t.(sessions := Put(t.sessions, Place(id, k), landed))
    ensures StateOk(next) && Synced(next, Public(Lagging(next.sessions, id, st, pending - {k})), texts)
    ensures Puts(t, next, Place(id, k), landed)
  {
    if changed {
      LandChanged(t, next, id, st, pending, k, landed, texts);
    } else {
      LandUnchanged(t, id, st, pending, k, landed, texts);
    }
    PutOk(t, next, Place(id, k), landed);
  }

  lemma CommitTopicIs(t: State, p: Place, topic: Topic, before: Topic)
    requires Placed(t.sessions, p) && At(t.sessions, p) == before
    ensures var landed := Landing(before.state, topic, t.sequence + 1);
            CommitTopic(t, p, topic)
            == if Changed(before.state, topic.state)
               then Emit(t.(sessions := Put(t.sessions, p, landed)), TopicChanged(landed.state))
               else t.(sessions := Put(t.sessions, p, landed))
  {
  }

  lemma LandReady(s: State, t: State, id: string, st: Staged, done: set<TopicRef>, k: TopicRef, manifest: Manifest,
                  texts: set<JsonPayload>)
    requires Plan(s, id, st, manifest, texts) && Stored(s, t, id, st, done) && StateOk(t)
    requires k in st.topics && k !in done
    ensures Placed(s.sessions, Place(id, k)) && Placed(t.sessions, Place(id, k))
    ensures t.sessions[id].topics[k] == s.sessions[id].topics[k]
    ensures var before := s.sessions[id].topics[k];
            var landed := Landing(before.state, st.topics[k], t.sequence + 1);
            && LandedAs(before, st.topics[k], landed)
            && Landable(t, id, st, Keys(st.resets) - done, k, landed, Changed(before.state, st.topics[k].state), texts)
  {
    PlanGenerations(s, id, st, manifest, texts);
    var before := s.sessions[id].topics[k];
    assert t.sessions[id].topics[k] == before by {
      assert LandedAt(before, st, k, k in done, t.sessions[id].topics[k]);
    }
    LandOk(s, t, id, st, k, before, Landing(before.state, st.topics[k], t.sequence + 1), manifest, texts);
  }

  lemma LandJoin(s: State, next: State, id: string, st: Staged, done: set<TopicRef>, k: TopicRef,
                 texts: set<JsonPayload>)
    requires id in s.sessions && Stored(s, next, id, st, done + {k}) && StateOk(next)
    requires Synced(next, Public(Lagging(next.sessions, id, st, Keys(st.resets) - done - {k})), texts)
    ensures Underway(s, next, id, st, done + {k}, texts)
  {
    assert Keys(st.resets) - (done + {k}) == Keys(st.resets) - done - {k};
  }

  /** Landing one more topic of the transaction. */
  lemma LandOne(s: State, t: State, id: string, st: Staged, done: set<TopicRef>, k: TopicRef, manifest: Manifest,
                texts: set<JsonPayload>)
    requires Plan(s, id, st, manifest, texts) && Underway(s, t, id, st, done, texts)
    requires k in st.topics && k !in done && t.sequence < U64_MAX
    ensures Underway(s, CommitTopic(t, Place(id, k), st.topics[k]), id, st, done + {k}, texts)
  {
    LandReady(s, t, id, st, done, k, manifest, texts);
    var before := s.sessions[id].topics[k];
    var landed := Landing(before.state, st.topics[k], t.sequence + 1);
    LandOneOf(s, t, id, st, done, k, before, landed, Changed(before.state, st.topics[k].state), texts);
  }

  lemma LandOneOf(s: State, t: State, id: string, st: Staged, done: set<TopicRef>, k: TopicRef, before: Topic,
                  landed: Topic, changed: bool, texts: set<JsonPayload>)
    requires id in s.sessions && k in s.sessions[id].topics && s.sessions[id].topics[k] == before
    requires Underway(s, t, id, st, done, texts) && k in st.topics && k !in done && t.sequence < U64_MAX
    requires k in t.sessions[id].topics && t.sessions[id].topics[k] == before
    requires landed == Landing(before.state, st.topics[k], t.sequence + 1)
    requires changed == Changed(before.state, st.topics[k].state)
    requires LandedAs(before, st.topics[k], landed)
    requires Landable(t, id, st, Keys(st.resets) - done, k, landed, changed, texts)
    ensures Underway(s, CommitTopic(t, Place(id, k), st.topics[k]), id, st, done + {k}, texts)
  {
    var next := CommitTopic(t, Place(id, k), st.topics[k]);
    CommitTopicIs(t, Place(id, k), st.topics[k], before);
    LandNext(t, next, id, st, Keys(st.resets) - done, k, landed, changed, texts);
    LandStored(s, t, next, id, st, done, k, landed);
    LandJoin(s, next, id, st, done, k, texts);
  }
}
