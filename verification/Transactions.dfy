/** The whole commit: metadata, resets, topics and events, then settling. */
module Transactions {
  import opened Wire
  import opened Ordering
  import opened ClientValidation
  import opened Views
  import opened Service
  import opened Streams
  import opened PollBatch
  import opened Publication
  import opened Invariant
  import opened Sweeps
  import opened Retention
  import opened Settling
  import opened SessionSync
  import opened StagingProofs
  import opened Committing

  // ---- topics

  lemma LandLast(s: State, t: State, id: string, st: Staged, keys: seq<TopicRef>, manifest: Manifest,
                 texts: set<JsonPayload>)
    requires Plan(s, id, st, manifest, texts) && keys != [] && NoRepeats(keys)
    requires Underway(s, t, id, st, Keys(keys[..|keys| - 1]), texts)
    requires keys[|keys| - 1] in st.topics && t.sequence < U64_MAX
    ensures Underway(s, CommitTopic(t, Place(id, keys[|keys| - 1]), st.topics[keys[|keys| - 1]]), id, st, Keys(keys), texts)
  {
    KeysSnoc(keys);
    LandOne(s, t, id, st, Keys(keys[..|keys| - 1]), keys[|keys| - 1], manifest, texts);
  }

  lemma {:induction false} LandAll(s: State, id: string, st: Staged, keys: seq<TopicRef>, manifest: Manifest,
                                   texts: set<JsonPayload>)
    requires Plan(s, id, st, manifest, texts) && Underway(s, s, id, st, {}, texts)
    requires NoRepeats(keys) && forall k :: k in keys ==> k in st.topics
    requires Room(s, |keys|)
    ensures Underway(s, CommitTopics(s, id, st.topics, keys), id, st, Keys(keys), texts)
  {
    if keys == [] {
      assert Keys(keys) == {};
    } else {
      var front := keys[..|keys| - 1];
      LandAll(s, id, st, front, manifest, texts);
      KeysSize(front);
      assert keys[|keys| - 1] in keys;
      LandLast(s, CommitTopics(s, id, st.topics, front), id, st, keys, manifest, texts);
    }
  }

  lemma KeysSnoc(keys: seq<TopicRef>)
    requires keys != [] && NoRepeats(keys)
    ensures var front, last := keys[..|keys| - 1], keys[|keys| - 1];
            && Keys(keys) == Keys(front) + {last} && last !in Keys(front) && last in keys
            && NoRepeats(front) && (forall k :: k in front ==> k in keys)
  {
    KeysMore(keys, |keys|);
    assert keys[..|keys|] == keys;
  }

  // ---- events

  lemma EventPublishes(sessions: Sessions, p: Place, payload: JsonPayload, sequence: nat, catalog: Catalog,
                       runId: string)
    requires Placed(sessions, p) && Shaped(sessions, catalog, runId)
    ensures After(Public(sessions), EventAt(At(sessions, p).state, sequence, payload), sequence, runId)
            == Some(Public(sessions))
  {
    ShapeAt(sessions, catalog, runId, p);
    assert KnownTopic(Public(sessions), At(sessions, p).state.source);
  }

  /** What publishing n events leaves: nothing changed but the sequence and the queues. */
  ghost predicate EventsOut(t: State, next: State, n: nat, view: View, texts: set<JsonPayload>) {
    && next == t.(sequence := t.sequence + n, channels := next.channels)
    && next.channels.Keys == t.channels.Keys
    && Synced(next, view, texts)
  }

  lemma EventOut(t: State, mid: State, next: State, n: nat, view: View, update: SubscriptionUpdate,
                 texts: set<JsonPayload>)
    requires EventsOut(t, mid, n, view, texts) && !t.stopped && mid.sequence < U64_MAX
    requires After(view, update, mid.sequence + 1, mid.runId) == Some(view)
    requires UpdateFrom(update, texts) && update.Event? && next == Emit(mid, update)
    ensures EventsOut(t, next, n + 1, view, texts)
  {
    EmitAfter(mid, update, view, view, texts);
  }

  lemma CommitEventIs(t: State, mid: State, next: State, id: string, event: (TopicRef, JsonPayload))
    requires mid.sessions == t.sessions && Placed(t.sessions, Place(id, event.0))
    requires next == CommitEvent(mid, id, event)
    ensures next == Emit(mid, EventAt(At(t.sessions, Place(id, event.0)).state, mid.sequence + 1, event.1))
  {
  }

  lemma {:induction false} EventsGoOut(t: State, next: State, id: string, events: seq<(TopicRef, JsonPayload)>,
                                       texts: set<JsonPayload>)
    requires Shaped(t.sessions, t.catalog, t.runId) && !t.stopped && Room(t, |events|)
    requires Synced(t, Public(t.sessions), texts)
    requires forall e :: e in events ==> Placed(t.sessions, Place(id, e.0)) && e.1 in texts
    requires next == CommitEvents(t, id, events)
    ensures EventsOut(t, next, |events|, Public(t.sessions), texts)
    decreases |events|
  {
    hide Synced, Shaped, After, Emit;
    if events != [] {
      var front, last := events[..|events| - 1], events[|events| - 1];
      var mid := CommitEvents(t, id, front);
      var p := Place(id, last.0);
      EventsGoOut(t, mid, id, front, texts);
      assert last in events;
      CommitEventIs(t, mid, next, id, last);
      EventPublishes(t.sessions, p, last.1, mid.sequence + 1, t.catalog, t.runId);
      EventOut(t, mid, next, |front|, Public(t.sessions), EventAt(At(t.sessions, p).state, mid.sequence + 1, last.1), texts);
    }
  }

  lemma EventsKeep(t: State, next: State, id: string, events: seq<(TopicRef, JsonPayload)>, texts: set<JsonPayload>)
    requires StateOk(t) && !t.stopped && Room(t, |events|) && Synced(t, Public(t.sessions), texts)
    requires forall e :: e in events ==> Placed(t.sessions, Place(id, e.0)) && e.1 in texts
    requires next == CommitEvents(t, id, events)
    ensures StateOk(next) && Synced(next, Public(next.sessions), texts)
    ensures next == t.(sequence := t.sequence + |events|, channels := next.channels)
    ensures next.channels.Keys == t.channels.Keys
  {
    EventsGoOut(t, next, id, events, texts);
    AdvancedOk(t, next);
  }

  // ---- metadata

  lemma ReinfoShape(session: Session, id: string, build: Option<string>, catalog: Catalog, runId: string)
    requires SessionShape(session, id, catalog, runId)
    ensures SessionShape(session.(info := session.info.(gameBuild := build)), id, catalog, runId)
  {
    forall k | k in session.topics
      ensures TopicShape(session.topics[k], session.info.(gameBuild := build), k)
    {
      assert TopicShape(session.topics[k], session.info, k);
    }
  }

  function Reinfo(sessions: Sessions, id: string, build: Option<string>): Sessions
    requires id in sessions
  {
    sessions[id := sessions[id].(info := sessions[id].info.(gameBuild := build))]
  }

  lemma ReinfoOk(s: State, id: string, build: Option<string>)
    requires StateOk(s) && id in s.sessions
    ensures var t := s.(sessions := Reinfo(s.sessions, id, build));
            && StateOk(t) && Sheds(s.sessions, t.sessions)
            && (forall p :: Placed(s.sessions, p) <==> Placed(t.sessions, p))
            && (forall p :: Placed(t.sessions, p) ==> Placed(s.sessions, p) && At(t.sessions, p) == At(s.sessions, p))
  {
    var t := s.(sessions := Reinfo(s.sessions, id, build));
    forall n | n in t.sessions ensures SessionShape(t.sessions[n], n, t.catalog, t.runId) {
      assert SessionShape(s.sessions[n], n, s.catalog, s.runId);
      if n == id { ReinfoShape(s.sessions[n], n, build, s.catalog, s.runId); }
    }
    forall p | Placed(t.sessions, p) ensures Placed(s.sessions, p) && At(t.sessions, p) == At(s.sessions, p) {
    }
  }

  lemma ReinfoPublishes(sessions: Sessions, id: string, build: Option<string>, sequence: nat, catalog: Catalog,
                        runId: string)
    requires id in sessions && Shaped(sessions, catalog, runId)
    ensures After(Public(sessions), SessionChanged(sessions[id].info.(gameBuild := build)), sequence, runId)
            == Some(Public(Reinfo(sessions, id, build)))
  {
    assert SessionShape(sessions[id], id, catalog, runId);
    var info := sessions[id].info.(gameBuild := build);
    assert Public(sessions)[id := Public(sessions)[id].(info := info)] == Public(Reinfo(sessions, id, build));
  }

  /** What storing new metadata leaves. */
  ghost predicate Refreshed(s: State, t: State, id: string, batch: Pending, texts: set<JsonPayload>)
    requires id in s.sessions
  {
    && Steady(t, texts)
    && t == s.(sequence := s.sequence + |MetadataUpdate(s.sessions[id], batch)|, channels := t.channels,
               sessions := Reinfo(s.sessions, id, batch.gameBuild))
    && t.channels.Keys == s.channels.Keys
  }

  lemma MetadataChanges(s: State, t: State, id: string, batch: Pending, texts: set<JsonPayload>)
    requires Steady(s, texts) && !s.stopped && id in s.sessions && s.sequence < U64_MAX
    requires batch.gameBuild != s.sessions[id].info.gameBuild
    requires t == Emit(s.(sessions := Reinfo(s.sessions, id, batch.gameBuild)),
                       SessionChanged(s.sessions[id].info.(gameBuild := batch.gameBuild)))
    ensures Refreshed(s, t, id, batch, texts)
  {
    hide Synced, StateOk, Cached, Bounded, After, Emit;
    var update := SessionChanged(s.sessions[id].info.(gameBuild := batch.gameBuild));
    var stored := s.(sessions := Reinfo(s.sessions, id, batch.gameBuild));
    ReinfoOk(s, id, batch.gameBuild);
    StateOkShaped(s);
    SyncedFrame(s, stored, Public(s.sessions), texts);
    ReinfoPublishes(s.sessions, id, batch.gameBuild, s.sequence + 1, s.catalog, s.runId);
    EmitAfter(stored, update, Public(s.sessions), Public(stored.sessions), texts);
    KeptSheds(s, t, texts);
  }

  lemma MetadataSame(s: State, id: string, batch: Pending, texts: set<JsonPayload>)
    requires Steady(s, texts) && id in s.sessions && batch.gameBuild == s.sessions[id].info.gameBuild
    ensures Refreshed(s, s, id, batch, texts)
  {
    ReinfoSame(s.sessions, id, batch.gameBuild);
  }

  lemma ReinfoSame(sessions: Sessions, id: string, build: Option<string>)
    requires id in sessions && build == sessions[id].info.gameBuild
    ensures Reinfo(sessions, id, build) == sessions
  {
  }

  /** New metadata is stored and published, using one sequence number, or nothing happens. */
  lemma MetadataKeeps(s: State, t: State, id: string, batch: Pending, texts: set<JsonPayload>)
    requires Steady(s, texts) && !s.stopped && id in s.sessions
    requires Room(s, |MetadataUpdate(s.sessions[id], batch)|)
    requires t == CommitMetadata(s, id, batch)
    ensures Refreshed(s, t, id, batch, texts)
  {
    if batch.gameBuild == s.sessions[id].info.gameBuild {
      MetadataSame(s, id, batch, texts);
    } else {
      MetadataChanges(s, t, id, batch, texts);
    }
  }

  // ---- resets

  lemma {:induction false} RunningWithRoom(s: State, updates: seq<SubscriptionUpdate>)
    requires !s.stopped && Room(s, |updates|)
    ensures var t := EmitAll(s, updates);
            && t == s.(sequence := s.sequence + |updates|, channels := t.channels)
            && t.channels.Keys == s.channels.Keys
  {
    if updates != [] {
      RunningWithRoom(s, updates[..|updates| - 1]);
      EmitShape(EmitAll(s, updates[..|updates| - 1]), updates[|updates| - 1]);
    }
  }

  lemma AdmitTopicLater(s: State, t: State, k: TopicRef, topic: Topic)
    requires t.catalog == s.catalog && t.runId == s.runId && t.messageBytes == s.messageBytes
    ensures AdmitTopic(t, k, topic) == AdmitTopic(s, k, topic)
  {
  }

  lemma PlanLater(s: State, t: State, id: string, st: Staged, manifest: Manifest, texts: set<JsonPayload>)
    requires Plan(s, id, st, manifest, texts) && StateOk(t) && !t.stopped
    requires t == s.(sequence := t.sequence, channels := t.channels)
    ensures Plan(t, id, st, manifest, texts)
  {
    forall k | k in st.topics ensures AdmitTopic(t, k, st.topics[k]).None? {
      AdmitTopicLater(s, t, k, st.topics[k]);
    }
  }

  lemma StoredFrom(s: State, id: string, st: Staged)
    requires id in s.sessions && !s.stopped
    ensures Stored(s, s, id, st, {})
  {
  }

  lemma ResetUpdatesOk(st: Staged, texts: set<JsonPayload>)
    requires StagedOk(st)
    ensures NoEnds(ResetUpdates(st)) && forall u :: u in ResetUpdates(st) ==> UpdateFrom(u, texts)
  {
  }

  lemma ResetsLead(s: State, id: string, st: Staged, manifest: Manifest, texts: set<JsonPayload>)
    requires Plan(s, id, st, manifest, texts)
    ensures Walk(Public(s.sessions), ResetUpdates(st), s.sequence, s.runId)
            == Some(Public(Lagging(s.sessions, id, st, Keys(st.resets))))
  {
    PlanGenerations(s, id, st, manifest, texts);
    ResetsWalkAll(s.sessions, id, st, s.sequence, s.catalog, s.runId);
  }

  lemma ResetsWalkAll(sessions: Sessions, id: string, st: Staged, sequence: nat, catalog: Catalog, runId: string)
    requires id in sessions && Shaped(sessions, catalog, runId) && Resettable(sessions, id, st)
    requires StagedOk(st) && NoRepeats(st.resets)
    ensures Walk(Public(sessions), ResetUpdates(st), sequence, runId)
            == Some(Public(Lagging(sessions, id, st, Keys(st.resets))))
  {
    ResetsWalk(sessions, id, st, |st.resets|, sequence, catalog, runId);
    assert ResetUpdates(st)[..|st.resets|] == ResetUpdates(st);
    assert st.resets[..|st.resets|] == st.resets;
  }

  lemma ResetsFollowed(s: State, t: State, id: string, st: Staged, manifest: Manifest, texts: set<JsonPayload>)
    requires Plan(s, id, st, manifest, texts) && Synced(s, Public(s.sessions), texts)
    requires t == EmitAll(s, ResetUpdates(st)) && !t.stopped && t.sessions == s.sessions
    ensures StateOk(t) && Synced(t, Public(Lagging(t.sessions, id, st, Keys(st.resets))), texts)
  {
    ResetsLead(s, id, st, manifest, texts);
    ResetUpdatesOk(st, texts);
    EmitAllKeeps(s, ResetUpdates(st), Public(s.sessions), Public(Lagging(s.sessions, id, st, Keys(st.resets))), texts);
  }

  lemma UnderwayFrom(t: State, id: string, st: Staged, texts: set<JsonPayload>)
    requires id in t.sessions && !t.stopped && StateOk(t)
    requires Synced(t, Public(Lagging(t.sessions, id, st, Keys(st.resets))), texts)
    ensures Underway(t, t, id, st, {}, texts)
  {
    StoredFrom(t, id, st);
    assert Keys(st.resets) - {} == Keys(st.resets);
  }

  /** Announcing the resets puts every client in step with the transaction's start. */
  lemma ResetsKeep(s: State, t: State, id: string, st: Staged, manifest: Manifest, texts: set<JsonPayload>)
    requires Plan(s, id, st, manifest, texts) && Synced(s, Public(s.sessions), texts)
    requires Room(s, |st.resets|) && t == EmitAll(s, ResetUpdates(st))
    ensures t == s.(sequence := s.sequence + |st.resets|, channels := t.channels)
    ensures t.channels.Keys == s.channels.Keys
    ensures Plan(t, id, st, manifest, texts) && Underway(t, t, id, st, {}, texts)
  {
    RunningWithRoom(s, ResetUpdates(st));
    ResetsFollowed(s, t, id, st, manifest, texts);
    PlanLater(s, t, id, st, manifest, texts);
    UnderwayFrom(t, id, st, texts);
  }

  // ---- the transaction

  /** What a commit leaves: every staged topic landed, nothing else touched. */
  ghost predicate Transacted(s: State, t: State, id: string, st: Staged)
    requires id in s.sessions
  {
    && t == s.(sequence := t.sequence, channels := t.channels, sessions := t.sessions)
    && s.sequence <= t.sequence <= s.sequence + |st.resets| + |st.topics| + |st.events|
    && t.sessions.Keys == s.sessions.Keys
    && (forall n :: n in s.sessions && n != id ==> t.sessions[n] == s.sessions[n])
    && t.sessions[id].info == s.sessions[id].info
    && t.sessions[id].topics.Keys == s.sessions[id].topics.Keys
    && (forall k :: k in s.sessions[id].topics ==>
          LandedAt(s.sessions[id].topics[k], st, k, true, t.sessions[id].topics[k]))
  }

  lemma KeysAll(st: Staged)
    ensures Keys(TopicsInOrder(st.topics.Keys)) == st.topics.Keys
    ensures |TopicsInOrder(st.topics.Keys)| == |st.topics|
  {
    var keys := TopicsInOrder(st.topics.Keys);
    assert Keys(keys) == st.topics.Keys;
    KeysSize(keys);
  }

  lemma {:induction false} KeysSize(keys: seq<TopicRef>)
    requires NoRepeats(keys)
    ensures |Keys(keys)| == |keys|
  {
    if keys != [] {
      KeysSize(keys[..|keys| - 1]);
      KeysSnoc(keys);
    } else {
      assert Keys(keys) == {};
    }
  }

  lemma TopicsLand(s: State, id: string, st: Staged, manifest: Manifest, texts: set<JsonPayload>)
    requires Plan(s, id, st, manifest, texts) && Underway(s, s, id, st, {}, texts) && Room(s, |st.topics|)
    ensures var t := CommitTopics(s, id, st.topics, TopicsInOrder(st.topics.Keys));
            && Stored(s, t, id, st, st.topics.Keys) && StateOk(t) && Synced(t, Public(t.sessions), texts)
  {
    hide StateOk, Synced, PreparedAt, AdmitTopic;
    var keys := TopicsInOrder(st.topics.Keys);
    KeysAll(st);
    var t := CommitTopics(s, id, st.topics, keys);
    LandAll(s, id, st, keys, manifest, texts);
    assert Keys(st.resets) - st.topics.Keys == {};
    LaggingNone(t.sessions, id, st);
  }

  lemma StagedEvents(s: State, reset: State, t: State, id: string, st: Staged, manifest: Manifest,
                     texts: set<JsonPayload>)
    requires Plan(s, id, st, manifest, texts) && reset.sessions == s.sessions
    requires Stored(reset, t, id, st, st.topics.Keys)
    ensures forall e :: e in st.events ==> Placed(t.sessions, Place(id, e.0)) && e.1 in texts
  {
    forall e | e in st.events ensures Placed(t.sessions, Place(id, e.0)) && e.1 in texts {
      assert e.0 in st.topics;
      assert PreparedAt(s.sessions[id], st, manifest, texts, e.0);
      assert e.0 in t.sessions[id].topics.Keys;
    }
  }

  lemma StagedJoin(s: State, reset: State, stored: State, t: State, id: string, st: Staged)
    requires id in s.sessions && reset == s.(sequence := s.sequence + |st.resets|, channels := reset.channels)
    requires Stored(reset, stored, id, st, st.topics.Keys)
    requires t == stored.(sequence := stored.sequence + |st.events|, channels := t.channels)
    ensures Transacted(s, t, id, st)
  {
    LandedKeys(s, stored, id, st);
  }

  /** Resets, topics and events in order amount to one transaction. */
  lemma StagedLands(s: State, id: string, st: Staged, manifest: Manifest, texts: set<JsonPayload>)
    requires Plan(s, id, st, manifest, texts) && Synced(s, Public(s.sessions), texts)
    requires Room(s, |st.resets| + |st.topics| + |st.events|)
    ensures var t := CommitStaged(s, id, st);
            Transacted(s, t, id, st) && StateOk(t) && Synced(t, Public(t.sessions), texts)
  {
    hide StateOk, Synced, AdmitTopic, Transacted, PreparedAt;
    var reset := EmitAll(s, ResetUpdates(st));
    ResetsKeep(s, reset, id, st, manifest, texts);
    TopicsLand(reset, id, st, manifest, texts);
    var stored := CommitTopics(reset, id, st.topics, TopicsInOrder(st.topics.Keys));
    StagedEvents(s, reset, stored, id, st, manifest, texts);
    EventsKeep(stored, CommitEvents(stored, id, st.events), id, st.events, texts);
    StagedJoin(s, reset, stored, CommitEvents(stored, id, st.events), id, st);
  }

  lemma LandedKeys(s: State, t: State, id: string, st: Staged)
    requires id in s.sessions && id in t.sessions && t.sessions[id].topics.Keys == s.sessions[id].topics.Keys
    requires forall k :: k in s.sessions[id].topics ==>
               LandedAt(s.sessions[id].topics[k], st, k, k in st.topics.Keys, t.sessions[id].topics[k])
    ensures forall k :: k in s.sessions[id].topics ==>
               LandedAt(s.sessions[id].topics[k], st, k, true, t.sessions[id].topics[k])
  {
  }

  /** Landed snapshots fit their frames, were published, and stay within the byte bound. */
  lemma TransactedCached(s: State, t: State, id: string, st: Staged, manifest: Manifest, texts: set<JsonPayload>)
    requires Plan(s, id, st, manifest, texts) && Cached(s, texts) && Transacted(s, t, id, st)
    ensures Cached(t, texts)
  {
    forall p | Placed(t.sessions, p) && At(t.sessions, p).state.snapshot.Some?
      ensures TopicFrom(At(t.sessions, p).state, texts)
      ensures UpdateFits(t, TopicChanged(AtLargestSequence(At(t.sessions, p).state)))
    {
      if p.id == id {
        assert p.key in s.sessions[id].topics.Keys;
        assert LandedAt(s.sessions[id].topics[p.key], st, p.key, true, t.sessions[id].topics[p.key]);
        LandedCached(s, t, id, st, manifest, texts, p.key);
      } else {
        assert Placed(s.sessions, p) && At(t.sessions, p) == At(s.sessions, p);
      }
    }
  }

  lemma LandedCached(s: State, t: State, id: string, st: Staged, manifest: Manifest, texts: set<JsonPayload>,
                     k: TopicRef)
    requires Plan(s, id, st, manifest, texts) && Cached(s, texts)
    requires t.runId == s.runId && t.messageBytes == s.messageBytes
    requires id in t.sessions && k in s.sessions[id].topics && k in t.sessions[id].topics
    requires LandedAt(s.sessions[id].topics[k], st, k, true, t.sessions[id].topics[k])
    requires t.sessions[id].topics[k].state.snapshot.Some?
    ensures var state := t.sessions[id].topics[k].state;
            TopicFrom(state, texts) && UpdateFits(t, TopicChanged(AtLargestSequence(state)))
  {
    var p := Place(id, k);
    assert Placed(s.sessions, p) && At(s.sessions, p) == s.sessions[id].topics[k];
    if k in st.topics {
      assert PreparedAt(s.sessions[id], st, manifest, texts, k);
      assert AdmitTopic(s, k, st.topics[k]).None?;
    }
  }

  lemma LandedBytes(s: State, t: State, id: string, st: Staged)
    requires id in s.sessions && Transacted(s, t, id, st)
    requires forall k :: k in st.topics ==> k in s.sessions[id].topics
    ensures forall k :: k in st.topics ==>
              SnapshotBytes(t.sessions[id].topics[k]) == SnapshotBytes(st.topics[k])
    ensures forall k :: k in s.sessions[id].topics && k !in st.topics ==>
              t.sessions[id].topics[k] == s.sessions[id].topics[k]
  {
    forall k | k in s.sessions[id].topics
      ensures k in st.topics ==> SnapshotBytes(t.sessions[id].topics[k]) == SnapshotBytes(st.topics[k])
      ensures k !in st.topics ==> t.sessions[id].topics[k] == s.sessions[id].topics[k]
    {
      assert LandedAt(s.sessions[id].topics[k], st, k, true, t.sessions[id].topics[k]);
    }
  }

  lemma TransactedBounded(s: State, t: State, id: string, st: Staged)
    requires id in s.sessions && Transacted(s, t, id, st)
    requires forall k :: k in st.topics ==> k in s.sessions[id].topics
    requires Retained(s.sessions) - TopicsBytes(s.sessions[id].topics, TopicsInOrder(st.topics.Keys))
             + TopicsBytes(st.topics, TopicsInOrder(st.topics.Keys)) <= RETAINED_SNAPSHOT_BYTES
    ensures Bounded(t)
  {
    LandedBytes(s, t, id, st);
    assert st.topics.Keys <= s.sessions[id].topics.Keys;
    RetainedReplaces(s.sessions, t.sessions, id, st.topics);
  }

  // ---- how many numbers a transaction uses

  /** The staged topics among the keys whose published state changes. */
  ghost function ChangedAmong(session: Session, st: Staged, keys: seq<TopicRef>): set<TopicRef> {
    set k | k in keys && k in st.topics && k in session.topics
            && Changed(session.topics[k].state, st.topics[k].state)
  }

  lemma ChangedSnoc(session: Session, st: Staged, keys: seq<TopicRef>)
    requires keys != [] && NoRepeats(keys)
    requires keys[|keys| - 1] in st.topics && keys[|keys| - 1] in session.topics
    ensures var k := keys[|keys| - 1];
            |ChangedAmong(session, st, keys)|
            == |ChangedAmong(session, st, keys[..|keys| - 1])|
               + if Changed(session.topics[k].state, st.topics[k].state) then 1 else 0
  {
    var front, k := keys[..|keys| - 1], keys[|keys| - 1];
    assert keys == front + [k];
    var before := ChangedAmong(session, st, front);
    assert k !in before;
    assert ChangedAmong(session, st, keys)
        == if Changed(session.topics[k].state, st.topics[k].state) then before + {k} else before;
  }

  lemma LandedUses(t: State, p: Place, topic: Topic, before: Topic)
    requires Placed(t.sessions, p) && At(t.sessions, p) == before && !t.stopped && t.sequence < U64_MAX
    ensures CommitTopic(t, p, topic).sequence
            == t.sequence + if Changed(before.state, topic.state) then 1 else 0
  {
    CommitTopicIs(t, p, topic, before);
  }

  /** Landing uses one sequence number for each topic that changed, and none for the rest. */
  lemma {:induction false} LandingUses(s: State, id: string, st: Staged, keys: seq<TopicRef>, manifest: Manifest,
                                       texts: set<JsonPayload>)
    requires Plan(s, id, st, manifest, texts) && Underway(s, s, id, st, {}, texts)
    requires NoRepeats(keys) && forall k :: k in keys ==> k in st.topics
    requires Room(s, |keys|)
    ensures CommitTopics(s, id, st.topics, keys).sequence == s.sequence + |ChangedAmong(s.sessions[id], st, keys)|
  {
    hide StateOk, Synced, Prepared;
    if keys == [] {
      assert ChangedAmong(s.sessions[id], st, keys) == {};
    } else {
      var front, k := keys[..|keys| - 1], keys[|keys| - 1];
      var t := CommitTopics(s, id, st.topics, front);
      LandingUses(s, id, st, front, manifest, texts);
      LandAll(s, id, st, front, manifest, texts);
      KeysSize(front);
      KeysSnoc(keys);
      LandReady(s, t, id, st, Keys(front), k, manifest, texts);
      ChangedSnoc(s.sessions[id], st, keys);
      LandedUses(t, Place(id, k), st.topics[k], s.sessions[id].topics[k]);
    }
  }

  /** Resets, changed topics and events each use exactly one sequence number. */
  lemma StagedUses(s: State, id: string, st: Staged, manifest: Manifest, texts: set<JsonPayload>)
    requires Plan(s, id, st, manifest, texts) && Synced(s, Public(s.sessions), texts)
    requires Room(s, |st.resets| + |st.topics| + |st.events|)
    ensures CommitStaged(s, id, st).sequence
            == s.sequence + |st.resets|
               + |ChangedAmong(s.sessions[id], st, TopicsInOrder(st.topics.Keys))| + |st.events|
  {
    hide StateOk, Synced, PreparedAt;
    var keys := TopicsInOrder(st.topics.Keys);
    var reset := EmitAll(s, ResetUpdates(st));
    ResetsKeep(s, reset, id, st, manifest, texts);
    KeysAll(st);
    LandingUses(reset, id, st, keys, manifest, texts);
    TopicsLand(reset, id, st, manifest, texts);
    EventsUse(CommitTopics(reset, id, st.topics, keys), id, st.events);
    StagedEvents(s, reset, CommitTopics(reset, id, st.topics, keys), id, st, manifest, texts);
  }

  lemma {:induction false} EventsUse(t: State, id: string, events: seq<(TopicRef, JsonPayload)>)
    requires !t.stopped && Room(t, |events|)
    ensures (forall e :: e in events ==> Placed(t.sessions, Place(id, e.0))) ==>
              && CommitEvents(t, id, events).sequence == t.sequence + |events|
              && CommitEvents(t, id, events).sessions == t.sessions && !CommitEvents(t, id, events).stopped
  {
    if events != [] && forall e :: e in events ==> Placed(t.sessions, Place(id, e.0)) {
      var front, last := events[..|events| - 1], events[|events| - 1];
      assert last in events && forall e :: e in front ==> e in events;
      EventsUse(t, id, front);
    }
  }
}
