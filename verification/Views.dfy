/** What the service publishes, as one value, and how a single update changes it.
    The service side shows that every operation emits updates that carry the old
    view to the new one; the client side shows that a client that knows the
    selected part of a view accepts the update and knows the selected part of the
    next view. */
module Views {
  import opened Wire
  import opened Selecting
  import opened ClientValidation
  import opened Replica

  datatype PublicSession = PublicSession(info: SessionInfo, topics: map<TopicRef, TopicSnapshot>)

  type View = map<string, PublicSession>

  predicate SourceIn(view: View, source: TopicSource) {
    && source.session.sessionId in view
    && var info := view[source.session.sessionId].info;
    && info.session == source.session
    && info.gameId == source.gameId
    && info.providerId == source.topic.providerId
  }

  predicate KnownTopic(view: View, source: TopicSource) {
    SourceIn(view, source) && source.topic in view[source.session.sessionId].topics
  }

  function PutState(view: View, topic: TopicSnapshot): View
    requires topic.source.session.sessionId in view
  {
    var id := topic.source.session.sessionId;
    view[id := view[id].(topics := view[id].topics[topic.source.topic := topic])]
  }

  predicate InfoOk(info: SessionInfo, runId: string) {
    && info.session.runId == runId
    && Identifier(info.session.sessionId)
    && Identifier(info.providerId)
    && Identifier(info.gameId)
  }

  /** A snapshot agrees with its topic and carries the sequence that published it. */
  predicate SnapshotAt(topic: TopicSnapshot, sequence: nat) {
    SnapshotMatches(topic, sequence)
    && (topic.snapshot.Some? ==> topic.snapshot.value.metadata.sequence == sequence)
  }

  /** When an update may be published against a view, at a sequence number. */
  predicate Legal(view: View, update: SubscriptionUpdate, sequence: nat, runId: string) {
    match update
    case SessionStarted(info) => info.session.sessionId !in view && InfoOk(info, runId)
    case SessionChanged(info) =>
      && info.session.sessionId in view
      && InfoOk(info, runId)
      && var known := view[info.session.sessionId].info;
      && known.session == info.session && known.providerId == info.providerId && known.gameId == info.gameId
    case SessionEnded(session, _) =>
      session.sessionId in view && view[session.sessionId].info.session == session
    case TopicReset(source, generation, _) =>
      && KnownTopic(view, source)
      && generation > view[source.session.sessionId].topics[source.topic].generation
    case TopicChanged(topic) =>
      && SourceIn(view, topic.source)
      && topic.generation > 0
      && (KnownTopic(view, topic.source) ==>
            view[topic.source.session.sessionId].topics[topic.source.topic].generation == topic.generation)
      && SnapshotAt(topic, sequence)
    case Event(event) =>
      && KnownTopic(view, event.metadata.source)
      && view[event.metadata.source.session.sessionId].topics[event.metadata.source.topic].generation
         == event.metadata.generation
      && event.metadata.sequence == sequence
  }

  function Apply(view: View, update: SubscriptionUpdate, sequence: nat, runId: string): View
    requires Legal(view, update, sequence, runId)
  {
    match update
    case SessionStarted(info) => view[info.session.sessionId := PublicSession(info, map[])]
    case SessionChanged(info) =>
      view[info.session.sessionId := view[info.session.sessionId].(info := info)]
    case SessionEnded(session, _) => view - {session.sessionId}
    case TopicReset(source, generation, _) =>
      PutState(view, TopicSnapshot(source, generation, Initializing, None))
    case TopicChanged(topic) => PutState(view, topic)
    case Event(_) => view
  }

  /** Every session is filed under its own reference of this run. */
  ghost predicate Filed(view: View, runId: string) {
    forall id :: id in view ==> view[id].info.session == SessionRef(runId, id)
  }

  lemma FiledStep(view: View, update: SubscriptionUpdate, sequence: nat, runId: string)
    requires Filed(view, runId) && Legal(view, update, sequence, runId)
    ensures Filed(Apply(view, update, sequence, runId), runId)
  {
  }

  /** The validator knows exactly the selected sessions, topics and generations. */
  ghost predicate Sees(sessions: map<string, Seen>, view: View, selection: Selection) {
    && (forall id :: id in sessions <==> id in view && MatchesInfo(selection, view[id].info))
    && (forall id :: id in sessions ==> SeesSession(sessions[id], view[id], selection))
  }

  ghost predicate SeesSession(seen: Seen, session: PublicSession, selection: Selection) {
    && seen.info == session.info
    && (forall k :: k in seen.topics <==> k in session.topics && k in selection.topics)
    && (forall k :: k in seen.topics ==> seen.topics[k] == session.topics[k].generation)
  }

  /** A validator that has finished its bootstrap and is current with a view. */
  ghost predicate Mirrors(v: Validation, view: View, selection: Selection, runId: string, sequence: nat) {
    && v.selection == selection
    && v.ready
    && v.checkpoint.Some? && v.checkpoint.value.runId == runId
    && v.sequence <= sequence
    && Sees(v.sessions, view, selection)
  }

  /** Whether the service offers the update to this subscriber. Session ends are
      routed by the session's own metadata. */
  predicate Routed(view: View, update: SubscriptionUpdate, selection: Selection) {
    if update.SessionEnded? && update.session.sessionId in view
    then MatchesInfo(selection, view[update.session.sessionId].info)
    else MatchesUpdate(selection, update)
  }

  function Framing(runId: string, sequence: nat, update: SubscriptionUpdate): SubscriptionItem {
    Update(UpdateEnvelope(ServiceCursor(runId, sequence), update))
  }

  lemma SelectedTopic(view: View, source: TopicSource, selection: Selection)
    requires SourceIn(view, source) && Matches(selection, source.session, source.topic)
    ensures MatchesInfo(selection, view[source.session.sessionId].info)
  {
    assert source.topic in selection.topics;
  }

  lemma ClientSessionStep(v: Validation, view: View, selection: Selection, runId: string, sequence: nat,
                          update: SubscriptionUpdate)
    requires v.selection == selection && Begun(v) && v.checkpoint.value.runId == runId
    requires Sees(v.sessions, view, selection)
    requires Legal(view, update, sequence, runId) && Routed(view, update, selection)
    requires update.SessionStarted? || update.SessionChanged? || update.SessionEnded?
    ensures AcceptUpdate(v, update).Ok?
    ensures Sees(AcceptUpdate(v, update).value.sessions, Apply(view, update, sequence, runId), selection)
  {
  }

  lemma NoteSees(v: Validation, view: View, selection: Selection, topic: TopicSnapshot)
    requires Sees(v.sessions, view, selection)
    requires SourceIn(view, topic.source) && Matches(selection, topic.source.session, topic.source.topic)
    ensures topic.source.session.sessionId in v.sessions
    ensures Sees(NoteGeneration(v, topic.source, topic.generation).sessions, PutState(view, topic), selection)
  {
    SelectedTopic(view, topic.source, selection);
    var id := topic.source.session.sessionId;
    var before := v.sessions[id];
    assert SeesSession(before, view[id], selection);
    var after := NoteGeneration(v, topic.source, topic.generation).sessions;
    var next := PutState(view, topic);
    assert SeesSession(after[id], next[id], selection);
    forall other | other in after ensures SeesSession(after[other], next[other], selection) {
      if other != id { assert SeesSession(v.sessions[other], view[other], selection); }
    }
  }

  lemma KnownToClient(v: Validation, view: View, selection: Selection, source: TopicSource)
    requires v.selection == selection && Sees(v.sessions, view, selection)
    requires SourceIn(view, source) && Matches(selection, source.session, source.topic)
    ensures KnownSource(v, source)
    ensures var known := v.sessions[source.session.sessionId].topics;
            && (source.topic in known <==> KnownTopic(view, source))
            && (source.topic in known ==>
                  known[source.topic] == view[source.session.sessionId].topics[source.topic].generation)
  {
    SelectedTopic(view, source, selection);
    assert SeesSession(v.sessions[source.session.sessionId], view[source.session.sessionId], selection);
  }

  lemma ClientTopicStep(v: Validation, view: View, selection: Selection, runId: string, sequence: nat,
                        update: SubscriptionUpdate)
    requires v.selection == selection && v.sequence == sequence
    requires Sees(v.sessions, view, selection)
    requires Legal(view, update, sequence, runId) && Routed(view, update, selection)
    requires update.TopicReset? || update.TopicChanged? || update.Event?
    ensures AcceptUpdate(v, update).Ok?
    ensures Sees(AcceptUpdate(v, update).value.sessions, Apply(view, update, sequence, runId), selection)
  {
    match update
    case TopicReset(source, generation, _) =>
      KnownToClient(v, view, selection, source);
      NoteSees(v, view, selection, TopicSnapshot(source, generation, Initializing, None));
    case TopicChanged(topic) =>
      KnownToClient(v, view, selection, topic.source);
      NoteSees(v, view, selection, topic);
    case Event(event) =>
      KnownToClient(v, view, selection, event.metadata.source);
  }

  lemma AcceptUpdateFrame(v: Validation, update: SubscriptionUpdate)
    requires AcceptUpdate(v, update).Ok?
    ensures var w := AcceptUpdate(v, update).value;
            w == v.(sessions := w.sessions)
  {
  }

  /** The client accepts every legal routed update and follows the view. */
  lemma ClientStep(v: Validation, view: View, selection: Selection, runId: string, sequence: nat,
                   update: SubscriptionUpdate)
    requires Mirrors(v, view, selection, runId, sequence)
    requires Legal(view, update, sequence + 1, runId) && Routed(view, update, selection)
    ensures var verdict := Admit(v, Framing(runId, sequence + 1, update));
            && verdict.Ok?
            && Mirrors(verdict.value, Apply(view, update, sequence + 1, runId), selection, runId, sequence + 1)
  {
    var w := v.(sequence := sequence + 1);
    if update.SessionStarted? || update.SessionChanged? || update.SessionEnded? {
      ClientSessionStep(w, view, selection, runId, sequence + 1, update);
    } else {
      ClientTopicStep(w, view, selection, runId, sequence + 1, update);
    }
    AcceptUpdateFrame(w, update);
  }

  /** An update that is not routed to a client leaves its part of the view alone. */
  lemma UnroutedStep(sessions: map<string, Seen>, view: View, selection: Selection, runId: string, sequence: nat,
                     update: SubscriptionUpdate)
    requires Sees(sessions, view, selection) && Filed(view, runId)
    requires Legal(view, update, sequence, runId) && !Routed(view, update, selection)
    ensures Sees(sessions, Apply(view, update, sequence, runId), selection)
  {
    match update
    case TopicReset(source, generation, _) =>
      UnseenTopic(sessions, view, selection, TopicSnapshot(source, generation, Initializing, None));
    case TopicChanged(topic) => UnseenTopic(sessions, view, selection, topic);
    case _ => UnseenSession(sessions, view, selection, runId, sequence, update);
  }

  lemma UnseenSession(sessions: map<string, Seen>, view: View, selection: Selection, runId: string, sequence: nat,
                      update: SubscriptionUpdate)
    requires Sees(sessions, view, selection) && Filed(view, runId) && !update.TopicReset? && !update.TopicChanged?
    requires Legal(view, update, sequence, runId) && !Routed(view, update, selection)
    ensures Sees(sessions, Apply(view, update, sequence, runId), selection)
  {
    var next := Apply(view, update, sequence, runId);
    forall id | id in sessions ensures id in next && SeesSession(sessions[id], next[id], selection) {
      assert SeesSession(sessions[id], view[id], selection);
    }
  }

  /** A topic that the selection does not match leaves what the validator sees alone. */
  lemma UnseenTopic(sessions: map<string, Seen>, view: View, selection: Selection, topic: TopicSnapshot)
    requires Sees(sessions, view, selection) && SourceIn(view, topic.source)
    requires !Matches(selection, topic.source.session, topic.source.topic)
    ensures Sees(sessions, PutState(view, topic), selection)
  {
    var next := PutState(view, topic);
    forall id | id in sessions ensures id in next && SeesSession(sessions[id], next[id], selection) {
      assert SeesSession(sessions[id], view[id], selection);
    }
  }

  ghost predicate HoldsAt(f: FeedState, view: View, selection: Selection, key: TopicRef, runId: string,
                          r: SessionRef)
  {
    && (r in f.sessions <==>
          r.runId == runId && r.sessionId in view && MatchesInfo(selection, view[r.sessionId].info))
    && (r in f.sessions ==> f.sessions[r].1 == view[r.sessionId].info)
    && (r in f.topics <==> r in f.sessions && key in view[r.sessionId].topics)
    && (r in f.topics ==> f.topics[r] == view[r.sessionId].topics[key])
  }

  /** The feed holds exactly the selected sessions and the state of its one topic in each. */
  ghost predicate Holds(f: FeedState, view: View, selection: Selection, key: TopicRef, runId: string) {
    forall r :: HoldsAt(f, view, selection, key, runId, r)
  }

  lemma PutTopicHolds(f: FeedState, view: View, selection: Selection, key: TopicRef, runId: string,
                      topic: TopicSnapshot)
    requires Holds(f, view, selection, key, runId) && Filed(view, runId)
    requires SourceIn(view, topic.source) && topic.source.topic == key
    requires MatchesInfo(selection, view[topic.source.session.sessionId].info)
    ensures Holds(PutTopic(f, topic), PutState(view, topic), selection, key, runId)
  {
    forall r ensures HoldsAt(PutTopic(f, topic), PutState(view, topic), selection, key, runId, r) {
      assert HoldsAt(f, view, selection, key, runId, r);
      assert r.runId == runId && r.sessionId == topic.source.session.sessionId ==> r == topic.source.session;
    }
  }

  lemma OtherTopicHolds(f: FeedState, view: View, selection: Selection, key: TopicRef, runId: string,
                        topic: TopicSnapshot)
    requires Holds(f, view, selection, key, runId)
    requires SourceIn(view, topic.source)
    requires topic.source.topic == key ==> !MatchesInfo(selection, view[topic.source.session.sessionId].info)
    ensures Holds(f, PutState(view, topic), selection, key, runId)
  {
    forall r ensures HoldsAt(f, PutState(view, topic), selection, key, runId, r) {
      assert HoldsAt(f, view, selection, key, runId, r);
    }
  }

  /** Filing metadata for a selected session, new or already held, keeps its topic entry. */
  lemma PutSessionHolds(f: FeedState, view: View, selection: Selection, key: TopicRef, runId: string, sequence: nat,
                        session: PublicSession)
    requires Holds(f, view, selection, key, runId)
    requires session.info.session.runId == runId && MatchesInfo(selection, session.info)
    requires session.info.session in f.topics <==> key in session.topics
    requires session.info.session in f.topics ==> f.topics[session.info.session] == session.topics[key]
    ensures Holds(PutSession(f, sequence, session.info), view[session.info.session.sessionId := session],
                  selection, key, runId)
  {
    var g := PutSession(f, sequence, session.info);
    var next := view[session.info.session.sessionId := session];
    forall r ensures HoldsAt(g, next, selection, key, runId, r) {
      assert HoldsAt(f, view, selection, key, runId, r);
      assert r.runId == runId && r.sessionId == session.info.session.sessionId ==> r == session.info.session;
    }
  }

  lemma EndSessionHolds(f: FeedState, view: View, selection: Selection, key: TopicRef, runId: string,
                        session: SessionRef)
    requires Holds(f, view, selection, key, runId) && Filed(view, runId)
    requires session.sessionId in view && view[session.sessionId].info.session == session
    ensures Holds(FeedState(f.sessions - {session}, f.topics - {session}), view - {session.sessionId},
                  selection, key, runId)
  {
    var g := FeedState(f.sessions - {session}, f.topics - {session});
    forall r ensures HoldsAt(g, view - {session.sessionId}, selection, key, runId, r) {
      assert HoldsAt(f, view, selection, key, runId, r);
      assert r.runId == runId && r.sessionId == session.sessionId ==> r == session;
    }
  }

  lemma SameSelected(f: FeedState, view: View, next: View, selection: Selection, key: TopicRef, runId: string)
    requires Holds(f, view, selection, key, runId)
    requires forall id :: id in view && MatchesInfo(selection, view[id].info) ==> id in next && next[id] == view[id]
    requires forall id :: id in next && MatchesInfo(selection, next[id].info) ==> id in view && next[id] == view[id]
    ensures Holds(f, next, selection, key, runId)
  {
    forall r ensures HoldsAt(f, next, selection, key, runId, r) {
      assert HoldsAt(f, view, selection, key, runId, r);
    }
  }

  lemma ReplicaStep(f: FeedState, view: View, selection: Selection, key: TopicRef, runId: string, sequence: nat,
                    update: SubscriptionUpdate)
    requires selection.topics == {key}
    requires Holds(f, view, selection, key, runId) && Filed(view, runId)
    requires Legal(view, update, sequence, runId) && Routed(view, update, selection)
    ensures Holds(FoldUpdate(f, sequence, update), Apply(view, update, sequence, runId), selection, key, runId)
  {
    match update
    case SessionStarted(info) =>
      assert HoldsAt(f, view, selection, key, runId, info.session);
      PutSessionHolds(f, view, selection, key, runId, sequence, PublicSession(info, map[]));
    case SessionChanged(info) =>
      assert HoldsAt(f, view, selection, key, runId, info.session);
      PutSessionHolds(f, view, selection, key, runId, sequence, view[info.session.sessionId].(info := info));
    case SessionEnded(session, _) => EndSessionHolds(f, view, selection, key, runId, session);
    case TopicReset(source, generation, _) =>
      SelectedTopic(view, source, selection);
      PutTopicHolds(f, view, selection, key, runId, TopicSnapshot(source, generation, Initializing, None));
    case TopicChanged(topic) =>
      SelectedTopic(view, topic.source, selection);
      PutTopicHolds(f, view, selection, key, runId, topic);
    case Event(_) =>
  }

  lemma UnroutedReplica(f: FeedState, view: View, selection: Selection, key: TopicRef, runId: string, sequence: nat,
                        update: SubscriptionUpdate)
    requires selection.topics == {key}
    requires Holds(f, view, selection, key, runId) && Filed(view, runId)
    requires Legal(view, update, sequence, runId) && !Routed(view, update, selection)
    ensures Holds(f, Apply(view, update, sequence, runId), selection, key, runId)
  {
    match update
    case SessionStarted(_) =>
      SameSelected(f, view, Apply(view, update, sequence, runId), selection, key, runId);
    case SessionChanged(_) =>
      SameSelected(f, view, Apply(view, update, sequence, runId), selection, key, runId);
    case SessionEnded(_, _) =>
      SameSelected(f, view, Apply(view, update, sequence, runId), selection, key, runId);
    case TopicReset(source, generation, _) =>
      OtherTopicHolds(f, view, selection, key, runId, TopicSnapshot(source, generation, Initializing, None));
    case TopicChanged(topic) =>
      OtherTopicHolds(f, view, selection, key, runId, topic);
    case Event(_) =>
  }

  /** Two feeds that hold the same view have the same contents. */
  lemma HoldsDetermines(f: FeedState, g: FeedState, view: View, selection: Selection, key: TopicRef, runId: string)
    requires Holds(f, view, selection, key, runId) && Holds(g, view, selection, key, runId)
    ensures f.topics == g.topics && f.sessions.Keys == g.sessions.Keys
    ensures forall r :: r in f.sessions ==> f.sessions[r].1 == g.sessions[r].1
  {
    forall r ensures (r in f.sessions <==> r in g.sessions) && (r in f.topics <==> r in g.topics)
             ensures r in f.topics ==> f.topics[r] == g.topics[r]
             ensures r in f.sessions ==> f.sessions[r].1 == g.sessions[r].1
    {
      assert HoldsAt(f, view, selection, key, runId, r) && HoldsAt(g, view, selection, key, runId, r);
    }
    assert f.topics.Keys == g.topics.Keys;
  }
}
