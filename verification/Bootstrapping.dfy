/** A captured bootstrap is complete: a fresh client that reads it knows exactly
    the selected part of the published view. */
module Bootstrapping {
  import opened Wire
  import opened WireSize
  import opened Selecting
  import opened Ordering
  import opened SubscriptionQueue
  import opened ClientValidation
  import opened Replica
  import opened Views
  import opened Service
  import opened Streams
  import opened Invariant

  /** A client part way through a bootstrap, knowing the view read so far. */
  ghost predicate Booted(selection: Selection, items: seq<SubscriptionItem>, cursor: ServiceCursor, view: View) {
    var verdict := AdmitAll(selection, items);
    && verdict.Ok?
    && verdict.value == Validation(selection, Some(cursor), false, cursor.sequence, verdict.value.sessions)
    && Sees(verdict.value.sessions, view, selection)
    && Filed(view, cursor.runId)
    && forall key :: selection.topics == {key} ==>
         Holds(FoldAll(items).state, view, selection, key, cursor.runId)
  }

  lemma BootBegin(selection: Selection, cursor: ServiceCursor)
    requires Identifier(cursor.runId)
    ensures Booted(selection, [Begin(cursor)], cursor, map[])
  {
    hide Holds;
    assert [Begin(cursor)] == [] + [Begin(cursor)];
    AdmitAppend(selection, [], Begin(cursor));
    FoldAppend([], Begin(cursor));
    forall key | selection.topics == {key}
      ensures Holds(FoldAll([Begin(cursor)]).state, map[], selection, key, cursor.runId)
    {
      HoldsNothing(selection, key, cursor.runId);
    }
  }

  lemma HoldsNothing(selection: Selection, key: TopicRef, runId: string)
    ensures Holds(NOTHING, map[], selection, key, runId)
  {
    forall r ensures HoldsAt(NOTHING, map[], selection, key, runId, r) {
    }
  }

  lemma BootSession(selection: Selection, items: seq<SubscriptionItem>, cursor: ServiceCursor, view: View,
                    info: SessionInfo)
    requires Booted(selection, items, cursor, view)
    requires info.session.sessionId !in view && InfoOk(info, cursor.runId) && MatchesInfo(selection, info)
    ensures Booted(selection, items + [SessionFrame(info)], cursor,
                   view[info.session.sessionId := PublicSession(info, map[])])
  {
    var item := SessionFrame(info);
    var session := PublicSession(info, map[]);
    var next := view[info.session.sessionId := session];
    AdmitAppend(selection, items, item);
    FoldAppend(items, item);
    var v := AdmitAll(selection, items).value;
    ClientSessionStep(v, view, selection, cursor.runId, 0, SessionStarted(info));
    forall key | selection.topics == {key}
      ensures Holds(FoldAll(items + [item]).state, next, selection, key, cursor.runId)
    {
      var f := FoldAll(items);
      assert HoldsAt(f.state, view, selection, key, cursor.runId, info.session);
      PutSessionHolds(f.state, view, selection, key, cursor.runId, f.sequence, session);
    }
  }

  lemma BootTopic(selection: Selection, items: seq<SubscriptionItem>, cursor: ServiceCursor, view: View,
                  state: TopicSnapshot)
    requires Booted(selection, items, cursor, view)
    requires SourceIn(view, state.source) && !KnownTopic(view, state.source)
    requires Matches(selection, state.source.session, state.source.topic)
    requires state.generation > 0 && SnapshotMatches(state, cursor.sequence)
    ensures Booted(selection, items + [TopicFrame(state)], cursor, PutState(view, state))
  {
    var item := TopicFrame(state);
    AdmitAppend(selection, items, item);
    FoldAppend(items, item);
    var v := AdmitAll(selection, items).value;
    KnownToClient(v, view, selection, state.source);
    NoteSees(v, view, selection, state);
    SelectedTopic(view, state.source, selection);
    forall key | selection.topics == {key}
      ensures Holds(FoldAll(items + [item]).state, PutState(view, state), selection, key, cursor.runId)
    {
      PutTopicHolds(FoldAll(items).state, view, selection, key, cursor.runId, state);
    }
  }

  lemma BootSkipTopic(selection: Selection, items: seq<SubscriptionItem>, cursor: ServiceCursor, view: View,
                      state: TopicSnapshot)
    requires Booted(selection, items, cursor, view)
    requires SourceIn(view, state.source) && state.source.topic !in selection.topics
    ensures Booted(selection, items, cursor, PutState(view, state))
  {
    var v := AdmitAll(selection, items).value;
    var next := PutState(view, state);
    forall id | id in v.sessions ensures id in next && SeesSession(v.sessions[id], next[id], selection) {
      assert SeesSession(v.sessions[id], view[id], selection);
    }
    forall key | selection.topics == {key}
      ensures Holds(FoldAll(items).state, next, selection, key, cursor.runId)
    {
      OtherTopicHolds(FoldAll(items).state, view, selection, key, cursor.runId, state);
    }
  }

  lemma BootSkipSession(selection: Selection, items: seq<SubscriptionItem>, cursor: ServiceCursor, view: View,
                        id: string, session: PublicSession)
    requires Booted(selection, items, cursor, view)
    requires id !in view && session.info.session == SessionRef(cursor.runId, id)
    requires !MatchesInfo(selection, session.info)
    ensures Booted(selection, items, cursor, view[id := session])
  {
    var v := AdmitAll(selection, items).value;
    var next := view[id := session];
    forall other | other in v.sessions ensures other in next && SeesSession(v.sessions[other], next[other], selection) {
      assert SeesSession(v.sessions[other], view[other], selection);
    }
    forall key | selection.topics == {key}
      ensures Holds(FoldAll(items).state, next, selection, key, cursor.runId)
    {
      SameSelected(FoldAll(items).state, view, next, selection, key, cursor.runId);
    }
  }

  function StatesOf(topics: map<TopicRef, Topic>, keys: seq<TopicRef>): map<TopicRef, TopicSnapshot> {
    map k | k in topics && k in keys :: topics[k].state
  }

  /** The view with the given topics of one session filled in. */
  function Filled(view: View, id: string, session: Session, keys: seq<TopicRef>): View {
    view[id := PublicSession(session.info, StatesOf(session.topics, keys))]
  }

  lemma FilledStep(view: View, id: string, session: Session, catalog: Catalog, runId: string, keys: seq<TopicRef>)
    requires SessionShape(session, id, catalog, runId)
    requires keys != [] && keys[|keys| - 1] in session.topics && keys[|keys| - 1] !in keys[..|keys| - 1]
    ensures var state := session.topics[keys[|keys| - 1]].state;
            var mid := Filled(view, id, session, keys[..|keys| - 1]);
            && SourceIn(mid, state.source) && !KnownTopic(mid, state.source)
            && state.generation > 0 && state.source.topic == keys[|keys| - 1]
            && state.source.session == session.info.session
            && PutState(mid, state) == Filled(view, id, session, keys)
  {
    var front, key := keys[..|keys| - 1], keys[|keys| - 1];
    assert TopicShape(session.topics[key], session.info, key);
    assert keys == front + [key];
    assert StatesOf(session.topics, keys) == StatesOf(session.topics, front)[key := session.topics[key].state];
  }

  lemma FramesStep(items: seq<SubscriptionItem>, topics: map<TopicRef, Topic>, selection: Selection,
                   keys: seq<TopicRef>)
    requires keys != [] && forall k :: k in keys ==> k in topics
    ensures var state := topics[keys[|keys| - 1]].state;
            var read := items + TopicFrames(topics, selection, keys[..|keys| - 1]);
            items + TopicFrames(topics, selection, keys)
            == if Matches(selection, state.source.session, state.source.topic) then read + [TopicFrame(state)]
               else read
  {
  }

  /** Reading one topic of a selected session, or passing over it. */
  lemma BootEither(selection: Selection, items: seq<SubscriptionItem>, cursor: ServiceCursor, view: View,
                   info: SessionInfo, state: TopicSnapshot)
    requires Booted(selection, items, cursor, view)
    requires SourceIn(view, state.source) && !KnownTopic(view, state.source)
    requires MatchesInfo(selection, info) && state.source.session == info.session
    requires state.generation > 0 && SnapshotMatches(state, cursor.sequence)
    ensures Booted(selection,
                   if Matches(selection, state.source.session, state.source.topic) then items + [TopicFrame(state)]
                   else items,
                   cursor, PutState(view, state))
  {
    if Matches(selection, state.source.session, state.source.topic) {
      BootTopic(selection, items, cursor, view, state);
    } else {
      BootSkipTopic(selection, items, cursor, view, state);
    }
  }

  /** Reading the topic frames of one selected session. */
  lemma {:induction false} BootTopics(selection: Selection, items: seq<SubscriptionItem>, cursor: ServiceCursor,
                                      view: View, id: string, session: Session, catalog: Catalog, keys: seq<TopicRef>)
    requires MatchesInfo(selection, session.info)
    requires SessionShape(session, id, catalog, cursor.runId)
    requires Booted(selection, items, cursor, Filled(view, id, session, []))
    requires forall k :: k in keys ==> k in session.topics && SnapshotMatches(session.topics[k].state, cursor.sequence)
    requires NoRepeats(keys)
    ensures Booted(selection, items + TopicFrames(session.topics, selection, keys), cursor,
                   Filled(view, id, session, keys))
  {
    if keys == [] {
      assert items + TopicFrames(session.topics, selection, keys) == items;
    } else {
      var front := keys[..|keys| - 1];
      BootTopics(selection, items, cursor, view, id, session, catalog, front);
      FilledStep(view, id, session, catalog, cursor.runId, keys);
      FramesStep(items, session.topics, selection, keys);
      BootEither(selection, items + TopicFrames(session.topics, selection, front), cursor,
                 Filled(view, id, session, front), session.info, session.topics[keys[|keys| - 1]].state);
    }
  }

  lemma WholeFilled(view: View, id: string, session: Session)
    ensures Filled(view, id, session, TopicsInOrder(session.topics.Keys)) == view[id := PublicOf(session)]
    ensures Filled(view, id, session, []) == view[id := PublicSession(session.info, map[])]
  {
    assert StatesOf(session.topics, TopicsInOrder(session.topics.Keys)) == PublicOf(session).topics;
    assert StatesOf(session.topics, []) == map[];
  }

  lemma BootWholeSession(selection: Selection, items: seq<SubscriptionItem>, cursor: ServiceCursor, view: View,
                         id: string, session: Session, catalog: Catalog)
    requires Booted(selection, items, cursor, view) && id !in view
    requires SessionShape(session, id, catalog, cursor.runId)
    requires forall k :: k in session.topics ==> SnapshotMatches(session.topics[k].state, cursor.sequence)
    ensures Booted(selection, items + FramesOf(session, selection), cursor, view[id := PublicOf(session)])
  {
    if MatchesInfo(selection, session.info) {
      var keys := TopicsInOrder(session.topics.Keys);
      var frames := TopicFrames(session.topics, selection, keys);
      WholeFilled(view, id, session);
      BootSession(selection, items, cursor, view, session.info);
      BootTopics(selection, items + [SessionFrame(session.info)], cursor, view, id, session, catalog, keys);
      Regroup(items, SessionFrame(session.info), frames);
    } else {
      BootSkipSession(selection, items, cursor, view, id, PublicOf(session));
      assert items + FramesOf(session, selection) == items;
    }
  }

  lemma Regroup<T>(a: seq<T>, x: T, b: seq<T>)
    ensures a + [x] + b == a + ([x] + b)
  {
  }

  function Part(sessions: Sessions, ids: seq<string>): View {
    map id | id in sessions && id in ids :: PublicOf(sessions[id])
  }

  ghost predicate SnapshotsMatch(sessions: Sessions, sequence: nat) {
    forall p :: Placed(sessions, p) ==> SnapshotMatches(At(sessions, p).state, sequence)
  }

  lemma PartMore(sessions: Sessions, ids: seq<string>)
    requires ids != [] && forall id :: id in ids ==> id in sessions
    requires ids[|ids| - 1] !in ids[..|ids| - 1]
    ensures var id := ids[|ids| - 1];
            && id !in Part(sessions, ids[..|ids| - 1])
            && Part(sessions, ids) == Part(sessions, ids[..|ids| - 1])[id := PublicOf(sessions[id])]
  {
    hide PublicOf;
    assert ids == ids[..|ids| - 1] + [ids[|ids| - 1]];
  }

  lemma PartStep(sessions: Sessions, selection: Selection, begin: SubscriptionItem, ids: seq<string>)
    requires ids != [] && forall id :: id in ids ==> id in sessions
    requires ids[|ids| - 1] !in ids[..|ids| - 1]
    ensures var id := ids[|ids| - 1];
            && id !in Part(sessions, ids[..|ids| - 1])
            && Part(sessions, ids) == Part(sessions, ids[..|ids| - 1])[id := PublicOf(sessions[id])]
            && [begin] + SessionFrames(sessions, selection, ids)
               == [begin] + SessionFrames(sessions, selection, ids[..|ids| - 1]) + FramesOf(sessions[id], selection)
  {
    hide FramesOf, Part;
    PartMore(sessions, ids);
    assert [begin] + (SessionFrames(sessions, selection, ids[..|ids| - 1]) + FramesOf(sessions[ids[|ids| - 1]], selection))
        == [begin] + SessionFrames(sessions, selection, ids[..|ids| - 1]) + FramesOf(sessions[ids[|ids| - 1]], selection);
  }

  lemma {:induction false} BootSessions(selection: Selection, sessions: Sessions, cursor: ServiceCursor,
                                        catalog: Catalog, ids: seq<string>)
    requires Identifier(cursor.runId) && Shaped(sessions, catalog, cursor.runId)
    requires SnapshotsMatch(sessions, cursor.sequence)
    requires forall id :: id in ids ==> id in sessions
    requires NoRepeats(ids)
    ensures Booted(selection, [Begin(cursor)] + SessionFrames(sessions, selection, ids), cursor, Part(sessions, ids))
  {
    if ids == [] {
      BootBegin(selection, cursor);
      assert Part(sessions, ids) == map[];
      assert [Begin(cursor)] + SessionFrames(sessions, selection, ids) == [Begin(cursor)];
    } else {
      var front, id := ids[..|ids| - 1], ids[|ids| - 1];
      BootSessions(selection, sessions, cursor, catalog, front);
      PartStep(sessions, selection, Begin(cursor), ids);
      SessionReady(sessions, catalog, cursor, id);
      BootWholeSession(selection, [Begin(cursor)] + SessionFrames(sessions, selection, front), cursor,
                       Part(sessions, front), id, sessions[id], catalog);
    }
  }

  lemma SessionReady(sessions: Sessions, catalog: Catalog, cursor: ServiceCursor, id: string)
    requires Shaped(sessions, catalog, cursor.runId) && SnapshotsMatch(sessions, cursor.sequence) && id in sessions
    ensures SessionShape(sessions[id], id, catalog, cursor.runId)
    ensures forall k :: k in sessions[id].topics ==> SnapshotMatches(sessions[id].topics[k].state, cursor.sequence)
  {
    forall k | k in sessions[id].topics ensures SnapshotMatches(sessions[id].topics[k].state, cursor.sequence) {
      assert At(sessions, Place(id, k)) == sessions[id].topics[k];
    }
  }

  lemma SeenComplete(v: Validation, id: string, session: Session, selection: Selection, catalog: Catalog, runId: string)
    requires id in v.sessions && v.selection == selection && SeesSession(v.sessions[id], PublicOf(session), selection)
    requires SessionShape(session, id, catalog, runId) && SelectionOk(selection, catalog)
    ensures Complete(v, id)
  {
    var seen := v.sessions[id];
    var expected := set t | t in selection.topics && t.providerId == seen.info.providerId;
    forall k ensures k in seen.topics.Keys <==> k in expected {
    }
    assert seen.topics.Keys == expected;
  }

  /** No selected topic is missing when Ready arrives. */
  lemma BootComplete(v: Validation, sessions: Sessions, selection: Selection, catalog: Catalog, runId: string)
    requires v.selection == selection && Sees(v.sessions, Public(sessions), selection)
    requires Shaped(sessions, catalog, runId) && SelectionOk(selection, catalog)
    ensures forall id :: id in v.sessions ==> Complete(v, id)
  {
    forall id | id in v.sessions ensures Complete(v, id) {
      assert SeesSession(v.sessions[id], Public(sessions)[id], selection);
      assert SessionShape(sessions[id], id, catalog, runId);
      SeenComplete(v, id, sessions[id], selection, catalog, runId);
    }
  }

  lemma BootReady(selection: Selection, read: seq<SubscriptionItem>, cursor: ServiceCursor, view: View)
    requires Booted(selection, read, cursor, view)
    requires var v := AdmitAll(selection, read).value; forall id :: id in v.sessions ==> Complete(v, id)
    ensures Tracks(Channel(selection, Opened(read + [Ready(cursor)])), view, cursor.runId, cursor.sequence)
  {
    AdmitAppend(selection, read, Ready(cursor));
    FoldAppend(read, Ready(cursor));
  }

  lemma StateSnapshots(s: State)
    requires StateOk(s)
    ensures SnapshotsMatch(s.sessions, s.sequence)
  {
    forall p | Placed(s.sessions, p) ensures SnapshotMatches(At(s.sessions, p).state, s.sequence) {
      assert SessionShape(s.sessions[p.id], p.id, s.catalog, s.runId);
      assert TopicOk(At(s.sessions, p), CapabilityOf(s.catalog, p.key), s.sequence);
    }
  }

  lemma AllRead(s: State, selection: Selection)
    requires StateOk(s)
    ensures Booted(selection,
                   [Begin(Cursor(s))] + SessionFrames(s.sessions, selection, IdsInOrder(s.sessions.Keys)),
                   Cursor(s), Public(s.sessions))
  {
    hide Booted;
    var ids := IdsInOrder(s.sessions.Keys);
    StateSnapshots(s);
    BootSessions(selection, s.sessions, Cursor(s), s.catalog, ids);
    assert Part(s.sessions, ids) == Public(s.sessions);
  }

  /** The bootstrap is accepted whole and leaves the client current. */
  lemma BootstrapTracks(s: State, selection: Selection)
    requires StateOk(s) && SelectionOk(selection, s.catalog)
    ensures Tracks(Channel(selection, Opened(Bootstrap(s, selection))), Public(s.sessions), s.runId, s.sequence)
  {
    var read := [Begin(Cursor(s))] + SessionFrames(s.sessions, selection, IdsInOrder(s.sessions.Keys));
    AllRead(s, selection);
    BootComplete(AdmitAll(selection, read).value, s.sessions, selection, s.catalog, s.runId);
    BootReady(selection, read, Cursor(s), Public(s.sessions));
  }

  lemma {:induction false} TopicFramesOk(session: Session, selection: Selection, keys: seq<TopicRef>,
                                         texts: set<JsonPayload>)
    requires forall k :: k in keys ==> k in session.topics && TopicFrom(session.topics[k].state, texts)
    ensures forall item :: item in TopicFrames(session.topics, selection, keys) ==>
              item.TopicFrame? && ItemOk(item, texts)
  {
    if keys != [] {
      TopicFramesOk(session, selection, keys[..|keys| - 1], texts);
    }
  }

  lemma {:induction false} SessionFramesOk(s: State, selection: Selection, ids: seq<string>, texts: set<JsonPayload>)
    requires forall id :: id in ids ==> id in s.sessions
    requires forall p :: Placed(s.sessions, p) ==> TopicFrom(At(s.sessions, p).state, texts)
    ensures forall item :: item in SessionFrames(s.sessions, selection, ids) ==>
              (item.TopicFrame? || item.SessionFrame?) && ItemOk(item, texts)
  {
    if ids != [] {
      SessionFramesOk(s, selection, ids[..|ids| - 1], texts);
      var id := ids[|ids| - 1];
      assert id in ids;
      var session := s.sessions[id];
      forall k | k in session.topics ensures TopicFrom(session.topics[k].state, texts) {
        assert At(s.sessions, Place(id, k)) == session.topics[k];
      }
      TopicFramesOk(session, selection, TopicsInOrder(session.topics.Keys), texts);
    }
  }

  lemma BootstrapItems(s: State, selection: Selection, texts: set<JsonPayload>)
    requires forall p :: Placed(s.sessions, p) ==> TopicFrom(At(s.sessions, p).state, texts)
    ensures Framed(Bootstrap(s, selection))
    ensures forall item :: item in Bootstrap(s, selection) ==> ItemOk(item, texts)
  {
    var frames := Bootstrap(s, selection);
    var ids := IdsInOrder(s.sessions.Keys);
    var body := SessionFrames(s.sessions, selection, ids);
    SessionFramesOk(s, selection, ids, texts);
    forall i | 0 < i < |frames| ensures !frames[i].Begin? && !frames[i].Closed? && ItemOk(frames[i], texts) {
      if i < |frames| - 1 { assert frames[i] == body[i - 1] && body[i - 1] in body; }
    }
    forall item | item in frames ensures ItemOk(item, texts) {
      var i :| 0 <= i < |frames| && frames[i] == item;
    }
  }

  lemma OpenedLawful(frames: seq<SubscriptionItem>, budget: nat)
    requires Framed(frames)
    ensures Lawful(Opened(frames), budget)
  {
    assert Waiting(Opened(frames).queue) == frames;
  }

  lemma {:induction false} FramesWithin(frames: seq<SubscriptionItem>, bytes: nat, messageBytes: nat)
    requires FramesExceed(frames, bytes, messageBytes).None?
    ensures forall item :: item in frames ==> ReplySize(item) <= messageBytes
  {
    if frames != [] {
      FramesWithin(frames[1..], bytes + ReplySize(frames[0]), messageBytes);
      assert frames == [frames[0]] + frames[1..];
    }
  }

  /** A freshly captured channel is well formed. */
  lemma BootstrapOk(s: State, selection: Selection, budget: nat, texts: set<JsonPayload>)
    requires StateOk(s) && SelectionOk(selection, s.catalog) && Cached(s, texts)
    requires FramesExceed(Bootstrap(s, selection), 0, budget).None?
    ensures ChannelOk(Channel(selection, Opened(Bootstrap(s, selection))), budget, texts)
  {
    forall p | Placed(s.sessions, p) ensures TopicFrom(At(s.sessions, p).state, texts) {
    }
    BootstrapTracks(s, selection);
    BootstrapItems(s, selection, texts);
    OpenedLawful(Bootstrap(s, selection), budget);
    FramesWithin(Bootstrap(s, selection), 0, budget);
  }
}
