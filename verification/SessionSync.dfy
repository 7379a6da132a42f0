/** Sessions starting and ending with the host's attachments keep the invariant. */
module SessionSync {
  import opened Wire
  import opened Selecting
  import opened Ordering
  import opened SubscriptionQueue
  import opened Views
  import opened Service
  import opened Streams
  import opened Publication
  import opened Invariant
  import opened Sweeps
  import opened Retention
  import opened Settling

  /** What the host promises of the sessions it reports: a registered provider
      and identifiers of legal length. */
  predicate HonestTarget(target: TargetStatus, catalog: Catalog) {
    target.activity.Observing? ==>
      && Identifier(target.activity.sessionId)
      && Identifier(target.target.providerId)
      && Identifier(target.target.gameId)
      && target.target.providerId in catalog
  }

  predicate HonestStatus(status: HostStatus, catalog: Catalog) {
    forall t :: t in status.targets ==> HonestTarget(t, catalog)
  }

  // ---- a session ends

  lemma EndedPublic(sessions: Sessions, id: string)
    ensures Public(sessions - {id}) == Public(sessions) - {id}
  {
  }

  lemma DropSessionOk(s: State, id: string)
    requires StateOk(s)
    ensures StateOk(s.(sessions := s.sessions - {id})) && Sheds(s.sessions, s.sessions - {id})
  {
    var t := s.(sessions := s.sessions - {id});
    forall p | Placed(t.sessions, p) ensures Placed(s.sessions, p) && At(t.sessions, p) == At(s.sessions, p) {
    }
    forall n | n in t.sessions ensures SessionShape(t.sessions[n], n, t.catalog, t.runId) {
      assert SessionShape(s.sessions[n], n, s.catalog, s.runId);
    }
  }

  lemma DropSessionSteady(s: State, id: string, view: View, texts: set<JsonPayload>)
    requires StateOk(s) && Synced(s, view, texts) && Cached(s, texts) && Bounded(s)
    requires view == Public(s.sessions - {id})
    ensures Steady(s.(sessions := s.sessions - {id}), texts)
  {
    var t := s.(sessions := s.sessions - {id});
    DropSessionOk(s, id);
    SyncedFrame(s, t, view, texts);
    KeptSheds(s, t, texts);
  }

  /** Being in step depends only on the channels and on who is fed. */
  lemma SyncedFrame(s: State, t: State, view: View, texts: set<JsonPayload>)
    requires Synced(s, view, texts)
    requires t.channels == s.channels && t.subscribers == s.subscribers
    requires t.runId == s.runId && t.messageBytes == s.messageBytes && s.sequence <= t.sequence
    ensures Synced(t, view, texts)
  {
    forall n | n in t.subscribers ensures SubscriberOk(t, n, view) {
      assert SubscriberOk(s, n, view);
    }
  }

  function FinishSome(s: State, over: set<nat>, end: SubscriptionEnd): State {
    s.(subscribers := s.subscribers - over,
       channels := map n | n in s.channels ::
         if n in over then FinishChannel(s.channels[n], end, false) else s.channels[n])
  }

  lemma FinishSynced(s: State, t: State, over: set<nat>, end: SubscriptionEnd, view: View, texts: set<JsonPayload>)
    requires Synced(s, view, texts) && t == FinishSome(s, over, end)
    ensures Synced(t, view, texts)
  {
    hide ChannelOk, Tracks;
    forall n | n in t.channels ensures ChannelOk(t.channels[n], t.messageBytes, texts) {
      assert ChannelOk(s.channels[n], s.messageBytes, texts);
      FinishOk(s.channels[n], end, false, s.messageBytes, texts);
    }
    forall n | n in t.subscribers ensures SubscriberOk(t, n, view) {
      assert SubscriberOk(s, n, view);
    }
  }

  lemma FinishSteady(s: State, over: set<nat>, end: SubscriptionEnd, texts: set<JsonPayload>)
    requires Steady(s, texts)
    ensures Steady(FinishSome(s, over, end), texts)
  {
    hide Synced, StateOk, Cached, Bounded;
    var t := FinishSome(s, over, end);
    FinishSynced(s, t, over, end, Public(s.sessions), texts);
    KeptSheds(s, t, texts);
    FinishedOk(s, t);
  }

  lemma FinishedOk(s: State, t: State)
    requires StateOk(s) && t.channels.Keys == s.channels.Keys
    requires t == s.(subscribers := t.subscribers, channels := t.channels)
    requires forall n :: n in t.subscribers ==> n in s.subscribers && t.subscribers[n] == s.subscribers[n]
    ensures StateOk(t)
  {
    forall n | n in t.channels ensures n <= t.nextSubscription {
      assert n in s.channels.Keys;
    }
  }

  /** Announcing the end of a session brings every client to the view without it. */
  lemma TellEnd(s: State, id: string, reason: SessionEndReason, texts: set<JsonPayload>)
    requires Steady(s, texts) && id in s.sessions
    ensures var told := Emit(s, SessionEnded(s.sessions[id].info.session, reason));
            && StateOk(told) && Cached(told, texts) && Bounded(told) && Frame(s, told)
            && Synced(told, Public(told.sessions - {id}), texts)
  {
    var update := SessionEnded(s.sessions[id].info.session, reason);
    var told := Emit(s, update);
    assert SessionShape(s.sessions[id], id, s.catalog, s.runId);
    EmitFrame(s, update);
    if told.stopped {
      if s.stopped {
        PublicFiled(s.(sessions := s.sessions - {id}));
      } else {
        CloseSteady(s, EXHAUSTED, Public(s.sessions), texts);
        PublicFiled(told.(sessions := told.sessions - {id}));
      }
      StoppedSynced(told, Public(told.sessions), Public(told.sessions - {id}), texts);
    } else {
      EndedPublic(s.sessions, id);
      EmitShape(s, update);
      EmitSynced(s, update, Public(s.sessions), Public(s.sessions) - {id}, texts);
      AdvancedOk(s, told);
      KeptSheds(s, told, texts);
    }
  }

  lemma StoppedSynced(s: State, view: View, next: View, texts: set<JsonPayload>)
    requires Synced(s, view, texts) && s.subscribers == map[] && Filed(next, s.runId)
    ensures Synced(s, next, texts)
  {
  }

  lemma EndSessionSteady(s: State, id: string, status: HostStatus, texts: set<JsonPayload>)
    requires Steady(s, texts)
    ensures Steady(EndSession(s, id, status), texts)
    ensures AllActive(s) ==> AllActive(EndSession(s, id, status))
    ensures EndSession(s, id, status).catalog == s.catalog && EndSession(s, id, status).runId == s.runId
  {
    if id in s.sessions {
      var reference := s.sessions[id].info.session;
      var reason := if NowRetrying(s.runtime, status, id) then SessionProviderFailed else TargetExited;
      var told := Emit(s, SessionEnded(reference, reason));
      TellEnd(s, id, reason, texts);
      DropSessionSteady(told, id, Public(told.sessions - {id}), texts);
      var over := set n | n in told.subscribers && told.subscribers[n].selection.sessions == OneSession(reference);
      FinishSteady(told.(sessions := told.sessions - {id}), over, SessionOver, texts);
    }
  }

  lemma {:induction false} EndSessionsSteady(s: State, ids: seq<string>, status: HostStatus, texts: set<JsonPayload>)
    requires Steady(s, texts)
    ensures Steady(EndSessions(s, ids, status), texts)
    ensures AllActive(s) ==> AllActive(EndSessions(s, ids, status))
    ensures EndSessions(s, ids, status).catalog == s.catalog && EndSessions(s, ids, status).runId == s.runId
  {
    if ids != [] {
      EndSessionsSteady(s, ids[..|ids| - 1], status, texts);
      EndSessionSteady(EndSessions(s, ids[..|ids| - 1], status), ids[|ids| - 1], status, texts);
    }
  }

  // ---- a session starts

  /** The view while the topics of a new session are being announced. */
  function Announced(view: View, info: SessionInfo, keys: seq<TopicRef>): View {
    view[info.session.sessionId := PublicSession(info, StatesFor(info, keys))]
  }

  function StatesFor(info: SessionInfo, keys: seq<TopicRef>): map<TopicRef, TopicSnapshot> {
    map k | k in keys :: NewTopic(info, k).state
  }

  lemma AnnounceStep(view: View, info: SessionInfo, keys: seq<TopicRef>, sequence: nat, runId: string)
    requires keys != [] && keys[|keys| - 1] !in keys[..|keys| - 1]
    requires keys[|keys| - 1].providerId == info.providerId
    ensures var mid := Announced(view, info, keys[..|keys| - 1]);
            var update := TopicChanged(NewTopic(info, keys[|keys| - 1]).state);
            && Legal(mid, update, sequence, runId)
            && Apply(mid, update, sequence, runId) == Announced(view, info, keys)
  {
    var front, key := keys[..|keys| - 1], keys[|keys| - 1];
    assert keys == front + [key];
    assert StatesFor(info, keys) == StatesFor(info, front)[key := NewTopic(info, key).state];
  }

  lemma AnnounceSnoc(info: SessionInfo, keys: seq<TopicRef>)
    requires keys != []
    ensures Announce(info, keys)
            == Announce(info, keys[..|keys| - 1]) + [TopicChanged(NewTopic(info, keys[|keys| - 1]).state)]
  {
  }

  lemma {:induction false} AnnounceWalk(view: View, info: SessionInfo, keys: seq<TopicRef>, sequence: nat,
                                        runId: string)
    requires NoRepeats(keys)
    requires forall k :: k in keys ==> k.providerId == info.providerId
    ensures Walk(Announced(view, info, []), Announce(info, keys), sequence, runId) == Some(Announced(view, info, keys))
  {
    if keys != [] {
      var front := keys[..|keys| - 1];
      AnnounceWalk(view, info, front, sequence, runId);
      AnnounceStep(view, info, keys, sequence + |front| + 1, runId);
      AnnounceSnoc(info, keys);
      WalkAppend(Announced(view, info, []), Announce(info, front), Announced(view, info, front),
                 TopicChanged(NewTopic(info, keys[|keys| - 1]).state), sequence, runId);
    }
  }

  function WithSession(s: State, info: SessionInfo): State
    requires info.providerId in s.catalog
  {
    s.(sessions := s.sessions[info.session.sessionId :=
         Session(info, NewTopics(info, KeysOf(info.providerId, s.catalog[info.providerId])))])
  }

  lemma NewSessionShape(info: SessionInfo, catalog: Catalog, runId: string)
    requires InfoOk(info, runId) && info.providerId in catalog
    ensures SessionShape(Session(info, NewTopics(info, KeysOf(info.providerId, catalog[info.providerId]))),
                         info.session.sessionId, catalog, runId)
  {
    var caps := catalog[info.providerId];
    var keys := KeysOf(info.providerId, caps);
    forall k ensures k in keys <==> k.providerId == info.providerId && Registered(catalog, k) {
      if k.providerId == info.providerId && Registered(catalog, k) {
        var c := CapabilityKey(k.topic, k.schemaVersion);
        assert c in caps && TopicRef(info.providerId, c.topic, c.schemaVersion) == k;
      }
    }
  }

  lemma WithSessionShaped(s: State, info: SessionInfo)
    requires StateOk(s) && !s.stopped
    requires InfoOk(info, s.runId) && info.providerId in s.catalog && info.session.sessionId !in s.sessions
    ensures StateOk(WithSession(s, info)) && Sheds(s.sessions, WithSession(s, info).sessions)
  {
    var t := WithSession(s, info);
    var id := info.session.sessionId;
    NewSessionShape(info, s.catalog, s.runId);
    forall n | n in t.sessions ensures SessionShape(t.sessions[n], n, t.catalog, t.runId) {
      if n != id { assert SessionShape(s.sessions[n], n, s.catalog, s.runId); }
    }
    forall p | Placed(t.sessions, p)
      ensures p.id == id ==> At(t.sessions, p) == NewTopic(info, p.key)
      ensures p.id != id ==> Placed(s.sessions, p) && At(t.sessions, p) == At(s.sessions, p)
    {
    }
  }

  lemma WithSessionOk(s: State, info: SessionInfo, texts: set<JsonPayload>)
    requires Steady(s, texts) && !s.stopped
    requires InfoOk(info, s.runId) && info.providerId in s.catalog && info.session.sessionId !in s.sessions
    ensures var t := WithSession(s, info);
            && StateOk(t) && Cached(t, texts) && Bounded(t)
            && Synced(t, Public(s.sessions), texts)
  {
    var t := WithSession(s, info);
    WithSessionShaped(s, info);
    SyncedFrame(s, t, Public(s.sessions), texts);
    KeptSheds(s, t, texts);
  }

  lemma WithSessionPublic(s: State, info: SessionInfo)
    requires info.providerId in s.catalog
    ensures Public(WithSession(s, info).sessions)
            == Announced(Public(s.sessions), info, TopicsInOrder(KeysOf(info.providerId, s.catalog[info.providerId])))
    ensures Announced(Public(s.sessions), info, [])
            == Public(s.sessions)[info.session.sessionId := PublicSession(info, map[])]
  {
    var keys := KeysOf(info.providerId, s.catalog[info.providerId]);
    var session := Session(info, NewTopics(info, keys));
    assert PublicOf(session).topics == StatesFor(info, TopicsInOrder(keys));
    assert StatesFor(info, []) == map[];
  }

  lemma StartUpdatesOk(info: SessionInfo, keys: seq<TopicRef>, texts: set<JsonPayload>)
    ensures NoEnds([SessionStarted(info)] + Announce(info, keys))
    ensures forall u :: u in [SessionStarted(info)] + Announce(info, keys) ==> UpdateFrom(u, texts)
  {
  }

  /** Announcing a session brings every client that selects it to the view with it. */
  lemma AnnounceSteady(s: State, info: SessionInfo, keys: seq<TopicRef>, texts: set<JsonPayload>)
    requires Steady(s, texts) && !s.stopped
    requires InfoOk(info, s.runId) && info.providerId in s.catalog && info.session.sessionId !in s.sessions
    requires keys == TopicsInOrder(KeysOf(info.providerId, s.catalog[info.providerId]))
    ensures var t := EmitAll(Emit(WithSession(s, info), SessionStarted(info)), Announce(info, keys));
            Steady(t, texts) && Frame(WithSession(s, info), t)
  {
    var added := WithSession(s, info);
    var updates := [SessionStarted(info)] + Announce(info, keys);
    WithSessionOk(s, info, texts);
    WithSessionPublic(s, info);
    StartWalk(Public(s.sessions), info, keys, s.sequence, s.runId);
    StartUpdatesOk(info, keys, texts);
    EmitAllCons(added, SessionStarted(info), Announce(info, keys));
    EmitSteady(added, updates, Public(s.sessions), texts);
  }

  /** Emitting updates that lead to the state already stored makes the service steady. */
  lemma EmitSteady(s: State, updates: seq<SubscriptionUpdate>, view: View, texts: set<JsonPayload>)
    requires StateOk(s) && Synced(s, view, texts) && Cached(s, texts) && Bounded(s) && !s.stopped
    requires Walk(view, updates, s.sequence, s.runId) == Some(Public(s.sessions)) && NoEnds(updates)
    requires forall u :: u in updates ==> UpdateFrom(u, texts)
    ensures Steady(EmitAll(s, updates), texts) && Frame(s, EmitAll(s, updates))
  {
    EmitAllKeeps(s, updates, view, Public(s.sessions), texts);
    var t := EmitAll(s, updates);
    if !t.stopped {
      KeptSheds(s, t, texts);
    }
  }

  lemma StartWalk(view: View, info: SessionInfo, keys: seq<TopicRef>, sequence: nat, runId: string)
    requires info.session.sessionId !in view && InfoOk(info, runId)
    requires NoRepeats(keys)
    requires forall k :: k in keys ==> k.providerId == info.providerId
    ensures Walk(view, [SessionStarted(info)] + Announce(info, keys), sequence, runId)
            == Some(Announced(view, info, keys))
  {
    var start := SessionStarted(info);
    assert StatesFor(info, []) == map[];
    assert [start][..0] == [];
    assert Walk(view, [start], sequence, runId) == Some(Announced(view, info, []));
    AnnounceWalk(view, info, keys, sequence + 1, runId);
    WalkJoin(view, [start], Announce(info, keys), Announced(view, info, []), sequence, runId);
  }

  lemma {:induction false} WalkJoin(view: View, a: seq<SubscriptionUpdate>, b: seq<SubscriptionUpdate>, mid: View,
                                    sequence: nat, runId: string)
    requires Walk(view, a, sequence, runId) == Some(mid)
    ensures Walk(view, a + b, sequence, runId) == Walk(mid, b, sequence + |a|, runId)
  {
    hide Legal, Apply;
    if b == [] {
      assert a + b == a;
    } else {
      WalkJoin(view, a, b[..|b| - 1], mid, sequence, runId);
      assert (a + b)[..|a + b| - 1] == a + b[..|b| - 1];
    }
  }

  lemma {:induction false} EmitAllCons(s: State, first: SubscriptionUpdate, rest: seq<SubscriptionUpdate>)
    ensures EmitAll(s, [first] + rest) == EmitAll(Emit(s, first), rest)
  {
    if rest == [] {
      assert [first] + rest == [first];
      assert [first][..0] == [];
      assert EmitAll(s, [first]) == Emit(EmitAll(s, []), first);
    } else {
      EmitAllCons(s, first, rest[..|rest| - 1]);
      assert ([first] + rest)[..|rest|] == [first] + rest[..|rest| - 1];
    }
  }

  /** What adding sessions keeps. */
  ghost predicate Continued(s: State, t: State, texts: set<JsonPayload>) {
    && Steady(t, texts)
    && t.catalog == s.catalog && t.runId == s.runId
    && (AllActive(s) ==> AllActive(t))
  }

  lemma ContinuedTrans(s: State, t: State, u: State, texts: set<JsonPayload>)
    requires t.catalog == s.catalog && t.runId == s.runId && (AllActive(s) ==> AllActive(t))
    requires Continued(t, u, texts)
    ensures Continued(s, u, texts)
  {
  }

  lemma AnnouncedContinues(s: State, info: SessionInfo, t: State, texts: set<JsonPayload>)
    requires info.providerId in s.catalog && Steady(t, texts) && Frame(WithSession(s, info), t)
    ensures Continued(s, t, texts)
  {
  }

  lemma CloseContinues(s: State, texts: set<JsonPayload>)
    requires Steady(s, texts)
    ensures Continued(s, Close(s, EXHAUSTED), texts)
  {
    CloseSteady(s, EXHAUSTED, Public(s.sessions), texts);
  }

  lemma AddSessionCases(s: State, info: SessionInfo)
    requires info.providerId in s.catalog
    ensures var caps := s.catalog[info.providerId];
            Service.AddSession(s, info)
            == (if s.stopped then s
                else if !Room(s, 1 + |caps|) then Close(s, EXHAUSTED)
                else EmitAll(Emit(WithSession(s, info), SessionStarted(info)),
                             Announce(info, TopicsInOrder(KeysOf(info.providerId, caps)))), None)
  {
  }

  lemma AddSessionSteady(s: State, info: SessionInfo, t: State, texts: set<JsonPayload>)
    requires Steady(s, texts) && t == Service.AddSession(s, info).0
    requires InfoOk(info, s.runId) && info.providerId in s.catalog && info.session.sessionId !in s.sessions
    ensures Continued(s, t, texts) && Service.AddSession(s, info).1.None?
  {
    AddSessionCases(s, info);
    if s.stopped {
    } else if !Room(s, 1 + |s.catalog[info.providerId]|) {
      CloseContinues(s, texts);
    } else {
      AnnounceSteady(s, info, TopicsInOrder(KeysOf(info.providerId, s.catalog[info.providerId])), texts);
      AnnouncedContinues(s, info, t, texts);
    }
  }

  /** Session information that may be added to the service. */
  predicate Addable(incoming: map<string, SessionInfo>, catalog: Catalog, runId: string) {
    forall id :: id in incoming ==>
      InfoOk(incoming[id], runId) && incoming[id].providerId in catalog && incoming[id].session.sessionId == id
  }

  lemma {:induction false} AddSessionsSteady(s: State, incoming: map<string, SessionInfo>, ids: seq<string>, t: State,
                                             texts: set<JsonPayload>)
    requires Steady(s, texts) && Addable(incoming, s.catalog, s.runId)
    requires forall id :: id in ids ==> id in incoming
    requires t == AddSessions(s, incoming, ids).0
    ensures Continued(s, t, texts) && AddSessions(s, incoming, ids).1.None?
    decreases |ids|
  {
    if ids != [] {
      var front, id := ids[..|ids| - 1], ids[|ids| - 1];
      var mid := AddSessions(s, incoming, front).0;
      AddSessionsSteady(s, incoming, front, mid, texts);
      assert id in ids;
      if id !in mid.sessions {
        AddSessionSteady(mid, incoming[id], t, texts);
        ContinuedTrans(s, mid, t, texts);
      }
    }
  }

  lemma {:induction false} IncomingOk(s: State, targets: seq<TargetStatus>)
    requires forall t :: t in targets ==> HonestTarget(t, s.catalog)
    ensures Addable(Incoming(s, targets), s.catalog, s.runId)
  {
    if targets != [] {
      IncomingOk(s, targets[..|targets| - 1]);
      assert HonestTarget(targets[|targets| - 1], s.catalog);
    }
  }

  lemma AdvanceSteady(s: State, status: HostStatus, texts: set<JsonPayload>)
    requires Steady(s, texts)
    ensures var t := Advance(s.(runtime := status)).0;
            Steady(t, texts) && (AllActive(s) ==> AllActive(t))
  {
    hide SubscriberOk, ChannelOk, Retained;
    var noted := s.(runtime := status);
    SyncedFrame(s, noted, Public(s.sessions), texts);
    KeptSheds(s, noted, texts);
    NotedStateOk(s, noted);
    var t := Advance(noted).0;
    if !s.stopped {
      if s.sequence < U64_MAX {
        AdvancedOk(noted, t);
        SyncedFrame(noted, t, Public(s.sessions), texts);
        KeptSheds(noted, t, texts);
      } else {
        CloseSteady(noted, EXHAUSTED, Public(s.sessions), texts);
      }
    }
  }

  lemma NotedStateOk(s: State, noted: State)
    requires StateOk(s) && noted == s.(runtime := noted.runtime)
    ensures StateOk(noted)
  {
  }

  /** Reporting an honest host status never fails and keeps the invariant. */
  lemma SyncInv(s: State, status: HostStatus, now: nat, texts: set<JsonPayload>)
    requires Inv(s, texts) && HonestStatus(status, s.catalog)
    ensures SyncRuntime(s, status, now).1.None?
    ensures Inv(SyncRuntime(s, status, now).0, texts)
  {
    hide EndSessions, AddSessions, Advance, Synced, Cached, Bounded, StateOk;
    if !s.stopped && s.runtime != status {
      var incoming := Incoming(s, status.targets);
      IncomingOk(s, status.targets);
      EndSessionsSteady(s, IdsInOrder(s.sessions.Keys - incoming.Keys), status, texts);
      var ended := EndSessions(s, IdsInOrder(s.sessions.Keys - incoming.Keys), status);
      var added := AddSessions(ended, incoming, IdsInOrder(incoming.Keys)).0;
      AddSessionsSteady(ended, incoming, IdsInOrder(incoming.Keys), added, texts);
      AdvanceSteady(added, status, texts);
      SettleInv(Advance(added.(runtime := status)).0, now, texts);
    }
  }
}
