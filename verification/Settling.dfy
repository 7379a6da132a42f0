/** Settling demand: every round keeps the service steady, and the last one leaves
    demand exact although its own publications may have ended subscribers. */
module Settling {
  import opened Wire
  import opened Selecting
  import opened SubscriptionQueue
  import opened ClientValidation
  import opened Views
  import opened Service
  import opened Streams
  import opened Publication
  import opened Invariant
  import opened Sweeps
  import opened Retention

  /** Everything of the invariant that holds even while demand is being settled. */
  ghost predicate Steady(s: State, texts: set<JsonPayload>) {
    && StateOk(s)
    && Synced(s, Public(s.sessions), texts)
    && Cached(s, texts)
    && Bounded(s)
  }

  /** What no settling touches. */
  ghost predicate Frame(s: State, t: State) {
    && t.catalog == s.catalog && t.messageBytes == s.messageBytes && t.runId == s.runId
    && t.nextSubscription == s.nextSubscription && t.runtime == s.runtime
    && t.channels.Keys == s.channels.Keys
    && s.sequence <= t.sequence
    && (forall id :: id in t.subscribers ==> id in s.subscribers && t.subscribers[id] == s.subscribers[id])
    && t.sessions.Keys == s.sessions.Keys
    && (forall id :: id in s.sessions ==> t.sessions[id].info == s.sessions[id].info)
    && (s.stopped ==> t.stopped)
  }

  lemma KeptSheds(s: State, t: State, texts: set<JsonPayload>)
    requires Cached(s, texts) && Bounded(s) && Sheds(s.sessions, t.sessions)
    requires t.runId == s.runId && t.messageBytes == s.messageBytes
    ensures Cached(t, texts) && Bounded(t)
  {
    CachedSheds(s, t, texts);
    RetainedSheds(s.sessions, t.sessions);
  }

  lemma TopicsOkLater(sessions: Sessions, catalog: Catalog, sequence: nat, later: nat)
    requires TopicsOk(sessions, catalog, sequence) && sequence <= later
    ensures TopicsOk(sessions, catalog, later)
  {
    forall p | Placed(sessions, p) && Registered(catalog, p.key)
      ensures TopicOk(At(sessions, p), CapabilityOf(catalog, p.key), later)
    {
      assert TopicOk(At(sessions, p), CapabilityOf(catalog, p.key), sequence);
    }
  }

  lemma ClosedKeepsNothing(s: State, end: SubscriptionEnd, texts: set<JsonPayload>)
    ensures Cached(Close(s, end), texts) && Bounded(Close(s, end))
  {
    var t := Close(s, end);
    forall p | Placed(t.sessions, p) ensures At(t.sessions, p).state.snapshot.None? {
      assert At(t.sessions, p) == Quiet(At(s.sessions, p));
    }
    RetainedSheds(map[], t.sessions);
    assert Retained(map[]) == 0;
  }

  lemma CloseFrame(s: State, end: SubscriptionEnd)
    ensures Frame(s, Close(s, end)) && Close(s, end).stopped
  {
  }

  /** Closing from any shaped state gives a settled, steady, stopped service. */
  lemma CloseSteady(s: State, end: SubscriptionEnd, view: View, texts: set<JsonPayload>)
    requires s.sequence <= U64_MAX && s.nextSubscription <= U64_MAX && s.revision <= U64_MAX && Identifier(s.runId)
    requires Shaped(s.sessions, s.catalog, s.runId)
    requires forall id :: id in s.channels ==> id <= s.nextSubscription
    requires Synced(s, view, texts)
    ensures Steady(Close(s, end), texts) && Settled(Close(s, end)) && AllActive(Close(s, end))
    ensures Frame(s, Close(s, end)) && Close(s, end).stopped
  {
    hide Synced, StateOk, Settled, AllActive, Frame, Cached, Bounded;
    var t := Close(s, end);
    CloseOk(s, end);
    StateOkShaped(t);
    PublicFiled(t);
    CloseSynced(s, end, view, Public(t.sessions), texts);
    ClosedKeepsNothing(s, end, texts);
    CloseFrame(s, end);
  }

  lemma StateOkShaped(s: State)
    requires StateOk(s)
    ensures Shaped(s.sessions, s.catalog, s.runId)
  {
  }

  lemma EmitFrame(s: State, update: SubscriptionUpdate)
    ensures Frame(s, Emit(s, update))
  {
  }

  /** Advancing the sequence without touching sessions keeps the state well formed. */
  lemma AdvancedOk(s: State, t: State)
    requires StateOk(s) && !t.stopped && s.sequence <= t.sequence <= U64_MAX
    requires t == s.(sequence := t.sequence, channels := t.channels) && t.channels.Keys == s.channels.Keys
    ensures StateOk(t)
  {
    TopicsOkLater(s.sessions, s.catalog, s.sequence, t.sequence);
    forall id | id in t.channels ensures id <= t.nextSubscription {
      assert id in s.channels.Keys;
    }
  }

  /** Publishing one legal update from a running service with room to count it. */
  lemma EmitAfter(s: State, update: SubscriptionUpdate, view: View, next: View, texts: set<JsonPayload>)
    requires !s.stopped && s.sequence < U64_MAX && Synced(s, view, texts)
    requires After(view, update, s.sequence + 1, s.runId) == Some(next)
    requires UpdateFrom(update, texts) && RoutesAs(s, view, update)
    ensures var t := Emit(s, update);
            && t == s.(sequence := s.sequence + 1, channels := t.channels)
            && t.channels.Keys == s.channels.Keys
            && Synced(t, next, texts)
            && (StateOk(s) ==> StateOk(t))
  {
    EmitShape(s, update);
    EmitSynced(s, update, view, next, texts);
    if StateOk(s) { AdvancedOk(s, Emit(s, update)); }
  }

  lemma RunningFrame(s: State, t: State)
    requires t == s.(sequence := t.sequence, channels := t.channels)
    requires t.channels.Keys == s.channels.Keys && s.sequence <= t.sequence
    ensures Frame(s, t)
  {
  }

  /** A list that the service had room for leaves it well formed and in step. */
  lemma EmitAllRuns(s: State, t: State, updates: seq<SubscriptionUpdate>, view: View, end: View,
                    texts: set<JsonPayload>)
    requires StateOk(s) && Synced(s, view, texts) && t == EmitAll(s, updates) && !t.stopped
    requires Walk(view, updates, s.sequence, s.runId) == Some(end) && NoEnds(updates)
    requires forall u :: u in updates ==> UpdateFrom(u, texts)
    ensures StateOk(t) && Frame(s, t) && Synced(t, end, texts)
    ensures t.sessions == s.sessions && t.subscribers == s.subscribers
  {
    hide Synced, Walk;
    EmitAllFrame(s, updates);
    EmitAllSynced(s, updates, view, end, texts);
    AdvancedOk(s, t);
    RunningFrame(s, t);
  }

  /** A list that ran the sequence out has closed the service as a whole. */
  lemma {:induction false} EmitAllStops(s: State, t: State, updates: seq<SubscriptionUpdate>, view: View, end: View,
                                        texts: set<JsonPayload>)
    requires StateOk(s) && Synced(s, view, texts) && t == EmitAll(s, updates) && t.stopped && !s.stopped
    requires Walk(view, updates, s.sequence, s.runId) == Some(end) && NoEnds(updates)
    requires forall u :: u in updates ==> UpdateFrom(u, texts)
    ensures Frame(s, t) && Steady(t, texts) && Settled(t) && AllActive(t)
    decreases |updates|
  {
    hide Synced, Steady, Settled, AllActive, Frame, Legal, Views.Apply;
    var front, last := updates[..|updates| - 1], updates[|updates| - 1];
    var mid := EmitAll(s, front);
    var reached := Walk(view, front, s.sequence, s.runId).value;
    if mid.stopped {
      EmitAllStops(s, mid, front, view, reached, texts);
    } else {
      EmitAllRuns(s, mid, front, view, reached, texts);
      EmitCloses(mid, last);
      CloseSteady(mid, EXHAUSTED, reached, texts);
      FrameTrans(s, mid, t);
    }
  }

  lemma EmitCloses(s: State, update: SubscriptionUpdate)
    requires !s.stopped && Emit(s, update).stopped
    ensures Emit(s, update) == Close(s, EXHAUSTED)
  {
  }

  /** Emitting a legal list of updates takes a well-formed state to a well-formed
      state, in step with where the list leads, or closes it altogether. */
  lemma EmitAllKeeps(s: State, updates: seq<SubscriptionUpdate>, view: View, end: View, texts: set<JsonPayload>)
    requires StateOk(s) && Synced(s, view, texts)
    requires Walk(view, updates, s.sequence, s.runId) == Some(end) && NoEnds(updates)
    requires forall u :: u in updates ==> UpdateFrom(u, texts)
    ensures var t := EmitAll(s, updates);
            && StateOk(t) && Frame(s, t)
            && (!t.stopped ==> Synced(t, end, texts) && t.sessions == s.sessions && t.subscribers == s.subscribers)
            && (t.stopped && !s.stopped ==> Steady(t, texts) && Settled(t) && AllActive(t))
  {
    hide Synced, Settled, AllActive, Frame, Walk, StateOk, Cached, Bounded;
    var t := EmitAll(s, updates);
    if !t.stopped {
      EmitAllRuns(s, t, updates, view, end, texts);
    } else if !s.stopped {
      EmitAllStops(s, t, updates, view, end, texts);
    } else {
      EmitAllFrame(s, updates);
      RunningFrame(s, s);
    }
  }

  lemma RetainSteady(s: State, texts: set<JsonPayload>)
    requires Steady(s, texts)
    ensures Steady(RetainLive(s), texts) && Frame(s, RetainLive(s))
  {
    var t := RetainLive(s);
    forall id | id in t.subscribers ensures SubscriberOk(t, id, Public(t.sessions)) {
      assert SubscriberOk(s, id, Public(s.sessions));
    }
  }

  /** A state whose sessions were swept, before the owed updates go out. */
  lemma NotedOk(s: State, w: Sweep, texts: set<JsonPayload>)
    requires Steady(s, texts) && !s.stopped && !SweepAll(s.sessions, w).exhausted
    ensures var t := NoteChanges(s, SweepAll(s.sessions, w));
            && StateOk(t) && Synced(t, Public(s.sessions), texts)
            && Sheds(s.sessions, t.sessions) && Frame(s, t)
  {
    hide SweepAll, ChannelOk, Tracks, Retained;
    var r := SweepAll(s.sessions, w);
    var t := NoteChanges(s, r);
    SweepShaped(s.sessions, w, s.catalog, s.runId);
    SweepTopicsOk(s.sessions, w, s.catalog, s.runId, s.sequence);
    SweepAllPointwise(s.sessions, w);
    forall id | id in t.subscribers ensures SubscriberOk(t, id, Public(s.sessions)) {
      assert SubscriberOk(s, id, Public(s.sessions));
    }
  }

  lemma SameFeeds(s: State, t: State, view: View, texts: set<JsonPayload>)
    requires Synced(s, view, texts) && t == s.(sessions := t.sessions)
    ensures Synced(t, view, texts)
  {
    forall id | id in t.subscribers ensures SubscriberOk(t, id, view) {
      assert SubscriberOk(s, id, view);
    }
  }

  lemma SweepCloses(s: State, w: Sweep, r: Swept, texts: set<JsonPayload>)
    requires Steady(s, texts) && r == SweepAll(s.sessions, w)
    ensures var t := Close(s.(sessions := r.sessions), EXHAUSTED);
            Steady(t, texts) && Frame(s, t) && t.stopped && Settled(t) && AllActive(t)
  {
    hide SweepAll, Cached, Bounded, Settled, AllActive, Synced;
    var mid := s.(sessions := r.sessions);
    SweepShaped(s.sessions, w, s.catalog, s.runId);
    SweepAllPointwise(s.sessions, w);
    SameFeeds(s, mid, Public(s.sessions), texts);
    CloseSteady(mid, EXHAUSTED, Public(s.sessions), texts);
  }

  /** Sweeping and publishing the changes, or closing because a counter ran out. */
  lemma SweepSteady(s: State, w: Sweep, texts: set<JsonPayload>)
    requires Steady(s, texts) && !s.stopped
    ensures var r := SweepAll(s.sessions, w);
            var t := if r.exhausted then Close(s.(sessions := r.sessions), EXHAUSTED)
                     else EmitAll(NoteChanges(s, r), r.changes);
            && Steady(t, texts) && Frame(s, t)
            && (t.stopped ==> Settled(t) && AllActive(t))
            && (!t.stopped ==> !r.exhausted && t.sessions == r.sessions && t.subscribers == s.subscribers)
  {
    hide SweepAll, Synced, Settled, AllActive, Cached, Bounded, StateOk, EmitAll, Walk;
    var r := SweepAll(s.sessions, w);
    if r.exhausted {
      SweepCloses(s, w, r, texts);
    } else {
      var mid := NoteChanges(s, r);
      NotedOk(s, w, texts);
      StateOkShaped(s);
      SweepAllWalk(s.sessions, w, s.sequence, s.catalog, s.runId);
      forall u | u in r.changes ensures UpdateFrom(u, texts) {
        assert UpdateFrom(u, {});
      }
      EmitAllKeeps(mid, r.changes, Public(s.sessions), Public(r.sessions), texts);
      var t := EmitAll(mid, r.changes);
      if !t.stopped {
        KeptSheds(s, t, texts);
      }
    }
  }

  lemma RoundSteady(s: State, now: nat, texts: set<JsonPayload>)
    requires Steady(s, texts)
    ensures var t := SettleRound(s, now);
            && Steady(t, texts) && Frame(s, t) && DemandExact(t)
            && (t.stopped ==> AllActive(t))
  {
    var live := RetainLive(s);
    RetainSteady(s, texts);
    if s.stopped {
      StoppedRound(s, now);
    } else {
      var w := Reconcile(live.subscribers, now);
      SweepSteady(live, w, texts);
      var t := SettleRound(s, now);
      if !t.stopped {
        ReconcileExact(live.sessions, live.subscribers, now);
      }
    }
  }

  lemma {:induction false} SweepIdle(sessions: Sessions, places: seq<Place>, w: Sweep)
    requires forall p :: p in places ==> Placed(sessions, p)
    requires forall p :: Placed(sessions, p) ==> TouchAt(w, sessions[p.id].info, p.key, At(sessions, p)).Leave?
    ensures SweepFrom(sessions, [], places, w) == Swept(sessions, [], false)
    decreases |places|
  {
    if places != [] {
      assert Placed(sessions, places[0]);
      SweepIdle(sessions, places[1..], w);
    }
  }

  /** A round that finds demand already exact and nobody ended changes nothing. */
  lemma IdleRound(s: State, now: nat)
    requires Settled(s)
    ensures SettleRound(s, now) == s
  {
    assert RetainLive(s).subscribers == s.subscribers;
    PlacesCover(s.sessions);
    SweepIdle(s.sessions, Places(s.sessions), Reconcile(s.subscribers, now));
  }

  lemma StoppedRound(s: State, now: nat)
    requires StateOk(s) && s.stopped
    ensures SettleRound(s, now) == s && Settled(s) && AllActive(s)
  {
    IdleRound(s, now);
  }

  /** Settling a settled service changes nothing. */
  lemma SettleIdempotent(s: State, now: nat)
    requires Settled(s)
    ensures Settle(s, now) == s
  {
    IdleRound(s, now);
  }

  /** Settle always ends with exact demand and no ended subscriber. */
  lemma {:induction false} SettleSteady(s: State, now: nat, texts: set<JsonPayload>)
    requires Steady(s, texts)
    ensures Steady(Settle(s, now), texts) && Settled(Settle(s, now)) && Frame(s, Settle(s, now))
    ensures Settle(s, now).stopped && !s.stopped ==> AllActive(Settle(s, now))
    decreases |Live(s)|
  {
    var next := SettleRound(s, now);
    RoundSteady(s, now, texts);
    if Unsettled(next) {
      RoundLoses(s, now);
      SettleSteady(next, now, texts);
    }
  }

  lemma SettleActive(s: State, t: State)
    requires Frame(s, t) && AllActive(s)
    ensures AllActive(t)
  {
  }

  /** Settling restores the whole invariant when every subscriber is active. */
  lemma SettleInv(s: State, now: nat, texts: set<JsonPayload>)
    requires Steady(s, texts) && AllActive(s)
    ensures Inv(Settle(s, now), texts)
  {
    SettleSteady(s, now, texts);
    SettleActive(s, Settle(s, now));
  }

  /** Expiry keeps the invariant. */
  lemma ExpireInv(s: State, now: nat, texts: set<JsonPayload>)
    requires Inv(s, texts)
    ensures Inv(Expire(s, now), texts) && Frame(s, Expire(s, now))
  {
    if s.stopped {
      StoppedExpire(s, now);
    } else {
      var r := SweepAll(s.sessions, Overdue(now));
      SweepSteady(s, Overdue(now), texts);
      if !r.exhausted {
        var mid := EmitAll(NoteChanges(s, r), r.changes);
        SettleActive(s, mid);
        SettleSteady(mid, now, texts);
        SettleInv(mid, now, texts);
        FrameTrans(s, mid, Settle(mid, now));
      }
    }
  }

  lemma StoppedExpire(s: State, now: nat)
    requires StateOk(s) && s.stopped
    ensures Expire(s, now) == s
  {
    forall p | Placed(s.sessions, p) ensures TouchOverdue(At(s.sessions, p), now).Leave? {
      assert !At(s.sessions, p).demanded;
      ShapeAt(s.sessions, s.catalog, s.runId, p);
    }
    PlacesCover(s.sessions);
    SweepIdle(s.sessions, Places(s.sessions), Overdue(now));
    StoppedRound(s, now);
  }

  lemma FrameTrans(s: State, t: State, u: State)
    requires Frame(s, t) && Frame(t, u)
    ensures Frame(s, u)
  {
  }
}
