/** What settling, expiry and subscribing leave of one topic or one subscriber, exactly. */
module Flips {
  import opened Wire
  import opened Selecting
  import opened Ordering
  import opened SubscriptionQueue
  import opened Views
  import opened Service
  import opened Streams
  import opened Publication
  import opened Invariant
  import opened Sweeps
  import opened Settling
  import opened Discards
  import opened Subscribing
  import opened Expiry
  import WireSize

  /** A topic whose demand resumed at the given time: a new, empty generation. */
  function Resumed(topic: Topic, now: nat): Topic {
    Topic(TopicSnapshot(topic.state.source, topic.state.generation + 1, Initializing, None), true, topic.epoch + 1,
          Some(now + POLL_GRACE))
  }

  lemma TouchResumes(info: SessionInfo, key: TopicRef, topic: Topic, subscribers: map<nat, Subscriber>, now: nat)
    requires Demanded(subscribers, info.session, key)
    requires !TouchAt(Reconcile(subscribers, now), info, key, topic).RunOut?
    ensures Touched(Reconcile(subscribers, now), info, key, topic) == if topic.demanded then topic else Resumed(topic, now)
  {
  }

  lemma RoundAt(s: State, now: nat, p: Place)
    requires Placed(s.sessions, p) && !s.stopped && !SettleRound(s, now).stopped
    ensures var t := SettleRound(s, now);
            && Placed(t.sessions, p)
            && (Demanded(t.subscribers, t.sessions[p.id].info.session, p.key) ==>
                  At(t.sessions, p) == if At(s.sessions, p).demanded then At(s.sessions, p)
                                       else Resumed(At(s.sessions, p), now))
  {
    var live := RetainLive(s);
    var w := Reconcile(live.subscribers, now);
    var r := SweepAll(live.sessions, w);
    EmitAllFrame(NoteChanges(live, r), r.changes);
    SweepAllPointwise(live.sessions, w);
    PlacesCover(live.sessions);
    PlacesInDistinct(live.sessions, IdsInOrder(live.sessions.Keys));
    assert SweptAt(live.sessions, r, Places(live.sessions), w, p);
    NotExhausted(live.sessions, [], Places(live.sessions), w, p);
    if Demanded(live.subscribers, live.sessions[p.id].info.session, p.key) {
      TouchResumes(live.sessions[p.id].info, p.key, At(live.sessions, p), live.subscribers, now);
    }
  }

  lemma ExactWants(s: State)
    requires DemandExact(s)
    ensures NoneNewlyWanted(s)
  {
  }

  /** Whatever rounds follow a round only release demand. */
  lemma LaterRounds(next: State, now: nat, p: Place, t: State, texts: set<JsonPayload>)
    requires Steady(next, texts) && DemandExact(next) && Placed(next.sessions, p)
    requires t == if Unsettled(next) then Settle(next, now) else next
    ensures Placed(t.sessions, p) && StateOk(t) && (next.stopped ==> t.stopped)
    ensures At(t.sessions, p).demanded ==> At(t.sessions, p) == At(next.sessions, p) && At(next.sessions, p).demanded
  {
    hide Synced, Cached, Bounded, StateOk, Settled, Settle;
    if Unsettled(next) {
      ExactWants(next);
      SettleSteady(next, now, texts);
      SettleReleases(next, now, texts);
    }
  }

  lemma SettleIs(s: State, now: nat, next: State)
    requires next == SettleRound(s, now)
    ensures Settle(s, now) == if Unsettled(next) then Settle(next, now) else next
  {
    hide SettleRound;
  }

  lemma RoundDemands(s: State, now: nat, p: Place, next: State)
    requires next == SettleRound(s, now) && DemandExact(next) && !next.stopped && !s.stopped
    requires Placed(s.sessions, p) && Placed(next.sessions, p) && At(next.sessions, p).demanded
    ensures At(next.sessions, p)
            == if At(s.sessions, p).demanded then At(s.sessions, p) else Resumed(At(s.sessions, p), now)
  {
    hide SettleRound;
    RoundAt(s, now, p);
  }

  /** Settling leaves a topic that ends up demanded exactly as it was, or, if it was not
      demanded before, resumed once in a new generation; a topic that ends up released is
      Idle, without snapshot or deadline. */
  lemma SettleAt(s: State, now: nat, p: Place, t: State, texts: set<JsonPayload>)
    requires Steady(s, texts) && Placed(s.sessions, p) && t == Settle(s, now) && !s.stopped && !t.stopped
    ensures Placed(t.sessions, p)
    ensures At(t.sessions, p).demanded ==>
              At(t.sessions, p) == if At(s.sessions, p).demanded then At(s.sessions, p)
                                   else Resumed(At(s.sessions, p), now)
    ensures !At(t.sessions, p).demanded ==>
              && At(t.sessions, p).state.health == Idle && At(t.sessions, p).state.snapshot.None?
              && At(t.sessions, p).deadline.None?
  {
    hide SettleRound, Steady, DemandExact, StateOk, Settle, Resumed;
    var next := SettleRound(s, now);
    RoundSteady(s, now, texts);
    SettleIs(s, now, next);
    RoundPlaced(s, now, p);
    LaterRounds(next, now, p, t, texts);
    if At(t.sessions, p).demanded {
      RoundDemands(s, now, p, next);
    } else {
      ReleasedIsIdle(t, p);
    }
  }

  lemma RoundPlaced(s: State, now: nat, p: Place)
    requires Placed(s.sessions, p)
    ensures Placed(SettleRound(s, now).sessions, p)
  {
    var live := RetainLive(s);
    var r := SweepAll(live.sessions, Reconcile(live.subscribers, now));
    SweepAllPointwise(live.sessions, Reconcile(live.subscribers, now));
    EmitAllReleases(NoteChanges(live, r), r.changes);
    CloseReleases(live.(sessions := r.sessions), EXHAUSTED);
  }

  lemma ReleasedIsIdle(t: State, p: Place)
    requires StateOk(t) && Placed(t.sessions, p) && !At(t.sessions, p).demanded
    ensures At(t.sessions, p).state.health == Idle && At(t.sessions, p).state.snapshot.None?
    ensures At(t.sessions, p).deadline.None?
  {
    ShapeAt(t.sessions, t.catalog, t.runId, p);
  }

  // ---- expiry

  function Expired(topic: Topic): Topic {
    Topic(topic.state.(snapshot := None, health := DEADLINE_EXCEEDED), topic.demanded, topic.epoch + 1, None)
  }

  function ExpiredBy(topic: Topic, now: nat): Topic {
    if IsOverdue(topic, now) then Expired(topic) else topic
  }

  lemma OverdueAt(sessions: Sessions, now: nat, p: Place)
    requires !SweepAll(sessions, Overdue(now)).exhausted && Placed(sessions, p)
    ensures var after := SweepAll(sessions, Overdue(now)).sessions;
            Placed(after, p) && At(after, p) == ExpiredBy(At(sessions, p), now)
  {
    var w := Overdue(now);
    var r := SweepAll(sessions, w);
    SweepAllPointwise(sessions, w);
    PlacesCover(sessions);
    PlacesInDistinct(sessions, IdsInOrder(sessions.Keys));
    assert SweptAt(sessions, r, Places(sessions), w, p);
    NotExhausted(sessions, [], Places(sessions), w, p);
    TouchExpired(sessions[p.id].info, p.key, At(sessions, p), now);
  }

  lemma TouchExpired(info: SessionInfo, key: TopicRef, topic: Topic, now: nat)
    requires !TouchAt(Overdue(now), info, key, topic).RunOut?
    ensures Touched(Overdue(now), info, key, topic) == ExpiredBy(topic, now)
  {
  }

  lemma OverdueWants(s: State, mid: State, now: nat)
    requires DemandExact(s) && mid.subscribers == s.subscribers
    requires !SweepAll(s.sessions, Overdue(now)).exhausted && mid.sessions == SweepAll(s.sessions, Overdue(now)).sessions
    ensures NoneNewlyWanted(mid)
  {
    hide SweepAll;
    SweepAllPointwise(s.sessions, Overdue(now));
    forall p | Placed(mid.sessions, p) && Demanded(mid.subscribers, mid.sessions[p.id].info.session, p.key)
      ensures At(mid.sessions, p).demanded
    {
      OverdueAt(s.sessions, now, p);
    }
  }

  /** Expiry leaves a topic that stays demanded exactly as it was, or, if its deadline has
      passed, unavailable for that reason and without data; releases are the only other effect. */
  lemma ExpireAt(s: State, now: nat, p: Place, t: State, texts: set<JsonPayload>)
    requires Inv(s, texts) && Placed(s.sessions, p) && t == Expire(s, now) && !s.stopped && !t.stopped
    ensures Placed(t.sessions, p)
    ensures At(t.sessions, p).demanded ==> At(t.sessions, p) == ExpiredBy(At(s.sessions, p), now)
  {
    hide SweepAll, EmitAll, Settle, Synced, Cached, Bounded, StateOk, ExpiredBy;
    var r := SweepAll(s.sessions, Overdue(now));
    SweepSteady(s, Overdue(now), texts);
    if !r.exhausted {
      var mid := EmitAll(NoteChanges(s, r), r.changes);
      SettleSteady(mid, now, texts);
      OverdueWants(s, mid, now);
      OverdueAt(s.sessions, now, p);
      SettleReleases(mid, now, texts);
    }
  }

  // ---- subscribing

  /** What a subscription request leaves: a fresh handle that starts with a bootstrap of the
      very state it leaves behind, or, on any refusal, no handle and no demand. */
  ghost predicate Opens(s: State, t: State, selection: Selection, r: Result<nat, RequestError>) {
    match r
    case Ok(id) =>
      && id !in s.channels && t.channels.Keys == s.channels.Keys + {id}
      && id in t.subscribers && t.subscribers[id] == Subscriber(selection, true)
      && t.channels[id] == Channel(selection, Opened(Bootstrap(t, selection)))
    case Err(_) =>
      t.channels.Keys == s.channels.Keys && t.subscribers.Keys <= s.subscribers.Keys
  }

  lemma ActivateOpens(settled: State, id: nat, selection: Selection, frames: seq<SubscriptionItem>)
    requires id in settled.subscribers && settled.subscribers[id] == Subscriber(selection, false)
    requires frames == Bootstrap(settled, selection)
    ensures var t := Activate(settled, id, frames);
            && t.channels.Keys == settled.channels.Keys + {id}
            && id in t.subscribers && t.subscribers[id] == Subscriber(selection, true)
            && t.channels[id] == Channel(selection, Opened(Bootstrap(t, selection)))
  {
    hide SessionFrames, IdsInOrder;
  }

  lemma SetUpOpens(s: State, id: nat, selection: Selection, now: nat, texts: set<JsonPayload>)
    requires Inv(s, texts) && !s.stopped && SelectionOk(selection, s.catalog)
    requires id == s.nextSubscription + 1 <= U64_MAX
    ensures Opens(s, SetUp(s, id, selection, now).0, selection, SetUp(s, id, selection, now).1)
  {
    hide Settle, Inv, Steady, Bootstrap, FramesExceed;
    var enrolled := Enroll(s, id, selection);
    InvSteady(s, texts);
    NewIdentity(s, texts);
    EnrollSteady(s, id, selection, texts);
    SettleSteady(enrolled, now, texts);
    var settled := Settle(enrolled, now);
    var captured := Capture(settled, id);
    if captured.Ok? {
      CaptureIs(settled, id);
      ActivateOpens(settled, id, selection, captured.value);
    } else {
      TakenBack(settled, id, now, texts);
    }
  }

  lemma NewIdentity(s: State, texts: set<JsonPayload>)
    requires Inv(s, texts)
    ensures s.nextSubscription + 1 !in s.channels
  {
  }

  lemma TakenBack(s: State, id: nat, now: nat, texts: set<JsonPayload>)
    requires Steady(s, texts)
    ensures var t := Settle(s.(subscribers := s.subscribers - {id}), now);
            t.channels.Keys == s.channels.Keys && t.subscribers.Keys <= s.subscribers.Keys - {id}
  {
    hide Settle, Steady;
    var removed := s.(subscribers := s.subscribers - {id});
    RemoveSteady(s, id, {}, texts);
    assert s.channels - {} == s.channels;
    assert removed == s.(subscribers := s.subscribers - {id}, channels := s.channels - {});
    SettleSteady(removed, now, texts);
  }

  lemma OpenCheckedOpens(s: State, selection: Selection, now: nat, texts: set<JsonPayload>)
    requires Inv(s, texts)
    ensures Opens(s, OpenChecked(s, selection, now).0, selection, OpenChecked(s, selection, now).1)
  {
    hide Inv, SetUp, CheckSelection, Opens;
    if CheckSelection(s, selection).Some? || s.nextSubscription >= U64_MAX {
      RefusedOpens(s, selection, now);
    } else {
      CheckedSelection(s, selection);
      SetUpOpens(s, s.nextSubscription + 1, selection, now, texts);
    }
  }

  lemma RefusedOpens(s: State, selection: Selection, now: nat)
    requires CheckSelection(s, selection).Some? || s.nextSubscription >= U64_MAX
    ensures Opens(s, OpenChecked(s, selection, now).0, selection, OpenChecked(s, selection, now).1)
  {
    hide SetUp, CheckSelection;
  }

  lemma OpensAfter(s: State, expired: State, t: State, selection: Selection, r: Result<nat, RequestError>)
    requires Frame(s, expired) && Opens(expired, t, selection, r)
    ensures Opens(s, t, selection, r)
  {
    hide Bootstrap;
  }

  /** Every request opens a subscription in this sense or leaves no trace of itself. */
  lemma OpenStarts(s: State, request: Subscribe, at: nat, now: nat, texts: set<JsonPayload>)
    requires Inv(s, texts)
    ensures Opens(s, Open(s, request, at, now).0, Normalize(request), Open(s, request, at, now).1)
  {
    hide Inv, OpenChecked, Expire, Bootstrap;
    if SubscribeSize(request) <= s.messageBytes {
      var expired := Expire(s, at);
      ExpireInv(s, at, texts);
      OpenCheckedOpens(expired, Normalize(request), now, texts);
      OpensAfter(s, expired, Open(s, request, at, now).0, Normalize(request), Open(s, request, at, now).1);
    }
  }

  // ---- a session's own subscribers

  /** Subscribers of exactly the ending session are told of the end, keep everything queued
      before it, and are ended; a full queue ends them as lagged instead. */
  lemma EndReachesSubscribers(s: State, id: string, status: HostStatus, n: nat, t: State, texts: set<JsonPayload>)
    requires Inv(s, texts) && id in s.sessions && n in s.subscribers && t == EndSession(s, id, status) && !t.stopped
    requires s.subscribers[n].selection.sessions == OneSession(s.sessions[id].info.session)
    requires MatchesInfo(s.subscribers[n].selection, s.sessions[id].info)
    ensures n !in t.subscribers && n in s.channels && n in t.channels
    ensures var reason := if NowRetrying(s.runtime, status, id) then SessionProviderFailed else TargetExited;
            var item := Framing(s.runId, s.sequence + 1, SessionEnded(s.sessions[id].info.session, reason));
            var before, after := s.channels[n].traffic, t.channels[n].traffic;
            || (&& after.accepted == before.accepted + [item] && after.queue.terminal == Some(SessionOver)
                && Waiting(after.queue) == Waiting(before.queue) + [item])
            || (after.accepted == before.accepted && after.queue.terminal.Some?
                && after.queue.terminal.value.ResyncRequired?)
  {
    hide Inv, NowRetrying, FinishChannel, OfferChannel, Waiting, Emit;
    LiveHandle(s, n, texts);
    var reason := if NowRetrying(s.runtime, status, id) then SessionProviderFailed else TargetExited;
    var update := SessionEnded(s.sessions[id].info.session, reason);
    var told := Emit(s, update);
    EndAdvances(s, id, status);
    EmitShape(s, update);
    EndedBy(s.channels[n], Framing(s.runId, s.sequence + 1, update), s.messageBytes);
    SessionFiled(s, id, texts);
    assert told.channels[n] == OfferChannel(s.channels[n], Framing(s.runId, s.sequence + 1, update), s.messageBytes);
  }

  lemma LiveHandle(s: State, n: nat, texts: set<JsonPayload>)
    requires Inv(s, texts) && n in s.subscribers
    ensures s.subscribers[n].active && n in s.channels && !Ended(s.channels[n].traffic.queue)
  {
    assert SubscriberOk(s, n, Public(s.sessions));
    assert !Gone(s, n);
  }

  lemma SessionFiled(s: State, id: string, texts: set<JsonPayload>)
    requires Inv(s, texts) && id in s.sessions
    ensures s.sessions[id].info.session.sessionId == id
  {
    assert SessionShape(s.sessions[id], id, s.catalog, s.runId);
  }

  lemma EndAdvances(s: State, id: string, status: HostStatus)
    requires id in s.sessions && !EndSession(s, id, status).stopped
    ensures s.sequence < U64_MAX && !s.stopped
  {
    hide NowRetrying;
  }

  lemma EndedBy(ch: Channel, item: SubscriptionItem, budget: nat)
    requires !Ended(ch.traffic.queue)
    ensures var after := FinishChannel(OfferChannel(ch, item, budget), SessionOver, false).traffic;
            || (&& after.accepted == ch.traffic.accepted + [item] && after.queue.terminal == Some(SessionOver)
                && Waiting(after.queue) == Waiting(ch.traffic.queue) + [item])
            || (after.accepted == ch.traffic.accepted && after.queue.terminal.Some?
                && after.queue.terminal.value.ResyncRequired?)
  {
    var q := ch.traffic.queue;
    var entry := (item, WireSize.ReplySize(item));
    assert Items(q.updates + [entry]) == Items(q.updates) + [item];
    assert q.initial + (Items(q.updates) + [item]) == q.initial + Items(q.updates) + [item];
  }
}
