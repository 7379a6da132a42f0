/** The service state as the object that every operation updates in place under one lock. */
module Inner {
  import opened Wire
  import opened WireSize
  import opened Selecting
  import opened Ordering
  import opened SubscriptionQueue
  import opened Service
  import opened PollBatch
  import opened Publication
  import PollOutcomes

  /** Ends the queues of the given subscribers, one by one. */
  method FinishAll(channels: map<nat, Channel>, ids: set<nat>, end: SubscriptionEnd, discard: bool)
    returns (after: map<nat, Channel>)
    ensures after == map id | id in channels ::
                       if id in ids then FinishChannel(channels[id], end, discard) else channels[id]
  {
    after := channels;
    var left := ids;
    while left != {}
      invariant left <= ids && after.Keys == channels.Keys
      invariant forall id :: id in channels ==>
                  after[id] == if id in ids && id !in left then FinishChannel(channels[id], end, discard)
                               else channels[id]
      decreases |left|
    {
      var id :| id in left;
      if id in after {
        after := after[id := FinishChannel(after[id], end, discard)];
      }
      left := left - {id};
    }
  }

  method QuietTopics(topics: map<TopicRef, Topic>) returns (after: map<TopicRef, Topic>)
    ensures after == map k | k in topics :: Quiet(topics[k])
  {
    after := topics;
    var left := topics.Keys;
    while left != {}
      invariant left <= topics.Keys && after.Keys == topics.Keys
      invariant forall k :: k in topics ==> after[k] == if k in left then topics[k] else Quiet(topics[k])
      decreases |left|
    {
      var k :| k in left;
      after := after[k := Quiet(after[k])];
      left := left - {k};
    }
  }

  method QuietSessions(sessions: Sessions) returns (after: Sessions)
    ensures after == map id | id in sessions :: QuietSession(sessions[id])
  {
    after := sessions;
    var left := sessions.Keys;
    while left != {}
      invariant left <= sessions.Keys && after.Keys == sessions.Keys
      invariant forall id :: id in sessions ==>
                  after[id] == if id in left then sessions[id] else QuietSession(sessions[id])
      decreases |left|
    {
      var id :| id in left;
      var topics := QuietTopics(after[id].topics);
      after := after[id := after[id].(topics := topics)];
      left := left - {id};
    }
  }

  /** Offers one item to every subscriber that hears the update. */
  method OfferAll(s: State, update: SubscriptionUpdate, item: SubscriptionItem) returns (after: map<nat, Channel>)
    ensures after == map id | id in s.channels ::
                       if Hears(s, id, update) then OfferChannel(s.channels[id], item, s.messageBytes)
                       else s.channels[id]
  {
    hide OfferChannel, MatchesInfo, MatchesUpdate;
    after := s.channels;
    var left := s.subscribers.Keys;
    while left != {}
      invariant left <= s.subscribers.Keys && after.Keys == s.channels.Keys
      invariant forall id :: id in s.channels ==>
                  after[id] == if Hears(s, id, update) && id !in left
                               then OfferChannel(s.channels[id], item, s.messageBytes) else s.channels[id]
      decreases |left|
    {
      var id :| id in left;
      if s.subscribers[id].active {
        var selection := s.subscribers[id].selection;
        var hears := if update.SessionEnded? && update.session.sessionId in s.sessions
                     then MatchesInfo(selection, s.sessions[update.session.sessionId].info)
                     else MatchesUpdate(selection, update);
        if hears && id in after {
          after := after[id := OfferChannel(after[id], item, s.messageBytes)];
        }
      }
      left := left - {id};
    }
  }

  /** Where a sweep stands: the rest of this session's topics, then the later sessions. */
  function Rest(sessions: Sessions, id: string, keys: seq<TopicRef>, ids: seq<string>): seq<Place>
    requires forall n :: n in ids ==> n in sessions
  {
    PlacesOf(id, keys) + PlacesIn(sessions, ids)
  }

  lemma RestHead(sessions: Sessions, id: string, keys: seq<TopicRef>, ids: seq<string>)
    requires keys != [] && forall n :: n in ids ==> n in sessions
    ensures Rest(sessions, id, keys, ids) == [Place(id, keys[0])] + Rest(sessions, id, keys[1..], ids)
  {
    assert PlacesOf(id, keys) == [Place(id, keys[0])] + PlacesOf(id, keys[1..]);
  }

  /** Every place of a list is a topic there is. */
  predicate AllPlaced(sessions: Sessions, places: seq<Place>) {
    forall p :: p in places ==> Placed(sessions, p)
  }

  lemma SweepOne(sessions: Sessions, changes: seq<SubscriptionUpdate>, p: Place, rest: seq<Place>, w: Sweep)
    requires AllPlaced(sessions, [p] + rest)
    ensures Placed(sessions, p) && AllPlaced(sessions, rest)
    ensures forall topic :: AllPlaced(Put(sessions, p, topic), rest)
    ensures SweepFrom(sessions, changes, [p] + rest, w)
            == var touch := TouchAt(w, sessions[p.id].info, p.key, At(sessions, p));
               if touch.Leave? then SweepFrom(sessions, changes, rest, w)
               else if touch.Change? then SweepFrom(Put(sessions, p, touch.topic), changes + [touch.update], rest, w)
               else Swept(Put(sessions, p, touch.topic), changes, true)
  {
    var places := [p] + rest;
    assert places[0] == p && places[1..] == rest && p in places;
    forall q | q in rest ensures Placed(sessions, q) {
      assert q in places;
    }
    forall topic, q | q in rest ensures Placed(Put(sessions, p, topic), q) {
      assert Placed(sessions, q);
    }
  }

  /** The topics of one session in order; stops where a counter runs out. */
  method SweepSession(start: Sessions, changes0: seq<SubscriptionUpdate>, id: string, keys: seq<TopicRef>,
                      ghost all: Sessions, ghost ids: seq<string>, w: Sweep)
    returns (sessions: Sessions, changes: seq<SubscriptionUpdate>, exhausted: bool)
    requires forall n :: n in ids ==> n in all
    requires AllPlaced(start, Rest(all, id, keys, ids))
    ensures exhausted ==> SweepFrom(start, changes0, Rest(all, id, keys, ids), w) == Swept(sessions, changes, true)
    ensures !exhausted ==>
              && AllPlaced(sessions, PlacesIn(all, ids))
              && SweepFrom(start, changes0, Rest(all, id, keys, ids), w)
                 == SweepFrom(sessions, changes, PlacesIn(all, ids), w)
  {
    sessions, changes, exhausted := start, changes0, false;
    for j := 0 to |keys|
      invariant AllPlaced(sessions, Rest(all, id, keys[j..], ids))
      invariant SweepFrom(start, changes0, Rest(all, id, keys, ids), w)
                == SweepFrom(sessions, changes, Rest(all, id, keys[j..], ids), w)
    {
      var p := Place(id, keys[j]);
      RestHead(all, id, keys[j..], ids);
      assert keys[j..][1..] == keys[j + 1..];
      SweepOne(sessions, changes, p, Rest(all, id, keys[j + 1..], ids), w);
      var touch := TouchAt(w, sessions[id].info, keys[j], At(sessions, p));
      match touch {
        case Leave =>
        case Change(topic, update) =>
          sessions := Put(sessions, p, topic);
          changes := changes + [update];
        case RunOut(topic) =>
          return Put(sessions, p, topic), changes, true;
      }
    }
    assert keys[|keys|..] == [];
    assert Rest(all, id, [], ids) == PlacesIn(all, ids);
  }

  lemma PlacesInHead(sessions: Sessions, ids: seq<string>)
    requires ids != [] && forall n :: n in ids ==> n in sessions
    ensures PlacesIn(sessions, ids) == Rest(sessions, ids[0], TopicsInOrder(sessions[ids[0]].topics.Keys), ids[1..])
  {
  }

  /** Sessions in order, and the topics of each in order. */
  method SweepSessions(start: Sessions, w: Sweep) returns (r: Swept)
    ensures r == SweepAll(start, w)
  {
    PlacesCover(start);
    var sessions, changes: seq<SubscriptionUpdate> := start, [];
    var ids := IdsInOrder(start.Keys);
    for i := 0 to |ids|
      invariant forall n :: n in ids[i..] ==> n in start
      invariant AllPlaced(sessions, PlacesIn(start, ids[i..]))
      invariant SweepAll(start, w) == SweepFrom(sessions, changes, PlacesIn(start, ids[i..]), w)
    {
      PlacesInHead(start, ids[i..]);
      assert ids[i..][1..] == ids[i + 1..];
      var keys := TopicsInOrder(start[ids[i]].topics.Keys);
      var exhausted;
      sessions, changes, exhausted := SweepSession(sessions, changes, ids[i], keys, start, ids[i + 1..], w);
      if exhausted {
        return Swept(sessions, changes, true);
      }
    }
    assert ids[|ids|..] == [];
    r := Swept(sessions, changes, false);
  }

  /** What remains to be done after a round. */
  function Remaining(s: State, now: nat): State {
    if Unsettled(s) then Settle(s, now) else s
  }

  ghost function Left(s: State): nat {
    if Unsettled(s) then |Live(s)| + 1 else 0
  }

  lemma RoundMakesProgress(s: State, now: nat)
    requires Unsettled(s)
    ensures Left(SettleRound(s, now)) < Left(s)
    ensures Settle(s, now) == Remaining(SettleRound(s, now), now)
  {
    if Unsettled(SettleRound(s, now)) {
      RoundLoses(s, now);
    }
  }

  method AnyGone(s: State) returns (gone: bool)
    ensures gone == Unsettled(s)
  {
    gone := false;
    var left := s.subscribers.Keys;
    while left != {}
      invariant left <= s.subscribers.Keys
      invariant gone == exists id :: id in s.subscribers && id !in left && Gone(s, id)
      decreases |left|
    {
      var id :| id in left;
      if Gone(s, id) {
        gone := true;
      }
      left := left - {id};
    }
  }

  // ---- capturing a bootstrap

  method TopicFramesOf(topics: map<TopicRef, Topic>, selection: Selection, keys: seq<TopicRef>)
    returns (frames: seq<SubscriptionItem>)
    requires forall k :: k in keys ==> k in topics
    ensures frames == TopicFrames(topics, selection, keys)
  {
    frames := [];
    for j := 0 to |keys|
      invariant frames == TopicFrames(topics, selection, keys[..j])
    {
      assert keys[..j + 1][..j] == keys[..j];
      var state := topics[keys[j]].state;
      if Matches(selection, state.source.session, state.source.topic) {
        frames := frames + [TopicFrame(state)];
      }
    }
    assert keys[..|keys|] == keys;
  }

  lemma SessionFramesNext(sessions: Sessions, selection: Selection, ids: seq<string>, i: nat)
    requires i < |ids| && forall id :: id in ids ==> id in sessions
    ensures SessionFrames(sessions, selection, ids[..i + 1])
            == SessionFrames(sessions, selection, ids[..i]) + FramesOf(sessions[ids[i]], selection)
  {
    assert ids[..i + 1][..i] == ids[..i];
  }

  method BootstrapFrames(s: State, selection: Selection) returns (frames: seq<SubscriptionItem>)
    ensures frames == Bootstrap(s, selection)
  {
    var ids := IdsInOrder(s.sessions.Keys);
    var body: seq<SubscriptionItem> := [];
    for i := 0 to |ids|
      invariant body == SessionFrames(s.sessions, selection, ids[..i])
    {
      SessionFramesNext(s.sessions, selection, ids, i);
      var session := s.sessions[ids[i]];
      if MatchesInfo(selection, session.info) {
        var topics := TopicFramesOf(session.topics, selection, TopicsInOrder(session.topics.Keys));
        body := body + ([SessionFrame(session.info)] + topics);
      }
    }
    assert ids[..|ids|] == ids;
    frames := [Begin(Cursor(s))] + body + [Ready(Cursor(s))];
  }

  /** The first limit that the frames break, if any. */
  method CheckFrames(frames: seq<SubscriptionItem>, messageBytes: nat) returns (exceeded: Option<RequestError>)
    ensures exceeded == FramesExceed(frames, 0, messageBytes)
  {
    var bytes: nat := 0;
    for i := 0 to |frames|
      invariant FramesExceed(frames, 0, messageBytes) == FramesExceed(frames[i..], bytes, messageBytes)
    {
      assert frames[i..][1..] == frames[i + 1..];
      var size := ReplySize(frames[i]);
      if size > messageBytes {
        return Some(LimitExceeded(MessageBytes));
      }
      if bytes + size > RETAINED_SNAPSHOT_BYTES {
        return Some(LimitExceeded(InitialBytes));
      }
      bytes := bytes + size;
    }
    exceeded := None;
  }

  method CaptureFor(s: State, id: nat) returns (r: Result<seq<SubscriptionItem>, RequestError>)
    ensures r == Capture(s, id)
  {
    if id !in s.subscribers {
      var exceeded := CheckFrames([Begin(Cursor(s))], s.messageBytes);
      return Err(if exceeded.Some? then exceeded.value else InvalidRequest(ClosedDuringSetup));
    }
    var frames := BootstrapFrames(s, s.subscribers[id].selection);
    var exceeded := CheckFrames(frames, s.messageBytes);
    r := if exceeded.Some? then Err(exceeded.value) else Ok(frames);
  }

  // ---- staging and failing

  lemma {:induction false} PrepareFails(session: Session, ticket: PollTicket, ops: seq<Operation>, deadline: nat, n: nat)
    requires n <= |ops| && Prepare(session, ticket, ops[..n], deadline).Err?
    ensures Prepare(session, ticket, ops, deadline) == Prepare(session, ticket, ops[..n], deadline)
    decreases |ops|
  {
    if n == |ops| {
      assert ops[..n] == ops;
    } else {
      assert ops[..|ops| - 1][..n] == ops[..n];
      PrepareFails(session, ticket, ops[..|ops| - 1], deadline, n);
    }
  }

  /** Stages the operations of a batch in order, or reports the first that is refused. */
  method StageAll(session: Session, ticket: PollTicket, ops: seq<Operation>, deadline: nat)
    returns (r: Result<Staged, RequestError>)
    ensures r == Prepare(session, ticket, ops, deadline)
    ensures r.Ok? ==> PollOutcomes.Describes(session, ops, deadline, r.value.topics)
  {
    hide PollOutcomes.Describes;
    var st := NOTHING_STAGED;
    for i := 0 to |ops|
      invariant Prepare(session, ticket, ops[..i], deadline) == Ok(st)
    {
      assert ops[..i + 1][..i] == ops[..i];
      var next := StageOp(session, ticket, st, ops[i], deadline);
      if next.Err? {
        PrepareFails(session, ticket, ops, deadline, i + 1);
        return Err(next.error);
      }
      st := next.value;
    }
    assert ops[..|ops|] == ops;
    r := Ok(st);
    PollOutcomes.PrepareDescribes(session, ticket, ops, deadline, st);
  }

  method FailAffected(start: Sessions, id: string, affected: map<TopicRef, bool>, keys: seq<TopicRef>)
    returns (sessions: Sessions, changes: seq<SubscriptionUpdate>)
    requires forall k :: k in keys ==> k in affected
    ensures (sessions, changes) == FailTopics(start, id, affected, keys)
  {
    sessions, changes := start, [];
    for i := 0 to |keys|
      invariant (sessions, changes) == FailTopics(start, id, affected, keys[..i])
    {
      assert keys[..i + 1][..i] == keys[..i];
      var p := Place(id, keys[i]);
      if Placed(sessions, p) {
        var topic := At(sessions, p);
        changes := changes + FailingUpdates(topic, affected[p.key]);
        sessions := Put(sessions, p, Failing(topic, affected[p.key]));
      }
    }
    assert keys[..|keys|] == keys;
  }

  lemma OpenCheckedIs(s: State, selection: Selection, now: nat, refused: Option<RequestError>)
    requires refused == CheckSelection(s, selection)
    ensures OpenChecked(s, selection, now)
            == if refused.Some? then (s, Err(refused.value))
               else if s.nextSubscription >= U64_MAX then (s, Err(InvalidRequest(IdentityExhausted)))
               else SetUp(s, s.nextSubscription + 1, selection, now)
  {
    hide SetUp, CheckSelection;
  }

  class Core {
    const catalog: Catalog
    const messageBytes: nat
    const runId: string
    var sequence: nat
    var runtime: HostStatus
    var sessions: Sessions
    var subscribers: map<nat, Subscriber>
    var channels: map<nat, Channel>
    var nextSubscription: nat
    var revision: nat
    var stopped: bool

    function Now(): State
      reads this
    {
      State(catalog, messageBytes, runId, sequence, runtime, sessions, subscribers, channels, nextSubscription,
            revision, stopped)
    }

    constructor (catalog: Catalog, messageBytes: nat, runId: string)
      ensures Now() == Initial(catalog, messageBytes, runId)
    {
      this.catalog, this.messageBytes, this.runId := catalog, messageBytes, runId;
      sequence, runtime := 0, HostStatus(None, []);
      sessions, subscribers, channels := map[], map[], map[];
      nextSubscription, revision, stopped := 0, 0, false;
    }

    method Shut(end: SubscriptionEnd)
      modifies this
      ensures Now() == Close(old(Now()), end)
    {
      stopped := true;
      channels := FinishAll(channels, subscribers.Keys, end, true);
      subscribers := map[];
      sessions := QuietSessions(sessions);
      revision := Bump(revision);
    }

    method Ensure(count: nat) returns (room: bool)
      modifies this
      ensures (Now(), room) == EnsureSequences(old(Now()), count)
    {
      if stopped {
        return false;
      }
      if sequence + count > U64_MAX {
        Shut(EXHAUSTED);
        return false;
      }
      room := true;
    }

    method Tick() returns (advanced: bool)
      modifies this
      ensures (Now(), advanced) == Advance(old(Now()))
    {
      if stopped {
        return false;
      }
      if sequence >= U64_MAX {
        Shut(EXHAUSTED);
        return false;
      }
      sequence := sequence + 1;
      advanced := true;
    }

    method Tell(update: SubscriptionUpdate)
      modifies this
      ensures Now() == Emit(old(Now()), update)
    {
      var advanced := Tick();
      if advanced {
        channels := OfferAll(Now(), update, Update(UpdateEnvelope(ServiceCursor(runId, sequence), update)));
      }
    }

    method TellAll(updates: seq<SubscriptionUpdate>)
      modifies this
      ensures Now() == EmitAll(old(Now()), updates)
    {
      hide Emit;
      ghost var start := Now();
      for i := 0 to |updates|
        invariant Now() == EmitAll(start, updates[..i])
      {
        Tell(updates[i]);
        assert updates[..i + 1][..i] == updates[..i];
      }
      assert updates[..|updates|] == updates;
    }

    method Round(now: nat)
      modifies this
      ensures Now() == SettleRound(old(Now()), now)
    {
      hide EmitAll, SweepAll, Close;
      var live := Now();
      subscribers := map id | id in subscribers && !Gone(live, id) :: subscribers[id];
      var swept := SweepSessions(sessions, Reconcile(subscribers, now));
      sessions := swept.sessions;
      if swept.exhausted {
        Shut(EXHAUSTED);
        return;
      }
      if swept.changes != [] {
        revision := Bump(revision);
      }
      TellAll(swept.changes);
    }

    /** Repeats while the flips it published have themselves ended subscribers. */
    method SettleDemand(now: nat)
      modifies this
      ensures Now() == Settle(old(Now()), now)
    {
      ghost var start := Now();
      Round(now);
      var again := AnyGone(Now());
      while again
        invariant again == Unsettled(Now()) && Remaining(Now(), now) == Settle(start, now)
        decreases Left(Now())
      {
        RoundMakesProgress(Now(), now);
        Round(now);
        again := AnyGone(Now());
      }
    }

    method ExpireOverdue(now: nat)
      modifies this
      ensures Now() == Expire(old(Now()), now)
    {
      hide Settle, EmitAll, SweepAll, Close;
      var swept := SweepSessions(sessions, Overdue(now));
      sessions := swept.sessions;
      if swept.exhausted {
        Shut(EXHAUSTED);
        return;
      }
      if swept.changes != [] {
        revision := Bump(revision);
      }
      TellAll(swept.changes);
      SettleDemand(now);
    }

    // ---- subscriptions

    /** Creates demand first, so that the bootstrap captures the topics it will follow. */
    method Subscribe(request: Wire.Subscribe, at: nat, now: nat) returns (r: Result<nat, RequestError>)
      modifies this
      ensures (Now(), r) == Open(old(Now()), request, at, now)
    {
      if SubscribeSize(request) > messageBytes {
        return Err(LimitExceeded(MessageBytes));
      }
      ExpireOverdue(at);
      r := Admit(Normalize(request), now);
    }

    method Admit(selection: Selection, now: nat) returns (r: Result<nat, RequestError>)
      modifies this
      ensures (Now(), r) == OpenChecked(old(Now()), selection, now)
    {
      hide CheckSelection, SetUp;
      var refused := CheckSelection(Now(), selection);
      OpenCheckedIs(Now(), selection, now, refused);
      if refused.Some? {
        return Err(refused.value);
      }
      if nextSubscription >= U64_MAX {
        return Err(InvalidRequest(IdentityExhausted));
      }
      r := SetUpNext(nextSubscription + 1, selection, now);
    }

    method SetUpNext(id: nat, selection: Selection, now: nat) returns (r: Result<nat, RequestError>)
      modifies this
      ensures (Now(), r) == SetUp(old(Now()), id, selection, now)
    {
      hide Settle, Bootstrap, FramesExceed;
      nextSubscription := id;
      subscribers := subscribers[id := Subscriber(selection, false)];
      SettleDemand(now);
      var captured := CaptureFor(Now(), id);
      if captured.Err? {
        subscribers := subscribers - {id};
        SettleDemand(now);
        return Err(captured.error);
      }
      channels := channels[id := Channel(subscribers[id].selection, Opened(captured.value))];
      subscribers := subscribers[id := subscribers[id].(active := true)];
      r := Ok(id);
    }

    method DropHandle(id: nat, now: nat)
      modifies this
      ensures Now() == Drop(old(Now()), id, now)
    {
      hide Settle;
      subscribers := subscribers - {id};
      channels := channels - {id};
      SettleDemand(now);
    }

    // ---- sessions

    method EndOne(id: string, status: HostStatus)
      modifies this
      ensures Now() == EndSession(old(Now()), id, status)
    {
      hide Emit, NowRetrying;
      if id !in sessions {
        return;
      }
      var reference := sessions[id].info.session;
      var reason := if NowRetrying(runtime, status, id) then SessionProviderFailed else TargetExited;
      Tell(SessionEnded(reference, reason));
      sessions := sessions - {id};
      var over := set n | n in subscribers && subscribers[n].selection.sessions == OneSession(reference);
      channels := FinishAll(channels, over, SessionOver, false);
      subscribers := subscribers - over;
    }

    method StartOne(info: SessionInfo) returns (e: Option<RequestError>)
      modifies this
      ensures (Now(), e) == AddSession(old(Now()), info)
    {
      if info.providerId !in catalog {
        return Some(InvalidRequest(UnregisteredProvider));
      }
      var caps := catalog[info.providerId];
      var room := Ensure(1 + |caps|);
      if !room {
        return None;
      }
      var keys := KeysOf(info.providerId, caps);
      sessions := sessions[info.session.sessionId := Session(info, NewTopics(info, keys))];
      Tell(SessionStarted(info));
      TellAll(Announce(info, TopicsInOrder(keys)));
      e := None;
    }

    method EndMany(ids: seq<string>, status: HostStatus)
      modifies this
      ensures Now() == EndSessions(old(Now()), ids, status)
    {
      hide EndSession;
      ghost var start := Now();
      for i := 0 to |ids|
        invariant Now() == EndSessions(start, ids[..i], status)
      {
        EndOne(ids[i], status);
        assert ids[..i + 1][..i] == ids[..i];
      }
      assert ids[..|ids|] == ids;
    }

    method StartMany(incoming: map<string, SessionInfo>, ids: seq<string>) returns (e: Option<RequestError>)
      requires forall id :: id in ids ==> id in incoming
      modifies this
      ensures (Now(), e) == AddSessions(old(Now()), incoming, ids)
    {
      hide AddSession;
      ghost var start := Now();
      e := None;
      for i := 0 to |ids|
        invariant (Now(), e) == AddSessions(start, incoming, ids[..i])
      {
        if e.None? && ids[i] !in sessions {
          e := StartOne(incoming[ids[i]]);
        }
        assert ids[..i + 1][..i] == ids[..i];
      }
      assert ids[..|ids|] == ids;
    }

    method Sync(status: HostStatus, now: nat) returns (e: Option<RequestError>)
      modifies this
      ensures (Now(), e) == SyncRuntime(old(Now()), status, now)
    {
      hide Settle, EndSessions, AddSessions, Incoming;
      if stopped || runtime == status {
        return None;
      }
      var incoming := Incoming(Now(), status.targets);
      EndMany(IdsInOrder(sessions.Keys - incoming.Keys), status);
      e := StartMany(incoming, IdsInOrder(incoming.Keys));
      if e.Some? {
        return;
      }
      runtime := status;
      var advanced := Tick();
      SettleDemand(now);
    }

    // ---- polls

    method LandTopics(id: string, topics: map<TopicRef, Topic>, keys: seq<TopicRef>)
      requires forall k :: k in keys ==> k in topics
      modifies this
      ensures Now() == CommitTopics(old(Now()), id, topics, keys)
    {
      ghost var start := Now();
      for i := 0 to |keys|
        invariant Now() == CommitTopics(start, id, topics, keys[..i])
      {
        LandOne(Place(id, keys[i]), topics[keys[i]]);
        assert keys[..i + 1][..i] == keys[..i];
      }
      assert keys[..|keys|] == keys;
    }

    method LandOne(p: Place, topic: Topic)
      modifies this
      ensures Now() == CommitTopic(old(Now()), p, topic)
    {
      hide Emit;
      if !Placed(sessions, p) {
        return;
      }
      var current := At(sessions, p).state;
      var landed := Landing(current, topic, sequence + 1);
      sessions := Put(sessions, p, landed);
      if Changed(current, topic.state) {
        Tell(TopicChanged(landed.state));
      }
    }

    method TellEvents(id: string, events: seq<(TopicRef, JsonPayload)>)
      modifies this
      ensures Now() == CommitEvents(old(Now()), id, events)
    {
      hide Emit;
      ghost var start := Now();
      for i := 0 to |events|
        invariant Now() == CommitEvents(start, id, events[..i])
      {
        var p := Place(id, events[i].0);
        if Placed(sessions, p) {
          Tell(EventAt(At(sessions, p).state, sequence + 1, events[i].1));
        }
        assert events[..i + 1][..i] == events[..i];
      }
      assert events[..|events|] == events;
    }

    method Land(id: string, batch: Pending, st: Staged)
      requires id in sessions && StagedOk(st)
      modifies this
      ensures Now() == CommitStaged(CommitMetadata(old(Now()), id, batch), id, st)
    {
      var session := sessions[id];
      if batch.gameBuild != session.info.gameBuild {
        var info := session.info.(gameBuild := batch.gameBuild);
        sessions := sessions[id := session.(info := info)];
        Tell(SessionChanged(info));
      }
      TellAll(ResetUpdates(st));
      LandTopics(id, st.topics, TopicsInOrder(st.topics.Keys));
      TellEvents(id, st.events);
    }

    method Commit(ticket: PollTicket, batch: Pending, deadline: nat, now: nat) returns (r: Result<bool, RequestError>)
      modifies this
      ensures (Now(), r) == CommitPoll(old(Now()), ticket, batch, deadline, now)
    {
      hide Settle, CommitStaged, CommitMetadata, Close, Prepare, Validate, ResetExhausts;
      if batch.failed {
        return Err(InvalidRequest(RejectionIgnored));
      }
      if stopped || !Current(Now(), ticket) {
        return Ok(false);
      }
      var session := sessions[ticket.sessionId];
      if ResetExhausts(session, batch.ops) {
        Shut(EXHAUSTED);
        return Ok(false);
      }
      var staged := StageAll(session, ticket, batch.ops, deadline);
      if staged.Err? {
        return Err(staged.error);
      }
      var st := staged.value;
      PrepareOk(session, ticket, batch.ops, deadline);
      var refused := Validate(Now(), session, st);
      if refused.Some? {
        return Err(refused.value);
      }
      if exists u :: u in MetadataUpdate(session, batch) && !UpdateFits(Now(), u) {
        return Err(LimitExceeded(MessageBytes));
      }
      var room := Ensure(Reserve(session, batch, st));
      if !room {
        return Ok(false);
      }
      Land(ticket.sessionId, batch, st);
      SettleDemand(now);
      r := Ok(true);
    }

    method Discard(ticket: PollTicket, resets: seq<TopicRef>, failed: bool, now: nat) returns (r: Option<PollTicket>)
      modifies this
      ensures (Now(), r) == DiscardPoll(old(Now()), ticket, resets, failed, now)
    {
      hide Settle, EmitAll, FailTopics, Close, Affected, DiscardExhausts, Rebased, SameDemand;
      if stopped || ticket.sessionId !in sessions {
        return None;
      }
      var session := sessions[ticket.sessionId];
      var affected := Affected(session, ticket, resets, failed);
      if DiscardExhausts(session, affected) {
        Shut(EXHAUSTED);
        return None;
      }
      var room := Ensure(|affected| + ResetCount(affected));
      if !room {
        return None;
      }
      var changes;
      sessions, changes := FailAffected(sessions, ticket.sessionId, affected, TopicsInOrder(affected.Keys));
      TellAll(changes);
      SettleDemand(now);
      var current := CurrentTicket(Now(), ticket.sessionId);
      r := if current.Some? && SameDemand(current.value, Rebased(ticket, session, affected)) then current else None;
    }
  }
}
