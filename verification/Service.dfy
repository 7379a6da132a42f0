/** The service state and its locked transitions as functions on one value. */
module Service {
  import opened Wire
  import opened WireSize
  import opened Selecting
  import opened Ordering
  import opened SubscriptionQueue

  /** Times are milliseconds on the service clock. */
  const POLL_GRACE: nat := 5000

  const RETAINED_SNAPSHOT_BYTES: nat := 32 * 1024 * 1024

  datatype CapabilityKey = CapabilityKey(topic: string, schemaVersion: nat)

  datatype Capability = Capability(snapshots: bool, events: bool)

  /** Capabilities by provider. */
  type Catalog = map<string, map<CapabilityKey, Capability>>

  datatype Topic = Topic(state: TopicSnapshot, demanded: bool, epoch: nat, deadline: Option<nat>)

  datatype Session = Session(info: SessionInfo, topics: map<TopicRef, Topic>)

  type Sessions = map<string, Session>

  datatype Subscriber = Subscriber(selection: Selection, active: bool)

  /** A subscription handle: its queue, with the history of what passed through it. */
  datatype Channel = Channel(selection: Selection, traffic: Traffic)

  datatype Activity = Attaching | Retrying(error: string) | Observing(sessionId: string)

  datatype RecordedProcess = RecordedProcess(pid: nat, created: nat)

  datatype TargetInfo = TargetInfo(process: RecordedProcess, executable: string, providerId: string, gameId: string)

  datatype TargetStatus = TargetStatus(target: TargetInfo, activity: Activity)

  datatype HostStatus = HostStatus(discoveryError: Option<string>, targets: seq<TargetStatus>)

  /** Channels are the live handles. A subscriber that is still being set up has
      none; one removed by the service keeps its channel until the handle drops. */
  datatype State = State(
    catalog: Catalog,
    messageBytes: nat,
    runId: string,
    sequence: nat,
    runtime: HostStatus,
    sessions: Sessions,
    subscribers: map<nat, Subscriber>,
    channels: map<nat, Channel>,
    nextSubscription: nat,
    revision: nat,
    stopped: bool)

  function Initial(catalog: Catalog, messageBytes: nat, runId: string): State {
    State(catalog, messageBytes, runId, 0, HostStatus(None, []), map[], map[], map[], 0, 0, false)
  }

  function Bump(n: nat): nat {
    if n < U64_MAX then n + 1 else n
  }

  function Cursor(s: State): ServiceCursor {
    ServiceCursor(s.runId, s.sequence)
  }

  const EXHAUSTED: SubscriptionEnd := ResyncRequired(SequenceExhausted)

  // ---- emission and closure

  function Quiet(topic: Topic): Topic {
    Topic(topic.state.(snapshot := None, health := Idle), false, topic.epoch, None)
  }

  function QuietSession(session: Session): Session {
    session.(topics := map k | k in session.topics :: Quiet(session.topics[k]))
  }

  function FinishChannel(ch: Channel, end: SubscriptionEnd, discard: bool): Channel {
    ch.(traffic := ch.traffic.(queue := Finish(ch.traffic.queue, end, discard)))
  }

  function Close(s: State, end: SubscriptionEnd): State {
    s.(stopped := true,
       subscribers := map[],
       channels := map id | id in s.channels ::
         if id in s.subscribers then FinishChannel(s.channels[id], end, true) else s.channels[id],
       sessions := map id | id in s.sessions :: QuietSession(s.sessions[id]),
       revision := Bump(s.revision))
  }

  predicate Room(s: State, count: nat) {
    s.sequence + count <= U64_MAX
  }

  function EnsureSequences(s: State, count: nat): (State, bool) {
    if s.stopped then (s, false)
    else if !Room(s, count) then (Close(s, EXHAUSTED), false)
    else (s, true)
  }

  function Advance(s: State): (State, bool) {
    if s.stopped then (s, false)
    else if s.sequence < U64_MAX then (s.(sequence := s.sequence + 1), true)
    else (Close(s, EXHAUSTED), false)
  }

  predicate Hears(s: State, id: nat, update: SubscriptionUpdate) {
    && id in s.subscribers
    && s.subscribers[id].active
    && var selection := s.subscribers[id].selection;
       if update.SessionEnded? && update.session.sessionId in s.sessions
       then MatchesInfo(selection, s.sessions[update.session.sessionId].info)
       else MatchesUpdate(selection, update)
  }

  function OfferChannel(ch: Channel, item: SubscriptionItem, budget: nat): Channel {
    ch.(traffic := OfferTo(ch.traffic, item, budget))
  }

  function Emit(s: State, update: SubscriptionUpdate): State {
    var (t, advanced) := Advance(s);
    if !advanced then t
    else
      var item := Update(UpdateEnvelope(Cursor(t), update));
      t.(channels := map id | id in t.channels ::
           if Hears(t, id, update) then OfferChannel(t.channels[id], item, t.messageBytes) else t.channels[id])
  }

  function EmitAll(s: State, updates: seq<SubscriptionUpdate>): State {
    if updates == [] then s
    else Emit(EmitAll(s, updates[..|updates| - 1]), updates[|updates| - 1])
  }

  // ---- sweeps over every topic in map order

  datatype Place = Place(id: string, key: TopicRef)

  predicate Placed(sessions: Sessions, p: Place) {
    p.id in sessions && p.key in sessions[p.id].topics
  }

  function At(sessions: Sessions, p: Place): Topic
    requires Placed(sessions, p)
  {
    sessions[p.id].topics[p.key]
  }

  function Put(sessions: Sessions, p: Place, topic: Topic): Sessions
    requires p.id in sessions
  {
    sessions[p.id := sessions[p.id].(topics := sessions[p.id].topics[p.key := topic])]
  }

  function PlacesOf(id: string, keys: seq<TopicRef>): (r: seq<Place>)
    ensures |r| == |keys|
    ensures forall i :: 0 <= i < |r| ==> r[i] == Place(id, keys[i])
  {
    seq(|keys|, i requires 0 <= i < |keys| => Place(id, keys[i]))
  }

  function PlacesIn(sessions: Sessions, ids: seq<string>): seq<Place>
    requires forall id :: id in ids ==> id in sessions
  {
    if ids == [] then []
    else PlacesOf(ids[0], TopicsInOrder(sessions[ids[0]].topics.Keys)) + PlacesIn(sessions, ids[1..])
  }

  function Places(sessions: Sessions): seq<Place> {
    PlacesIn(sessions, IdsInOrder(sessions.Keys))
  }

  predicate Demanded(subscribers: map<nat, Subscriber>, session: SessionRef, key: TopicRef) {
    exists id :: id in subscribers && Matches(subscribers[id].selection, session, key)
  }

  /** What a sweep does at one topic. */
  datatype Touch =
    | Leave
    | Change(topic: Topic, update: SubscriptionUpdate)
    | RunOut(topic: Topic)

  datatype Sweep = Reconcile(subscribers: map<nat, Subscriber>, now: nat) | Overdue(now: nat)

  const DEADLINE_EXCEEDED: CapabilityHealth := Unavailable(ProviderFailed("sampling deadline exceeded"))

  function TouchDemand(info: SessionInfo, key: TopicRef, topic: Topic,
                       subscribers: map<nat, Subscriber>, now: nat): Touch
  {
    var demanded := Demanded(subscribers, info.session, key);
    if demanded == topic.demanded then Leave
    else if topic.epoch >= U64_MAX then RunOut(topic.(demanded := demanded))
    else
      var flipped := Topic(topic.state.(snapshot := None), demanded, topic.epoch + 1,
                           if demanded then Some(now + POLL_GRACE) else None);
      if !demanded then
        var idle := flipped.(state := flipped.state.(health := Idle));
        Change(idle, TopicChanged(idle.state))
      else if topic.state.generation >= U64_MAX then RunOut(flipped)
      else
        var generation := topic.state.generation + 1;
        Change(flipped.(state := flipped.state.(generation := generation, health := Initializing)),
               TopicReset(topic.state.source, generation, DemandResumed))
  }

  function TouchOverdue(topic: Topic, now: nat): Touch {
    if topic.deadline.None? || now < topic.deadline.value then Leave
    else if topic.epoch >= U64_MAX then RunOut(topic.(deadline := None))
    else
      var expired := Topic(topic.state.(snapshot := None, health := DEADLINE_EXCEEDED),
                           topic.demanded, topic.epoch + 1, None);
      Change(expired, TopicChanged(expired.state))
  }

  function TouchAt(w: Sweep, info: SessionInfo, key: TopicRef, topic: Topic): Touch {
    match w
    case Reconcile(subscribers, now) => TouchDemand(info, key, topic, subscribers, now)
    case Overdue(now) => TouchOverdue(topic, now)
  }

  /** A sweep's sessions, the updates it owes, and whether a counter ran out. */
  datatype Swept = Swept(sessions: Sessions, changes: seq<SubscriptionUpdate>, exhausted: bool)

  function SweepFrom(sessions: Sessions, changes: seq<SubscriptionUpdate>, places: seq<Place>, w: Sweep): (r: Swept)
    requires forall p :: p in places ==> Placed(sessions, p)
    decreases |places|
  {
    if places == [] then Swept(sessions, changes, false)
    else
      var p := places[0];
      assert Placed(sessions, p);
      assert forall q, t :: q in places[1..] ==> Placed(Put(sessions, p, t), q) by {
        forall q, t | q in places[1..] ensures Placed(Put(sessions, p, t), q) {
          assert Placed(sessions, q);
        }
      }
      match TouchAt(w, sessions[p.id].info, p.key, At(sessions, p))
      case Leave => SweepFrom(sessions, changes, places[1..], w)
      case Change(topic, update) => SweepFrom(Put(sessions, p, topic), changes + [update], places[1..], w)
      case RunOut(topic) => Swept(Put(sessions, p, topic), changes, true)
  }

  lemma PlacesOfCover(id: string, keys: seq<TopicRef>)
    ensures forall p :: p in PlacesOf(id, keys) <==> p.id == id && p.key in keys
  {
    var first := PlacesOf(id, keys);
    forall p ensures p in first <==> p.id == id && p.key in keys {
      if p.id == id && p.key in keys {
        var i :| 0 <= i < |keys| && keys[i] == p.key;
        assert first[i] == p;
      }
    }
  }

  lemma {:induction false} PlacesInCover(sessions: Sessions, ids: seq<string>)
    requires forall id :: id in ids ==> id in sessions
    ensures forall p :: p in PlacesIn(sessions, ids) <==> p.id in ids && Placed(sessions, p)
  {
    if ids != [] {
      PlacesInCover(sessions, ids[1..]);
      PlacesOfCover(ids[0], TopicsInOrder(sessions[ids[0]].topics.Keys));
      assert ids == [ids[0]] + ids[1..];
    }
  }

  /** The places of a sweep are exactly the topics there are. */
  lemma PlacesCover(sessions: Sessions)
    ensures forall p :: p in Places(sessions) <==> Placed(sessions, p)
  {
    PlacesInCover(sessions, IdsInOrder(sessions.Keys));
  }

  function SweepAll(sessions: Sessions, w: Sweep): Swept {
    PlacesCover(sessions);
    SweepFrom(sessions, [], Places(sessions), w)
  }

  // ---- settle and expire

  predicate Gone(s: State, id: nat) {
    id in s.channels && Ended(s.channels[id].traffic.queue)
  }

  function RetainLive(s: State): State {
    s.(subscribers := map id | id in s.subscribers && !Gone(s, id) :: s.subscribers[id])
  }

  ghost function Live(s: State): set<nat> {
    set id | id in s.subscribers && !Gone(s, id)
  }

  function NoteChanges(s: State, swept: Swept): State {
    s.(sessions := swept.sessions, revision := if swept.changes == [] then s.revision else Bump(s.revision))
  }

  /** One round of settle: forget ended subscribers, flip demand, publish the flips. */
  function SettleRound(s: State, now: nat): State {
    var live := RetainLive(s);
    var swept := SweepAll(live.sessions, Reconcile(live.subscribers, now));
    if swept.exhausted then Close(live.(sessions := swept.sessions), EXHAUSTED)
    else EmitAll(NoteChanges(live, swept), swept.changes)
  }

  predicate Unsettled(s: State) {
    exists id :: id in s.subscribers && Gone(s, id)
  }

  /** What emission may change: the sequence and the queues, or everything by closing. */
  predicate Emitted(s: State, t: State, n: nat) {
    && (t.subscribers == s.subscribers || t.subscribers == map[])
    && (!t.stopped ==> t == s.(sequence := s.sequence + n, channels := t.channels))
    && (t.stopped ==> t.subscribers == map[] || s.stopped)
    && t.channels.Keys == s.channels.Keys
    && (s.stopped ==> t == s)
    && (s.sequence <= U64_MAX ==> t.sequence <= U64_MAX)
  }

  lemma EmitEmitted(s: State, update: SubscriptionUpdate)
    ensures Emitted(s, Emit(s, update), 1)
  {
  }

  lemma EmittedTrans(s: State, t: State, u: State, n: nat)
    requires Emitted(s, t, n) && Emitted(t, u, 1)
    ensures Emitted(s, u, n + 1)
  {
  }

  lemma {:induction false} EmitAllFrame(s: State, updates: seq<SubscriptionUpdate>)
    ensures Emitted(s, EmitAll(s, updates), |updates|)
  {
    hide Emit, Emitted;
    if updates == [] {
      EmittedNothing(s);
    } else {
      var mid := EmitAll(s, updates[..|updates| - 1]);
      EmitAllFrame(s, updates[..|updates| - 1]);
      EmitEmitted(mid, updates[|updates| - 1]);
      EmittedTrans(s, mid, EmitAll(s, updates), |updates| - 1);
    }
  }

  lemma EmittedNothing(s: State)
    ensures Emitted(s, s, 0)
  {
  }

  /** Publishing flips can only overflow queues, so an unsettled round has lost a subscriber. */
  lemma RoundLoses(s: State, now: nat)
    requires Unsettled(SettleRound(s, now))
    ensures |Live(SettleRound(s, now))| < |Live(s)|
  {
    var live := RetainLive(s);
    var next := SettleRound(s, now);
    var swept := SweepAll(live.sessions, Reconcile(live.subscribers, now));
    if !swept.exhausted {
      EmitAllFrame(NoteChanges(live, swept), swept.changes);
    }
    var id :| id in next.subscribers && Gone(next, id);
    assert next.subscribers == live.subscribers;
    assert live.subscribers.Keys == Live(s);
    assert Live(next) <= Live(s) - {id};
    SubsetSize(Live(next), Live(s) - {id});
  }

  lemma {:induction false} SubsetSize<T>(a: set<T>, b: set<T>)
    requires a <= b
    ensures |a| <= |b|
  {
    if a != {} {
      var x :| x in a;
      SubsetSize(a - {x}, b - {x});
    }
  }

  /** Rounds repeat while their own publications end further subscribers. */
  function Settle(s: State, now: nat): State
    decreases |Live(s)|
  {
    var next := SettleRound(s, now);
    if Unsettled(next) then
      RoundLoses(s, now);
      Settle(next, now)
    else next
  }

  function Expire(s: State, now: nat): State {
    var swept := SweepAll(s.sessions, Overdue(now));
    if swept.exhausted then Close(s.(sessions := swept.sessions), EXHAUSTED)
    else Settle(EmitAll(NoteChanges(s, swept), swept.changes), now)
  }

  // ---- subscribe, drop, take

  function SelectorSize(selector: SessionSelector): nat {
    match selector
    case AllSessions => 1
    case OneSession(reference) => 1 + SessionRefSize(reference)
  }

  function TopicRefsSize(topics: seq<TopicRef>): nat {
    if topics == [] then 0 else TopicRefSize(topics[0]) + TopicRefsSize(topics[1..])
  }

  function SubscribeSize(request: Subscribe): nat {
    SelectorSize(request.sessions) + VarintSize(|request.topics|) + TopicRefsSize(request.topics)
  }

  function FindCapability(catalog: Catalog, key: TopicRef): Result<Capability, RequestError> {
    if !Identifier(key.providerId) || !Identifier(key.topic) || key.schemaVersion == 0 then
      Err(InvalidRequest(InvalidTopic))
    else if key.providerId !in catalog then Err(UnknownProvider(key.providerId))
    else
      var caps := catalog[key.providerId];
      var versions := set c | c in caps && c.topic == key.topic :: c.schemaVersion;
      if versions == {} then Err(UnknownTopic(key.providerId, key.topic))
      else if CapabilityKey(key.topic, key.schemaVersion) !in caps then Err(UnsupportedSchema(key, versions))
      else Ok(caps[CapabilityKey(key.topic, key.schemaVersion)])
  }

  function FindSession(s: State, key: SessionRef): Result<Session, RequestError> {
    if !Identifier(key.runId) || !Identifier(key.sessionId) then Err(InvalidRequest(InvalidSession))
    else if key.runId != s.runId then Err(ServiceRestarted(s.runId))
    else if key.sessionId !in s.sessions then Err(UnknownSession(key.sessionId))
    else Ok(s.sessions[key.sessionId])
  }

  function CheckTopic(s: State, selector: SessionSelector, key: TopicRef): Option<RequestError> {
    match FindCapability(s.catalog, key)
    case Err(e) => Some(e)
    case Ok(_) =>
      if selector.AllSessions? then None
      else
        match FindSession(s, selector.reference)
        case Err(e) => Some(e)
        case Ok(session) =>
          if session.info.providerId != key.providerId
          then Some(InvalidRequest(ForeignTopic))
          else None
  }

  function CheckTopics(s: State, selector: SessionSelector, keys: seq<TopicRef>): Option<RequestError> {
    if keys == [] then None
    else
      match CheckTopic(s, selector, keys[0])
      case Some(e) => Some(e)
      case None => CheckTopics(s, selector, keys[1..])
  }

  function CheckSelection(s: State, selection: Selection): Option<RequestError> {
    if s.stopped then Some(InvalidRequest(Stopped))
    else if selection.topics == {} then Some(InvalidRequest(EmptySelection))
    else if selection.sessions.OneSession? && FindSession(s, selection.sessions.reference).Err? then
      Some(FindSession(s, selection.sessions.reference).error)
    else CheckTopics(s, selection.sessions, TopicsInOrder(selection.topics))
  }

  function TopicFrames(topics: map<TopicRef, Topic>, selection: Selection, keys: seq<TopicRef>): seq<SubscriptionItem>
    requires forall k :: k in keys ==> k in topics
  {
    if keys == [] then []
    else
      var state := topics[keys[|keys| - 1]].state;
      TopicFrames(topics, selection, keys[..|keys| - 1])
      + if Matches(selection, state.source.session, state.source.topic) then [TopicFrame(state)] else []
  }

  function FramesOf(session: Session, selection: Selection): seq<SubscriptionItem> {
    if MatchesInfo(selection, session.info)
    then [SessionFrame(session.info)] + TopicFrames(session.topics, selection, TopicsInOrder(session.topics.Keys))
    else []
  }

  function SessionFrames(sessions: Sessions, selection: Selection, ids: seq<string>): seq<SubscriptionItem>
    requires forall id :: id in ids ==> id in sessions
  {
    if ids == [] then []
    else
      SessionFrames(sessions, selection, ids[..|ids| - 1]) + FramesOf(sessions[ids[|ids| - 1]], selection)
  }

  /** The frames of a coherent bootstrap at the current cursor. */
  function Bootstrap(s: State, selection: Selection): seq<SubscriptionItem> {
    [Begin(Cursor(s))] + SessionFrames(s.sessions, selection, IdsInOrder(s.sessions.Keys)) + [Ready(Cursor(s))]
  }

  /** The first limit that the frames break, counting bytes from the front. */
  function FramesExceed(frames: seq<SubscriptionItem>, bytes: nat, messageBytes: nat): Option<RequestError> {
    if frames == [] then None
    else
      var size := ReplySize(frames[0]);
      if size > messageBytes then Some(LimitExceeded(MessageBytes))
      else if bytes + size > RETAINED_SNAPSHOT_BYTES then Some(LimitExceeded(InitialBytes))
      else FramesExceed(frames[1..], bytes + size, messageBytes)
  }

  function Capture(s: State, id: nat): Result<seq<SubscriptionItem>, RequestError> {
    if id !in s.subscribers then
      match FramesExceed([Begin(Cursor(s))], 0, s.messageBytes)
      case Some(e) => Err(e)
      case None => Err(InvalidRequest(ClosedDuringSetup))
    else
      var frames := Bootstrap(s, s.subscribers[id].selection);
      match FramesExceed(frames, 0, s.messageBytes)
      case Some(e) => Err(e)
      case None => Ok(frames)
  }

  function Enroll(s: State, id: nat, selection: Selection): State {
    s.(nextSubscription := id, subscribers := s.subscribers[id := Subscriber(selection, false)])
  }

  function Activate(s: State, id: nat, frames: seq<SubscriptionItem>): State
    requires id in s.subscribers
  {
    s.(subscribers := s.subscribers[id := s.subscribers[id].(active := true)],
       channels := s.channels[id := Channel(s.subscribers[id].selection, Opened(frames))])
  }

  /** Creates demand, captures a bootstrap, and takes the demand back if that fails. */
  function SetUp(s: State, id: nat, selection: Selection, now: nat): (State, Result<nat, RequestError>) {
    var settled := Settle(Enroll(s, id, selection), now);
    var captured := Capture(settled, id);
    if captured.Ok? then (Activate(settled, id, captured.value), Ok(id))
    else (Settle(settled.(subscribers := settled.subscribers - {id}), now), Err(captured.error))
  }

  function OpenChecked(s: State, selection: Selection, now: nat): (State, Result<nat, RequestError>) {
    var refused := CheckSelection(s, selection);
    if refused.Some? then (s, Err(refused.value))
    else if s.nextSubscription >= U64_MAX then (s, Err(InvalidRequest(IdentityExhausted)))
    else SetUp(s, s.nextSubscription + 1, selection, now)
  }

  /** Two clock readings: one to expire overdue topics, one to settle demand. */
  function Open(s: State, request: Subscribe, at: nat, now: nat): (State, Result<nat, RequestError>) {
    if SubscribeSize(request) > s.messageBytes then (s, Err(LimitExceeded(MessageBytes)))
    else OpenChecked(Expire(s, at), Normalize(request), now)
  }

  function Drop(s: State, id: nat, now: nat): State {
    Settle(s.(subscribers := s.subscribers - {id}, channels := s.channels - {id}), now)
  }

  function TakeFrom(s: State, id: nat): State {
    if id in s.channels
    then s.(channels := s.channels[id := s.channels[id].(traffic := Take(s.channels[id].traffic))])
    else s
  }

  // ---- sessions coming and going

  function InfoFor(s: State, id: string, target: TargetInfo): SessionInfo {
    SessionInfo(
      SessionRef(s.runId, id), target.providerId, target.gameId,
      TargetProcess(target.process.pid, target.executable),
      if id in s.sessions then s.sessions[id].info.gameBuild else None)
  }

  function Incoming(s: State, targets: seq<TargetStatus>): map<string, SessionInfo> {
    if targets == [] then map[]
    else
      var front := Incoming(s, targets[..|targets| - 1]);
      var last := targets[|targets| - 1];
      if last.activity.Observing?
      then front[last.activity.sessionId := InfoFor(s, last.activity.sessionId, last.target)]
      else front
  }

  /** The attachment of the session failed, rather than its process exiting. */
  predicate NowRetrying(before: HostStatus, after: HostStatus, id: string) {
    exists o, n :: o in before.targets && n in after.targets
      && o.activity == Observing(id) && n.target == o.target && n.activity.Retrying?
  }

  /** Subscribers of exactly this session end in order, keeping what is queued. */
  function EndSession(s: State, id: string, status: HostStatus): State {
    if id !in s.sessions then s
    else
      var reference := s.sessions[id].info.session;
      var reason := if NowRetrying(s.runtime, status, id) then SessionProviderFailed else TargetExited;
      var told := Emit(s, SessionEnded(reference, reason));
      var over := set n | n in told.subscribers && told.subscribers[n].selection.sessions == OneSession(reference);
      told.(sessions := told.sessions - {id},
            subscribers := told.subscribers - over,
            channels := map n | n in told.channels ::
              if n in over then FinishChannel(told.channels[n], SessionOver, false) else told.channels[n])
  }

  function EndSessions(s: State, ids: seq<string>, status: HostStatus): State {
    if ids == [] then s
    else EndSession(EndSessions(s, ids[..|ids| - 1], status), ids[|ids| - 1], status)
  }

  function KeysOf(providerId: string, caps: map<CapabilityKey, Capability>): set<TopicRef> {
    set c | c in caps :: TopicRef(providerId, c.topic, c.schemaVersion)
  }

  function NewTopic(info: SessionInfo, key: TopicRef): Topic {
    Topic(TopicSnapshot(TopicSource(info.session, info.gameId, key), 1, Idle, None), false, 0, None)
  }

  function NewTopics(info: SessionInfo, keys: set<TopicRef>): map<TopicRef, Topic> {
    map k | k in keys :: NewTopic(info, k)
  }

  function Announce(info: SessionInfo, keys: seq<TopicRef>): (r: seq<SubscriptionUpdate>)
    ensures |r| == |keys|
    ensures forall i :: 0 <= i < |r| ==> r[i] == TopicChanged(NewTopic(info, keys[i]).state)
  {
    seq(|keys|, i requires 0 <= i < |keys| => TopicChanged(NewTopic(info, keys[i]).state))
  }

  function AddSession(s: State, info: SessionInfo): (State, Option<RequestError>) {
    if info.providerId !in s.catalog then (s, Some(InvalidRequest(UnregisteredProvider)))
    else
      var caps := s.catalog[info.providerId];
      var (t, room) := EnsureSequences(s, 1 + |caps|);
      if !room then (t, None)
      else
        var keys := KeysOf(info.providerId, caps);
        var added := t.(sessions := t.sessions[info.session.sessionId := Session(info, NewTopics(info, keys))]);
        (EmitAll(Emit(added, SessionStarted(info)), Announce(info, TopicsInOrder(keys))), None)
  }

  function AddSessions(s: State, incoming: map<string, SessionInfo>, ids: seq<string>): (State, Option<RequestError>)
    requires forall id :: id in ids ==> id in incoming
  {
    if ids == [] then (s, None)
    else
      var (t, e) := AddSessions(s, incoming, ids[..|ids| - 1]);
      var id := ids[|ids| - 1];
      if e.Some? || id in t.sessions then (t, e) else AddSession(t, incoming[id])
  }

  function SyncRuntime(s: State, status: HostStatus, now: nat): (State, Option<RequestError>) {
    if s.stopped || s.runtime == status then (s, None)
    else
      var incoming := Incoming(s, status.targets);
      var ended := EndSessions(s, IdsInOrder(s.sessions.Keys - incoming.Keys), status);
      var (added, e) := AddSessions(ended, incoming, IdsInOrder(incoming.Keys));
      if e.Some? then (added, e)
      else (Settle(Advance(added.(runtime := status)).0, now), None)
  }
}
