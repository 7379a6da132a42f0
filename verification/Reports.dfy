/** What a host report leaves and says, read off its list of targets. */
module Reports {
  import opened Wire
  import opened WireSize
  import opened Selecting
  import opened Ordering
  import opened SubscriptionQueue
  import opened Views
  import opened Service
  import opened Streams
  import opened Invariant
  import opened Sweeps
  import opened Settling
  import opened SessionSync
  import opened Journal
  import Discards
  import Settles = Flips

  // ---- the report

  predicate Observed(targets: seq<TargetStatus>, id: string) {
    exists i :: 0 <= i < |targets| && targets[i].activity == Observing(id)
  }

  predicate LastObserves(targets: seq<TargetStatus>, id: string, i: nat) {
    && i < |targets| && targets[i].activity == Observing(id)
    && forall j :: i < j < |targets| ==> targets[j].activity != Observing(id)
  }

  /** A session as the target that observes it describes it; only one that is already there has a build. */
  function InfoOf(s: State, id: string, target: TargetInfo): SessionInfo {
    SessionInfo(SessionRef(s.runId, id), target.providerId, target.gameId,
                TargetProcess(target.process.pid, target.executable),
                if id in s.sessions then s.sessions[id].info.gameBuild else None)
  }

  /** The sessions of a report: each observed one, as the last target that observes it has it. */
  ghost predicate Describe(s: State, targets: seq<TargetStatus>, infos: map<string, SessionInfo>) {
    && (forall id :: id in infos <==> Observed(targets, id))
    && (forall id, i: nat :: LastObserves(targets, id, i) ==> id in infos && infos[id] == InfoOf(s, id, targets[i].target))
  }

  lemma ObservedMore(targets: seq<TargetStatus>, last: TargetStatus, id: string)
    ensures Observed(targets + [last], id) <==> Observed(targets, id) || last.activity == Observing(id)
  {
    var more := targets + [last];
    assert more[|targets|] == last;
    if Observed(targets, id) {
      var i :| 0 <= i < |targets| && targets[i].activity == Observing(id);
      assert more[i].activity == Observing(id);
    }
  }

  lemma LastMore(targets: seq<TargetStatus>, last: TargetStatus, id: string, i: nat)
    ensures LastObserves(targets + [last], id, i)
            <==> if last.activity == Observing(id) then i == |targets| else LastObserves(targets, id, i)
    ensures i < |targets| ==> (targets + [last])[i] == targets[i]
    ensures (targets + [last])[|targets|] == last
  {
    var more := targets + [last];
    assert more[|targets|] == last;
    forall j | 0 <= j < |targets| ensures more[j] == targets[j] {
    }
    if LastObserves(more, id, i) && last.activity != Observing(id) {
      forall j | i < j < |targets| ensures targets[j].activity != Observing(id) { assert more[j] == targets[j]; }
    }
  }

  lemma {:induction false} IncomingDescribes(s: State, targets: seq<TargetStatus>)
    ensures Describe(s, targets, Incoming(s, targets))
  {
    hide Observed;
    if targets == [] {
      assert forall id :: !Observed([], id) by { NothingObserved(); }
      assert forall id, i: nat :: !LastObserves([], id, i) by { NothingObserved(); }
    } else {
      var front, last := targets[..|targets| - 1], targets[|targets| - 1];
      assert targets == front + [last];
      IncomingDescribes(s, front);
      forall id ensures id in Incoming(s, targets) <==> Observed(targets, id) {
        ObservedMore(front, last, id);
      }
      forall id, i: nat | LastObserves(targets, id, i)
        ensures id in Incoming(s, targets) && Incoming(s, targets)[id] == InfoOf(s, id, targets[i].target)
      {
        LastMore(front, last, id, i);
      }
    }
  }

  lemma {:induction false} LastObserver(targets: seq<TargetStatus>, id: string) returns (i: nat)
    requires Observed(targets, id)
    ensures LastObserves(targets, id, i)
    decreases |targets|
  {
    var front, last := targets[..|targets| - 1], targets[|targets| - 1];
    assert targets == front + [last];
    ObservedMore(front, last, id);
    if last.activity == Observing(id) {
      i := |front|;
    } else {
      i := LastObserver(front, id);
      LastMore(front, last, id, i);
    }
  }

  /** A report describes its sessions in one way only. */
  lemma DescribedOnce(s: State, targets: seq<TargetStatus>, a: map<string, SessionInfo>, b: map<string, SessionInfo>)
    requires Describe(s, targets, a) && Describe(s, targets, b)
    ensures a == b
  {
    hide Observed;
    forall id | id in a ensures id in b && a[id] == b[id] {
      var i := LastObserver(targets, id);
    }
    forall id | id in b ensures id in a {
      assert Observed(targets, id);
    }
  }

  lemma NothingObserved()
    ensures forall id :: !Observed([], id)
    ensures forall id, i: nat :: !LastObserves([], id, i)
  {
  }

  // ---- the notices

  /** A target that observed the session is being retried now. */
  predicate Failed(before: HostStatus, after: HostStatus, id: string) {
    exists i, j :: 0 <= i < |before.targets| && 0 <= j < |after.targets|
      && before.targets[i].activity == Observing(id)
      && after.targets[j].target == before.targets[i].target && after.targets[j].activity.Retrying?
  }

  function Goodbye(info: SessionInfo, id: string, before: HostStatus, after: HostStatus): Notice {
    Notice(SessionEnded(info.session, if Failed(before, after, id) then SessionProviderFailed else TargetExited), Some(info))
  }

  function Goodbyes(sessions: Sessions, ids: seq<string>, before: HostStatus, after: HostStatus): (r: seq<Notice>)
    requires forall id :: id in ids ==> id in sessions
    ensures |r| == |ids|
    ensures forall i :: 0 <= i < |r| ==> r[i] == Goodbye(sessions[ids[i]].info, ids[i], before, after)
  {
    seq(|ids|, i requires 0 <= i < |ids| => Goodbye(sessions[ids[i]].info, ids[i], before, after))
  }

  function Offered(catalog: Catalog, providerId: string): set<TopicRef> {
    if providerId in catalog then set c | c in catalog[providerId] :: TopicRef(providerId, c.topic, c.schemaVersion)
    else {}
  }

  function FirstTopic(info: SessionInfo, k: TopicRef): Topic {
    Topic(TopicSnapshot(TopicSource(info.session, info.gameId, k), 1, Idle, None), false, 0, None)
  }

  /** A session that starts has every topic its provider offers, in its first generation and undemanded. */
  function FirstSession(info: SessionInfo, catalog: Catalog): Session {
    Session(info, map k | k in Offered(catalog, info.providerId) :: FirstTopic(info, k))
  }

  function Hello(info: SessionInfo, keys: seq<TopicRef>): seq<SubscriptionUpdate> {
    [SessionStarted(info)] + seq(|keys|, i requires 0 <= i < |keys| => TopicChanged(FirstTopic(info, keys[i]).state))
  }

  /** Each session that was not there is announced with its topics, in order. */
  function Hellos(known: set<string>, infos: map<string, SessionInfo>, catalog: Catalog, ids: seq<string>)
    : seq<SubscriptionUpdate>
  {
    if ids == [] then []
    else
      var last := ids[|ids| - 1];
      Hellos(known, infos, catalog, ids[..|ids| - 1])
      + if last in infos && last !in known
        then Hello(infos[last], TopicsInOrder(Offered(catalog, infos[last].providerId))) else []
  }

  // ---- sessions end

  lemma SameReason(before: HostStatus, after: HostStatus, id: string)
    ensures NowRetrying(before, after, id) <==> Failed(before, after, id)
  {
    if NowRetrying(before, after, id) {
      var o, n :| o in before.targets && n in after.targets
                  && o.activity == Observing(id) && n.target == o.target && n.activity.Retrying?;
      var i :| 0 <= i < |before.targets| && before.targets[i] == o;
      var j :| 0 <= j < |after.targets| && after.targets[j] == n;
    }
    if Failed(before, after, id) {
      var i, j :| 0 <= i < |before.targets| && 0 <= j < |after.targets|
        && before.targets[i].activity == Observing(id)
        && after.targets[j].target == before.targets[i].target && after.targets[j].activity.Retrying?;
      assert before.targets[i] in before.targets && after.targets[j] in after.targets;
    }
  }

  lemma FinishTells(s: State, t: State, over: set<nat>, end: SubscriptionEnd)
    requires !s.stopped
    requires t == s.(sessions := t.sessions, subscribers := s.subscribers - over,
                     channels := map n | n in s.channels ::
                       if n in over then FinishChannel(s.channels[n], end, false) else s.channels[n])
    ensures Told(s, t, [])
    ensures forall n :: n in over ==> !Journal.Open(t, n)
  {
    forall n | n in s.subscribers ensures Served(s, t, [], n) {
      if Journal.Open(t, n) {
        assert n !in over;
        assert t.channels[n].traffic.accepted == s.channels[n].traffic.accepted + [];
      }
    }
  }

  lemma EndTells(s: State, id: string, status: HostStatus, t: State)
    requires id in s.sessions && s.sessions[id].info.session.sessionId == id && !s.stopped
    requires t == EndSession(s, id, status) && !t.stopped
    ensures t == s.(sequence := s.sequence + 1, channels := t.channels, subscribers := t.subscribers,
                    sessions := s.sessions - {id})
    ensures Told(s, t, [Goodbye(s.sessions[id].info, id, s.runtime, status)])
    ensures forall n :: n in t.subscribers <==>
              n in s.subscribers && s.subscribers[n].selection.sessions != OneSession(s.sessions[id].info.session)
    ensures forall n :: n in t.subscribers ==> t.subscribers[n] == s.subscribers[n]
  {
    hide Told, NowRetrying, Failed, Emit;
    SameReason(s.runtime, status, id);
    var reference := s.sessions[id].info.session;
    var update := SessionEnded(reference, if NowRetrying(s.runtime, status, id) then SessionProviderFailed else TargetExited);
    var told := Emit(s, update);
    EmitEmitted(s, update);
    var over := set n | n in told.subscribers && told.subscribers[n].selection.sessions == OneSession(reference);
    EmitTells(s, update);
    FinishTells(told, t, over, SessionOver);
    ToldTrans(s, told, t, [NoticeOf(s, update)], []);
    assert [NoticeOf(s, update)] + [] == [Goodbye(s.sessions[id].info, id, s.runtime, status)];
  }

  ghost function Listed<K(!new)>(keys: seq<K>): set<K> {
    set k | k in keys
  }

  ghost predicate EndedAll(s: State, t: State, ids: seq<string>, status: HostStatus)
    requires forall id :: id in ids ==> id in s.sessions
  {
    && t == s.(sequence := s.sequence + |ids|, channels := t.channels, subscribers := t.subscribers,
               sessions := s.sessions - Listed(ids))
    && Told(s, t, Goodbyes(s.sessions, ids, s.runtime, status))
    && (forall n :: n in t.subscribers ==>
          && n in s.subscribers && t.subscribers[n] == s.subscribers[n]
          && forall id :: id in ids ==> s.subscribers[n].selection.sessions != OneSession(s.sessions[id].info.session))
  }

  lemma StoppedEnd(s: State, id: string, status: HostStatus)
    requires s.stopped
    ensures EndSession(s, id, status).stopped
  {
  }

  lemma {:induction false} EndAllTells(s: State, ids: seq<string>, status: HostStatus, t: State)
    requires forall id :: id in ids ==> id in s.sessions && s.sessions[id].info.session.sessionId == id
    requires NoRepeats(ids) && !s.stopped && t == EndSessions(s, ids, status) && !t.stopped
    ensures EndedAll(s, t, ids, status)
    decreases |ids|
  {
    hide Told, EndSession, Goodbye;
    if ids == [] {
      ToldNothing(s, s);
      assert Goodbyes(s.sessions, ids, s.runtime, status) == [];
      assert s.sessions - Listed(ids) == s.sessions;
    } else {
      var front, id := ids[..|ids| - 1], ids[|ids| - 1];
      assert ids == front + [id] && id in ids;
      var mid := EndSessions(s, front, status);
      if mid.stopped { StoppedEnd(mid, id, status); }
      EndAllTells(s, front, status, mid);
      assert id !in Listed(front);
      EndTells(mid, id, status, t);
      EndedMore(s, mid, t, ids, status);
    }
  }

  lemma EndedMore(s: State, mid: State, t: State, ids: seq<string>, status: HostStatus)
    requires ids != [] && forall id :: id in ids ==> id in s.sessions
    requires forall id :: id in ids[..|ids| - 1] ==> id in s.sessions
    requires EndedAll(s, mid, ids[..|ids| - 1], status)
    requires var id := ids[|ids| - 1];
             && id in s.sessions
             && t == mid.(sequence := mid.sequence + 1, channels := t.channels, subscribers := t.subscribers,
                          sessions := mid.sessions - {id})
             && Told(mid, t, [Goodbye(s.sessions[id].info, id, mid.runtime, status)])
             && (forall n :: n in t.subscribers ==>
                   && n in mid.subscribers && t.subscribers[n] == mid.subscribers[n]
                   && t.subscribers[n].selection.sessions != OneSession(s.sessions[id].info.session))
    ensures EndedAll(s, t, ids, status)
  {
    hide Told, Goodbye;
    var front, id := ids[..|ids| - 1], ids[|ids| - 1];
    assert ids == front + [id];
    assert Listed(ids) == Listed(front) + {id};
    assert s.sessions - Listed(front) - {id} == s.sessions - Listed(ids);
    var notices := Goodbyes(s.sessions, front, s.runtime, status);
    var last := Goodbye(s.sessions[id].info, id, s.runtime, status);
    ToldTrans(s, mid, t, notices, [last]);
    assert Goodbyes(s.sessions, ids, s.runtime, status) == notices + [last];
  }

  // ---- sessions start

  lemma HelloIs(info: SessionInfo, keys: seq<TopicRef>)
    ensures Hello(info, keys) == [SessionStarted(info)] + Announce(info, keys)
    ensures NoEnds(Hello(info, keys))
  {
  }

  lemma AddTells(s: State, info: SessionInfo, t: State)
    requires info.providerId in s.catalog && !s.stopped && t == Service.AddSession(s, info).0 && !t.stopped
    ensures t == s.(sequence := t.sequence, channels := t.channels,
                    sessions := s.sessions[info.session.sessionId := FirstSession(info, s.catalog)])
    ensures Told(s, t, Plain(Hello(info, TopicsInOrder(Offered(s.catalog, info.providerId)))))
  {
    hide Told, Emit, EmitAll;
    var keys := KeysOf(info.providerId, s.catalog[info.providerId]);
    assert keys == Offered(s.catalog, info.providerId);
    assert NewTopics(info, keys) == FirstSession(info, s.catalog).topics;
    AddSessionCases(s, info);
    var added := WithSession(s, info);
    var updates := Hello(info, TopicsInOrder(keys));
    HelloIs(info, TopicsInOrder(keys));
    EmitAllCons(added, SessionStarted(info), Announce(info, TopicsInOrder(keys)));
    EmitAllFrame(added, updates);
    QuietTells(s, added);
    EmitAllTells(added, updates);
    ToldTrans(s, added, t, [], Plain(updates));
    assert [] + Plain(updates) == Plain(updates);
  }

  ghost predicate StartedAll(s: State, t: State, infos: map<string, SessionInfo>, ids: seq<string>)
    requires forall id :: id in ids ==> id in infos
  {
    && t == s.(sequence := t.sequence, channels := t.channels, sessions := t.sessions)
    && t.sessions.Keys == s.sessions.Keys + Listed(ids)
    && (forall id :: id in s.sessions ==> t.sessions[id] == s.sessions[id])
    && (forall id :: id in ids && id !in s.sessions ==> t.sessions[id] == FirstSession(infos[id], s.catalog))
    && Told(s, t, Plain(Hellos(s.sessions.Keys, infos, s.catalog, ids)))
  }

  lemma StartedMore(s: State, mid: State, t: State, infos: map<string, SessionInfo>, ids: seq<string>)
    requires ids != [] && (forall id :: id in ids ==> id in infos) && NoRepeats(ids)
    requires StartedAll(s, mid, infos, ids[..|ids| - 1])
    requires var id := ids[|ids| - 1];
             if id in s.sessions then t == mid
             else
               && t == mid.(sequence := t.sequence, channels := t.channels,
                            sessions := mid.sessions[id := FirstSession(infos[id], s.catalog)])
               && Told(mid, t, Plain(Hello(infos[id], TopicsInOrder(Offered(s.catalog, infos[id].providerId)))))
    ensures StartedAll(s, t, infos, ids)
  {
    hide Told, FirstSession, Hello, Offered, TopicsInOrder, Hellos;
    var front, id := ids[..|ids| - 1], ids[|ids| - 1];
    assert ids == front + [id] && id in ids && id !in front;
    assert Listed(ids) == Listed(front) + {id};
    var before := Hellos(s.sessions.Keys, infos, s.catalog, front);
    HellosMore(s.sessions.Keys, infos, s.catalog, ids);
    if id !in s.sessions {
      var more := Hello(infos[id], TopicsInOrder(Offered(s.catalog, infos[id].providerId)));
      ToldMore(s, mid, t, before, more);
    }
  }

  lemma HellosMore(known: set<string>, infos: map<string, SessionInfo>, catalog: Catalog, ids: seq<string>)
    requires ids != [] && ids[|ids| - 1] in infos
    ensures var last := ids[|ids| - 1];
            var before := Hellos(known, infos, catalog, ids[..|ids| - 1]);
            Hellos(known, infos, catalog, ids)
            == if last in known then before else before + Hello(infos[last], TopicsInOrder(Offered(catalog, infos[last].providerId)))
  {
    hide Hello, Offered, TopicsInOrder;
    assert Hellos(known, infos, catalog, ids[..|ids| - 1]) + [] == Hellos(known, infos, catalog, ids[..|ids| - 1]);
  }

  lemma ToldMore(s: State, mid: State, t: State, a: seq<SubscriptionUpdate>, b: seq<SubscriptionUpdate>)
    requires Told(s, mid, Plain(a)) && Told(mid, t, Plain(b))
    ensures Told(s, t, Plain(a + b))
  {
    hide Told;
    assert Plain(a + b) == Plain(a) + Plain(b);
    ToldTrans(s, mid, t, Plain(a), Plain(b));
  }

  lemma StoppedAdd(s: State, info: SessionInfo)
    requires s.stopped
    ensures Service.AddSession(s, info).0.stopped
  {
  }

  lemma {:induction false} AddAllTells(s: State, infos: map<string, SessionInfo>, ids: seq<string>, t: State)
    requires forall id :: id in infos ==> infos[id].session.sessionId == id && infos[id].providerId in s.catalog
    requires (forall id :: id in ids ==> id in infos) && NoRepeats(ids)
    requires !s.stopped && t == AddSessions(s, infos, ids).0 && !t.stopped
    ensures StartedAll(s, t, infos, ids)
    ensures AddSessions(s, infos, ids).1.None?
    decreases |ids|
  {
    hide Told, FirstSession, Hello;
    if ids == [] {
      ToldNothing(s, s);
      assert Plain([]) == [];
    } else {
      var front, id := ids[..|ids| - 1], ids[|ids| - 1];
      assert ids == front + [id] && id in ids && id !in front;
      var (mid, e) := AddSessions(s, infos, front);
      if mid.stopped { StoppedAdd(mid, infos[id]); }
      AddAllTells(s, infos, front, mid);
      assert id in mid.sessions.Keys <==> id in s.sessions.Keys;
      if id !in s.sessions {
        AddTells(mid, infos[id], t);
        AddSessionCases(mid, infos[id]);
      }
      StartedMore(s, mid, t, infos, ids);
    }
  }

  // ---- the whole report

  lemma TickTells(s: State, status: HostStatus, t: State)
    requires !s.stopped && t == Advance(s.(runtime := status)).0 && !t.stopped
    ensures t == s.(runtime := status, sequence := s.sequence + 1) && Told(s, t, [Tick])
  {
    forall n | n in s.subscribers ensures Served(s, t, [Tick], n) {
      assert [Tick][..0] == [];
      assert Heard(s.subscribers[n].selection, [], s.runId, s.sequence) == [];
      assert t.channels == s.channels;
    }
  }

  /** Settling changes a topic only with its demand: what ends up demanded is as it was, or
      has resumed in a new empty generation, and what ends up released is idle and empty. */
  predicate SettledAs(before: Topic, after: Topic, now: nat) {
    && after.state.source == before.state.source
    && if after.demanded then
         after == if before.demanded then before
                  else Topic(TopicSnapshot(before.state.source, before.state.generation + 1, Initializing, None), true,
                             before.epoch + 1, Some(now + 5000))
       else after.state.health == Idle && after.state.snapshot.None? && after.deadline.None?
  }

  ghost predicate SettledFrom(before: Session, after: Session, now: nat) {
    && after.info == before.info && after.topics.Keys == before.topics.Keys
    && forall k :: k in before.topics ==> SettledAs(before.topics[k], after.topics[k], now)
  }

  /** The sessions of a report, before demand settles: exactly those it describes, old ones as
      they were and new ones with every topic in its first state. */
  ghost predicate Reported(before: Sessions, infos: map<string, SessionInfo>, catalog: Catalog, after: Sessions) {
    && after.Keys == infos.Keys
    && (forall id :: id in after && id in before ==> after[id] == before[id])
    && (forall id :: id in after && id !in before ==> after[id] == FirstSession(infos[id], catalog))
  }

  /** What a report publishes before demand settles: who went, who came, and one number that tells nothing. */
  function ReportNews(s: State, status: HostStatus, infos: map<string, SessionInfo>): seq<Notice> {
    Goodbyes(s.sessions, IdsInOrder(s.sessions.Keys - infos.Keys), s.runtime, status)
    + Plain(Hellos(s.sessions.Keys * infos.Keys, infos, s.catalog, IdsInOrder(infos.Keys))) + [Tick]
  }

  /** Subscribers stay as they were, and none of a session that went is left. */
  ghost predicate NobodyLeft(s: State, t: State, infos: map<string, SessionInfo>) {
    && (forall n :: n in t.subscribers ==> n in s.subscribers && t.subscribers[n] == s.subscribers[n])
    && (forall n, id :: n in t.subscribers && id in s.sessions && id !in infos ==>
          t.subscribers[n].selection.sessions != OneSession(s.sessions[id].info.session))
  }

  ghost predicate ReportLeaves(s: State, t: State, status: HostStatus, now: nat, infos: map<string, SessionInfo>,
                               sessions: Sessions, flips: seq<Notice>)
  {
    && Describe(s, status.targets, infos)
    && t.runtime == status
    && Reported(s.sessions, infos, s.catalog, sessions)
    && t.sessions.Keys == infos.Keys
    && (forall id :: id in infos ==> SettledFrom(sessions[id], t.sessions[id], now))
    && Told(s, t, ReportNews(s, status, infos) + flips)
    && Flips(flips)
    && NobodyLeft(s, t, infos)
  }

  lemma SettledFromBy(s: State, t: State, now: nat, id: string, texts: set<JsonPayload>)
    requires Steady(s, texts) && !s.stopped && t == Settle(s, now) && !t.stopped && id in s.sessions
    ensures id in t.sessions && SettledFrom(s.sessions[id], t.sessions[id], now)
  {
    hide Settle, Steady, SettledAs;
    SettleSteady(s, now, texts);
    assert id in t.sessions.Keys;
    SameTopics(s, t, id, texts);
    forall k | k in s.sessions[id].topics
      ensures k in t.sessions[id].topics && SettledAs(s.sessions[id].topics[k], t.sessions[id].topics[k], now)
    {
      assert k in t.sessions[id].topics.Keys;
      SettledTopic(s, t, now, Place(id, k), texts);
    }
  }

  lemma SameTopics(s: State, t: State, id: string, texts: set<JsonPayload>)
    requires Steady(s, texts) && Steady(t, texts) && t.catalog == s.catalog
    requires id in s.sessions && id in t.sessions && t.sessions[id].info == s.sessions[id].info
    ensures s.sessions[id].topics.Keys == t.sessions[id].topics.Keys
  {
    hide Synced, Cached, Bounded;
    assert SessionShape(s.sessions[id], id, s.catalog, s.runId);
    assert SessionShape(t.sessions[id], id, t.catalog, t.runId);
    assert forall k :: k in s.sessions[id].topics <==> k in t.sessions[id].topics;
  }

  lemma SettledTopic(s: State, t: State, now: nat, p: Place, texts: set<JsonPayload>)
    requires Steady(s, texts) && Steady(t, texts) && Frame(s, t)
    requires !s.stopped && t == Settle(s, now) && !t.stopped && Placed(s.sessions, p)
    ensures Placed(t.sessions, p) && SettledAs(At(s.sessions, p), At(t.sessions, p), now)
  {
    hide Settle, Synced, Cached, Bounded;
    Settles.SettleAt(s, now, p, t, texts);
    ShapeAt(s.sessions, s.catalog, s.runId, p);
    ShapeAt(t.sessions, t.catalog, t.runId, p);
  }

  lemma StoppedAll(s: State, infos: map<string, SessionInfo>, ids: seq<string>)
    requires s.stopped && forall id :: id in ids ==> id in infos
    ensures AddSessions(s, infos, ids).0.stopped
  {
    hide AddSession;
    if ids != [] {
      StoppedAll(s, infos, ids[..|ids| - 1]);
      StoppedAdd(AddSessions(s, infos, ids[..|ids| - 1]).0, infos[ids[|ids| - 1]]);
    }
  }

  /** The sessions that go: those the report no longer describes. */
  lemma GoneEnd(s: State, infos: map<string, SessionInfo>, status: HostStatus, ended: State, texts: set<JsonPayload>)
    requires Steady(s, texts) && !s.stopped && !ended.stopped
    requires ended == EndSessions(s, IdsInOrder(s.sessions.Keys - infos.Keys), status)
    ensures EndedAll(s, ended, IdsInOrder(s.sessions.Keys - infos.Keys), status)
    ensures Told(s, ended, Goodbyes(s.sessions, IdsInOrder(s.sessions.Keys - infos.Keys), s.runtime, status))
    ensures ended.catalog == s.catalog && ended.runId == s.runId && ended.runtime == s.runtime
    ensures Steady(ended, texts)
    ensures ended.sessions.Keys == s.sessions.Keys * infos.Keys
    ensures forall id :: id in ended.sessions ==> ended.sessions[id] == s.sessions[id]
  {
    hide EndSessions, Synced, Cached, Bounded, Told, Goodbyes;
    var gone := IdsInOrder(s.sessions.Keys - infos.Keys);
    forall id | id in gone ensures id in s.sessions && s.sessions[id].info.session.sessionId == id {
      assert SessionShape(s.sessions[id], id, s.catalog, s.runId);
    }
    EndAllTells(s, gone, status, ended);
    EndSessionsSteady(s, gone, status, texts);
    assert Listed(gone) == s.sessions.Keys - infos.Keys;
  }

  lemma NewStart(s: State, ended: State, infos: map<string, SessionInfo>, added: State, texts: set<JsonPayload>)
    requires Steady(ended, texts) && !ended.stopped && !added.stopped && Addable(infos, ended.catalog, ended.runId)
    requires ended.catalog == s.catalog && ended.sessions.Keys == s.sessions.Keys * infos.Keys
    requires forall id :: id in ended.sessions ==> ended.sessions[id] == s.sessions[id]
    requires added == AddSessions(ended, infos, IdsInOrder(infos.Keys)).0
    ensures AddSessions(ended, infos, IdsInOrder(infos.Keys)).1.None?
    ensures StartedAll(ended, added, infos, IdsInOrder(infos.Keys)) && Steady(added, texts)
    ensures Told(ended, added, Plain(Hellos(s.sessions.Keys * infos.Keys, infos, s.catalog, IdsInOrder(infos.Keys))))
    ensures added.subscribers == ended.subscribers
    ensures Reported(s.sessions, infos, s.catalog, added.sessions)
  {
    hide AddSessions, Steady, StartedAll, Reported, Addable;
    var ids := IdsInOrder(infos.Keys);
    AddableFiled(infos, ended.catalog, ended.runId);
    AddAllTells(ended, infos, ids, added);
    AddSessionsSteady(ended, infos, ids, added, texts);
    StartedReported(s, ended, infos, ids, added);
    StartedTells(ended, added, infos, ids);
  }

  lemma StartedTells(s: State, t: State, infos: map<string, SessionInfo>, ids: seq<string>)
    requires (forall id :: id in ids ==> id in infos) && StartedAll(s, t, infos, ids)
    ensures Told(s, t, Plain(Hellos(s.sessions.Keys, infos, s.catalog, ids))) && t.subscribers == s.subscribers
  {
    hide Told, Hellos, Plain;
  }

  lemma AddableFiled(infos: map<string, SessionInfo>, catalog: Catalog, runId: string)
    requires Addable(infos, catalog, runId)
    ensures forall id :: id in infos ==> infos[id].session.sessionId == id && infos[id].providerId in catalog
  {
  }

  lemma StartedReported(s: State, ended: State, infos: map<string, SessionInfo>, ids: seq<string>, added: State)
    requires (forall id :: id in ids <==> id in infos) && StartedAll(ended, added, infos, ids)
    requires ended.catalog == s.catalog && ended.sessions.Keys == s.sessions.Keys * infos.Keys
    requires forall id :: id in ended.sessions ==> ended.sessions[id] == s.sessions[id]
    ensures Reported(s.sessions, infos, s.catalog, added.sessions)
  {
    hide Told, FirstSession, Hellos;
    assert Listed(ids) == infos.Keys;
    assert added.sessions.Keys == infos.Keys;
    forall id | id in added.sessions && id !in s.sessions ensures added.sessions[id] == FirstSession(infos[id], s.catalog) {
      assert id in added.sessions.Keys && id in ids;
    }
    forall id | id in added.sessions && id in s.sessions ensures added.sessions[id] == s.sessions[id] {
      assert id in added.sessions.Keys && id in ended.sessions.Keys;
    }
  }

  lemma SettleRuns(s: State, now: nat)
    requires !Settle(s, now).stopped
    ensures !s.stopped
  {
    if s.stopped { SettleStopped(s, now); }
  }

  /** The law of a host report, for every service state and every honest report. Afterwards
      the sessions are exactly the observed ones: a known one as it was, a new one as the last
      target that observes it describes it, with every topic of its provider. Each session
      that went was announced as ended, with the reason that the two reports give, and each
      new one as started with its topics; then only flips of demand. No subscriber of a
      session that went remains. */
  lemma ReportedSessions(s: State, status: HostStatus, now: nat, t: State, texts: set<JsonPayload>)
    requires Inv(s, texts) && HonestStatus(status, s.catalog) && !s.stopped && s.runtime != status
    requires t == SyncRuntime(s, status, now).0 && !t.stopped
    ensures exists infos, sessions, flips :: ReportLeaves(s, t, status, now, infos, sessions, flips)
  {
    hide Inv, Steady, EndSessions, AddSessions, Incoming, ReportLeaves, Settle, Advance;
    InvSteady(s, texts);
    var infos := Incoming(s, status.targets);
    IncomingOk(s, status.targets);
    var ended := EndSessions(s, IdsInOrder(s.sessions.Keys - infos.Keys), status);
    var added := AddSessions(ended, infos, IdsInOrder(infos.Keys)).0;
    var ticked := Advance(added.(runtime := status)).0;
    ReportErrs(s, status, now, t, texts);
    SettleRuns(ticked, now);
    ReportStops(ended, infos, IdsInOrder(infos.Keys), added, status, ticked);
    var flips := ReportSteps(s, status, now, infos, ended, added, ticked, t, texts);
  }

  lemma InvSteady(s: State, texts: set<JsonPayload>)
    requires Inv(s, texts)
    ensures Steady(s, texts)
  {
  }

  lemma ReportErrs(s: State, status: HostStatus, now: nat, t: State, texts: set<JsonPayload>)
    requires Inv(s, texts) && HonestStatus(status, s.catalog) && !s.stopped && s.runtime != status
    requires t == SyncRuntime(s, status, now).0
    ensures var infos := Incoming(s, status.targets);
            var ended := EndSessions(s, IdsInOrder(s.sessions.Keys - infos.Keys), status);
            var added := AddSessions(ended, infos, IdsInOrder(infos.Keys)).0;
            t == Settle(Advance(added.(runtime := status)).0, now)
  {
    hide Inv, EndSessions, AddSessions, Incoming, Settle, Advance;
    SyncInv(s, status, now, texts);
  }

  lemma ReportStops(ended: State, infos: map<string, SessionInfo>, ids: seq<string>, added: State, status: HostStatus,
                    ticked: State)
    requires (forall id :: id in ids ==> id in infos) && added == AddSessions(ended, infos, ids).0
    requires ticked == Advance(added.(runtime := status)).0 && !ticked.stopped
    ensures !ended.stopped && !added.stopped
  {
    hide AddSessions, Advance;
    StoppedTick(added, status);
    if ended.stopped { StoppedAll(ended, infos, ids); }
  }

  lemma StoppedTick(s: State, status: HostStatus)
    ensures s.stopped ==> Advance(s.(runtime := status)).0.stopped
  {
  }

  lemma ReportSteps(s: State, status: HostStatus, now: nat, infos: map<string, SessionInfo>, ended: State, added: State,
                    ticked: State, t: State, texts: set<JsonPayload>) returns (flips: seq<Notice>)
    requires Steady(s, texts) && !s.stopped && !t.stopped && !ended.stopped && !added.stopped && !ticked.stopped
    requires infos == Incoming(s, status.targets) && Addable(infos, s.catalog, s.runId)
    requires ended == EndSessions(s, IdsInOrder(s.sessions.Keys - infos.Keys), status)
    requires added == AddSessions(ended, infos, IdsInOrder(infos.Keys)).0
    requires ticked == Advance(added.(runtime := status)).0 && t == Settle(ticked, now)
    ensures ReportLeaves(s, t, status, now, infos, added.sessions, flips)
  {
    hide Steady, EndSessions, AddSessions, Incoming, Settle, Advance, Describe, Told, Goodbyes, Hellos, Reported,
         SettledFrom, Flips, Addable, Plain, Sorted;
    IncomingDescribes(s, status.targets);
    ReportTells(s, status, infos, ended, added, ticked, texts);
    flips := SettleTells(ticked, now);
    SettleSteady(ticked, now, texts);
    AllSettled(ticked, t, now, texts);
    ReportedKeys(s, infos, added.sessions);
    ToldTrans(s, ticked, t, ReportNews(s, status, infos), flips);
  }

  lemma ReportTells(s: State, status: HostStatus, infos: map<string, SessionInfo>, ended: State, added: State,
                    ticked: State, texts: set<JsonPayload>)
    requires Steady(s, texts) && !s.stopped && !ended.stopped && !added.stopped && !ticked.stopped
    requires infos == Incoming(s, status.targets) && Addable(infos, s.catalog, s.runId)
    requires ended == EndSessions(s, IdsInOrder(s.sessions.Keys - infos.Keys), status)
    requires added == AddSessions(ended, infos, IdsInOrder(infos.Keys)).0
    requires ticked == Advance(added.(runtime := status)).0
    ensures Steady(ticked, texts) && Told(s, ticked, ReportNews(s, status, infos))
    ensures ticked.runtime == status && ticked.sessions == added.sessions
    ensures Reported(s.sessions, infos, s.catalog, added.sessions)
    ensures NobodyLeft(s, ticked, infos)
  {
    hide Steady, EndSessions, AddSessions, Incoming, Advance, Told, Goodbyes, Hellos, Reported, Addable, Plain, Sorted,
         EndedAll, StartedAll;
    GoneEnd(s, infos, status, ended, texts);
    NewStart(s, ended, infos, added, texts);
    TickTells(added, status, ticked);
    TickedSteady(added, status, ticked, texts);
    ToldThree(s, ended, added, ticked,
              Goodbyes(s.sessions, IdsInOrder(s.sessions.Keys - infos.Keys), s.runtime, status),
              Plain(Hellos(s.sessions.Keys * infos.Keys, infos, s.catalog, IdsInOrder(infos.Keys))), [Tick]);
    NoneLeft(s, ended, IdsInOrder(s.sessions.Keys - infos.Keys), infos, status);
  }

  lemma AllSettled(s: State, t: State, now: nat, texts: set<JsonPayload>)
    requires Steady(s, texts) && !s.stopped && t == Settle(s, now) && !t.stopped
    ensures forall id :: id in s.sessions ==> id in t.sessions && SettledFrom(s.sessions[id], t.sessions[id], now)
  {
    hide Steady, Settle, SettledFrom;
    forall id | id in s.sessions ensures id in t.sessions && SettledFrom(s.sessions[id], t.sessions[id], now) {
      SettledFromBy(s, t, now, id, texts);
    }
  }

  lemma NoneLeft(s: State, ended: State, gone: seq<string>, infos: map<string, SessionInfo>, status: HostStatus)
    requires forall id :: id in gone <==> id in s.sessions && id !in infos
    requires EndedAll(s, ended, gone, status)
    ensures NobodyLeft(s, ended, infos)
  {
    hide Told, Goodbyes;
  }

  lemma ToldThree(s: State, a: State, b: State, c: State, x: seq<Notice>, y: seq<Notice>, z: seq<Notice>)
    requires Told(s, a, x) && Told(a, b, y) && Told(b, c, z)
    ensures Told(s, c, x + y + z)
  {
    hide Told;
    ToldTrans(s, a, b, x, y);
    ToldTrans(s, b, c, x + y, z);
  }

  lemma ReportedKeys(s: State, infos: map<string, SessionInfo>, sessions: Sessions)
    requires Reported(s.sessions, infos, s.catalog, sessions)
    ensures sessions.Keys == infos.Keys
  {
  }

  lemma TickedSteady(s: State, status: HostStatus, t: State, texts: set<JsonPayload>)
    requires Steady(s, texts) && t == Advance(s.(runtime := status)).0
    ensures Steady(t, texts)
  {
    AdvanceSteady(s, status, texts);
  }

  // ---- the subscribers of a session that ends

  /** A subscriber of exactly the ending session is told of the end when that fits beside all
      that waits, and then its stream is over; otherwise it has lagged. Nobody else is ended. */
  lemma EndedByRoom(s: State, id: string, status: HostStatus, n: nat, t: State, texts: set<JsonPayload>)
    requires Inv(s, texts) && id in s.sessions && n in s.subscribers && t == EndSession(s, id, status) && !t.stopped
    requires s.subscribers[n].selection.sessions == OneSession(s.sessions[id].info.session)
    requires WantsProvider(s.subscribers[n].selection, s.sessions[id].info)
    ensures n !in t.subscribers && n in s.channels && n in t.channels
    ensures var item := Framing(s.runId, s.sequence + 1, Goodbye(s.sessions[id].info, id, s.runtime, status).update);
            var before, after := s.channels[n].traffic, t.channels[n].traffic;
            if Total(before.queue.updates) + ReplySize(item) <= s.messageBytes then
              && after.accepted == before.accepted + [item] && after.queue.terminal == Some(SessionOver)
              && Waiting(after.queue) == Waiting(before.queue) + [item]
            else
              && after.accepted == before.accepted
              && after.queue.terminal
                 == Some(ResyncRequired(Lagged(if ReplySize(item) > s.messageBytes then MessageBytes else QueuedBytes)))
  {
    hide Inv, NowRetrying, Failed, FinishChannel, OfferChannel, Waiting, Emit, Total, ReplySize, Synced, Public;
    Settles.LiveHandle(s, n, texts);
    Settles.SessionFiled(s, id, texts);
    SameReason(s.runtime, status, id);
    Settles.EndAdvances(s, id, status);
    var update := Goodbye(s.sessions[id].info, id, s.runtime, status).update;
    var told := Emit(s, update);
    GoodbyeReaches(s, id, n, status);
    InvSynced(s, texts);
    EmittedByRoom(s, update, n, texts);
    EndTells(s, id, status, t);
    EmitShape(s, update);
    FinishedAfter(told.channels[n]);
    EndFinishes(s, id, status, n, told, t);
  }

  lemma GoodbyeReaches(s: State, id: string, n: nat, status: HostStatus)
    requires id in s.sessions && n in s.subscribers && s.sessions[id].info.session.sessionId == id
    requires s.subscribers[n].selection.sessions == OneSession(s.sessions[id].info.session)
    requires WantsProvider(s.subscribers[n].selection, s.sessions[id].info)
    ensures var update := Goodbye(s.sessions[id].info, id, s.runtime, status).update;
            && update.SessionEnded? && update.session.sessionId in s.sessions
            && Reaches(s.subscribers[n].selection, NoticeOf(s, update))
  {
    hide Failed;
  }

  lemma EndFinishes(s: State, id: string, status: HostStatus, n: nat, told: State, t: State)
    requires id in s.sessions && t == EndSession(s, id, status)
    requires told == Emit(s, Goodbye(s.sessions[id].info, id, s.runtime, status).update)
    requires told.subscribers == s.subscribers && n in told.channels
    requires n in s.subscribers && s.subscribers[n].selection.sessions == OneSession(s.sessions[id].info.session)
    ensures n in t.channels && t.channels[n] == FinishChannel(told.channels[n], SessionOver, false)
    ensures n !in t.subscribers
  {
    hide Emit, Failed, NowRetrying, FinishChannel;
    SameReason(s.runtime, status, id);
  }

  lemma InvSynced(s: State, texts: set<JsonPayload>)
    requires Inv(s, texts)
    ensures Synced(s, Public(s.sessions), texts)
  {
  }

  lemma FinishedAfter(ch: Channel)
    ensures var after := FinishChannel(ch, SessionOver, false).traffic;
            && after.accepted == ch.traffic.accepted && Waiting(after.queue) == Waiting(ch.traffic.queue)
            && after.queue.terminal == (if Ended(ch.traffic.queue) then ch.traffic.queue.terminal else Some(SessionOver))
  {
  }

  // ---- a report runs out of sequence numbers only

  lemma EndRuns(s: State, id: string, status: HostStatus)
    requires !s.stopped && s.sequence < U64_MAX
    ensures !EndSession(s, id, status).stopped && EndSession(s, id, status).sequence <= s.sequence + 1
  {
    hide NowRetrying;
    if id in s.sessions {
      var update := SessionEnded(s.sessions[id].info.session,
                                 if NowRetrying(s.runtime, status, id) then SessionProviderFailed else TargetExited);
      EmitShape(s, update);
    }
  }

  lemma {:induction false} EndAllRuns(s: State, ids: seq<string>, status: HostStatus)
    requires !s.stopped && s.sequence + |ids| <= U64_MAX
    ensures !EndSessions(s, ids, status).stopped && EndSessions(s, ids, status).sequence <= s.sequence + |ids|
    decreases |ids|
  {
    hide EndSession;
    if ids != [] {
      EndAllRuns(s, ids[..|ids| - 1], status);
      EndRuns(EndSessions(s, ids[..|ids| - 1], status), ids[|ids| - 1], status);
    }
  }

  lemma {:induction false} KeysCount(providerId: string, caps: map<CapabilityKey, Capability>)
    ensures |KeysOf(providerId, caps)| == |caps|
    decreases |caps|
  {
    if caps == map[] {
      assert KeysOf(providerId, caps) == {};
    } else {
      var c :| c in caps;
      var rest := caps - {c};
      KeysCount(providerId, rest);
      var key := TopicRef(providerId, c.topic, c.schemaVersion);
      assert c == CapabilityKey(key.topic, key.schemaVersion);
      assert KeysOf(providerId, caps) == KeysOf(providerId, rest) + {key};
      assert key !in KeysOf(providerId, rest) by {
        forall d | d in rest ensures TopicRef(providerId, d.topic, d.schemaVersion) != key {
          assert d == CapabilityKey(d.topic, d.schemaVersion);
        }
      }
      assert |caps| == |rest| + 1 by { assert caps.Keys == rest.Keys + {c}; assert |caps.Keys| == |caps| && |rest.Keys| == |rest|; }
    }
  }

  lemma EnumeratesCount<K(!new)>(keys: seq<K>, s: set<K>)
    requires Enumerates(keys, s)
    ensures |keys| == |s|
    decreases |keys|
  {
    if keys == [] {
      assert s == {};
    } else {
      var last := keys[|keys| - 1];
      assert last in keys;
      var front := keys[..|keys| - 1];
      assert keys == front + [last];
      EnumeratesCount(front, s - {last});
    }
  }

  lemma HelloCount(info: SessionInfo, catalog: Catalog)
    requires info.providerId in catalog
    ensures |Hello(info, TopicsInOrder(Offered(catalog, info.providerId)))| == 1 + |catalog[info.providerId]|
  {
    var caps := catalog[info.providerId];
    assert Offered(catalog, info.providerId) == KeysOf(info.providerId, caps);
    KeysCount(info.providerId, caps);
    EnumeratesCount(TopicsInOrder(KeysOf(info.providerId, caps)), KeysOf(info.providerId, caps));
  }

  lemma AddRuns(s: State, info: SessionInfo)
    requires !s.stopped && info.providerId in s.catalog
    requires s.sequence + |Hello(info, TopicsInOrder(Offered(s.catalog, info.providerId)))| <= U64_MAX
    ensures !Service.AddSession(s, info).0.stopped
  {
    hide Hello, EmitAll;
    HelloCount(info, s.catalog);
    AddSessionCases(s, info);
    var keys := TopicsInOrder(KeysOf(info.providerId, s.catalog[info.providerId]));
    assert KeysOf(info.providerId, s.catalog[info.providerId]) == Offered(s.catalog, info.providerId);
    HelloIs(info, keys);
    EmitAllCons(WithSession(s, info), SessionStarted(info), Announce(info, keys));
    Discards.EmitsWithRoom(WithSession(s, info), Hello(info, keys));
  }

  lemma {:induction false} AddAllRuns(s: State, infos: map<string, SessionInfo>, ids: seq<string>)
    requires forall id :: id in infos ==> infos[id].session.sessionId == id && infos[id].providerId in s.catalog
    requires (forall id :: id in ids ==> id in infos) && NoRepeats(ids)
    requires !s.stopped && s.sequence + |Hellos(s.sessions.Keys, infos, s.catalog, ids)| <= U64_MAX
    ensures !AddSessions(s, infos, ids).0.stopped
    decreases |ids|
  {
    hide Hello, StartedAll, Service.AddSession;
    if ids != [] {
      var front, id := ids[..|ids| - 1], ids[|ids| - 1];
      assert ids == front + [id] && id in ids && id !in front;
      AddAllRuns(s, infos, front);
      var mid := AddSessions(s, infos, front).0;
      AddAllTells(s, infos, front, mid);
      AddedUses(s, mid, infos, front);
      StartedIds(s, mid, infos, front, id);
      if id !in s.sessions {
        AddRuns(mid, infos[id]);
      }
    }
  }

  lemma StartedIds(s: State, t: State, infos: map<string, SessionInfo>, ids: seq<string>, id: string)
    requires (forall n :: n in ids ==> n in infos) && StartedAll(s, t, infos, ids) && id !in ids
    ensures (id in t.sessions <==> id in s.sessions) && t.catalog == s.catalog
  {
    hide Told, Hellos;
    assert id in t.sessions.Keys <==> id in s.sessions.Keys;
  }

  lemma ToldUses(s: State, t: State, notices: seq<Notice>)
    requires Told(s, t, notices)
    ensures t.sequence == s.sequence + |notices|
  {
  }

  /** A report leaves the service running while sequence numbers are left for each session
      that goes, each that comes with its topics and one more, and counters then for settling. */
  lemma ReportRunsOn(s: State, status: HostStatus, now: nat, infos: map<string, SessionInfo>, texts: set<JsonPayload>)
    requires Inv(s, texts) && HonestStatus(status, s.catalog) && !s.stopped && s.runtime != status
    requires Describe(s, status.targets, infos)
    requires s.sequence + |s.sessions.Keys - infos.Keys|
             + |Hellos(s.sessions.Keys * infos.Keys, infos, s.catalog, IdsInOrder(infos.Keys))| < U64_MAX
    ensures exists ticked: State :: !ticked.stopped && SyncRuntime(s, status, now).0 == Settle(ticked, now)
              && Reported(s.sessions, infos, s.catalog, ticked.sessions)
              && ticked.sequence
                 == s.sequence + |s.sessions.Keys - infos.Keys|
                    + |Hellos(s.sessions.Keys * infos.Keys, infos, s.catalog, IdsInOrder(infos.Keys))| + 1
  {
    hide Inv, Steady, EndSessions, AddSessions, Incoming, Settle, Advance, Hellos, Told, Reported, StartedAll, Addable, Describe;
    InvSteady(s, texts);
    IncomingDescribes(s, status.targets);
    DescribedOnce(s, status.targets, infos, Incoming(s, status.targets));
    IncomingOk(s, status.targets);
    var gone, ids := IdsInOrder(s.sessions.Keys - infos.Keys), IdsInOrder(infos.Keys);
    EnumeratesCount(gone, s.sessions.Keys - infos.Keys);
    EndAllRuns(s, gone, status);
    var ended := EndSessions(s, gone, status);
    GoneEnd(s, infos, status, ended, texts);
    AddableFiled(infos, s.catalog, s.runId);
    AddAllRuns(ended, infos, ids);
    var added := AddSessions(ended, infos, ids).0;
    NewStart(s, ended, infos, added, texts);
    AddedUses(ended, added, infos, ids);
    var ticked := Advance(added.(runtime := status)).0;
    AdvanceRuns(added, status);
    ReportErrs(s, status, now, SyncRuntime(s, status, now).0, texts);
  }

  lemma AddedUses(s: State, t: State, infos: map<string, SessionInfo>, ids: seq<string>)
    requires (forall id :: id in ids ==> id in infos) && StartedAll(s, t, infos, ids)
    ensures t.sequence == s.sequence + |Hellos(s.sessions.Keys, infos, s.catalog, ids)|
  {
    hide Hellos, Told;
    ToldUses(s, t, Plain(Hellos(s.sessions.Keys, infos, s.catalog, ids)));
  }

  lemma AdvanceRuns(s: State, status: HostStatus)
    requires !s.stopped && s.sequence < U64_MAX
    ensures Advance(s.(runtime := status)).0 == s.(runtime := status, sequence := s.sequence + 1)
  {
  }
}
