/** What the service publishes, subscriber by subscriber: every operation's updates as a
    list of notices, and which of them each open subscription takes in. */
module Journal {
  import opened Wire
  import opened WireSize
  import opened Selecting
  import opened SubscriptionQueue
  import opened Views
  import opened Service
  import opened Streams
  import opened Invariant

  // ---- notices

  /** One sequence number of the service: an update, with the metadata of the session that
      it ends, or a number that was used without telling anyone. */
  datatype Notice = Notice(update: SubscriptionUpdate, ending: Option<SessionInfo>) | Tick

  function Plain(updates: seq<SubscriptionUpdate>): (r: seq<Notice>)
    ensures |r| == |updates| && forall i :: 0 <= i < |r| ==> r[i] == Notice(updates[i], None)
  {
    seq(|updates|, i requires 0 <= i < |updates| => Notice(updates[i], None))
  }

  predicate Wants(selection: Selection, session: SessionRef) {
    selection.sessions == AllSessions || selection.sessions == OneSession(session)
  }

  predicate WantsProvider(selection: Selection, info: SessionInfo) {
    Wants(selection, info.session) && exists t :: t in selection.topics && t.providerId == info.providerId
  }

  /** Whom a notice is for: sessions by the provider of a selected topic, topics and events
      by the topic itself, and only within the selected sessions. */
  predicate Reaches(selection: Selection, notice: Notice) {
    notice.Notice? &&
    match notice.update
    case SessionStarted(info) => WantsProvider(selection, info)
    case SessionChanged(info) => WantsProvider(selection, info)
    case SessionEnded(_, _) => notice.ending.Some? && WantsProvider(selection, notice.ending.value)
    case TopicReset(source, _, _) => Wants(selection, source.session) && source.topic in selection.topics
    case TopicChanged(topic) => Wants(selection, topic.source.session) && topic.source.topic in selection.topics
    case Event(event) =>
      Wants(selection, event.metadata.source.session) && event.metadata.source.topic in selection.topics
  }

  /** The items that a subscriber takes in: each notice for it, in order, at its own cursor. */
  function Heard(selection: Selection, notices: seq<Notice>, runId: string, sequence: nat): seq<SubscriptionItem> {
    if notices == [] then []
    else
      var last := notices[|notices| - 1];
      Heard(selection, notices[..|notices| - 1], runId, sequence)
      + if Reaches(selection, last) then [Framing(runId, sequence + |notices|, last.update)] else []
  }

  predicate Open(s: State, n: nat) {
    n in s.channels && !Ended(s.channels[n].traffic.queue)
  }

  /** A subscriber whose stream is still open afterwards was served all along, and took in
      exactly the notices for it. */
  ghost predicate Served(s: State, t: State, notices: seq<Notice>, n: nat)
    requires n in s.subscribers
  {
    Open(t, n) ==>
      && n in t.subscribers && t.subscribers[n] == s.subscribers[n]
      && n in s.channels
      && (s.subscribers[n].active ==>
            t.channels[n].traffic.accepted
            == s.channels[n].traffic.accepted + Heard(s.subscribers[n].selection, notices, s.runId, s.sequence))
  }

  /** One state leads to another by publishing exactly these notices. */
  ghost predicate Told(s: State, t: State, notices: seq<Notice>) {
    && !s.stopped && t.runId == s.runId
    && t.sequence == s.sequence + |notices|
    && t.channels.Keys == s.channels.Keys
    && (forall n :: Open(t, n) ==> Open(s, n))
    && forall n :: n in s.subscribers ==> Served(s, t, notices, n)
  }

  lemma ToldNothing(s: State, t: State)
    requires !s.stopped && t.runId == s.runId && t.sequence == s.sequence && t.channels == s.channels
    requires forall n :: n in s.subscribers && Open(s, n) ==> n in t.subscribers && t.subscribers[n] == s.subscribers[n]
    ensures Told(s, t, [])
  {
    forall n | n in s.subscribers ensures Served(s, t, [], n) {
      if Open(t, n) {
        assert t.channels[n].traffic.accepted == s.channels[n].traffic.accepted + [];
      }
    }
  }

  lemma {:induction false} HeardJoin(selection: Selection, a: seq<Notice>, b: seq<Notice>, runId: string, sequence: nat)
    ensures Heard(selection, a + b, runId, sequence)
            == Heard(selection, a, runId, sequence) + Heard(selection, b, runId, sequence + |a|)
  {
    if b == [] {
      assert a + b == a;
    } else {
      var front := b[..|b| - 1];
      HeardJoin(selection, a, front, runId, sequence);
      assert (a + b)[..|a + b| - 1] == a + front;
    }
  }

  lemma ToldTrans(s: State, t: State, u: State, a: seq<Notice>, b: seq<Notice>)
    requires Told(s, t, a) && Told(t, u, b)
    ensures Told(s, u, a + b)
  {
    hide Heard;
    forall n | n in s.subscribers ensures Served(s, u, a + b, n) {
      if Open(u, n) {
        if n in t.subscribers {
          assert Served(t, u, b, n);
        }
        assert Served(s, t, a, n);
        HeardJoin(s.subscribers[n].selection, a, b, s.runId, s.sequence);
      }
    }
  }

  // ---- emission

  /** The notice that emitting an update amounts to. */
  function NoticeOf(s: State, update: SubscriptionUpdate): Notice {
    Notice(update, if update.SessionEnded? && update.session.sessionId in s.sessions
                   then Some(s.sessions[update.session.sessionId].info) else None)
  }

  lemma HeardOne(selection: Selection, notice: Notice, runId: string, sequence: nat)
    ensures Heard(selection, [notice], runId, sequence)
            == if Reaches(selection, notice)
               then [Framing(runId, sequence + 1, notice.update)] else []
  {
    assert [notice][..0] == [];
    assert Heard(selection, [], runId, sequence) == [];
  }

  /** A subscriber hears an update exactly when its notice is for it. */
  lemma HearsReached(s: State, n: nat, update: SubscriptionUpdate)
    requires n in s.subscribers && s.subscribers[n].active
    requires update.SessionEnded? ==> update.session.sessionId in s.sessions
    ensures Hears(s, n, update) <==> Reaches(s.subscribers[n].selection, NoticeOf(s, update))
  {
  }

  lemma EmitTells(s: State, update: SubscriptionUpdate)
    requires !Emit(s, update).stopped
    requires update.SessionEnded? ==> update.session.sessionId in s.sessions
    ensures Told(s, Emit(s, update), [NoticeOf(s, update)])
  {
    hide Heard;
    var t := Emit(s, update);
    EmitShape(s, update);
    forall n | n in s.subscribers ensures Served(s, t, [NoticeOf(s, update)], n) {
      HeardOne(s.subscribers[n].selection, NoticeOf(s, update), s.runId, s.sequence);
      if Open(t, n) && s.subscribers[n].active {
        assert t.channels[n] == EmittedChannel(s, n, update);
        HearsReached(s, n, update);
      }
    }
  }

  lemma PlainSnoc(updates: seq<SubscriptionUpdate>)
    requires updates != []
    ensures Plain(updates) == Plain(updates[..|updates| - 1]) + [Notice(updates[|updates| - 1], None)]
  {
  }

  lemma {:induction false} EmitAllTells(s: State, updates: seq<SubscriptionUpdate>)
    requires !s.stopped && !EmitAll(s, updates).stopped && NoEnds(updates)
    ensures Told(s, EmitAll(s, updates), Plain(updates))
  {
    hide Told, Emit;
    if updates == [] {
      ToldNothing(s, s);
      assert Plain(updates) == [];
    } else {
      var front, last := updates[..|updates| - 1], updates[|updates| - 1];
      assert last in updates;
      var mid := EmitAll(s, front);
      EmitEmitted(mid, last);
      EmitAllTells(s, front);
      EmitTells(mid, last);
      ToldTrans(s, mid, EmitAll(s, updates), Plain(front), [Notice(last, None)]);
      PlainSnoc(updates);
    }
  }

  /** Emission, subscriber by subscriber: an open stream that an update is for takes it in at
      the next cursor exactly when it fits beside all that waits, and otherwise ends as
      lagged; a stream that it is not for stays as it was. */
  lemma EmittedByRoom(s: State, update: SubscriptionUpdate, n: nat, texts: set<JsonPayload>)
    requires Synced(s, Public(s.sessions), texts) && !s.stopped && s.sequence < U64_MAX
    requires n in s.subscribers && s.subscribers[n].active && Open(s, n)
    requires update.SessionEnded? ==> update.session.sessionId in s.sessions
    ensures n in Emit(s, update).channels
    ensures var item := Framing(s.runId, s.sequence + 1, update);
            var before, after := s.channels[n].traffic, Emit(s, update).channels[n].traffic;
            if !Reaches(s.subscribers[n].selection, NoticeOf(s, update)) then after == before
            else if Total(before.queue.updates) + ReplySize(item) <= s.messageBytes then
              && after.accepted == before.accepted + [item] && !Ended(after.queue)
              && Waiting(after.queue) == Waiting(before.queue) + [item]
            else
              && after.accepted == before.accepted
              && after.queue.terminal
                 == Some(ResyncRequired(Lagged(if ReplySize(item) > s.messageBytes then MessageBytes else QueuedBytes)))
              && Waiting(after.queue)
                 == (if before.queue.initial != [] && before.queue.initial[0].Begin?
                     then [before.queue.initial[0]] else [])
  {
    hide Reaches, Total, ReplySize, Waiting, Hears, Emit, Synced, Offer, Admits, EmittedChannel;
    var t := Emit(s, update);
    EmitShape(s, update);
    HearsReached(s, n, update);
    SyncedBalanced(s, n, Public(s.sessions), texts);
    assert t.channels[n] == EmittedChannel(s, n, update);
    ChannelByRoom(s, n, update);
  }

  lemma SyncedBalanced(s: State, n: nat, view: View, texts: set<JsonPayload>)
    requires Synced(s, view, texts) && n in s.channels
    ensures Balanced(s.channels[n].traffic.queue, s.messageBytes)
  {
    assert ChannelOk(s.channels[n], s.messageBytes, texts);
  }

  lemma ChannelByRoom(s: State, n: nat, update: SubscriptionUpdate)
    requires n in s.subscribers && s.subscribers[n].active && Open(s, n)
    requires Balanced(s.channels[n].traffic.queue, s.messageBytes)
    ensures var item := Framing(s.runId, s.sequence + 1, update);
            var before, after := s.channels[n].traffic, EmittedChannel(s, n, update).traffic;
            if !Hears(s, n, update) then after == before
            else
              && after.accepted == before.accepted
                 + (if Total(before.queue.updates) + ReplySize(item) <= s.messageBytes then [item] else [])
              && ByRoom(before.queue, item, s.messageBytes, after.queue)
  {
    hide Hears, Total, ReplySize, ByRoom, Offer, Admits, Balanced;
    OfferedByRoom(s.channels[n].traffic.queue, Framing(s.runId, s.sequence + 1, update), s.messageBytes);
    assert s.channels[n].traffic.accepted + [] == s.channels[n].traffic.accepted;
  }

  /** Closing ends every stream that is still open, for the given reason, and takes back
      everything that waits except a Begin that was not sent. */
  lemma ClosedFor(s: State, end: SubscriptionEnd, n: nat)
    requires n in s.subscribers && Open(s, n)
    ensures n in Close(s, end).channels && Close(s, end).subscribers == map[]
    ensures var before, after := s.channels[n].traffic, Close(s, end).channels[n].traffic;
            && after.queue.terminal == Some(end) && after.accepted == before.accepted && after.sent == before.sent
            && Waiting(after.queue)
               == (if before.queue.initial != [] && before.queue.initial[0].Begin? then [before.queue.initial[0]] else [])
  {
  }

  // ---- settling and expiring

  /** What one sweep publishes: a topic resumed in a new generation or released to Idle,
      or a topic whose deadline passed. */
  predicate Owed(w: Sweep, update: SubscriptionUpdate) {
    match w
    case Reconcile(_, _) =>
      || (update.TopicReset? && update.resetReason == DemandResumed)
      || (update.TopicChanged? && update.topic.health == Idle && update.topic.snapshot.None?)
    case Overdue(_) =>
      && update.TopicChanged? && update.topic.snapshot.None?
      && update.topic.health == Unavailable(ProviderFailed("sampling deadline exceeded"))
  }

  lemma {:induction false} SweepOwes(sessions: Sessions, changes: seq<SubscriptionUpdate>, places: seq<Place>, w: Sweep)
    requires forall p :: p in places ==> Placed(sessions, p)
    requires forall u :: u in changes ==> Owed(w, u)
    ensures forall u :: u in SweepFrom(sessions, changes, places, w).changes ==> Owed(w, u)
    decreases |places|
  {
    if places != [] {
      var p := places[0];
      assert Placed(sessions, p);
      var touch := TouchAt(w, sessions[p.id].info, p.key, At(sessions, p));
      if touch.Leave? {
        SweepOwes(sessions, changes, places[1..], w);
      } else if touch.Change? {
        var next := Put(sessions, p, touch.topic);
        forall q | q in places[1..] ensures Placed(next, q) {
          assert Placed(sessions, q);
        }
        assert Owed(w, touch.update);
        SweepOwes(next, changes + [touch.update], places[1..], w);
      }
    }
  }

  lemma SweepAllOwes(sessions: Sessions, w: Sweep)
    ensures forall u :: u in SweepAll(sessions, w).changes ==> Owed(w, u)
    ensures NoEnds(SweepAll(sessions, w).changes)
  {
    PlacesCover(sessions);
    SweepOwes(sessions, [], Places(sessions), w);
    forall u | u in SweepAll(sessions, w).changes ensures !u.SessionEnded? {
      assert Owed(w, u);
    }
  }

  /** Only topics changing hands between demanded and released. */
  predicate Flips(notices: seq<Notice>) {
    forall x :: x in notices ==> x.Notice? && Owed(Reconcile(map[], 0), x.update)
  }

  lemma RetainTells(s: State)
    requires !s.stopped
    ensures Told(s, RetainLive(s), [])
  {
    ToldNothing(s, RetainLive(s));
  }

  /** A round publishes the flips that its sweep owes. */
  lemma RoundTells(s: State, now: nat) returns (notices: seq<Notice>)
    requires !s.stopped && !SettleRound(s, now).stopped
    ensures Told(s, SettleRound(s, now), notices) && Flips(notices)
  {
    hide Told, SweepAll, Owed, EmitAll;
    var live := RetainLive(s);
    var w := Reconcile(live.subscribers, now);
    var swept := SweepAll(live.sessions, w);
    var noted := NoteChanges(live, swept);
    RetainTells(s);
    QuietTells(live, noted);
    SweepAllOwes(live.sessions, w);
    EmitAllTells(noted, swept.changes);
    var none: seq<Notice> := [];
    notices := Plain(swept.changes);
    assert none + none == none && none + notices == notices;
    ToldTrans(s, live, noted, none, none);
    ToldTrans(s, noted, EmitAll(noted, swept.changes), none, notices);
    forall u | u in swept.changes ensures Owed(Reconcile(map[], 0), u) {
      OwedByAny(w, u);
    }
  }

  lemma OwedByAny(w: Sweep, update: SubscriptionUpdate)
    requires w.Reconcile? && Owed(w, update)
    ensures Owed(Reconcile(map[], 0), update)
  {
  }

  lemma QuietTells(s: State, t: State)
    requires !s.stopped && t == s.(sessions := t.sessions, revision := t.revision, runtime := t.runtime)
    ensures Told(s, t, [])
  {
    assert t.subscribers == s.subscribers && t.channels == s.channels && t.runId == s.runId && t.sequence == s.sequence;
    ToldNothing(s, t);
  }

  /** Settling publishes flips of demand and nothing else. */
  lemma {:induction false} SettleTells(s: State, now: nat) returns (notices: seq<Notice>)
    requires !s.stopped && !Settle(s, now).stopped
    ensures Told(s, Settle(s, now), notices) && Flips(notices)
    decreases |Live(s)|
  {
    hide Told, SettleRound, Live, Owed;
    var next := SettleRound(s, now);
    if Unsettled(next) {
      RoundLoses(s, now);
      RoundRuns(s, now);
      notices := RoundTells(s, now);
      var rest := SettleTells(next, now);
      ToldTrans(s, next, Settle(s, now), notices, rest);
      notices := notices + rest;
    } else {
      notices := RoundTells(s, now);
    }
  }

  /** A round that leaves an ended subscriber behind did not close. */
  lemma RoundRuns(s: State, now: nat)
    requires !s.stopped && Unsettled(SettleRound(s, now))
    ensures !SettleRound(s, now).stopped
  {
    hide SweepAll, EmitAll;
    var live := RetainLive(s);
    var swept := SweepAll(live.sessions, Reconcile(live.subscribers, now));
    if !swept.exhausted {
      EmitAllFrame(NoteChanges(live, swept), swept.changes);
    }
  }

  /** Expiry publishes each topic whose deadline passed as unavailable and without data, then
      whatever flips of demand its own publications caused. */
  lemma ExpireTells(s: State, now: nat) returns (overdue: seq<SubscriptionUpdate>, flips: seq<Notice>)
    requires !s.stopped && !Expire(s, now).stopped
    ensures Told(s, Expire(s, now), Plain(overdue) + flips) && Flips(flips)
    ensures forall u :: u in overdue ==> Owed(Overdue(now), u)
  {
    hide Told, SweepAll, Owed, EmitAll, Settle;
    var swept := SweepAll(s.sessions, Overdue(now));
    var noted := NoteChanges(s, swept);
    overdue := swept.changes;
    var mid := EmitAll(noted, overdue);
    SweepAllOwes(s.sessions, Overdue(now));
    if mid.stopped { SettleStopped(mid, now); }
    QuietTells(s, noted);
    EmitAllTells(noted, overdue);
    ToldTrans(s, noted, mid, [], Plain(overdue));
    assert [] + Plain(overdue) == Plain(overdue);
    flips := SettleTells(mid, now);
    ToldTrans(s, mid, Expire(s, now), Plain(overdue), flips);
  }

  /** Settling never starts a stopped service. */
  lemma SettleStopped(s: State, now: nat)
    requires s.stopped
    ensures Settle(s, now).stopped
  {
    hide SweepAll, EmitAll;
    var live := RetainLive(s);
    var swept := SweepAll(live.sessions, Reconcile(live.subscribers, now));
    var next := SettleRound(s, now);
    if !swept.exhausted {
      EmitAllFrame(NoteChanges(live, swept), swept.changes);
    }
    assert next.stopped && !Unsettled(next);
  }
}
