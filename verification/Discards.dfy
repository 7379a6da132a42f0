/** Discarding a rejected poll: its verified resets survive exactly once. */
module Discards {
  import opened Wire
  import opened Ordering
  import opened ClientValidation
  import opened Views
  import opened Service
  import opened Streams
  import opened Publication
  import opened Invariant
  import opened Sweeps
  import opened Settling
  import opened SessionSync

  // ---- failing one topic

  /** What failing a topic needs: demand, and counters with room for its reset. */
  predicate Failable(topic: Topic, reset: bool) {
    topic.demanded && (reset ==> topic.state.generation < U64_MAX && topic.epoch < U64_MAX)
  }

  lemma FailingKeeps(topic: Topic, reset: bool, info: SessionInfo, key: TopicRef, cap: Capability, sequence: nat)
    requires Failable(topic, reset)
    ensures TopicShape(topic, info, key) ==> TopicShape(Failing(topic, reset), info, key)
    ensures TopicOk(Failing(topic, reset), cap, sequence)
  {
  }

  function Reopened(topic: Topic): Topic {
    topic.(state := TopicSnapshot(topic.state.source, topic.state.generation + 1, Initializing, None))
  }

  lemma PutTwice(sessions: Sessions, p: Place, a: Topic, b: Topic)
    requires Placed(sessions, p)
    ensures Put(Put(sessions, p, a), p, b) == Put(sessions, p, b)
  {
    var topics := sessions[p.id].topics;
    assert topics[p.key := a][p.key := b] == topics[p.key := b];
  }

  lemma PutShapes(sessions: Sessions, p: Place, topic: Topic, catalog: Catalog, runId: string)
    requires Placed(sessions, p) && Shaped(sessions, catalog, runId)
    requires TopicShape(topic, sessions[p.id].info, p.key)
    ensures Shaped(Put(sessions, p, topic), catalog, runId)
  {
    var next := Put(sessions, p, topic);
    PutAt(sessions, p, topic);
    forall q | Placed(next, q) ensures TopicShape(At(next, q), next[q.id].info, q.key) {
      ShapeAt(sessions, catalog, runId, q);
    }
    ShapedFrame(sessions, next, catalog, runId);
  }

  lemma PublishAfter(sessions: Sessions, p: Place, topic: Topic, update: SubscriptionUpdate, view: View,
                     updates: seq<SubscriptionUpdate>, sequence: nat, catalog: Catalog, runId: string)
    requires Placed(sessions, p) && Shaped(sessions, catalog, runId)
    requires Publishes(update, At(sessions, p).state, topic.state)
    requires Walk(view, updates, sequence, runId) == Some(Public(sessions))
    ensures Walk(view, updates + [update], sequence, runId) == Some(Public(Put(sessions, p, topic)))
  {
    PublishPut(sessions, p, topic, update, sequence + |updates| + 1, catalog, runId);
    WalkAppend(view, updates, Public(sessions), update, sequence, runId);
  }

  lemma FailResetWalks(sessions: Sessions, p: Place, topic: Topic, next: Topic, view: View,
                       updates: seq<SubscriptionUpdate>, sequence: nat, catalog: Catalog, runId: string)
    requires Placed(sessions, p) && Shaped(sessions, catalog, runId) && topic == At(sessions, p)
    requires Failable(topic, true) && next == Failing(topic, true)
    requires Walk(view, updates, sequence, runId) == Some(Public(sessions))
    ensures Walk(view, updates + [TopicReset(topic.state.source, next.state.generation, SourceChanged)]
                       + [TopicChanged(next.state)], sequence, runId)
            == Some(Public(Put(sessions, p, next)))
  {
    var update := TopicReset(topic.state.source, next.state.generation, SourceChanged);
    var mid := Put(sessions, p, Reopened(topic));
    PublishAfter(sessions, p, Reopened(topic), update, view, updates, sequence, catalog, runId);
    ShapeAt(sessions, catalog, runId, p);
    PutShapes(sessions, p, Reopened(topic), catalog, runId);
    PutTwice(sessions, p, Reopened(topic), next);
    assert At(mid, p) == Reopened(topic);
    PublishAfter(mid, p, next, TopicChanged(next.state), view, updates + [update], sequence, catalog, runId);
  }

  lemma FailingSpells(topic: Topic, updates: seq<SubscriptionUpdate>, reset: bool)
    ensures var changed := TopicChanged(Failing(topic, reset).state);
            var announced := TopicReset(topic.state.source, Failing(topic, reset).state.generation, SourceChanged);
            updates + FailingUpdates(topic, reset)
            == if reset then updates + [announced] + [changed] else updates + [changed]
  {
  }

  /** The updates for one failed topic lead from the old view to the new one. */
  lemma FailOneWalks(sessions: Sessions, p: Place, reset: bool, view: View, updates: seq<SubscriptionUpdate>,
                     sequence: nat, catalog: Catalog, runId: string)
    requires Placed(sessions, p) && Shaped(sessions, catalog, runId) && Failable(At(sessions, p), reset)
    requires Walk(view, updates, sequence, runId) == Some(Public(sessions))
    ensures Walk(view, updates + FailingUpdates(At(sessions, p), reset), sequence, runId)
            == Some(Public(Put(sessions, p, Failing(At(sessions, p), reset))))
  {
    var topic := At(sessions, p);
    var next := Failing(topic, reset);
    FailingSpells(topic, updates, reset);
    if reset {
      FailResetWalks(sessions, p, topic, next, view, updates, sequence, catalog, runId);
    } else {
      PublishAfter(sessions, p, next, TopicChanged(next.state), view, updates, sequence, catalog, runId);
    }
  }

  // ---- failing them all

  ghost predicate FailedAt(sessions: Sessions, after: Sessions, id: string, affected: map<TopicRef, bool>,
                           keys: set<TopicRef>, p: Place)
  {
    Placed(sessions, p) ==>
      && Placed(after, p)
      && At(after, p) == if p.id == id && p.key in keys && p.key in affected
                         then Failing(At(sessions, p), affected[p.key]) else At(sessions, p)
  }

  ghost predicate FailableAll(sessions: Sessions, id: string, affected: map<TopicRef, bool>) {
    id in sessions
    && forall k :: k in affected ==>
         k in sessions[id].topics && Failable(sessions[id].topics[k], affected[k])
  }

  function Resets(affected: map<TopicRef, bool>, keys: seq<TopicRef>): nat {
    if keys == [] then 0
    else
      var k := keys[|keys| - 1];
      Resets(affected, keys[..|keys| - 1]) + if k in affected && affected[k] then 1 else 0
  }

  function KeySet(keys: seq<TopicRef>): set<TopicRef> {
    set k | k in keys
  }

  /** Sessions and updates after failing some topics, against the sessions before. */
  ghost predicate FailedBy(sessions: Sessions, after: Sessions, updates: seq<SubscriptionUpdate>, id: string,
                           affected: map<TopicRef, bool>, keys: seq<TopicRef>, catalog: Catalog, runId: string)
  {
    && SameFrame(sessions, after)
    && Shaped(after, catalog, runId)
    && (forall p :: FailedAt(sessions, after, id, affected, KeySet(keys), p))
    && |updates| == |keys| + Resets(affected, keys)
    && NoEnds(updates) && (forall u :: u in updates ==> UpdateFrom(u, {}))
  }

  lemma KeySetSnoc(keys: seq<TopicRef>)
    requires keys != [] && NoRepeats(keys)
    ensures KeySet(keys) == KeySet(keys[..|keys| - 1]) + {keys[|keys| - 1]}
    ensures keys[|keys| - 1] !in KeySet(keys[..|keys| - 1])
  {
    assert keys == keys[..|keys| - 1] + [keys[|keys| - 1]];
  }

  lemma FailedNext(sessions: Sessions, mid: Sessions, after: Sessions, id: string, affected: map<TopicRef, bool>,
                   done: set<TopicRef>, k: TopicRef)
    requires SameFrame(sessions, mid) && k !in done && k in affected
    requires forall p :: FailedAt(sessions, mid, id, affected, done, p)
    requires Placed(sessions, Place(id, k)) && Placed(mid, Place(id, k))
    requires after == Put(mid, Place(id, k), Failing(At(mid, Place(id, k)), affected[k]))
    ensures SameFrame(sessions, after)
    ensures forall p :: FailedAt(sessions, after, id, affected, done + {k}, p)
  {
    PutAt(mid, Place(id, k), Failing(At(mid, Place(id, k)), affected[k]));
    assert FailedAt(sessions, mid, id, affected, done, Place(id, k));
    forall p ensures FailedAt(sessions, after, id, affected, done + {k}, p) {
      assert FailedAt(sessions, mid, id, affected, done, p);
      assert p == Place(p.id, p.key);
    }
  }

  /** Where one more key of FailTopics leads. */
  lemma FailTopicsSnoc(sessions: Sessions, id: string, affected: map<TopicRef, bool>, keys: seq<TopicRef>,
                       mid: Sessions, updates: seq<SubscriptionUpdate>)
    requires keys != [] && forall k :: k in keys ==> k in affected
    requires FailTopics(sessions, id, affected, keys[..|keys| - 1]) == (mid, updates)
    requires Placed(mid, Place(id, keys[|keys| - 1]))
    ensures var p := Place(id, keys[|keys| - 1]);
            FailTopics(sessions, id, affected, keys)
            == (Put(mid, p, Failing(At(mid, p), affected[p.key])), updates + FailingUpdates(At(mid, p), affected[p.key]))
  {
  }

  lemma FailOneUpdates(updates: seq<SubscriptionUpdate>, topic: Topic, affected: map<TopicRef, bool>,
                       keys: seq<TopicRef>, k: TopicRef)
    requires keys != [] && k == keys[|keys| - 1] && k in affected
    requires |updates| == |keys| - 1 + Resets(affected, keys[..|keys| - 1])
    requires NoEnds(updates) && forall u :: u in updates ==> UpdateFrom(u, {})
    ensures |updates + FailingUpdates(topic, affected[k])| == |keys| + Resets(affected, keys)
    ensures NoEnds(updates + FailingUpdates(topic, affected[k]))
    ensures forall u :: u in updates + FailingUpdates(topic, affected[k]) ==> UpdateFrom(u, {})
  {
    FailingUpdatesOk(topic, affected[k]);
  }

  lemma FailingUpdatesOk(topic: Topic, reset: bool)
    ensures |FailingUpdates(topic, reset)| == if reset then 2 else 1
    ensures forall u :: u in FailingUpdates(topic, reset) ==> !u.SessionEnded? && UpdateFrom(u, {})
  {
    FailingSpells(topic, [], reset);
  }

  lemma ResetCountAtMost(affected: map<TopicRef, bool>)
    ensures ResetCount(affected) <= |affected|
  {
    var reset := set k | k in affected && affected[k];
    SubsetSize(reset, affected.Keys);
  }

  lemma FailOne(sessions: Sessions, mid: Sessions, updates: seq<SubscriptionUpdate>, id: string,
                affected: map<TopicRef, bool>, keys: seq<TopicRef>, k: TopicRef, topic: Topic, sequence: nat,
                catalog: Catalog, runId: string)
    requires keys != [] && NoRepeats(keys) && k == keys[|keys| - 1] && k in affected
    requires FailedBy(sessions, mid, updates, id, affected, keys[..|keys| - 1], catalog, runId)
    requires Placed(sessions, Place(id, k)) && Placed(mid, Place(id, k)) && At(mid, Place(id, k)) == topic
    requires Failable(topic, affected[k])
    ensures FailedBy(sessions, Put(mid, Place(id, k), Failing(topic, affected[k])),
                     updates + FailingUpdates(topic, affected[k]), id, affected, keys, catalog, runId)
  {
    var after := Put(mid, Place(id, k), Failing(topic, affected[k]));
    KeySetSnoc(keys);
    FailedNext(sessions, mid, after, id, affected, KeySet(keys[..|keys| - 1]), k);
    ShapeAt(mid, catalog, runId, Place(id, k));
    PutShapes(mid, Place(id, k), Failing(topic, affected[k]), catalog, runId);
    FailOneUpdates(updates, topic, affected, keys, k);
  }

  lemma FailNothing(sessions: Sessions, id: string, affected: map<TopicRef, bool>, catalog: Catalog, runId: string)
    requires Shaped(sessions, catalog, runId)
    ensures FailedBy(sessions, sessions, [], id, affected, [], catalog, runId)
  {
  }

  /** Failing topics changes exactly those topics, and owes updates that say so. */
  lemma {:induction false} FailAll(sessions: Sessions, id: string, affected: map<TopicRef, bool>, keys: seq<TopicRef>,
                                   after: Sessions, owed: seq<SubscriptionUpdate>, sequence: nat, catalog: Catalog,
                                   runId: string)
    requires Shaped(sessions, catalog, runId) && FailableAll(sessions, id, affected)
    requires NoRepeats(keys) && forall k :: k in keys ==> k in affected
    requires FailTopics(sessions, id, affected, keys) == (after, owed)
    ensures FailedBy(sessions, after, owed, id, affected, keys, catalog, runId)
    ensures Walk(Public(sessions), owed, sequence, runId) == Some(Public(after))
    decreases |keys|
  {
    if keys == [] {
      FailNothing(sessions, id, affected, catalog, runId);
    } else {
      var front, k := keys[..|keys| - 1], keys[|keys| - 1];
      var (mid, updates) := FailTopics(sessions, id, affected, front);
      FailAll(sessions, id, affected, front, mid, updates, sequence, catalog, runId);
      KeySetSnoc(keys);
      assert k in keys;
      assert FailedAt(sessions, mid, id, affected, KeySet(front), Place(id, k));
      FailTopicsSnoc(sessions, id, affected, keys, mid, updates);
      var topic := At(mid, Place(id, k));
      FailOne(sessions, mid, updates, id, affected, keys, k, topic, sequence, catalog, runId);
      FailOneWalks(mid, Place(id, k), affected[k], Public(sessions), updates, sequence, catalog, runId);
    }
  }

  lemma {:induction false} ResetsCount(affected: map<TopicRef, bool>, keys: seq<TopicRef>)
    requires NoRepeats(keys)
    ensures Resets(affected, keys) == |ResetIn(affected, KeySet(keys))|
    ensures |KeySet(keys)| == |keys|
  {
    hide ResetIn, KeySet;
    if keys != [] {
      var front, k := keys[..|keys| - 1], keys[|keys| - 1];
      ResetsCount(affected, front);
      KeySetSnoc(keys);
      ResetInMore(affected, KeySet(front), k);
    } else {
      ResetInNone(affected);
    }
  }

  function ResetIn(affected: map<TopicRef, bool>, keys: set<TopicRef>): set<TopicRef> {
    set k | k in keys && k in affected && affected[k]
  }

  lemma ResetInNone(affected: map<TopicRef, bool>)
    ensures KeySet([]) == {} && ResetIn(affected, KeySet([])) == {}
  {
  }

  lemma ResetInMore(affected: map<TopicRef, bool>, keys: set<TopicRef>, k: TopicRef)
    requires k !in keys
    ensures |ResetIn(affected, keys + {k})|
            == |ResetIn(affected, keys)| + if k in affected && affected[k] then 1 else 0
  {
    var before := ResetIn(affected, keys);
    assert ResetIn(affected, keys + {k}) == if k in affected && affected[k] then before + {k} else before;
  }

  /** The owed updates are exactly as many as were reserved. */
  lemma OwedIsReserved(affected: map<TopicRef, bool>)
    ensures var keys := TopicsInOrder(affected.Keys);
            |keys| + Resets(affected, keys) == |affected| + ResetCount(affected)
  {
    var keys := TopicsInOrder(affected.Keys);
    ResetsCount(affected, keys);
    assert KeySet(keys) == affected.Keys;
    assert ResetIn(affected, KeySet(keys)) == (set k | k in affected && affected[k]);
  }

  // ---- the discard as a whole

  lemma AffectedFailable(s: State, ticket: PollTicket, resets: seq<TopicRef>, failed: bool)
    requires ticket.sessionId in s.sessions
    requires !DiscardExhausts(s.sessions[ticket.sessionId], Affected(s.sessions[ticket.sessionId], ticket, resets, failed))
    ensures FailableAll(s.sessions, ticket.sessionId,
                        Affected(s.sessions[ticket.sessionId], ticket, resets, failed))
  {
  }

  /** The sessions after the affected topics failed. */
  ghost predicate FailedSessions(before: Sessions, after: Sessions, id: string, affected: map<TopicRef, bool>) {
    SameFrame(before, after) && forall p :: FailedAt(before, after, id, affected, affected.Keys, p)
  }

  lemma FailedOk(s: State, t: State, id: string, affected: map<TopicRef, bool>)
    requires StateOk(s) && !s.stopped && FailableAll(s.sessions, id, affected)
    requires FailedSessions(s.sessions, t.sessions, id, affected) && Shaped(t.sessions, s.catalog, s.runId)
    requires t == s.(sessions := t.sessions)
    ensures StateOk(t) && Sheds(s.sessions, t.sessions)
  {
    FramePlaced(s.sessions, t.sessions);
    forall p | Placed(t.sessions, p) && Registered(t.catalog, p.key)
      ensures TopicOk(At(t.sessions, p), CapabilityOf(t.catalog, p.key), t.sequence)
      ensures At(t.sessions, p).state.snapshot.Some? ==> At(t.sessions, p) == At(s.sessions, p)
    {
      assert FailedAt(s.sessions, t.sessions, id, affected, affected.Keys, p);
      if p.id == id && p.key in affected {
        FailingKeeps(At(s.sessions, p), affected[p.key], s.sessions[p.id].info, p.key,
                     CapabilityOf(s.catalog, p.key), s.sequence);
      }
    }
    forall p | Placed(t.sessions, p) && At(t.sessions, p).state.snapshot.Some?
      ensures At(t.sessions, p) == At(s.sessions, p)
    {
      assert FailedAt(s.sessions, t.sessions, id, affected, affected.Keys, p);
    }
  }

  /** What discarding leaves before settling. */
  ghost predicate Discarded(s: State, t: State, id: string, affected: map<TopicRef, bool>) {
    && t == s.(sequence := s.sequence + |affected| + ResetCount(affected), channels := t.channels,
               sessions := t.sessions)
    && FailedSessions(s.sessions, t.sessions, id, affected)
  }

  lemma FailedWith(s: State, id: string, affected: map<TopicRef, bool>, after: Sessions,
                   owed: seq<SubscriptionUpdate>)
    requires Shaped(s.sessions, s.catalog, s.runId) && FailableAll(s.sessions, id, affected)
    requires FailTopics(s.sessions, id, affected, TopicsInOrder(affected.Keys)) == (after, owed)
    ensures FailedSessions(s.sessions, after, id, affected) && Shaped(after, s.catalog, s.runId)
    ensures |owed| == |affected| + ResetCount(affected)
    ensures NoEnds(owed) && forall u :: u in owed ==> UpdateFrom(u, {})
    ensures Walk(Public(s.sessions), owed, s.sequence, s.runId) == Some(Public(after))
  {
    hide FailTopics, Walk, Shaped, FailableAll, SameFrame, FailedAt, ResetCount, Resets;
    var keys := TopicsInOrder(affected.Keys);
    FailAll(s.sessions, id, affected, keys, after, owed, s.sequence, s.catalog, s.runId);
    OwedIsReserved(affected);
    assert KeySet(keys) == affected.Keys;
  }

  lemma {:induction false} EmitsWithRoom(s: State, updates: seq<SubscriptionUpdate>)
    requires !s.stopped && Room(s, |updates|)
    ensures EmitAll(s, updates)
            == s.(sequence := s.sequence + |updates|, channels := EmitAll(s, updates).channels)
  {
    if updates != [] {
      EmitsWithRoom(s, updates[..|updates| - 1]);
      EmitShape(EmitAll(s, updates[..|updates| - 1]), updates[|updates| - 1]);
    }
  }

  lemma DiscardLands(s: State, t: State, id: string, affected: map<TopicRef, bool>, after: Sessions,
                     owed: seq<SubscriptionUpdate>, texts: set<JsonPayload>)
    requires Steady(s, texts) && !s.stopped && FailableAll(s.sessions, id, affected)
    requires Room(s, |affected| + ResetCount(affected))
    requires FailTopics(s.sessions, id, affected, TopicsInOrder(affected.Keys)) == (after, owed)
    requires t == EmitAll(s.(sessions := after), owed)
    ensures Steady(t, texts) && Discarded(s, t, id, affected)
  {
    var mid := s.(sessions := after);
    FailedWith(s, id, affected, after, owed);
    FailedOk(s, mid, id, affected);
    SyncedFrame(s, mid, Public(s.sessions), texts);
    KeptSheds(s, mid, texts);
    forall u | u in owed ensures UpdateFrom(u, texts) {
      assert UpdateFrom(u, {});
    }
    EmitSteady(mid, owed, Public(s.sessions), texts);
    EmitsWithRoom(mid, owed);
  }

  /** The affected topics, when the discard neither finds the service gone nor runs out. */
  function Proceeds(s: State, ticket: PollTicket, resets: seq<TopicRef>, failed: bool): Option<map<TopicRef, bool>> {
    if s.stopped || ticket.sessionId !in s.sessions then None
    else
      var affected := Affected(s.sessions[ticket.sessionId], ticket, resets, failed);
      if DiscardExhausts(s.sessions[ticket.sessionId], affected) || !Room(s, |affected| + ResetCount(affected))
      then None else Some(affected)
  }

  lemma DiscardCases(s: State, ticket: PollTicket, resets: seq<TopicRef>, failed: bool, now: nat)
    ensures var (t, next) := DiscardPoll(s, ticket, resets, failed, now);
            match Proceeds(s, ticket, resets, failed)
            case None =>
              next.None? && t == if s.stopped || ticket.sessionId !in s.sessions then s else Close(s, EXHAUSTED)
            case Some(affected) =>
              && ticket.sessionId in s.sessions && !s.stopped && Room(s, |affected| + ResetCount(affected))
              && affected == Affected(s.sessions[ticket.sessionId], ticket, resets, failed)
              && FailableAll(s.sessions, ticket.sessionId, affected)
              && (var (after, owed) :=
                    FailTopics(s.sessions, ticket.sessionId, affected, TopicsInOrder(affected.Keys));
                  t == Settle(EmitAll(s.(sessions := after), owed), now))
              && (var current := CurrentTicket(t, ticket.sessionId);
                  next == if current.Some?
                             && SameDemand(current.value, Rebased(ticket, s.sessions[ticket.sessionId], affected))
                          then current else None)
  {
    if Proceeds(s, ticket, resets, failed).Some? {
      AffectedFailable(s, ticket, resets, failed);
    }
  }

  /** What a discard that proceeds has done before it settles. */
  lemma DiscardProceeds(s: State, ticket: PollTicket, resets: seq<TopicRef>, failed: bool, now: nat,
                        affected: map<TopicRef, bool>, texts: set<JsonPayload>) returns (mid: State)
    requires Steady(s, texts) && Proceeds(s, ticket, resets, failed) == Some(affected)
    ensures Steady(mid, texts) && Discarded(s, mid, ticket.sessionId, affected)
    ensures DiscardPoll(s, ticket, resets, failed, now).0 == Settle(mid, now)
  {
    DiscardCases(s, ticket, resets, failed, now);
    var (after, owed) := FailTopics(s.sessions, ticket.sessionId, affected, TopicsInOrder(affected.Keys));
    mid := EmitAll(s.(sessions := after), owed);
    DiscardLands(s, mid, ticket.sessionId, affected, after, owed, texts);
  }

  /** Discarding keeps the invariant. */
  lemma DiscardInv(s: State, ticket: PollTicket, resets: seq<TopicRef>, failed: bool, now: nat,
                   texts: set<JsonPayload>)
    requires Inv(s, texts)
    ensures Inv(DiscardPoll(s, ticket, resets, failed, now).0, texts)
  {
    DiscardCases(s, ticket, resets, failed, now);
    match Proceeds(s, ticket, resets, failed)
    case None => CloseSteady(s, EXHAUSTED, Public(s.sessions), texts);
    case Some(affected) =>
      var mid := DiscardProceeds(s, ticket, resets, failed, now, affected, texts);
      SettleInv(mid, now, texts);
  }

  // ---- settling after a loss only releases demand

  /** Every wanted topic is already demanded, so settling can only release some. */
  ghost predicate NoneNewlyWanted(s: State) {
    forall p :: Placed(s.sessions, p) && Demanded(s.subscribers, s.sessions[p.id].info.session, p.key) ==>
      At(s.sessions, p).demanded
  }

  ghost predicate Released(before: Topic, after: Topic) {
    && after.state.generation == before.state.generation
    && (after.demanded ==> before.demanded && after == before)
  }

  ghost predicate ReleasedAll(s: State, t: State) {
    && SameFrame(s.sessions, t.sessions)
    && forall p :: Placed(s.sessions, p) ==> Placed(t.sessions, p) && Released(At(s.sessions, p), At(t.sessions, p))
  }

  lemma TouchReleases(info: SessionInfo, key: TopicRef, topic: Topic, subscribers: map<nat, Subscriber>, now: nat)
    requires Demanded(subscribers, info.session, key) ==> topic.demanded
    ensures Released(topic, Touched(Reconcile(subscribers, now), info, key, topic))
  {
  }

  lemma SweepReleases(sessions: Sessions, subscribers: map<nat, Subscriber>, now: nat)
    requires forall p :: Placed(sessions, p) && Demanded(subscribers, sessions[p.id].info.session, p.key) ==>
               At(sessions, p).demanded
    ensures var after := SweepAll(sessions, Reconcile(subscribers, now)).sessions;
            && SameFrame(sessions, after)
            && forall p :: Placed(sessions, p) ==> Placed(after, p) && Released(At(sessions, p), At(after, p))
  {
    var w := Reconcile(subscribers, now);
    var r := SweepAll(sessions, w);
    SweepAllPointwise(sessions, w);
    forall p | Placed(sessions, p) ensures Released(At(sessions, p), At(r.sessions, p)) {
      assert SweptAt(sessions, r, Places(sessions), w, p);
      TouchReleases(sessions[p.id].info, p.key, At(sessions, p), subscribers, now);
    }
  }

  lemma CloseReleases(s: State, end: SubscriptionEnd)
    ensures ReleasedAll(s, Close(s, end))
  {
    var t := Close(s, end);
    forall p | Placed(s.sessions, p)
      ensures Placed(t.sessions, p) && At(t.sessions, p) == Quiet(At(s.sessions, p))
    {
    }
  }

  lemma ReleasedTrans(s: State, t: State, u: State)
    requires ReleasedAll(s, t) && ReleasedAll(t, u)
    ensures ReleasedAll(s, u)
  {
    forall p | Placed(s.sessions, p)
      ensures Placed(u.sessions, p) && Released(At(s.sessions, p), At(u.sessions, p))
    {
      assert Placed(t.sessions, p);
    }
  }

  lemma {:induction false} EmitAllReleases(s: State, updates: seq<SubscriptionUpdate>)
    ensures ReleasedAll(s, EmitAll(s, updates))
  {
    if updates != [] {
      var mid := EmitAll(s, updates[..|updates| - 1]);
      EmitAllReleases(s, updates[..|updates| - 1]);
      var last := updates[|updates| - 1];
      if !mid.stopped && mid.sequence >= U64_MAX {
        CloseReleases(mid, EXHAUSTED);
        ReleasedTrans(s, mid, Emit(mid, last));
      } else {
        assert Emit(mid, last).sessions == mid.sessions;
      }
    }
  }

  lemma RetainWants(s: State)
    requires NoneNewlyWanted(s)
    ensures NoneNewlyWanted(RetainLive(s))
  {
    forall p | Placed(s.sessions, p)
               && Demanded(RetainLive(s).subscribers, s.sessions[p.id].info.session, p.key)
      ensures At(s.sessions, p).demanded
    {
      var id :| id in RetainLive(s).subscribers
                && Selecting.Matches(RetainLive(s).subscribers[id].selection, s.sessions[p.id].info.session, p.key);
      assert id in s.subscribers;
    }
  }

  lemma RoundReleases(s: State, now: nat)
    requires NoneNewlyWanted(s)
    ensures ReleasedAll(s, SettleRound(s, now))
  {
    var live := RetainLive(s);
    RetainWants(s);
    var swept := SweepAll(live.sessions, Reconcile(live.subscribers, now));
    SweepReleases(live.sessions, live.subscribers, now);
    var mid := if swept.exhausted then live.(sessions := swept.sessions) else NoteChanges(live, swept);
    assert ReleasedAll(s, mid);
    if swept.exhausted {
      CloseReleases(mid, EXHAUSTED);
    } else {
      EmitAllReleases(mid, swept.changes);
    }
    ReleasedTrans(s, mid, SettleRound(s, now));
  }

  /** Settling keeps every generation and every topic that stays demanded. */
  lemma {:induction false} SettleReleases(s: State, now: nat, texts: set<JsonPayload>)
    requires Steady(s, texts) && NoneNewlyWanted(s)
    ensures ReleasedAll(s, Settle(s, now))
    decreases |Live(s)|
  {
    var next := SettleRound(s, now);
    RoundReleases(s, now);
    if Unsettled(next) {
      RoundLoses(s, now);
      RoundSteady(s, now, texts);
      SettleReleases(next, now, texts);
      ReleasedTrans(s, next, Settle(s, now));
    }
  }
}
