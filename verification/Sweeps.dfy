/** Sweeps over every topic: the ordered loop amounts to a pointwise change, and
    the updates it owes carry the old published view to the new one. */
module Sweeps {
  import opened Wire
  import opened Selecting
  import opened Ordering
  import opened ClientValidation
  import opened Views
  import opened Service
  import opened Streams
  import opened Invariant

  ghost predicate SameFrame(a: Sessions, b: Sessions) {
    && a.Keys == b.Keys
    && forall id :: id in a ==> b[id].info == a[id].info && b[id].topics.Keys == a[id].topics.Keys
  }

  function Touched(w: Sweep, info: SessionInfo, key: TopicRef, topic: Topic): Topic {
    match TouchAt(w, info, key, topic)
    case Leave => topic
    case Change(next, _) => next
    case RunOut(next) => next
  }

  lemma {:induction false} PlacesInDistinct(sessions: Sessions, ids: seq<string>)
    requires forall id :: id in ids ==> id in sessions
    requires NoRepeats(ids)
    ensures NoRepeats(PlacesIn(sessions, ids))
  {
    if ids != [] {
      PlacesInDistinct(sessions, ids[1..]);
      PlacesInCover(sessions, ids[1..]);
      var first := PlacesOf(ids[0], TopicsInOrder(sessions[ids[0]].topics.Keys));
      var rest := PlacesIn(sessions, ids[1..]);
      forall i, j | 0 <= i < j < |first + rest| ensures (first + rest)[i] != (first + rest)[j] {
        if j >= |first| {
          assert rest[j - |first|] in rest;
          if i >= |first| { assert rest[i - |first|] != rest[j - |first|]; }
        }
      }
    }
  }

  lemma PutAt(sessions: Sessions, p: Place, topic: Topic)
    requires Placed(sessions, p)
    ensures SameFrame(sessions, Put(sessions, p, topic))
    ensures forall q :: Placed(sessions, q) <==> Placed(Put(sessions, p, topic), q)
    ensures forall q :: Placed(sessions, q) ==>
              At(Put(sessions, p, topic), q) == if q == p then topic else At(sessions, q)
  {
    var next := Put(sessions, p, topic);
    forall q | Placed(sessions, q) ensures At(next, q) == if q == p then topic else At(sessions, q) {
      assert q == Place(q.id, q.key) && p == Place(p.id, p.key);
    }
  }

  ghost predicate SweptAt(sessions: Sessions, r: Swept, places: seq<Place>, w: Sweep, p: Place)
    requires Placed(sessions, p) && Placed(r.sessions, p)
  {
    var touched := Touched(w, sessions[p.id].info, p.key, At(sessions, p));
    && (At(r.sessions, p) == At(sessions, p) || At(r.sessions, p) == touched)
    && (!r.exhausted ==> At(r.sessions, p) == if p in places then touched else At(sessions, p))
    && (p !in places ==> At(r.sessions, p) == At(sessions, p))
  }

  lemma FramePlaced(a: Sessions, b: Sessions)
    requires SameFrame(a, b)
    ensures forall p :: Placed(a, p) <==> Placed(b, p)
  {
    forall p ensures Placed(a, p) <==> Placed(b, p) {
      if p.id in a { assert p.key in a[p.id].topics.Keys <==> p.key in b[p.id].topics.Keys; }
    }
  }

  lemma {:induction false} SweepPointwise(sessions: Sessions, changes: seq<SubscriptionUpdate>, places: seq<Place>,
                                          w: Sweep)
    requires forall p :: p in places ==> Placed(sessions, p)
    requires NoRepeats(places)
    ensures var r := SweepFrom(sessions, changes, places, w);
            && SameFrame(sessions, r.sessions)
            && (forall p :: Placed(sessions, p) ==> Placed(r.sessions, p) && SweptAt(sessions, r, places, w, p))
    decreases |places|
  {
    if places != [] {
      var p := places[0];
      var rest := places[1..];
      assert Placed(sessions, p) && p !in rest;
      var touch := TouchAt(w, sessions[p.id].info, p.key, At(sessions, p));
      var mid := if touch.Leave? then sessions else Put(sessions, p, touch.topic);
      var owed := if touch.Change? then changes + [touch.update] else changes;
      if !touch.Leave? { PutAt(sessions, p, touch.topic); }
      var r := SweepFrom(sessions, changes, places, w);
      if !touch.RunOut? {
        SweepPointwise(mid, owed, rest, w);
        assert r == SweepFrom(mid, owed, rest, w);
      }
      forall q | Placed(sessions, q) ensures Placed(r.sessions, q) && SweptAt(sessions, r, places, w, q) {
        assert Placed(mid, q);
        assert q in places <==> q == p || q in rest;
      }
    }
  }

  /** The sweep of a whole service, topic by topic. */
  lemma SweepAllPointwise(sessions: Sessions, w: Sweep)
    ensures var r := SweepAll(sessions, w);
            && SameFrame(sessions, r.sessions)
            && (forall p :: Placed(sessions, p) <==> Placed(r.sessions, p))
            && (forall p :: Placed(sessions, p) ==> Placed(r.sessions, p) && SweptAt(sessions, r, Places(sessions), w, p))
            && (forall p :: p in Places(sessions) <==> Placed(sessions, p))
  {
    PlacesCover(sessions);
    PlacesInDistinct(sessions, IdsInOrder(sessions.Keys));
    SweepPointwise(sessions, [], Places(sessions), w);
    FramePlaced(sessions, SweepAll(sessions, w).sessions);
  }

  // ---- what a touch keeps

  lemma TouchKeepsShape(w: Sweep, info: SessionInfo, key: TopicRef, topic: Topic)
    requires TopicShape(topic, info, key)
    ensures TopicShape(Touched(w, info, key, topic), info, key)
  {
  }

  lemma TouchKeepsOk(w: Sweep, info: SessionInfo, key: TopicRef, topic: Topic, cap: Capability, sequence: nat)
    requires TopicShape(topic, info, key) && TopicOk(topic, cap, sequence)
    requires !TouchAt(w, info, key, topic).RunOut?
    ensures TopicOk(Touched(w, info, key, topic), cap, sequence)
    ensures Touched(w, info, key, topic).state.snapshot.Some? ==>
              Touched(w, info, key, topic) == topic
  {
  }

  lemma ShapedFrame(a: Sessions, b: Sessions, catalog: Catalog, runId: string)
    requires Shaped(a, catalog, runId) && SameFrame(a, b)
    requires forall p :: Placed(b, p) ==> TopicShape(At(b, p), b[p.id].info, p.key)
    ensures Shaped(b, catalog, runId)
  {
    forall id | id in b ensures SessionShape(b[id], id, catalog, runId) {
      assert SessionShape(a[id], id, catalog, runId);
      forall k ensures k in b[id].topics <==> k.providerId == b[id].info.providerId && Registered(catalog, k) {
        assert k in a[id].topics.Keys <==> k in b[id].topics.Keys;
      }
      forall k | k in b[id].topics ensures TopicShape(b[id].topics[k], b[id].info, k) {
        assert Placed(b, Place(id, k)) && At(b, Place(id, k)) == b[id].topics[k];
      }
    }
  }

  lemma ShapeAt(sessions: Sessions, catalog: Catalog, runId: string, p: Place)
    requires Shaped(sessions, catalog, runId) && Placed(sessions, p)
    ensures TopicShape(At(sessions, p), sessions[p.id].info, p.key)
    ensures Registered(catalog, p.key) && p.key.providerId == sessions[p.id].info.providerId
    ensures sessions[p.id].info.session == SessionRef(runId, p.id) && InfoOk(sessions[p.id].info, runId)
  {
    assert SessionShape(sessions[p.id], p.id, catalog, runId);
  }

  lemma SweepShaped(sessions: Sessions, w: Sweep, catalog: Catalog, runId: string)
    requires Shaped(sessions, catalog, runId)
    ensures Shaped(SweepAll(sessions, w).sessions, catalog, runId)
  {
    var r := SweepAll(sessions, w);
    SweepAllPointwise(sessions, w);
    forall p | Placed(r.sessions, p) ensures TopicShape(At(r.sessions, p), r.sessions[p.id].info, p.key) {
      ShapeAt(sessions, catalog, runId, p);
      TouchKeepsShape(w, sessions[p.id].info, p.key, At(sessions, p));
      assert SweptAt(sessions, r, Places(sessions), w, p);
    }
    ShapedFrame(sessions, r.sessions, catalog, runId);
  }

  lemma {:induction false} NotExhausted(sessions: Sessions, changes: seq<SubscriptionUpdate>, places: seq<Place>,
                                        w: Sweep, p: Place)
    requires forall q :: q in places ==> Placed(sessions, q)
    requires NoRepeats(places) && p in places
    requires !SweepFrom(sessions, changes, places, w).exhausted
    ensures !TouchAt(w, sessions[p.id].info, p.key, At(sessions, p)).RunOut?
    decreases |places|
  {
    var q := places[0];
    assert Placed(sessions, q);
    if p != q {
      var touch := TouchAt(w, sessions[q.id].info, q.key, At(sessions, q));
      var mid := if touch.Leave? then sessions else Put(sessions, q, touch.topic);
      var owed := if touch.Change? then changes + [touch.update] else changes;
      if !touch.Leave? { PutAt(sessions, q, touch.topic); }
      NotExhausted(mid, owed, places[1..], w, p);
    }
  }

  lemma SweepTopicsOk(sessions: Sessions, w: Sweep, catalog: Catalog, runId: string, sequence: nat)
    requires Shaped(sessions, catalog, runId) && TopicsOk(sessions, catalog, sequence)
    requires !SweepAll(sessions, w).exhausted
    ensures TopicsOk(SweepAll(sessions, w).sessions, catalog, sequence)
    ensures Sheds(sessions, SweepAll(sessions, w).sessions)
  {
    var r := SweepAll(sessions, w);
    SweepAllPointwise(sessions, w);
    PlacesInDistinct(sessions, IdsInOrder(sessions.Keys));
    forall p | Placed(r.sessions, p) && Registered(catalog, p.key)
      ensures TopicOk(At(r.sessions, p), CapabilityOf(catalog, p.key), sequence)
      ensures At(r.sessions, p).state.snapshot.Some? ==> At(r.sessions, p) == At(sessions, p)
    {
      ShapeAt(sessions, catalog, runId, p);
      NotExhausted(sessions, [], Places(sessions), w, p);
      assert SweptAt(sessions, r, Places(sessions), w, p);
      TouchKeepsOk(w, sessions[p.id].info, p.key, At(sessions, p), CapabilityOf(catalog, p.key), sequence);
    }
    forall p | Placed(r.sessions, p) && At(r.sessions, p).state.snapshot.Some?
      ensures Placed(sessions, p) && At(sessions, p).state == At(r.sessions, p).state
    {
      ShapeAt(sessions, catalog, runId, p);
    }
  }

  // ---- the updates a sweep owes

  lemma PublicPut(sessions: Sessions, p: Place, topic: Topic)
    requires Placed(sessions, p) && topic.state.source.session.sessionId == p.id && topic.state.source.topic == p.key
    ensures Public(Put(sessions, p, topic)) == PutState(Public(sessions), topic.state)
  {
    var next := Put(sessions, p, topic);
    assert PublicOf(next[p.id]).topics == PublicOf(sessions[p.id]).topics[p.key := topic.state];
  }

  /** An update that publishes the new state of one topic: a reset of a later
      generation, or a change within the generation that carries no snapshot. */
  predicate Publishes(update: SubscriptionUpdate, before: TopicSnapshot, after: TopicSnapshot) {
    match update
    case TopicReset(source, generation, _) =>
      && source == before.source && generation > before.generation
      && after == TopicSnapshot(source, generation, Initializing, None)
    case TopicChanged(topic) =>
      topic == after && after.source == before.source && after.generation == before.generation && after.snapshot.None?
    case _ => false
  }

  lemma PublishPut(sessions: Sessions, p: Place, topic: Topic, update: SubscriptionUpdate, sequence: nat,
                   catalog: Catalog, runId: string)
    requires Placed(sessions, p) && Shaped(sessions, catalog, runId)
    requires Publishes(update, At(sessions, p).state, topic.state)
    ensures Legal(Public(sessions), update, sequence, runId)
    ensures Apply(Public(sessions), update, sequence, runId) == Public(Put(sessions, p, topic))
    ensures UpdateFrom(update, {}) && !update.SessionEnded?
  {
    ShapeAt(sessions, catalog, runId, p);
    assert KnownTopic(Public(sessions), At(sessions, p).state.source);
    PublicPut(sessions, p, topic);
  }

  lemma TouchPublishes(w: Sweep, info: SessionInfo, key: TopicRef, topic: Topic)
    ensures var touch := TouchAt(w, info, key, topic);
            touch.Change? ==> Publishes(touch.update, topic.state, touch.topic.state)
  {
  }

  lemma WalkAppend(view: View, updates: seq<SubscriptionUpdate>, mid: View, update: SubscriptionUpdate,
                   sequence: nat, runId: string)
    requires Walk(view, updates, sequence, runId) == Some(mid)
    requires Legal(mid, update, sequence + |updates| + 1, runId)
    ensures Walk(view, updates + [update], sequence, runId)
            == Some(Apply(mid, update, sequence + |updates| + 1, runId))
  {
    assert (updates + [update])[..|updates|] == updates;
  }

  lemma {:induction false} SweepWalk(sessions: Sessions, changes: seq<SubscriptionUpdate>, places: seq<Place>,
                                     w: Sweep, view: View, sequence: nat, catalog: Catalog, runId: string)
    requires forall p :: p in places ==> Placed(sessions, p)
    requires Shaped(sessions, catalog, runId)
    requires Walk(view, changes, sequence, runId) == Some(Public(sessions))
    requires NoEnds(changes) && forall u :: u in changes ==> UpdateFrom(u, {})
    ensures var r := SweepFrom(sessions, changes, places, w);
            && (!r.exhausted ==> Walk(view, r.changes, sequence, runId) == Some(Public(r.sessions)))
            && NoEnds(r.changes) && forall u :: u in r.changes ==> UpdateFrom(u, {})
    decreases |places|
  {
    if places != [] {
      var p := places[0];
      assert Placed(sessions, p);
      var touch := TouchAt(w, sessions[p.id].info, p.key, At(sessions, p));
      if touch.Leave? {
        SweepWalk(sessions, changes, places[1..], w, view, sequence, catalog, runId);
      } else if touch.Change? {
        var mid := Put(sessions, p, touch.topic);
        PutAt(sessions, p, touch.topic);
        TouchPublishes(w, sessions[p.id].info, p.key, At(sessions, p));
        PublishPut(sessions, p, touch.topic, touch.update, sequence + |changes| + 1, catalog, runId);
        WalkAppend(view, changes, Public(sessions), touch.update, sequence, runId);
        PutShaped(sessions, p, touch.topic, w, catalog, runId);
        SweepWalk(mid, changes + [touch.update], places[1..], w, view, sequence, catalog, runId);
      }
    }
  }

  lemma PutShaped(sessions: Sessions, p: Place, topic: Topic, w: Sweep, catalog: Catalog, runId: string)
    requires Placed(sessions, p) && Shaped(sessions, catalog, runId)
    requires topic == Touched(w, sessions[p.id].info, p.key, At(sessions, p))
    ensures Shaped(Put(sessions, p, topic), catalog, runId)
  {
    var next := Put(sessions, p, topic);
    PutAt(sessions, p, topic);
    forall q | Placed(next, q) ensures TopicShape(At(next, q), next[q.id].info, q.key) {
      ShapeAt(sessions, catalog, runId, q);
      TouchKeepsShape(w, sessions[p.id].info, p.key, At(sessions, p));
    }
    ShapedFrame(sessions, next, catalog, runId);
  }

  /** The whole sweep's updates carry the old published view to the new one. */
  lemma SweepAllWalk(sessions: Sessions, w: Sweep, sequence: nat, catalog: Catalog, runId: string)
    requires Shaped(sessions, catalog, runId)
    ensures var r := SweepAll(sessions, w);
            && (!r.exhausted ==> Walk(Public(sessions), r.changes, sequence, runId) == Some(Public(r.sessions)))
            && NoEnds(r.changes) && forall u :: u in r.changes ==> UpdateFrom(u, {})
  {
    PlacesCover(sessions);
    SweepWalk(sessions, [], Places(sessions), w, Public(sessions), sequence, catalog, runId);
  }

  // ---- what the two sweeps achieve

  lemma TouchReconciles(info: SessionInfo, key: TopicRef, topic: Topic, subscribers: map<nat, Subscriber>, now: nat)
    ensures Touched(Reconcile(subscribers, now), info, key, topic).demanded
            == Demanded(subscribers, info.session, key)
  {
  }

  lemma ReconcileExact(sessions: Sessions, subscribers: map<nat, Subscriber>, now: nat)
    requires !SweepAll(sessions, Reconcile(subscribers, now)).exhausted
    ensures var after := SweepAll(sessions, Reconcile(subscribers, now)).sessions;
            forall p :: Placed(after, p) ==>
              At(after, p).demanded == Demanded(subscribers, after[p.id].info.session, p.key)
  {
    var w := Reconcile(subscribers, now);
    var r := SweepAll(sessions, w);
    SweepAllPointwise(sessions, w);
    forall p | Placed(r.sessions, p)
      ensures At(r.sessions, p).demanded == Demanded(subscribers, r.sessions[p.id].info.session, p.key)
    {
      assert SweptAt(sessions, r, Places(sessions), w, p);
      TouchReconciles(sessions[p.id].info, p.key, At(sessions, p), subscribers, now);
    }
  }

  lemma TouchExpires(info: SessionInfo, key: TopicRef, topic: Topic, now: nat)
    ensures var after := Touched(Overdue(now), info, key, topic);
            && after.demanded == topic.demanded
            && (after.deadline.Some? ==> after.deadline.value > now)
  {
  }

  lemma OverdueDone(sessions: Sessions, now: nat)
    requires !SweepAll(sessions, Overdue(now)).exhausted
    ensures var after := SweepAll(sessions, Overdue(now)).sessions;
            forall p :: Placed(after, p) && At(after, p).deadline.Some? ==> At(after, p).deadline.value > now
  {
    var w := Overdue(now);
    var r := SweepAll(sessions, w);
    SweepAllPointwise(sessions, w);
    forall p | Placed(r.sessions, p) && At(r.sessions, p).deadline.Some?
      ensures At(r.sessions, p).deadline.value > now
    {
      assert SweptAt(sessions, r, Places(sessions), w, p);
      TouchExpires(sessions[p.id].info, p.key, At(sessions, p), now);
    }
  }
}
