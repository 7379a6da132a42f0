/** When the service closes: only where a counter has run out. */
module Exhaustion {
  import opened Wire
  import opened Ordering
  import opened SubscriptionQueue
  import opened Views
  import opened Service
  import opened Streams
  import opened Invariant
  import opened Sweeps
  import opened Settling
  import Discards
  import Draining
  import Selecting

  // ---- counting what a sweep changes

  predicate Changes(sessions: Sessions, w: Sweep, p: Place) {
    Placed(sessions, p) && TouchAt(w, sessions[p.id].info, p.key, At(sessions, p)).Change?
  }

  predicate GivesOut(sessions: Sessions, w: Sweep, p: Place) {
    Placed(sessions, p) && TouchAt(w, sessions[p.id].info, p.key, At(sessions, p)).RunOut?
  }

  function Changing(sessions: Sessions, places: seq<Place>, w: Sweep): set<Place> {
    set p | p in places && Changes(sessions, w, p)
  }

  predicate RunsOut(sessions: Sessions, places: seq<Place>, w: Sweep) {
    exists p :: p in places && GivesOut(sessions, w, p)
  }

  /** Changing one place does not change what happens at the others. */
  lemma RestAlike(sessions: Sessions, p: Place, topic: Topic, rest: seq<Place>, w: Sweep)
    requires Placed(sessions, p) && p !in rest && forall q :: q in rest ==> Placed(sessions, q)
    ensures forall q :: q in rest ==> Placed(Put(sessions, p, topic), q)
    ensures Changing(Put(sessions, p, topic), rest, w) == Changing(sessions, rest, w)
    ensures RunsOut(Put(sessions, p, topic), rest, w) == RunsOut(sessions, rest, w)
  {
    PutAt(sessions, p, topic);
    var next := Put(sessions, p, topic);
    forall q | q in rest
      ensures Placed(next, q)
      ensures Changes(next, w, q) == Changes(sessions, w, q) && GivesOut(next, w, q) == GivesOut(sessions, w, q)
    {
      assert Placed(sessions, q) && At(next, q) == At(sessions, q) && next[q.id].info == sessions[q.id].info;
    }
  }

  lemma HeadCounts(sessions: Sessions, places: seq<Place>, w: Sweep)
    requires places != [] && NoRepeats(places) && forall p :: p in places ==> Placed(sessions, p)
    ensures Placed(sessions, places[0]) && places[0] !in places[1..]
    ensures forall p :: p in places[1..] ==> Placed(sessions, p)
    ensures |Changing(sessions, places, w)|
            == |Changing(sessions, places[1..], w)| + (if Changes(sessions, w, places[0]) then 1 else 0)
    ensures RunsOut(sessions, places, w) <==> GivesOut(sessions, w, places[0]) || RunsOut(sessions, places[1..], w)
  {
    hide Changes, GivesOut;
    var p, rest := places[0], places[1..];
    assert places == [p] + rest;
    assert p in places && Placed(sessions, p);
    assert Changing(sessions, places, w) == Changing(sessions, rest, w) + if Changes(sessions, w, p) then {p} else {};
  }

  /** A sweep runs out exactly when some place does, and otherwise owes one update for each
      place that changes. */
  lemma {:induction false} SweepCounts(sessions: Sessions, changes: seq<SubscriptionUpdate>, places: seq<Place>, w: Sweep)
    requires NoRepeats(places) && forall p :: p in places ==> Placed(sessions, p)
    ensures var r := SweepFrom(sessions, changes, places, w);
            && (r.exhausted <==> RunsOut(sessions, places, w))
            && (!r.exhausted ==> |r.changes| == |changes| + |Changing(sessions, places, w)|)
    decreases |places|
  {
    hide TouchAt, Changing, RunsOut;
    if places == [] {
      NothingChanges(sessions, w);
    } else {
      var p, rest := places[0], places[1..];
      HeadCounts(sessions, places, w);
      var touch := TouchAt(w, sessions[p.id].info, p.key, At(sessions, p));
      if touch.Leave? {
        SweepCounts(sessions, changes, rest, w);
      } else if touch.Change? {
        RestAlike(sessions, p, touch.topic, rest, w);
        SweepCounts(Put(sessions, p, touch.topic), changes + [touch.update], rest, w);
      }
    }
  }

  lemma NothingChanges(sessions: Sessions, w: Sweep)
    ensures Changing(sessions, [], w) == {} && !RunsOut(sessions, [], w)
  {
  }

  lemma {:induction false} NoRoomCloses(s: State, updates: seq<SubscriptionUpdate>)
    requires !s.stopped && s.sequence <= U64_MAX
    ensures EmitAll(s, updates).stopped <==> s.sequence + |updates| > U64_MAX
    decreases |updates|
  {
    if s.sequence + |updates| <= U64_MAX {
      Discards.EmitsWithRoom(s, updates);
    } else {
      var front := updates[..|updates| - 1];
      NoRoomCloses(s, front);
      if s.sequence + |front| <= U64_MAX {
        Discards.EmitsWithRoom(s, front);
      }
    }
  }

  // ---- a round of settling

  /** The subscribers whose streams have not ended. */
  function Serving(s: State): map<nat, Subscriber> {
    map n | n in s.subscribers && (n in s.channels ==> !Ended(s.channels[n].traffic.queue)) :: s.subscribers[n]
  }

  predicate Wanted(s: State, p: Place)
    requires Placed(s.sessions, p)
  {
    exists n :: n in Serving(s) && Draining.Asks(Serving(s)[n].selection, p, s.sessions[p.id].info.session)
  }

  /** Somebody asks for a released topic, or nobody for a demanded one. */
  predicate Turns(s: State, p: Place)
    requires Placed(s.sessions, p)
  {
    Wanted(s, p) != At(s.sessions, p).demanded
  }

  function Turning(s: State): set<Place> {
    PlacesCover(s.sessions);
    set p | p in Places(s.sessions) && Turns(s, p)
  }

  /** A topic that turns has no epoch left, or none of the generations that resuming takes. */
  ghost predicate TurnsOver(s: State) {
    exists p :: Placed(s.sessions, p) && TurnedOver(s, p)
  }

  predicate TurnedOver(s: State, p: Place)
    requires Placed(s.sessions, p)
  {
    var topic := At(s.sessions, p);
    Turns(s, p) && (topic.epoch >= U64_MAX || (!topic.demanded && topic.state.generation >= U64_MAX))
  }

  lemma WantedIsDemanded(s: State, p: Place)
    requires Placed(s.sessions, p)
    ensures Wanted(s, p) == Demanded(RetainLive(s).subscribers, s.sessions[p.id].info.session, p.key)
  {
    var live := RetainLive(s).subscribers;
    assert live == Serving(s);
    var session := s.sessions[p.id].info.session;
    forall n | n in live
      ensures Draining.Asks(live[n].selection, p, session) == Selecting.Matches(live[n].selection, session, p.key)
    {
    }
  }

  /** The law of a round: it closes the service exactly when a topic whose demand turns has no
      counter left, or fewer sequence numbers are left than topics turn. */
  lemma RoundClosesIff(s: State, now: nat)
    requires !s.stopped && s.sequence <= U64_MAX
    ensures SettleRound(s, now).stopped <==> TurnsOver(s) || s.sequence + |Turning(s)| > U64_MAX
  {
    hide SweepAll, EmitAll, Turns, TurnsOver, Turning, RunsOut, Changing, Places;
    var live := RetainLive(s);
    var w := Reconcile(live.subscribers, now);
    var places := Places(live.sessions);
    PlacesCover(live.sessions);
    PlacesInDistinct(live.sessions, IdsInOrder(live.sessions.Keys));
    assert NoRepeats(places) by { PlacesAre(live.sessions); }
    SweepCounts(live.sessions, [], places, w);
    TurningIs(s, w);
    var swept := SweepAll(live.sessions, w);
    assert swept == SweepFrom(live.sessions, [], places, w) by { SweepIs(live.sessions, w); }
    if !swept.exhausted {
      NoRoomCloses(NoteChanges(live, swept), swept.changes);
    }
  }

  lemma PlacesAre(sessions: Sessions)
    ensures Places(sessions) == PlacesIn(sessions, IdsInOrder(sessions.Keys))
  {
  }

  lemma SweepIs(sessions: Sessions, w: Sweep)
    ensures forall p :: p in Places(sessions) ==> Placed(sessions, p)
    ensures SweepAll(sessions, w) == SweepFrom(sessions, [], Places(sessions), w)
  {
    PlacesCover(sessions);
  }

  lemma TurnsIs(s: State, w: Sweep, p: Place)
    requires Placed(s.sessions, p) && w.Reconcile? && w.subscribers == RetainLive(s).subscribers
    ensures var topic := At(s.sessions, p);
            var touch := TouchAt(w, s.sessions[p.id].info, p.key, topic);
            && (touch.Leave? <==> !Turns(s, p))
            && (touch.RunOut? <==> TurnedOver(s, p))
  {
    hide Wanted, Demanded;
    WantedIsDemanded(s, p);
  }

  lemma TurningIs(s: State, w: Sweep)
    requires w.Reconcile? && w.subscribers == RetainLive(s).subscribers
    ensures forall p :: p in Places(s.sessions) ==> Placed(s.sessions, p)
    ensures RunsOut(s.sessions, Places(s.sessions), w) <==> TurnsOver(s)
    ensures !TurnsOver(s) ==> Changing(s.sessions, Places(s.sessions), w) == Turning(s)
  {
    hide TouchAt, Turns, Places;
    PlacesCover(s.sessions);
    forall p | Placed(s.sessions, p)
      ensures GivesOut(s.sessions, w, p) <==> TurnedOver(s, p)
      ensures Changes(s.sessions, w, p) <==> Turns(s, p) && !TurnedOver(s, p)
    {
      TurnsIs(s, w, p);
    }
  }

  // ---- settling

  /** Every place there is. */
  function PlaceSet(sessions: Sessions): set<Place> {
    set p | p in Places(sessions)
  }

  /** Each topic can take some more epochs and generations. */
  ghost predicate Lasts(sessions: Sessions, rounds: nat) {
    forall p :: Placed(sessions, p) ==>
      At(sessions, p).epoch + rounds <= U64_MAX && At(sessions, p).state.generation + rounds <= U64_MAX
  }

  /** Counters and sequence numbers are left for some rounds over every topic. */
  ghost predicate Spare(s: State, rounds: nat) {
    Lasts(s.sessions, rounds) && s.sequence + rounds * |PlaceSet(s.sessions)| <= U64_MAX
  }

  lemma TouchSteps(w: Sweep, info: SessionInfo, key: TopicRef, topic: Topic)
    ensures var after := Touched(w, info, key, topic);
            after.epoch <= topic.epoch + 1 && after.state.generation <= topic.state.generation + 1
  {
  }

  lemma SweepSteps(sessions: Sessions, w: Sweep, rounds: nat)
    requires Lasts(sessions, rounds) && rounds > 0
    ensures Lasts(SweepAll(sessions, w).sessions, rounds - 1)
    ensures PlaceSet(SweepAll(sessions, w).sessions) == PlaceSet(sessions)
  {
    hide SweepAll, TouchAt, Touched, Places;
    var r := SweepAll(sessions, w);
    SweepAllPointwise(sessions, w);
    PlacesCover(sessions);
    PlacesCover(r.sessions);
    forall p | Placed(r.sessions, p)
      ensures At(r.sessions, p).epoch + (rounds - 1) <= U64_MAX
      ensures At(r.sessions, p).state.generation + (rounds - 1) <= U64_MAX
    {
      assert SweptAt(sessions, r, Places(sessions), w, p);
      TouchSteps(w, sessions[p.id].info, p.key, At(sessions, p));
    }
  }

  lemma TurningFits(s: State, rounds: nat)
    requires Spare(s, rounds) && rounds > 0
    ensures !TurnsOver(s) && |Turning(s)| <= |PlaceSet(s.sessions)|
    ensures s.sequence + |Turning(s)| + (rounds - 1) * |PlaceSet(s.sessions)| <= U64_MAX
  {
    hide Turns, Places;
    assert Turning(s) <= PlaceSet(s.sessions);
    SubsetSize(Turning(s), PlaceSet(s.sessions));
  }

  lemma RoundSpares(s: State, now: nat, rounds: nat)
    requires !s.stopped && rounds > 0 && Spare(s, rounds)
    ensures !SettleRound(s, now).stopped && Spare(SettleRound(s, now), rounds - 1)
  {
    hide SweepAll, EmitAll, Turning, TurnsOver, PlaceSet, Lasts;
    var live := RetainLive(s);
    var w := Reconcile(live.subscribers, now);
    var swept := SweepAll(live.sessions, w);
    TurningFits(s, rounds);
    RoundClosesIff(s, now);
    SweepSteps(s.sessions, w, rounds);
    RoundUses(s, now);
    EmitAllFrame(NoteChanges(live, swept), swept.changes);
  }

  /** A round that does not close uses one sequence number for each topic that turns. */
  lemma RoundUses(s: State, now: nat)
    requires !s.stopped && !SettleRound(s, now).stopped
    ensures SettleRound(s, now).sequence == s.sequence + |Turning(s)|
  {
    hide SweepAll, EmitAll, Turns, TurnsOver, Turning, RunsOut, Changing, Places;
    var live := RetainLive(s);
    var w := Reconcile(live.subscribers, now);
    PlacesCover(live.sessions);
    PlacesInDistinct(live.sessions, IdsInOrder(live.sessions.Keys));
    PlacesAre(live.sessions);
    SweepCounts(live.sessions, [], Places(live.sessions), w);
    TurningIs(s, w);
    var swept := SweepAll(live.sessions, w);
    SweepIs(live.sessions, w);
    EmitAllFrame(NoteChanges(live, swept), swept.changes);
  }

  lemma {:induction false} RoundsRunOn(s: State, now: nat, rounds: nat)
    requires !s.stopped && |Live(s)| < rounds && Spare(s, rounds)
    ensures !Settle(s, now).stopped
    decreases |Live(s)|
  {
    hide SettleRound, Live, Spare;
    var next := SettleRound(s, now);
    RoundSpares(s, now, rounds);
    if Unsettled(next) {
      RoundLoses(s, now);
      RoundsRunOn(next, now, rounds - 1);
    }
  }

  /** Settling leaves the service running while counters are left for one round more than
      there are live subscribers: it never closes for another reason. */
  lemma SettleRunsOn(s: State, now: nat)
    requires !s.stopped && Spare(s, |Live(s)| + 1)
    ensures !Settle(s, now).stopped
  {
    RoundsRunOn(s, now, |Live(s)| + 1);
  }

  // ---- expiry

  predicate Overdrawn(topic: Topic, now: nat) {
    topic.deadline.Some? && topic.deadline.value <= now
  }

  function Late(s: State, now: nat): set<Place> {
    PlacesCover(s.sessions);
    set p | p in Places(s.sessions) && Overdrawn(At(s.sessions, p), now)
  }

  ghost predicate LateOver(s: State, now: nat) {
    exists p :: Placed(s.sessions, p) && Overdrawn(At(s.sessions, p), now) && At(s.sessions, p).epoch >= U64_MAX
  }

  lemma LateIs(s: State, now: nat)
    ensures forall p :: p in Places(s.sessions) ==> Placed(s.sessions, p)
    ensures RunsOut(s.sessions, Places(s.sessions), Overdue(now)) <==> LateOver(s, now)
    ensures !LateOver(s, now) ==> Changing(s.sessions, Places(s.sessions), Overdue(now)) == Late(s, now)
  {
    hide Places;
    PlacesCover(s.sessions);
    forall p | Placed(s.sessions, p)
      ensures GivesOut(s.sessions, Overdue(now), p)
              <==> Overdrawn(At(s.sessions, p), now) && At(s.sessions, p).epoch >= U64_MAX
      ensures Changes(s.sessions, Overdue(now), p)
              <==> Overdrawn(At(s.sessions, p), now) && At(s.sessions, p).epoch < U64_MAX
    {
    }
  }

  /** The service right after overdue topics were published, before demand settles. */
  function Published(s: State, now: nat): State {
    var swept := SweepAll(s.sessions, Overdue(now));
    if swept.exhausted then Close(s.(sessions := swept.sessions), EXHAUSTED)
    else EmitAll(NoteChanges(s, swept), swept.changes)
  }

  /** The law of expiry: it publishes one update for each topic whose deadline has passed, and
      closes the service exactly when one of these has no epoch left or fewer sequence numbers
      are left than there are of them. */
  lemma ExpiryClosesIff(s: State, now: nat)
    requires !s.stopped && s.sequence <= U64_MAX
    ensures var mid := Published(s, now);
            && (mid.stopped <==> LateOver(s, now) || s.sequence + |Late(s, now)| > U64_MAX)
            && (!mid.stopped ==> Expire(s, now) == Settle(mid, now) && mid.sequence == s.sequence + |Late(s, now)|)
  {
    hide SweepAll, EmitAll, LateOver, Late, RunsOut, Changing, Places, Settle;
    var w := Overdue(now);
    PlacesCover(s.sessions);
    PlacesInDistinct(s.sessions, IdsInOrder(s.sessions.Keys));
    PlacesAre(s.sessions);
    SweepCounts(s.sessions, [], Places(s.sessions), w);
    LateIs(s, now);
    var swept := SweepAll(s.sessions, w);
    SweepIs(s.sessions, w);
    if !swept.exhausted {
      NoRoomCloses(NoteChanges(s, swept), swept.changes);
      EmitAllFrame(NoteChanges(s, swept), swept.changes);
    }
  }
}
