/** What expiry guarantees: overdue topics lose their data and their tickets. */
module Expiry {
  import opened Wire
  import opened Ordering
  import opened Service
  import opened Invariant
  import opened Sweeps
  import opened Settling
  import opened Discards
  import opened Epochs

  /** Every deadline lies in the future. */
  ghost predicate Ahead(sessions: Sessions, now: nat) {
    forall p :: Placed(sessions, p) && At(sessions, p).deadline.Some? ==> At(sessions, p).deadline.value > now
  }

  lemma TouchAhead(subscribers: map<nat, Subscriber>, now: nat, info: SessionInfo, key: TopicRef, topic: Topic)
    requires topic.deadline.Some? ==> topic.deadline.value > now
    ensures var after := Touched(Reconcile(subscribers, now), info, key, topic);
            after.deadline.Some? ==> after.deadline.value > now
  {
  }

  lemma SweepAhead(sessions: Sessions, subscribers: map<nat, Subscriber>, now: nat)
    requires Ahead(sessions, now)
    ensures Ahead(SweepAll(sessions, Reconcile(subscribers, now)).sessions, now)
  {
    var w := Reconcile(subscribers, now);
    var r := SweepAll(sessions, w);
    SweepAllPointwise(sessions, w);
    forall p | Placed(r.sessions, p) && At(r.sessions, p).deadline.Some?
      ensures At(r.sessions, p).deadline.value > now
    {
      assert SweptAt(sessions, r, Places(sessions), w, p);
      TouchAhead(subscribers, now, sessions[p.id].info, p.key, At(sessions, p));
    }
  }

  lemma CloseAhead(s: State, end: SubscriptionEnd, now: nat)
    ensures Ahead(Close(s, end).sessions, now)
  {
    var t := Close(s, end);
    forall p | Placed(t.sessions, p) ensures At(t.sessions, p).deadline.None? {
      assert At(t.sessions, p) == Quiet(At(s.sessions, p));
    }
  }

  lemma {:induction false} EmitAllAhead(s: State, updates: seq<SubscriptionUpdate>, now: nat)
    requires Ahead(s.sessions, now)
    ensures Ahead(EmitAll(s, updates).sessions, now)
  {
    if updates != [] {
      var mid := EmitAll(s, updates[..|updates| - 1]);
      EmitAllAhead(s, updates[..|updates| - 1], now);
      if !mid.stopped && mid.sequence >= U64_MAX {
        CloseAhead(mid, EXHAUSTED, now);
      } else {
        assert Emit(mid, updates[|updates| - 1]).sessions == mid.sessions;
      }
    }
  }

  lemma RoundAhead(s: State, now: nat)
    requires Ahead(s.sessions, now)
    ensures Ahead(SettleRound(s, now).sessions, now)
  {
    var live := RetainLive(s);
    var r := SweepAll(live.sessions, Reconcile(live.subscribers, now));
    SweepAhead(live.sessions, live.subscribers, now);
    if r.exhausted {
      CloseAhead(live.(sessions := r.sessions), EXHAUSTED, now);
    } else {
      EmitAllAhead(NoteChanges(live, r), r.changes, now);
    }
  }

  lemma {:induction false} SettleAhead(s: State, now: nat)
    requires Ahead(s.sessions, now)
    ensures Ahead(Settle(s, now).sessions, now)
    decreases |Live(s)|
  {
    RoundAhead(s, now);
    if Unsettled(SettleRound(s, now)) {
      RoundLoses(s, now);
      SettleAhead(SettleRound(s, now), now);
    }
  }

  /** After expiry every deadline is later than now, so every topic that is still
      available is fresh. */
  lemma ExpireAhead(s: State, now: nat)
    ensures Ahead(Expire(s, now).sessions, now)
  {
    var r := SweepAll(s.sessions, Overdue(now));
    if r.exhausted {
      CloseAhead(s.(sessions := r.sessions), EXHAUSTED, now);
    } else {
      OverdueDone(s.sessions, now);
      EmitAllAhead(NoteChanges(s, r), r.changes, now);
      SettleAhead(EmitAll(NoteChanges(s, r), r.changes), now);
    }
  }

  predicate IsOverdue(topic: Topic, now: nat) {
    topic.deadline.Some? && topic.deadline.value <= now
  }

  lemma TouchRaises(info: SessionInfo, key: TopicRef, topic: Topic, now: nat)
    requires IsOverdue(topic, now) && !TouchAt(Overdue(now), info, key, topic).RunOut?
    ensures Touched(Overdue(now), info, key, topic).epoch == topic.epoch + 1
  {
  }

  lemma SweepRaises(sessions: Sessions, now: nat, p: Place)
    requires !SweepAll(sessions, Overdue(now)).exhausted && Placed(sessions, p) && IsOverdue(At(sessions, p), now)
    ensures Placed(SweepAll(sessions, Overdue(now)).sessions, p)
    ensures At(SweepAll(sessions, Overdue(now)).sessions, p).epoch == At(sessions, p).epoch + 1
  {
    var w := Overdue(now);
    var r := SweepAll(sessions, w);
    SweepAllPointwise(sessions, w);
    PlacesCover(sessions);
    PlacesInDistinct(sessions, IdsInOrder(sessions.Keys));
    assert SweptAt(sessions, r, Places(sessions), w, p);
    NotExhausted(sessions, [], Places(sessions), w, p);
    TouchRaises(sessions[p.id].info, p.key, At(sessions, p), now);
  }

  /** Expiring a topic raises its epoch, so the ticket that fed it is no longer current. */
  lemma ExpiryRaisesEpoch(s: State, now: nat, p: Place)
    requires Placed(s.sessions, p) && IsOverdue(At(s.sessions, p), now)
    ensures var t := Expire(s, now);
            t.stopped || (Placed(t.sessions, p) && At(t.sessions, p).epoch > At(s.sessions, p).epoch)
  {
    var r := SweepAll(s.sessions, Overdue(now));
    var t := Expire(s, now);
    if !t.stopped && !r.exhausted {
      var mid := EmitAll(NoteChanges(s, r), r.changes);
      SweepRaises(s.sessions, now, p);
      EmitAllForward(NoteChanges(s, r), r.changes, p.id);
      SettleForward(mid, now, p.id);
      assert mid.sessions == r.sessions;
      assert p.key in mid.sessions[p.id].topics.Keys;
      assert Onward(mid.sessions[p.id].topics[p.key], t.sessions[p.id].topics[p.key]);
    }
  }
}
