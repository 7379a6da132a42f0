/** Opening, reading and dropping subscriptions keeps the service invariant. */
module Subscribing {
  import opened Wire
  import opened Selecting
  import opened Ordering
  import opened SubscriptionQueue
  import opened ClientValidation
  import opened Views
  import opened Service
  import opened Streams
  import opened Publication
  import opened Invariant
  import opened Settling
  import opened Bootstrapping

  lemma {:induction false} CheckedTopics(s: State, selector: SessionSelector, keys: seq<TopicRef>)
    requires CheckTopics(s, selector, keys).None?
    ensures forall k :: k in keys ==> Registered(s.catalog, k)
  {
    if keys != [] {
      CheckedTopics(s, selector, keys[1..]);
      assert keys == [keys[0]] + keys[1..];
    }
  }

  lemma CheckedSelection(s: State, selection: Selection)
    requires CheckSelection(s, selection).None?
    ensures !s.stopped && SelectionOk(selection, s.catalog)
  {
    CheckedTopics(s, selection.sessions, TopicsInOrder(selection.topics));
  }

  lemma EnrollSteady(s: State, id: nat, selection: Selection, texts: set<JsonPayload>)
    requires Steady(s, texts) && !s.stopped && SelectionOk(selection, s.catalog)
    requires id == s.nextSubscription + 1 <= U64_MAX
    ensures Steady(Enroll(s, id, selection), texts)
  {
    var t := Enroll(s, id, selection);
    assert id !in s.channels && id !in s.subscribers;
    forall n | n in t.subscribers ensures SubscriberOk(t, n, Public(t.sessions)) {
      if n != id { assert SubscriberOk(s, n, Public(s.sessions)); }
    }
  }

  /** Everyone but the subscriber being set up is active. */
  ghost predicate OthersActive(s: State, id: nat) {
    forall n :: n in s.subscribers && n != id ==> s.subscribers[n].active
  }

  lemma ActivateSynced(s: State, id: nat, frames: seq<SubscriptionItem>, texts: set<JsonPayload>)
    requires Steady(s, texts) && id in s.subscribers && !s.subscribers[id].active
    requires frames == Bootstrap(s, s.subscribers[id].selection) && FramesExceed(frames, 0, s.messageBytes).None?
    ensures Synced(Activate(s, id, frames), Public(s.sessions), texts)
  {
    var t := Activate(s, id, frames);
    var selection := s.subscribers[id].selection;
    BootstrapOk(s, selection, s.messageBytes, texts);
    BootstrapTracks(s, selection);
    forall n | n in t.channels ensures ChannelOk(t.channels[n], t.messageBytes, texts) {
      if n != id { assert ChannelOk(s.channels[n], s.messageBytes, texts); }
    }
    forall n | n in t.subscribers ensures SubscriberOk(t, n, Public(s.sessions)) {
      if n != id { assert SubscriberOk(s, n, Public(s.sessions)); }
    }
  }

  lemma ActivateSettled(s: State, id: nat, frames: seq<SubscriptionItem>)
    requires Settled(s) && id in s.subscribers
    ensures Settled(Activate(s, id, frames))
  {
    var t := Activate(s, id, frames);
    forall p | Placed(t.sessions, p)
      ensures At(t.sessions, p).demanded == Demanded(t.subscribers, t.sessions[p.id].info.session, p.key)
    {
      SameDemandedBy(s.subscribers, t.subscribers, s.sessions[p.id].info.session, p.key);
    }
    forall n | n in t.subscribers ensures !Gone(t, n) {
      if n != id { assert !Gone(s, n); }
    }
  }

  lemma ActivateOk(s: State, id: nat, frames: seq<SubscriptionItem>, texts: set<JsonPayload>)
    requires StateOk(s) && Cached(s, texts) && Bounded(s) && id in s.subscribers
    ensures var t := Activate(s, id, frames);
            StateOk(t) && Cached(t, texts) && Bounded(t)
  {
    CachedSheds(s, Activate(s, id, frames), texts);
  }

  lemma ActivateInv(s: State, id: nat, frames: seq<SubscriptionItem>, texts: set<JsonPayload>)
    requires Steady(s, texts) && Settled(s) && OthersActive(s, id) && id in s.subscribers
    requires Synced(Activate(s, id, frames), Public(s.sessions), texts)
    ensures Inv(Activate(s, id, frames), texts)
  {
    ActivateSettled(s, id, frames);
    ActivateOk(s, id, frames, texts);
  }

  lemma SameDemandedBy(a: map<nat, Subscriber>, b: map<nat, Subscriber>, session: SessionRef, key: TopicRef)
    requires a.Keys == b.Keys && forall id :: id in a ==> a[id].selection == b[id].selection
    ensures Demanded(a, session, key) == Demanded(b, session, key)
  {
    if Demanded(a, session, key) {
      var id :| id in a && Matches(a[id].selection, session, key);
      assert id in b && Matches(b[id].selection, session, key);
    }
    if Demanded(b, session, key) {
      var id :| id in b && Matches(b[id].selection, session, key);
      assert id in a && Matches(a[id].selection, session, key);
    }
  }

  lemma RemoveSteady(s: State, id: nat, handles: set<nat>, texts: set<JsonPayload>)
    requires Steady(s, texts) && handles <= {id}
    ensures Steady(s.(subscribers := s.subscribers - {id}, channels := s.channels - handles), texts)
  {
    hide ChannelOk, Tracks, Retained;
    var t := s.(subscribers := s.subscribers - {id}, channels := s.channels - handles);
    forall n | n in t.subscribers ensures SubscriberOk(t, n, Public(t.sessions)) {
      assert SubscriberOk(s, n, Public(s.sessions));
    }
    CachedSheds(s, t, texts);
  }

  lemma CaptureIs(s: State, id: nat)
    requires Capture(s, id).Ok?
    ensures id in s.subscribers && Capture(s, id).value == Bootstrap(s, s.subscribers[id].selection)
    ensures FramesExceed(Capture(s, id).value, 0, s.messageBytes).None?
  {
  }

  /** From a settled state, set-up either activates the subscriber or takes it back. */
  lemma FinishSetUp(s: State, id: nat, captured: Result<seq<SubscriptionItem>, RequestError>, now: nat,
                    texts: set<JsonPayload>)
    requires Steady(s, texts) && Settled(s) && OthersActive(s, id)
    requires id in s.subscribers ==> !s.subscribers[id].active
    requires captured == Capture(s, id)
    ensures captured.Ok? ==> id in s.subscribers && Inv(Activate(s, id, captured.value), texts)
    ensures captured.Err? ==> Inv(Settle(s.(subscribers := s.subscribers - {id}), now), texts)
  {
    if captured.Ok? {
      CaptureIs(s, id);
      ActivateSynced(s, id, captured.value, texts);
      ActivateInv(s, id, captured.value, texts);
    } else {
      UndoSetUp(s, id, now, texts);
    }
  }

  lemma UndoSetUp(s: State, id: nat, now: nat, texts: set<JsonPayload>)
    requires Steady(s, texts) && OthersActive(s, id)
    ensures Inv(Settle(s.(subscribers := s.subscribers - {id}), now), texts)
  {
    hide Steady, Settle, Inv;
    var removed := s.(subscribers := s.subscribers - {id});
    RemoveSteady(s, id, {}, texts);
    assert s.channels - {} == s.channels;
    assert removed == s.(subscribers := s.subscribers - {id}, channels := s.channels - {});
    SettleInv(removed, now, texts);
  }

  lemma InvSteady(s: State, texts: set<JsonPayload>)
    requires Inv(s, texts)
    ensures Steady(s, texts) && forall n :: n in s.subscribers ==> n <= s.nextSubscription
  {
  }

  lemma EnrolledSettles(s: State, id: nat, selection: Selection, now: nat, texts: set<JsonPayload>)
    requires Inv(s, texts) && !s.stopped && SelectionOk(selection, s.catalog)
    requires id == s.nextSubscription + 1 <= U64_MAX
    ensures var settled := Settle(Enroll(s, id, selection), now);
            && Steady(settled, texts) && Settled(settled) && OthersActive(settled, id)
            && (id in settled.subscribers ==> !settled.subscribers[id].active)
  {
    hide Settle, StateOk, Synced, Cached, Bounded, Settled;
    InvSteady(s, texts);
    EnrollSteady(s, id, selection, texts);
    SettleSteady(Enroll(s, id, selection), now, texts);
  }

  lemma SetUpInv(s: State, id: nat, selection: Selection, now: nat, texts: set<JsonPayload>)
    requires Inv(s, texts) && !s.stopped && SelectionOk(selection, s.catalog)
    requires id == s.nextSubscription + 1 <= U64_MAX
    ensures Inv(SetUp(s, id, selection, now).0, texts)
  {
    EnrolledSettles(s, id, selection, now, texts);
    var settled := Settle(Enroll(s, id, selection), now);
    FinishSetUp(settled, id, Capture(settled, id), now, texts);
  }

  /** An admitted request is set up under the next identity; any other changes nothing. */
  lemma OpenCheckedCases(s: State, selection: Selection, now: nat) returns (admitted: bool)
    ensures !admitted ==> OpenChecked(s, selection, now).0 == s
    ensures admitted ==> !s.stopped && SelectionOk(selection, s.catalog) && s.nextSubscription < U64_MAX
    ensures admitted ==> OpenChecked(s, selection, now) == SetUp(s, s.nextSubscription + 1, selection, now)
  {
    hide SetUp, CheckSelection;
    admitted := CheckSelection(s, selection).None? && s.nextSubscription < U64_MAX;
    if admitted {
      CheckedSelection(s, selection);
    }
  }

  lemma OpenCheckedInv(s: State, selection: Selection, now: nat, texts: set<JsonPayload>)
    requires Inv(s, texts)
    ensures Inv(OpenChecked(s, selection, now).0, texts)
  {
    var admitted := OpenCheckedCases(s, selection, now);
    if admitted {
      SetUpInv(s, s.nextSubscription + 1, selection, now, texts);
    }
  }

  /** Subscribing keeps the invariant, whether it is admitted, refused or fails half way. */
  lemma OpenInv(s: State, request: Subscribe, at: nat, now: nat, texts: set<JsonPayload>)
    requires Inv(s, texts)
    ensures Inv(Open(s, request, at, now).0, texts)
  {
    ExpireInv(s, at, texts);
    OpenCheckedInv(Expire(s, at), Normalize(request), now, texts);
  }

  /** Dropping a handle releases its demand and nothing else. */
  lemma DropInv(s: State, id: nat, now: nat, texts: set<JsonPayload>)
    requires Inv(s, texts)
    ensures Inv(Drop(s, id, now), texts)
  {
    RemoveSteady(s, id, {id}, texts);
    SettleInv(s.(subscribers := s.subscribers - {id}, channels := s.channels - {id}), now, texts);
  }

  lemma TakeChannel(ch: Channel, view: View, runId: string, sequence: nat, budget: nat, texts: set<JsonPayload>)
    requires ChannelOk(ch, budget, texts)
    ensures var after := ch.(traffic := Take(ch.traffic));
            && ChannelOk(after, budget, texts)
            && Ended(after.traffic.queue) == Ended(ch.traffic.queue)
            && (Tracks(ch, view, runId, sequence) ==> Tracks(after, view, runId, sequence))
  {
    TakeLawful(ch.traffic, budget);
  }

  lemma TakeSubscriber(s: State, id: nat, n: nat, view: View)
    requires id in s.channels && n in s.subscribers && SubscriberOk(s, n, view)
    requires var after := s.channels[id].(traffic := Take(s.channels[id].traffic));
             && Ended(after.traffic.queue) == Ended(s.channels[id].traffic.queue)
             && (Tracks(s.channels[id], view, s.runId, s.sequence) ==> Tracks(after, view, s.runId, s.sequence))
    ensures SubscriberOk(TakeFrom(s, id), n, view)
  {
  }

  lemma TakeSynced(s: State, id: nat, view: View, texts: set<JsonPayload>)
    requires Synced(s, view, texts) && id in s.channels
    ensures Synced(TakeFrom(s, id), view, texts)
    ensures forall n :: Gone(TakeFrom(s, id), n) == Gone(s, n)
  {
    hide ChannelOk, Tracks, Take;
    var t := TakeFrom(s, id);
    assert ChannelOk(s.channels[id], s.messageBytes, texts);
    TakeChannel(s.channels[id], view, s.runId, s.sequence, s.messageBytes, texts);
    forall n | n in t.channels ensures ChannelOk(t.channels[n], t.messageBytes, texts) {
      if n != id { assert ChannelOk(s.channels[n], s.messageBytes, texts); }
    }
    forall n | n in t.subscribers ensures SubscriberOk(t, n, view) {
      TakeSubscriber(s, id, n, view);
    }
  }

  /** A reader taking its next item never disturbs the service. */
  lemma TakeInv(s: State, id: nat, texts: set<JsonPayload>)
    requires Inv(s, texts)
    ensures Inv(TakeFrom(s, id), texts)
  {
    if id in s.channels {
      var t := TakeFrom(s, id);
      TakeSynced(s, id, Public(s.sessions), texts);
      CachedSheds(s, t, texts);
      forall n | n in t.subscribers ensures !Gone(t, n) {
        assert !Gone(s, n);
      }
    }
  }
}
