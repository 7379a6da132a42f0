/** Every subscriber's stream follows the published view: what emission keeps. */
module Streams {
  import opened Wire
  import opened WireSize
  import opened Selecting
  import opened SubscriptionQueue
  import opened ClientValidation
  import opened Replica
  import opened Views
  import opened Service

  function PublicOf(session: Session): PublicSession {
    PublicSession(session.info, map k | k in session.topics :: session.topics[k].state)
  }

  /** The published part of the service state. */
  function Public(sessions: Sessions): View {
    map id | id in sessions :: PublicOf(sessions[id])
  }

  predicate TopicFrom(topic: TopicSnapshot, texts: set<JsonPayload>) {
    topic.snapshot.Some? ==> topic.snapshot.value.payload in texts
  }

  predicate UpdateFrom(update: SubscriptionUpdate, texts: set<JsonPayload>) {
    match update
    case TopicChanged(topic) => TopicFrom(topic, texts)
    case Event(event) => event.payload in texts
    case _ => true
  }

  /** An item carries only published payloads, and a live snapshot carries the
      sequence of the very update that delivers it. */
  predicate ItemOk(item: SubscriptionItem, texts: set<JsonPayload>) {
    match item
    case TopicFrame(topic) => TopicFrom(topic, texts)
    case Update(envelope) =>
      && UpdateFrom(envelope.update, texts)
      && (envelope.update.TopicChanged? && envelope.update.topic.snapshot.Some? ==>
            envelope.update.topic.snapshot.value.metadata.sequence == envelope.cursor.sequence)
    case _ => true
  }

  /** The client at the far end of a channel, once everything queued has arrived,
      knows exactly the selected part of the view. */
  ghost predicate Tracks(ch: Channel, view: View, runId: string, sequence: nat) {
    var verdict := AdmitAll(ch.selection, ch.traffic.accepted);
    && verdict.Ok?
    && Mirrors(verdict.value, view, ch.selection, runId, sequence)
    && forall key :: ch.selection.topics == {key} ==>
         Holds(FoldAll(ch.traffic.accepted).state, view, ch.selection, key, runId)
  }

  /** Holds of every handle for as long as it exists, whether or not it still gets updates. */
  ghost predicate ChannelOk(ch: Channel, budget: nat, texts: set<JsonPayload>) {
    && Lawful(ch.traffic, budget)
    && AdmitAll(ch.selection, ch.traffic.accepted).Ok?
    && forall item :: item in ch.traffic.accepted ==> ItemOk(item, texts) && ReplySize(item) <= budget
  }

  ghost predicate SubscriberOk(s: State, id: nat, view: View)
    requires id in s.subscribers
  {
    if s.subscribers[id].active then
      && id in s.channels
      && s.channels[id].selection == s.subscribers[id].selection
      && (!Ended(s.channels[id].traffic.queue) ==> Tracks(s.channels[id], view, s.runId, s.sequence))
    else id !in s.channels
  }

  ghost predicate Synced(s: State, view: View, texts: set<JsonPayload>) {
    && Filed(view, s.runId)
    && (forall id :: id in s.channels ==> ChannelOk(s.channels[id], s.messageBytes, texts))
    && (forall id :: id in s.subscribers ==> SubscriberOk(s, id, view))
  }

  lemma OfferOk(ch: Channel, item: SubscriptionItem, budget: nat, texts: set<JsonPayload>)
    requires ChannelOk(ch, budget, texts) && ItemOk(item, texts) && item.Update?
    requires Admits(ch.traffic.queue, item, budget) ==>
               AdmitAll(ch.selection, ch.traffic.accepted + [item]).Ok?
    ensures ChannelOk(OfferChannel(ch, item, budget), budget, texts)
  {
    OfferLawful(ch.traffic, item, budget);
  }

  /** A routed update reaches the client in step, or ends the stream cleanly. */
  lemma OfferTracks(ch: Channel, view: View, runId: string, sequence: nat, update: SubscriptionUpdate,
                    budget: nat, texts: set<JsonPayload>)
    requires ChannelOk(ch, budget, texts) && UpdateFrom(update, texts) && Filed(view, runId)
    requires !Ended(ch.traffic.queue) && Tracks(ch, view, runId, sequence)
    requires Legal(view, update, sequence + 1, runId) && Routed(view, update, ch.selection)
    ensures var next := OfferChannel(ch, Framing(runId, sequence + 1, update), budget);
            && ChannelOk(next, budget, texts)
            && (!Ended(next.traffic.queue) ==>
                  Tracks(next, Apply(view, update, sequence + 1, runId), runId, sequence + 1))
  {
    var item := Framing(runId, sequence + 1, update);
    var before := ch.traffic.accepted;
    ClientStep(AdmitAll(ch.selection, before).value, view, ch.selection, runId, sequence, update);
    AdmitAppend(ch.selection, before, item);
    FoldAppend(before, item);
    forall key | ch.selection.topics == {key}
      ensures Holds(FoldAll(before + [item]).state, Apply(view, update, sequence + 1, runId), ch.selection, key, runId)
    {
      ReplicaStep(FoldAll(before).state, view, ch.selection, key, runId, sequence + 1, update);
    }
    OfferOk(ch, item, budget, texts);
  }

  lemma UnheardTracks(ch: Channel, view: View, runId: string, sequence: nat, update: SubscriptionUpdate)
    requires Tracks(ch, view, runId, sequence) && Filed(view, runId)
    requires Legal(view, update, sequence + 1, runId) && !Routed(view, update, ch.selection)
    ensures Tracks(ch, Apply(view, update, sequence + 1, runId), runId, sequence + 1)
  {
    var v := AdmitAll(ch.selection, ch.traffic.accepted).value;
    UnroutedStep(v.sessions, view, ch.selection, runId, sequence + 1, update);
    forall key | ch.selection.topics == {key}
      ensures Holds(FoldAll(ch.traffic.accepted).state, Apply(view, update, sequence + 1, runId),
                    ch.selection, key, runId)
    {
      UnroutedReplica(FoldAll(ch.traffic.accepted).state, view, ch.selection, key, runId, sequence + 1, update);
    }
  }

  lemma FinishOk(ch: Channel, end: SubscriptionEnd, discard: bool, budget: nat, texts: set<JsonPayload>)
    requires ChannelOk(ch, budget, texts)
    ensures ChannelOk(FinishChannel(ch, end, discard), budget, texts)
    ensures Ended(FinishChannel(ch, end, discard).traffic.queue)
  {
    FinishLawful(ch.traffic, end, discard, budget);
  }

  lemma CloseSynced(s: State, end: SubscriptionEnd, view: View, next: View, texts: set<JsonPayload>)
    requires Synced(s, view, texts) && Filed(next, s.runId)
    ensures Synced(Close(s, end), next, texts)
  {
    var t := Close(s, end);
    forall id | id in t.channels ensures ChannelOk(t.channels[id], t.messageBytes, texts) {
      assert ChannelOk(s.channels[id], s.messageBytes, texts);
      FinishOk(s.channels[id], end, true, s.messageBytes, texts);
    }
  }

  /** A session end is routed by the metadata that the view shows for the session. */
  predicate RoutesAs(s: State, view: View, update: SubscriptionUpdate) {
    update.SessionEnded? ==>
      && update.session.sessionId in s.sessions
      && update.session.sessionId in view
      && s.sessions[update.session.sessionId].info == view[update.session.sessionId].info
  }

  function EmittedChannel(s: State, id: nat, update: SubscriptionUpdate): Channel
    requires id in s.channels
  {
    if Hears(s, id, update)
    then OfferChannel(s.channels[id], Framing(s.runId, s.sequence + 1, update), s.messageBytes)
    else s.channels[id]
  }

  lemma EmitShape(s: State, update: SubscriptionUpdate)
    requires !s.stopped && s.sequence < U64_MAX
    ensures var t := Emit(s, update);
            && t == s.(sequence := s.sequence + 1, channels := t.channels)
            && t.channels.Keys == s.channels.Keys
            && forall id :: id in s.channels ==> t.channels[id] == EmittedChannel(s, id, update)
  {
    var t := s.(sequence := s.sequence + 1);
    assert forall id :: Hears(t, id, update) == Hears(s, id, update);
  }

  /** What a step leaves of a channel, fed or not. */
  ghost predicate OkAfter(after: Channel, ch: Channel, fed: bool, view: View, runId: string, sequence: nat,
                          budget: nat, texts: set<JsonPayload>)
  {
    && ChannelOk(after, budget, texts)
    && after.selection == ch.selection
    && (fed && !Ended(after.traffic.queue) ==> Tracks(after, view, runId, sequence))
  }

  /** The update carries every live channel from one view to the next. */
  ghost predicate Carries(update: SubscriptionUpdate, view: View, next: View, runId: string, sequence: nat,
                          budget: nat, texts: set<JsonPayload>)
  {
    forall ch :: ChannelOk(ch, budget, texts) && !Ended(ch.traffic.queue) && Tracks(ch, view, runId, sequence) ==>
      OkAfter(if Routed(view, update, ch.selection)
              then OfferChannel(ch, Framing(runId, sequence + 1, update), budget) else ch,
              ch, true, next, runId, sequence + 1, budget, texts)
  }

  lemma LegalCarries(update: SubscriptionUpdate, view: View, next: View, runId: string, sequence: nat,
                     budget: nat, texts: set<JsonPayload>)
    requires UpdateFrom(update, texts) && Filed(view, runId)
    requires Legal(view, update, sequence + 1, runId) && next == Apply(view, update, sequence + 1, runId)
    ensures Carries(update, view, next, runId, sequence, budget, texts)
  {
    forall ch | ChannelOk(ch, budget, texts) && !Ended(ch.traffic.queue) && Tracks(ch, view, runId, sequence)
      ensures OkAfter(if Routed(view, update, ch.selection)
                      then OfferChannel(ch, Framing(runId, sequence + 1, update), budget) else ch,
                      ch, true, next, runId, sequence + 1, budget, texts)
    {
      if Routed(view, update, ch.selection) {
        OfferTracks(ch, view, runId, sequence, update, budget, texts);
      } else {
        UnheardTracks(ch, view, runId, sequence, update);
      }
    }
  }

  lemma EmittedIsRouted(s: State, id: nat, update: SubscriptionUpdate, view: View)
    requires id in s.channels && RoutesAs(s, view, update) && id in s.subscribers && s.subscribers[id].active
    requires s.channels[id].selection == s.subscribers[id].selection
    ensures EmittedChannel(s, id, update)
            == if Routed(view, update, s.channels[id].selection)
               then OfferChannel(s.channels[id], Framing(s.runId, s.sequence + 1, update), s.messageBytes)
               else s.channels[id]
  {
  }

  /** A channel that has ended, or that the service no longer feeds, does not change. */
  lemma EmitDead(s: State, id: nat, update: SubscriptionUpdate)
    requires id in s.channels && (id !in s.subscribers || Ended(s.channels[id].traffic.queue))
    ensures EmittedChannel(s, id, update) == s.channels[id]
  {
  }

  ghost predicate EmittedOk(s: State, id: nat, update: SubscriptionUpdate, next: View, texts: set<JsonPayload>)
    requires id in s.channels
  {
    OkAfter(EmittedChannel(s, id, update), s.channels[id], id in s.subscribers, next, s.runId, s.sequence + 1,
            s.messageBytes, texts)
  }

  lemma EmittedSynced(s: State, t: State, update: SubscriptionUpdate, view: View, next: View, texts: set<JsonPayload>)
    requires Synced(s, view, texts) && Filed(next, s.runId)
    requires t == s.(sequence := s.sequence + 1, channels := t.channels) && t.channels.Keys == s.channels.Keys
    requires forall id :: id in s.channels ==> t.channels[id] == EmittedChannel(s, id, update)
    requires forall id :: id in s.channels ==> EmittedOk(s, id, update, next, texts)
    ensures Synced(t, next, texts)
  {
    forall id | id in t.channels ensures ChannelOk(t.channels[id], t.messageBytes, texts) {
      assert EmittedOk(s, id, update, next, texts);
    }
    forall id | id in t.subscribers ensures SubscriberOk(t, id, next) {
      assert SubscriberOk(s, id, view);
      if s.subscribers[id].active { assert EmittedOk(s, id, update, next, texts); }
    }
  }

  lemma EmitEach(s: State, id: nat, update: SubscriptionUpdate, view: View, next: View, texts: set<JsonPayload>)
    requires id in s.channels && ChannelOk(s.channels[id], s.messageBytes, texts)
    requires id in s.subscribers ==> SubscriberOk(s, id, view)
    requires RoutesAs(s, view, update)
    requires Carries(update, view, next, s.runId, s.sequence, s.messageBytes, texts)
    ensures EmittedOk(s, id, update, next, texts)
  {
    if id !in s.subscribers || Ended(s.channels[id].traffic.queue) {
      EmitDead(s, id, update);
    } else {
      var ch := s.channels[id];
      EmittedIsRouted(s, id, update, view);
      assert Tracks(ch, view, s.runId, s.sequence);
    }
  }

  /** The view after one update, if the update is legal. */
  function After(view: View, update: SubscriptionUpdate, sequence: nat, runId: string): Option<View> {
    if Legal(view, update, sequence, runId) then Some(Apply(view, update, sequence, runId)) else None
  }

  /** Emission keeps every client in step with the view it publishes. */
  lemma EmitSynced(s: State, update: SubscriptionUpdate, view: View, next: View, texts: set<JsonPayload>)
    requires Synced(s, view, texts)
    requires Legal(view, update, s.sequence + 1, s.runId) && UpdateFrom(update, texts) && RoutesAs(s, view, update)
    requires next == Apply(view, update, s.sequence + 1, s.runId)
    ensures Emit(s, update).stopped ==> Synced(Emit(s, update), view, texts)
    ensures !Emit(s, update).stopped ==> Synced(Emit(s, update), next, texts)
  {
    if s.stopped {
    } else if s.sequence >= U64_MAX {
      CloseSynced(s, EXHAUSTED, view, view, texts);
    } else {
      EmitShape(s, update);
      FiledStep(view, update, s.sequence + 1, s.runId);
      LegalCarries(update, view, next, s.runId, s.sequence, s.messageBytes, texts);
      forall id | id in s.channels ensures EmittedOk(s, id, update, next, texts) {
        assert ChannelOk(s.channels[id], s.messageBytes, texts);
        assert id in s.subscribers ==> SubscriberOk(s, id, view);
        EmitEach(s, id, update, view, next, texts);
      }
      EmittedSynced(s, Emit(s, update), update, view, next, texts);
    }
  }

  /** The view after a list of updates, if each was legal when it came. */
  function Walk(view: View, updates: seq<SubscriptionUpdate>, sequence: nat, runId: string): Option<View> {
    if updates == [] then Some(view)
    else
      var last := updates[|updates| - 1];
      match Walk(view, updates[..|updates| - 1], sequence, runId)
      case None => None
      case Some(w) =>
        if Legal(w, last, sequence + |updates|, runId)
        then Some(Apply(w, last, sequence + |updates|, runId))
        else None
  }

  predicate NoEnds(updates: seq<SubscriptionUpdate>) {
    forall u :: u in updates ==> !u.SessionEnded?
  }

  /** Emission that stops the service leaves nobody to keep in step. */
  lemma EmitStops(s: State, update: SubscriptionUpdate, view: View, next: View, texts: set<JsonPayload>)
    requires Synced(s, view, texts) && Filed(next, s.runId) && !s.stopped && Emit(s, update).stopped
    ensures Synced(Emit(s, update), next, texts)
  {
    assert Emit(s, update) == Close(s, EXHAUSTED);
    CloseSynced(s, EXHAUSTED, view, next, texts);
  }

  lemma {:induction false} EmitAllSynced(s: State, updates: seq<SubscriptionUpdate>, view: View, end: View,
                                         texts: set<JsonPayload>)
    requires Synced(s, view, texts)
    requires Walk(view, updates, s.sequence, s.runId) == Some(end) && NoEnds(updates)
    requires forall u :: u in updates ==> UpdateFrom(u, texts)
    ensures var t := EmitAll(s, updates);
            && (t.stopped ==> Synced(t, view, texts))
            && (!t.stopped ==> Synced(t, end, texts))
  {
    if updates != [] {
      var front := updates[..|updates| - 1];
      var last := updates[|updates| - 1];
      assert last in updates;
      var mid := Walk(view, front, s.sequence, s.runId).value;
      EmitAllSynced(s, front, view, mid, texts);
      EmitAllFrame(s, front);
      var t := EmitAll(s, front);
      if !t.stopped {
        EmitSynced(t, last, mid, end, texts);
        if Emit(t, last).stopped {
          EmitStops(t, last, mid, view, texts);
        }
      }
    }
  }
}
