/** A feed as the object that several listeners share. */
module SharedFeeds {
  import opened Wire
  import opened Replica
  import L = Listening

  /** Whether an item changes the state that listeners are shown. */
  predicate ChangesState(item: SubscriptionItem) {
    item.SessionFrame? || item.TopicFrame? || item.Ready? || (item.Update? && !item.envelope.update.Event?)
  }

  predicate CarriesEvent(item: SubscriptionItem) {
    item.Update? && item.envelope.update.Event?
  }

  /** What one item does to a listener's queue, given the feed after the item. */
  function Heard(q: L.Queue, item: SubscriptionItem, topic: TopicRef, after: FeedState, ready: bool, receive: bool,
                 budget: nat): L.Queue
  {
    if CarriesEvent(item) then L.TakeEvent(q, item.envelope.update.event, receive, budget)
    else if ChangesState(item) && ready then L.TakeState(q, topic, after)
    else q
  }

  predicate Distinct(all: seq<L.Listener>) {
    forall i, j :: 0 <= i < j < |all| ==> all[i] != all[j]
  }

  class SharedFeed {
    const topic: TopicRef
    var listeners: seq<L.Listener>
    var current: FeedState
    var sequence: nat
    var ready: bool
    var stopped: bool

    ghost predicate Valid()
      reads this, listeners
    {
      Distinct(listeners) && forall i :: 0 <= i < |listeners| ==> listeners[i].Valid()
    }

    constructor (topic: TopicRef)
      ensures Valid() && listeners == [] && current == NOTHING && sequence == 0 && !ready && !stopped
      ensures this.topic == topic
    {
      this.topic := topic;
      listeners, current, sequence, ready, stopped := [], NOTHING, 0, false, false;
    }

    /** Shows the current state to every listener, once the bootstrap is complete. */
    method PublishState()
      requires Valid()
      modifies listeners
      ensures Valid()
      ensures forall i :: 0 <= i < |listeners| ==>
                listeners[i].Contents()
                == if ready then L.TakeState(old(listeners[i].Contents()), topic, current)
                   else old(listeners[i].Contents())
    {
      hide L.Balanced, L.TakeState;
      if !ready {
        return;
      }
      for i := 0 to |listeners|
        invariant Valid()
        invariant forall j :: 0 <= j < i ==>
                    listeners[j].Contents() == L.TakeState(old(listeners[j].Contents()), topic, current)
        invariant forall j :: i <= j < |listeners| ==> listeners[j].Contents() == old(listeners[j].Contents())
      {
        listeners[i].SetState(topic, current);
      }
    }

    method OfferEvent(event: EventEnvelope)
      requires Valid()
      modifies listeners
      ensures Valid()
      ensures forall i :: 0 <= i < |listeners| ==>
                listeners[i].Contents()
                == L.TakeEvent(old(listeners[i].Contents()), event, listeners[i].receiveEvents, listeners[i].budget)
    {
      hide L.Balanced, L.TakeEvent;
      for i := 0 to |listeners|
        invariant Valid()
        invariant forall j :: 0 <= j < i ==>
                    listeners[j].Contents()
                    == L.TakeEvent(old(listeners[j].Contents()), event, listeners[j].receiveEvents, listeners[j].budget)
        invariant forall j :: i <= j < |listeners| ==> listeners[j].Contents() == old(listeners[j].Contents())
      {
        listeners[i].Offer(event);
      }
    }

    /** One validated item: the replica follows the fold, and every listener hears of it. */
    method Take(item: SubscriptionItem) returns (closed: Option<SubscriptionEnd>)
      requires Valid()
      modifies this, listeners
      ensures Valid() && listeners == old(listeners) && stopped == old(stopped)
      ensures Folding(sequence, current) == FoldItem(Folding(old(sequence), old(current)), item)
      ensures ready == (old(ready) || item.Ready?)
      ensures closed == if item.Closed? then Some(item.end) else None
      ensures forall i :: 0 <= i < |listeners| ==>
                listeners[i].Contents()
                == Heard(old(listeners[i].Contents()), item, topic, current, ready, listeners[i].receiveEvents,
                         listeners[i].budget)
    {
      hide L.Balanced, L.TakeState, L.TakeEvent;
      closed := None;
      match item {
        case Begin(cursor) => sequence := cursor.sequence;
        case SessionFrame(info) =>
          current := PutSession(current, sequence, info);
          PublishState();
        case TopicFrame(state) =>
          current := PutTopic(current, state);
          PublishState();
        case SnapshotItem(_) =>
        case Ready(_) =>
          ready := true;
          PublishState();
        case Closed(end) => closed := Some(end);
        case Update(envelope) =>
          sequence := envelope.cursor.sequence;
          if envelope.update.Event? {
            OfferEvent(envelope.update.event);
          } else {
            current := FoldUpdate(current, sequence, envelope.update);
            PublishState();
          }
      }
    }

    /** Drops the replica and everything it showed, ahead of a full bootstrap. */
    method Restart()
      requires Valid()
      modifies this, listeners
      ensures Valid() && listeners == old(listeners) && stopped == old(stopped)
      ensures current == NOTHING && sequence == 0 && !ready
      ensures forall i :: 0 <= i < |listeners| ==>
                listeners[i].Contents()
                == if old(ready) then L.TakeState(old(listeners[i].Contents()), topic, NOTHING)
                   else old(listeners[i].Contents())
    {
      hide L.Balanced, L.TakeState;
      current := NOTHING;
      PublishState();
      ready := false;
      sequence := 0;
    }

    /** A listener that joins a complete feed is shown its state at once. */
    method Attach(listener: L.Listener) returns (joined: bool)
      requires Valid() && listener !in listeners && listener.Valid()
      modifies this, listener
      ensures Valid() && joined == !old(stopped)
      ensures listeners == if joined then old(listeners) + [listener] else old(listeners)
      ensures listener.Contents()
              == if joined && ready then L.TakeState(old(listener.Contents()), topic, current)
                 else old(listener.Contents())
      ensures current == old(current) && ready == old(ready) && stopped == old(stopped) && sequence == old(sequence)
    {
      hide L.Balanced, L.TakeState;
      if stopped {
        return false;
      }
      listeners := listeners + [listener];
      if ready {
        listener.SetState(topic, current);
      }
      joined := true;
    }

    /** The last listener to leave stops the feed and clears its replica. */
    method Detach(listener: L.Listener)
      requires Valid()
      modifies this
      ensures Valid() && listener !in listeners
      ensures forall l :: l in listeners <==> l in old(listeners) && l != listener
      ensures stopped == (old(stopped) || listeners == [])
      ensures current == if listeners == [] then NOTHING else old(current)
      ensures ready == old(ready) && sequence == old(sequence)
    {
      var kept := Without(listeners, listener);
      assert forall i :: 0 <= i < |kept| ==> kept[i] in listeners && kept[i].Valid();
      listeners := kept;
      if listeners == [] {
        stopped := true;
        current := NOTHING;
      }
    }

    static method Without(all: seq<L.Listener>, listener: L.Listener) returns (kept: seq<L.Listener>)
      requires Distinct(all)
      ensures Distinct(kept) && forall l :: l in kept <==> l in all && l != listener
    {
      kept := [];
      for i := 0 to |all|
        invariant Distinct(kept) && forall l :: l in kept <==> l in all[..i] && l != listener
      {
        assert all[..i + 1] == all[..i] + [all[i]];
        if all[i] != listener {
          assert all[i] !in all[..i];
          kept := kept + [all[i]];
        }
      }
      assert all[..|all|] == all;
    }
  }
}
