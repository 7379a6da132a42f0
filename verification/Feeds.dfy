/** Shared feeds and one listener on them, over every interleaving. */
module Feeds {
  import opened Wire
  import opened Ordering
  import opened ClientValidation
  import opened Replica
  import L = Listening

  /** One upstream feed: its validator, its replica, and whether the bootstrap is complete. */
  datatype Feed = Feed(validation: Validation, folding: Folding, ready: bool)

  function OpenFeed(selection: Selection): Feed {
    Feed(Fresh(selection), Folding(0, NOTHING), false)
  }

  /** The validator and the replica hold the same sessions, topic and generations,
      whatever the server sent: both are driven by the same accepted items. */
  ghost predicate Consistent(v: Validation, f: FeedState, key: TopicRef) {
    && (forall id :: id in v.sessions ==>
          Begun(v) && v.sessions[id].info.session == SessionRef(v.checkpoint.value.runId, id))
    && (forall r :: ConsistentAt(v, f, key, r))
  }

  predicate ConsistentAt(v: Validation, f: FeedState, key: TopicRef, r: SessionRef) {
    && (r in f.topics <==>
          r.sessionId in v.sessions && v.sessions[r.sessionId].info.session == r && key in v.sessions[r.sessionId].topics)
    && (r in f.topics && r.sessionId in v.sessions && key in v.sessions[r.sessionId].topics ==>
          && f.topics[r].generation == v.sessions[r.sessionId].topics[key]
          && f.topics[r].source.session == r && f.topics[r].source.topic == key)
  }

  lemma NoteConsistent(v: Validation, f: FeedState, key: TopicRef, topic: TopicSnapshot)
    requires Consistent(v, f, key) && v.selection.topics == {key} && KnownSource(v, topic.source)
    ensures Consistent(NoteGeneration(v, topic.source, topic.generation), PutTopic(f, topic), key)
  {
    var w, g := NoteGeneration(v, topic.source, topic.generation), PutTopic(f, topic);
    forall r ensures ConsistentAt(w, g, key, r) {
      assert ConsistentAt(v, f, key, r);
      assert r == SessionRef(r.runId, r.sessionId);
    }
  }

  lemma SessionsConsistent(v: Validation, f: FeedState, key: TopicRef, update: SubscriptionUpdate, sequence: nat,
                           w: Validation)
    requires Consistent(v, f, key) && v.selection.topics == {key} && Begun(v)
    requires update.SessionStarted? || update.SessionChanged? || update.SessionEnded?
    requires AcceptUpdate(v, update) == Ok(w)
    ensures Consistent(w, FoldUpdate(f, sequence, update), key)
  {
    var g := FoldUpdate(f, sequence, update);
    forall r ensures ConsistentAt(w, g, key, r) {
      assert ConsistentAt(v, f, key, r);
      assert r == SessionRef(r.runId, r.sessionId);
    }
  }

  lemma UpdateConsistent(v: Validation, f: FeedState, key: TopicRef, update: SubscriptionUpdate, sequence: nat,
                         w: Validation)
    requires Consistent(v, f, key) && v.selection.topics == {key} && Begun(v)
    requires AcceptUpdate(v, update) == Ok(w)
    ensures Consistent(w, FoldUpdate(f, sequence, update), key) && w == v.(sessions := w.sessions)
  {
    match update
    case TopicReset(source, generation, _) =>
      NoteConsistent(v, f, key, TopicSnapshot(source, generation, Initializing, None));
    case TopicChanged(topic) => NoteConsistent(v, f, key, topic);
    case Event(_) =>
    case _ => SessionsConsistent(v, f, key, update, sequence, w);
  }

  lemma SameSessionsConsistent(v: Validation, w: Validation, f: FeedState, key: TopicRef)
    requires Consistent(v, f, key) && w.sessions == v.sessions && (Begun(v) ==> w.checkpoint == v.checkpoint)
    ensures Consistent(w, f, key)
  {
    forall r ensures ConsistentAt(w, f, key, r) {
      assert ConsistentAt(v, f, key, r);
    }
  }

  /** Every accepted item keeps validator and replica together. */
  lemma ItemConsistent(v: Validation, f: Folding, key: TopicRef, item: SubscriptionItem, w: Validation)
    requires Consistent(v, f.state, key) && v.selection.topics == {key} && Admit(v, item) == Ok(w)
    ensures Consistent(w, FoldItem(f, item).state, key) && w.selection == v.selection
  {
    match item
    case SessionFrame(info) => SessionsConsistent(v, f.state, key, SessionStarted(info), f.sequence, w);
    case TopicFrame(topic) => NoteConsistent(v, f.state, key, topic);
    case Update(envelope) =>
      var u := v.(sequence := envelope.cursor.sequence);
      SameSessionsConsistent(v, u, f.state, key);
      UpdateConsistent(u, f.state, key, envelope.update, envelope.cursor.sequence, w);
    case _ => SameSessionsConsistent(v, w, f.state, key);
  }

  // ---- order

  /** The first list, in order, within the second. */
  predicate Sub<T(==)>(a: seq<T>, b: seq<T>) {
    a == [] || (b != [] && ((a[|a| - 1] == b[|b| - 1] && Sub(a[..|a| - 1], b[..|b| - 1])) || Sub(a, b[..|b| - 1])))
  }

  lemma SubBoth<T>(a: seq<T>, b: seq<T>, x: T)
    requires Sub(a, b)
    ensures Sub(a + [x], b + [x])
  {
    assert (a + [x])[..|a|] == a && (b + [x])[..|b|] == b;
  }

  lemma SubMore<T>(a: seq<T>, b: seq<T>, x: T)
    requires Sub(a, b)
    ensures Sub(a, b + [x])
  {
    assert (b + [x])[..|b|] == b;
  }

  lemma {:induction false} SubFront<T>(a: seq<T>, b: seq<T>)
    requires a != [] && Sub(a, b)
    ensures Sub(a[..|a| - 1], b)
    decreases |b|
  {
    if a[|a| - 1] == b[|b| - 1] && Sub(a[..|a| - 1], b[..|b| - 1]) {
      SubMore(a[..|a| - 1], b[..|b| - 1], b[|b| - 1]);
      assert b[..|b| - 1] + [b[|b| - 1]] == b;
    } else {
      SubFront(a, b[..|b| - 1]);
      SubMore(a[..|a| - 1], b[..|b| - 1], b[|b| - 1]);
      assert b[..|b| - 1] + [b[|b| - 1]] == b;
    }
  }

  lemma {:induction false} SubTrans<T>(a: seq<T>, b: seq<T>, c: seq<T>)
    requires Sub(a, b) && Sub(b, c)
    ensures Sub(a, c)
    decreases |c|
  {
    if a != [] {
      assert b != [] && c != [];
      if b[|b| - 1] == c[|c| - 1] && Sub(b[..|b| - 1], c[..|c| - 1]) {
        if a[|a| - 1] == b[|b| - 1] && Sub(a[..|a| - 1], b[..|b| - 1]) {
          SubTrans(a[..|a| - 1], b[..|b| - 1], c[..|c| - 1]);
        } else {
          SubTrans(a, b[..|b| - 1], c[..|c| - 1]);
        }
      } else {
        SubTrans(a, b, c[..|c| - 1]);
      }
    }
  }

  function Payloads(events: seq<(nat, EventEnvelope)>): (r: seq<EventEnvelope>)
    ensures |r| == |events| && forall i :: 0 <= i < |r| ==> r[i] == events[i].1
  {
    seq(|events|, i requires 0 <= i < |events| => events[i].1)
  }

  lemma {:induction false} SubSame<T>(a: seq<T>)
    ensures Sub(a, a)
  {
    if a != [] { SubSame(a[..|a| - 1]); }
  }

  lemma {:induction false} RetainSub(before: seq<EventEnvelope>, events: seq<(nat, EventEnvelope)>, topic: TopicRef,
                                     state: FeedState)
    ensures Sub(before + Payloads(L.Retain(events, topic, state)), before + Payloads(events))
  {
    if events == [] {
      SubSame(before + Payloads(events));
    } else {
      var front, last := events[..|events| - 1], events[|events| - 1];
      var kept := L.Retain(front, topic, state);
      RetainSub(before, front, topic, state);
      assert before + Payloads(events) == (before + Payloads(front)) + [last.1];
      if L.StillShown(last.1, topic, state) {
        assert before + Payloads(kept + [last]) == (before + Payloads(kept)) + [last.1];
        SubBoth(before + Payloads(kept), before + Payloads(front), last.1);
      } else {
        assert kept + [] == kept;
        SubMore(before + Payloads(kept), before + Payloads(front), last.1);
      }
    }
  }

  // ---- the system

  /** Feeds by topic, which of them the listener is attached to, its queue, what it was
      last shown, and the events that reached it and that it was given. */
  datatype Hub = Hub(
    feeds: map<TopicRef, Feed>,
    attached: set<TopicRef>,
    queue: L.Queue,
    shown: Option<L.Shown>,
    arrived: seq<EventEnvelope>,
    given: seq<EventEnvelope>)

  const START: Hub := Hub(map[], {}, L.EMPTY, None, [], [])

  datatype Move =
    | StartFeed(topic: TopicRef, sessions: SessionSelector)
    | Attach(topic: TopicRef)
    | Frame(topic: TopicRef, item: SubscriptionItem)
    | Resync(topic: TopicRef)
    | FeedEnds(topic: TopicRef, terminal: L.Terminal)
    | CloseListener
    | ReadNext

  function Publish(h: Hub, topic: TopicRef, feed: Feed): Hub {
    h.(feeds := h.feeds[topic := feed],
       queue := if feed.ready && topic in h.attached then L.TakeState(h.queue, topic, feed.folding.state) else h.queue)
  }

  function Deliver(h: Hub, topic: TopicRef, event: EventEnvelope, receive: bool, budget: nat): Hub {
    if topic !in h.attached then h
    else h.(queue := L.TakeEvent(h.queue, event, receive, budget), arrived := h.arrived + [event])
  }

  /** One validated item of a feed: events go to the listener, everything else changes the replica. */
  function TakeItem(h: Hub, topic: TopicRef, item: SubscriptionItem, receive: bool, budget: nat): Hub
    requires topic in h.feeds
  {
    var feed := h.feeds[topic];
    match Accept(feed.validation, item)
    case Err(_) => h
    case Ok(v) =>
      var next := Feed(v, FoldItem(feed.folding, item), feed.ready || item.Ready?);
      if item.Begin? || item.Closed? then h.(feeds := h.feeds[topic := next])
      else if item.Update? && item.envelope.update.Event? then
        Deliver(h.(feeds := h.feeds[topic := next]), topic, item.envelope.update.event, receive, budget)
      else Publish(h, topic, next)
  }

  function Act(h: Hub, move: Move, receive: bool, budget: nat): Hub {
    match move
    case StartFeed(topic, sessions) =>
      if topic in h.feeds then h else h.(feeds := h.feeds[topic := OpenFeed(Selection(sessions, {topic}))])
    case Attach(topic) =>
      if topic !in h.feeds then h
      else
        var feed := h.feeds[topic];
        h.(attached := h.attached + {topic},
           queue := if feed.ready then L.TakeState(h.queue, topic, feed.folding.state) else h.queue)
    case Frame(topic, item) => if topic !in h.feeds then h else TakeItem(h, topic, item, receive, budget)
    case Resync(topic) =>
      if topic !in h.feeds then h
      else
        var feed := h.feeds[topic];
        var cleared := Publish(h, topic, feed.(folding := Folding(0, NOTHING)));
        cleared.(feeds := cleared.feeds[topic := OpenFeed(feed.validation.selection)])
    case FeedEnds(topic, terminal) =>
      h.(feeds := h.feeds - {topic},
         queue := if topic in h.attached then L.Finish(h.queue, Some(terminal)) else h.queue)
    case CloseListener => h.(queue := L.Finish(h.queue, None))
    case ReadNext =>
      var (queue, reply) := L.Next(h.queue);
      h.(queue := queue,
         shown := if reply.Gives? && reply.item.State? then Some(reply.item.shown) else h.shown,
         given := if reply.Gives? && reply.item.Event? then h.given + [reply.item.event] else h.given)
  }

  function ActAll(moves: seq<Move>, receive: bool, budget: nat): Hub {
    if moves == [] then START
    else Act(ActAll(moves[..|moves| - 1], receive, budget), moves[|moves| - 1], receive, budget)
  }

  // ---- the invariant

  ghost predicate FeedOk(feed: Feed, topic: TopicRef) {
    && feed.validation.selection.topics == {topic}
    && feed.ready == feed.validation.ready
    && Consistent(feed.validation, feed.folding.state, topic)
  }

  /** Every topic entry is filed under its own session and topic. */
  predicate Sourced(state: FeedState, topic: TopicRef) {
    forall r :: r in state.topics ==> state.topics[r].source.session == r && state.topics[r].source.topic == topic
  }

  /** The event's generation is the one that the queued states show for its session and topic. */
  predicate Live(states: map<TopicRef, FeedState>, event: EventEnvelope) {
    var source := event.metadata.source;
    && source.topic in states
    && source.session in states[source.topic].topics
    && states[source.topic].topics[source.session].generation == event.metadata.generation
  }

  ghost predicate QueueOk(q: L.Queue, budget: nat) {
    && L.Balanced(q, budget)
    && (forall topic :: topic in q.states ==> Sourced(q.states[topic], topic))
    && (forall e :: e in q.events ==> Live(q.states, e.1))
    && (q.closed ==> q.events == [])
  }

  /** With no change pending, the listener was last shown exactly the queued states. */
  predicate ShownOk(q: L.Queue, shown: Option<L.Shown>) {
    q.closed || q.changed || q.states == map[] || shown == Some(L.Current(q))
  }

  lemma SameShown(q: L.Queue, next: L.Queue, shown: Option<L.Shown>)
    requires ShownOk(q, shown) && next.states == q.states && next.changed == q.changed && next.closed == q.closed
    ensures ShownOk(next, shown)
  {
  }

  ghost predicate HubOk(h: Hub, budget: nat) {
    && (forall topic :: topic in h.feeds ==> FeedOk(h.feeds[topic], topic))
    && QueueOk(h.queue, budget)
    && (!h.queue.closed ==>
          forall topic :: topic in h.feeds && topic in h.attached && h.feeds[topic].ready ==>
            topic in h.queue.states && h.queue.states[topic] == h.feeds[topic].folding.state)
    && ShownOk(h.queue, h.shown)
    && Sub(h.given + Payloads(h.queue.events), h.arrived)
  }

  lemma ConsistentSourced(v: Validation, f: FeedState, key: TopicRef)
    requires Consistent(v, f, key)
    ensures Sourced(f, key)
  {
    forall r | r in f.topics ensures f.topics[r].source.session == r && f.topics[r].source.topic == key {
      assert ConsistentAt(v, f, key, r);
    }
  }

  lemma TakeStateOk(q: L.Queue, topic: TopicRef, state: FeedState, budget: nat)
    requires QueueOk(q, budget) && Sourced(state, topic)
    ensures QueueOk(L.TakeState(q, topic, state), budget)
  {
    if !q.closed {
      L.StateBalanced(q, topic, state, budget);
      L.RetainKeeps(q.events, topic, state);
    }
  }

  lemma TakeStateSub(q: L.Queue, topic: TopicRef, state: FeedState, given: seq<EventEnvelope>, arrived: seq<EventEnvelope>)
    requires Sub(given + Payloads(q.events), arrived)
    ensures Sub(given + Payloads(L.TakeState(q, topic, state).events), arrived)
  {
    if !q.closed {
      RetainSub(given, q.events, topic, state);
      SubTrans(given + Payloads(L.Retain(q.events, topic, state)), given + Payloads(q.events), arrived);
    }
  }

  /** Publishing the state of a well-formed feed. */
  lemma PublishOk(h: Hub, topic: TopicRef, feed: Feed, budget: nat)
    requires HubOk(h, budget) && FeedOk(feed, topic)
    ensures HubOk(Publish(h, topic, feed), budget)
  {
    ConsistentSourced(feed.validation, feed.folding.state, topic);
    TakeStateOk(h.queue, topic, feed.folding.state, budget);
    TakeStateSub(h.queue, topic, feed.folding.state, h.given, h.arrived);
  }

  /** An event that the validator accepts is of the generation that the replica shows. */
  lemma EventShown(v: Validation, f: FeedState, key: TopicRef, event: EventEnvelope, cursor: ServiceCursor, w: Validation)
    requires Consistent(v, f, key) && v.selection.topics == {key}
    requires Admit(v, Update(UpdateEnvelope(cursor, SubscriptionUpdate.Event(event)))) == Ok(w)
    ensures event.metadata.source.topic == key && event.metadata.source.session in f.topics
    ensures f.topics[event.metadata.source.session].generation == event.metadata.generation && v.ready
  {
    assert ConsistentAt(v, f, key, event.metadata.source.session);
  }

  lemma FinishOk(h: Hub, terminal: Option<L.Terminal>, budget: nat)
    requires HubOk(h, budget)
    ensures HubOk(h.(queue := L.Finish(h.queue, terminal)), budget)
  {
    if !h.queue.closed {
      SubPrefix(h.given, Payloads(h.queue.events), h.arrived);
      assert h.given + Payloads([]) == h.given;
    }
  }

  lemma {:induction false} SubPrefix<T>(a: seq<T>, b: seq<T>, c: seq<T>)
    requires Sub(a + b, c)
    ensures Sub(a, c)
    decreases |b|
  {
    if b == [] {
      assert a + b == a;
    } else {
      SubFront(a + b, c);
      assert (a + b)[..|a + b| - 1] == a + b[..|b| - 1];
      SubPrefix(a, b[..|b| - 1], c);
    }
  }

  lemma TakeEventOk(q: L.Queue, event: EventEnvelope, receive: bool, budget: nat)
    requires QueueOk(q, budget) && !q.closed && Live(q.states, event)
    ensures QueueOk(L.TakeEvent(q, event, receive, budget), budget)
  {
    L.EventBalanced(q, event, receive, budget);
  }

  lemma PushSub(q: L.Queue, event: EventEnvelope, receive: bool, budget: nat, given: seq<EventEnvelope>,
                arrived: seq<EventEnvelope>)
    requires Sub(given + Payloads(q.events), arrived)
    ensures Sub(given + Payloads(L.TakeEvent(q, event, receive, budget).events), arrived + [event])
  {
    var next := L.TakeEvent(q, event, receive, budget);
    if next.events == q.events + [(L.EventSize(event), event)] {
      SubBoth(given + Payloads(q.events), arrived, event);
      assert given + Payloads(next.events) == given + Payloads(q.events) + [event];
    } else {
      SubMore(given + Payloads(q.events), arrived, event);
      if next.events != q.events {
        SubPrefix(given, Payloads(q.events), arrived + [event]);
        assert given + Payloads(next.events) == given;
      }
    }
  }

  lemma DeliverOk(h: Hub, topic: TopicRef, event: EventEnvelope, receive: bool, budget: nat)
    requires HubOk(h, budget)
    requires topic in h.attached && !h.queue.closed ==> Live(h.queue.states, event)
    ensures HubOk(Deliver(h, topic, event, receive, budget), budget)
  {
    if topic in h.attached {
      PushSub(h.queue, event, receive, budget, h.given, h.arrived);
      var next := L.TakeEvent(h.queue, event, receive, budget);
      if !h.queue.closed {
        TakeEventOk(h.queue, event, receive, budget);
        if !next.closed { SameShown(h.queue, next, h.shown); }
      }
    }
  }

  /** Replacing a feed without telling the listener, when its replica did not change. */
  lemma QuietFeedOk(h: Hub, topic: TopicRef, feed: Feed, budget: nat)
    requires HubOk(h, budget) && FeedOk(feed, topic) && topic in h.feeds
    requires !feed.ready || (h.feeds[topic].ready && feed.folding.state == h.feeds[topic].folding.state)
    ensures HubOk(h.(feeds := h.feeds[topic := feed]), budget)
  {
  }

  lemma AcceptIsAdmit(v: Validation, item: SubscriptionItem, w: Validation)
    requires Accept(v, item) == Ok(w)
    ensures Admit(v, item) == Ok(w)
  {
  }

  lemma NextFeedOk(feed: Feed, topic: TopicRef, item: SubscriptionItem, v: Validation)
    requires FeedOk(feed, topic) && Admit(feed.validation, item) == Ok(v)
    ensures FeedOk(Feed(v, FoldItem(feed.folding, item), feed.ready || item.Ready?), topic)
  {
    ItemConsistent(feed.validation, feed.folding, topic, item, v);
  }

  lemma FrameOk(h: Hub, topic: TopicRef, item: SubscriptionItem, receive: bool, budget: nat)
    requires HubOk(h, budget) && topic in h.feeds
    ensures HubOk(TakeItem(h, topic, item, receive, budget), budget)
  {
    var feed := h.feeds[topic];
    var verdict := Accept(feed.validation, item);
    if verdict.Ok? {
      AcceptIsAdmit(feed.validation, item, verdict.value);
      NextFeedOk(feed, topic, item, verdict.value);
      var next := Feed(verdict.value, FoldItem(feed.folding, item), feed.ready || item.Ready?);
      if item.Begin? || item.Closed? {
        QuietFeedOk(h, topic, next, budget);
      } else if item.Update? && item.envelope.update.Event? {
        EventShown(feed.validation, feed.folding.state, topic, item.envelope.update.event, item.envelope.cursor,
                   verdict.value);
        QuietFeedOk(h, topic, next, budget);
        DeliverOk(h.(feeds := h.feeds[topic := next]), topic, item.envelope.update.event, receive, budget);
      } else {
        PublishOk(h, topic, next, budget);
      }
    }
  }

  lemma OpenFeedOk(selection: Selection, topic: TopicRef)
    requires selection.topics == {topic}
    ensures FeedOk(OpenFeed(selection), topic)
  {
    var feed := OpenFeed(selection);
    forall r ensures ConsistentAt(feed.validation, feed.folding.state, topic, r) {
    }
  }

  lemma ResyncOk(h: Hub, topic: TopicRef, budget: nat)
    requires HubOk(h, budget) && topic in h.feeds
    ensures HubOk(Act(h, Resync(topic), true, budget), budget)
  {
    var feed := h.feeds[topic];
    OpenFeedOk(feed.validation.selection, topic);
    assert Sourced(NOTHING, topic);
    TakeStateOk(h.queue, topic, NOTHING, budget);
    TakeStateSub(h.queue, topic, NOTHING, h.given, h.arrived);
  }

  lemma AttachOk(h: Hub, topic: TopicRef, budget: nat)
    requires HubOk(h, budget) && topic in h.feeds
    ensures HubOk(Act(h, Attach(topic), true, budget), budget)
  {
    var feed := h.feeds[topic];
    ConsistentSourced(feed.validation, feed.folding.state, topic);
    TakeStateOk(h.queue, topic, feed.folding.state, budget);
    TakeStateSub(h.queue, topic, feed.folding.state, h.given, h.arrived);
  }

  lemma ReadQueueOk(q: L.Queue, budget: nat)
    requires QueueOk(q, budget)
    ensures QueueOk(L.Next(q).0, budget)
  {
    L.NextBalanced(q, budget);
  }

  lemma ReadShows(q: L.Queue, shown: Option<L.Shown>)
    requires ShownOk(q, shown)
    ensures var (next, reply) := L.Next(q);
            && next.states == q.states && next.closed == q.closed
            && ShownOk(next, if reply.Gives? && reply.item.State? then Some(reply.item.shown) else shown)
  {
    var (next, reply) := L.Next(q);
    if q.terminal.None? && !q.closed && q.changed {
      assert reply.item.shown == L.Current(q) && L.Current(next) == L.Current(q);
    } else {
      SameShown(q, next, shown);
    }
  }

  lemma ReadOrder(q: L.Queue, given: seq<EventEnvelope>, arrived: seq<EventEnvelope>)
    requires Sub(given + Payloads(q.events), arrived)
    ensures var (next, reply) := L.Next(q);
            Sub((if reply.Gives? && reply.item.Event? then given + [reply.item.event] else given)
                + Payloads(next.events), arrived)
  {
    if q.terminal.None? && !q.closed && !q.changed && q.events != [] {
      assert given + [q.events[0].1] + Payloads(q.events[1..]) == given + Payloads(q.events);
    }
  }

  lemma ReadOk(h: Hub, receive: bool, budget: nat)
    requires HubOk(h, budget)
    ensures HubOk(Act(h, ReadNext, receive, budget), budget)
  {
    ReadQueueOk(h.queue, budget);
    ReadShows(h.queue, h.shown);
    ReadOrder(h.queue, h.given, h.arrived);
  }

  lemma EndOk(h: Hub, topic: TopicRef, terminal: L.Terminal, budget: nat)
    requires HubOk(h, budget)
    ensures HubOk(Act(h, FeedEnds(topic, terminal), true, budget), budget)
  {
    FinishOk(h, Some(terminal), budget);
  }

  lemma ActOk(h: Hub, move: Move, receive: bool, budget: nat)
    requires HubOk(h, budget)
    ensures HubOk(Act(h, move, receive, budget), budget)
  {
    match move
    case StartFeed(topic, sessions) =>
      OpenFeedOk(Selection(sessions, {topic}), topic);
    case Attach(topic) => if topic in h.feeds { AttachOk(h, topic, budget); }
    case Frame(topic, item) => if topic in h.feeds { FrameOk(h, topic, item, receive, budget); }
    case Resync(topic) => if topic in h.feeds { ResyncOk(h, topic, budget); }
    case FeedEnds(topic, terminal) => EndOk(h, topic, terminal, budget);
    case CloseListener => FinishOk(h, None, budget);
    case ReadNext => ReadOk(h, receive, budget);
  }

  lemma {:induction false} HubRuns(moves: seq<Move>, receive: bool, budget: nat)
    ensures HubOk(ActAll(moves, receive, budget), budget)
  {
    if moves != [] {
      HubRuns(moves[..|moves| - 1], receive, budget);
      ActOk(ActAll(moves[..|moves| - 1], receive, budget), moves[|moves| - 1], receive, budget);
    }
  }

  lemma CurrentShows(q: L.Queue, event: EventEnvelope)
    requires Live(q.states, event) && forall topic :: topic in q.states ==> Sourced(q.states[topic], topic)
    ensures var shown := L.Current(q);
            var key := L.StateKey(event.metadata.source.session, event.metadata.source.topic);
            && key in shown.topics
            && shown.topics[key].generation == event.metadata.generation
            && shown.topics[key].source.session == key.session
            && shown.topics[key].source.topic == key.topic
  {
    L.MergeIsMerged(q.states, TopicsInOrder(q.states.Keys));
  }

  /** Whatever the feeds sent and in whatever interleaving, an event that the listener is
      given is of the generation which the last state it was given shows for the event's
      session and topic. */
  lemma GivenEventsAreCurrent(moves: seq<Move>, receive: bool, budget: nat, event: EventEnvelope)
    requires L.Next(ActAll(moves, receive, budget).queue).1 == L.Gives(L.Item.Event(event))
    ensures var shown := ActAll(moves, receive, budget).shown;
            && shown.Some?
            && var key := L.StateKey(event.metadata.source.session, event.metadata.source.topic);
               && key in shown.value.topics
               && shown.value.topics[key].generation == event.metadata.generation
               && shown.value.topics[key].source.session == key.session
               && shown.value.topics[key].source.topic == key.topic
  {
    HubRuns(moves, receive, budget);
    var h := ActAll(moves, receive, budget);
    assert h.queue.events[0] in h.queue.events;
    CurrentShows(h.queue, event);
  }

  /** The listener is given events in the order in which they arrived, none twice, with
      exact byte accounting that stays within the budget. */
  lemma GivenEventsKeepOrder(moves: seq<Move>, receive: bool, budget: nat)
    ensures var h := ActAll(moves, receive, budget);
            && Sub(h.given, h.arrived) && Sub(h.given + Payloads(h.queue.events), h.arrived)
            && h.queue.eventBytes == L.Bytes(h.queue.events) <= budget
  {
    HubRuns(moves, receive, budget);
    var h := ActAll(moves, receive, budget);
    SubPrefix(h.given, Payloads(h.queue.events), h.arrived);
  }

  lemma ClosedIsEmpty(h: Hub, budget: nat)
    requires HubOk(h, budget)
    ensures h.queue.closed ==> h.queue.events == []
  {
  }

  /** A resync leaves none of the feed's events behind. */
  lemma ResyncPurges(moves: seq<Move>, topic: TopicRef, receive: bool, budget: nat)
    requires var h := ActAll(moves, receive, budget);
             topic in h.feeds && topic in h.attached && h.feeds[topic].ready
    ensures var q := Act(ActAll(moves, receive, budget), Resync(topic), receive, budget).queue;
            forall e :: e in q.events ==> e.1.metadata.source.topic != topic
  {
    hide HubOk, ActAll;
    HubRuns(moves, receive, budget);
    var h := ActAll(moves, receive, budget);
    ClosedIsEmpty(h, budget);
    L.RetainKeeps(h.queue.events, topic, NOTHING);
  }
}
