/** A listener's queue: coalesced state over several feeds, and events in order. */
module Listening {
  import opened Wire
  import opened WireSize
  import opened Ordering
  import opened Replica
  import opened Picking

  /** Where a listener's stream ended: an upstream end, or an error. */
  datatype Terminal = Ended(end: SubscriptionEnd) | Failed(message: string)

  const LAGGED: Terminal := Failed("lagged")

  datatype StateKey = StateKey(session: SessionRef, topic: TopicRef)

  /** The merged state that a listener is shown. */
  datatype Shown = Shown(sessions: map<SessionRef, (nat, SessionInfo)>, topics: map<StateKey, TopicSnapshot>)

  datatype Queue = Queue(
    states: map<TopicRef, FeedState>,
    changed: bool,
    events: seq<(nat, EventEnvelope)>,
    eventBytes: nat,
    terminal: Option<Terminal>,
    closed: bool)

  const EMPTY: Queue := Queue(map[], false, [], 0, None, false)

  datatype Item = State(shown: Shown) | Event(event: EventEnvelope) | Closed(end: SubscriptionEnd)

  function EventSize(event: EventEnvelope): nat {
    MetadataSize(event.metadata) + StringSize(event.payload)
  }

  // ---- merging

  /** Metadata with the larger cursor sequence wins; the earlier feed wins a tie. */
  function Newer(acc: map<SessionRef, (nat, SessionInfo)>, more: map<SessionRef, (nat, SessionInfo)>, r: SessionRef)
    : (nat, SessionInfo)
    requires r in acc || r in more
  {
    if r !in acc then more[r]
    else if r in more && more[r].0 > acc[r].0 then more[r]
    else acc[r]
  }

  function MergeSessions(acc: map<SessionRef, (nat, SessionInfo)>, more: map<SessionRef, (nat, SessionInfo)>)
    : map<SessionRef, (nat, SessionInfo)>
  {
    map r | r in acc.Keys + more.Keys :: Newer(acc, more, r)
  }

  /** The merge when only some of the further sessions have been looked at. */
  function MergedUpTo(acc: map<SessionRef, (nat, SessionInfo)>, more: map<SessionRef, (nat, SessionInfo)>,
                      done: set<SessionRef>): map<SessionRef, (nat, SessionInfo)>
  {
    map r | r in acc.Keys + (more.Keys * done) :: if r in done then Newer(acc, more, r) else acc[r]
  }

  lemma MergedNone(acc: map<SessionRef, (nat, SessionInfo)>, more: map<SessionRef, (nat, SessionInfo)>)
    ensures MergedUpTo(acc, more, more.Keys - more.Keys) == acc
  {
  }

  lemma MergedAll(acc: map<SessionRef, (nat, SessionInfo)>, more: map<SessionRef, (nat, SessionInfo)>)
    ensures MergedUpTo(acc, more, more.Keys) == MergeSessions(acc, more)
  {
  }

  lemma MergedOne(acc: map<SessionRef, (nat, SessionInfo)>, more: map<SessionRef, (nat, SessionInfo)>,
                  done: set<SessionRef>, r: SessionRef)
    requires r in more && r !in done
    ensures var merged := MergedUpTo(acc, more, done);
            MergedUpTo(acc, more, done + {r})
            == if r !in merged || more[r].0 > merged[r].0 then merged[r := more[r]] else merged
  {
    var merged := MergedUpTo(acc, more, done);
    assert r in merged <==> r in acc;
    assert (acc.Keys + (more.Keys * (done + {r}))) == acc.Keys + (more.Keys * done) + {r};
  }

  function MergeTopics(acc: map<StateKey, TopicSnapshot>, topic: TopicRef, more: map<SessionRef, TopicSnapshot>)
    : map<StateKey, TopicSnapshot>
  {
    acc + map r | r in more :: StateKey(r, topic) := more[r]
  }

  function Merge(states: map<TopicRef, FeedState>, keys: seq<TopicRef>): Shown
    requires forall k :: k in keys ==> k in states
  {
    if keys == [] then Shown(map[], map[])
    else
      var front := Merge(states, keys[..|keys| - 1]);
      var k := keys[|keys| - 1];
      Shown(MergeSessions(front.sessions, states[k].sessions), MergeTopics(front.topics, k, states[k].topics))
  }

  function Current(q: Queue): Shown {
    Merge(q.states, TopicsInOrder(q.states.Keys))
  }

  /** What a merge shows: every topic of every feed, and for each session the newest
      metadata that any feed has. */
  ghost predicate MergedOf(shown: Shown, states: map<TopicRef, FeedState>, keys: seq<TopicRef>)
    requires forall k :: k in keys ==> k in states
  {
    && (forall key :: key in shown.topics <==> key.topic in keys && key.session in states[key.topic].topics)
    && (forall key :: key in shown.topics ==> shown.topics[key] == states[key.topic].topics[key.session])
    && (forall r :: NewestOf(shown.sessions, states, keys, r))
  }

  lemma MergeNone(states: map<TopicRef, FeedState>)
    ensures Merge(states, []) == Shown(map[], map[])
  {
  }

  lemma MergeNext(states: map<TopicRef, FeedState>, keys: seq<TopicRef>, i: nat)
    requires i < |keys| && forall k :: k in keys ==> k in states
    ensures var front := Merge(states, keys[..i]);
            Merge(states, keys[..i + 1])
            == Shown(MergeSessions(front.sessions, states[keys[i]].sessions),
                     MergeTopics(front.topics, keys[i], states[keys[i]].topics))
  {
    hide MergeSessions, MergeTopics;
    assert keys[..i + 1][..i] == keys[..i];
  }

  lemma MergeTopicsNext(shown: map<StateKey, TopicSnapshot>, states: map<TopicRef, FeedState>, keys: seq<TopicRef>)
    requires keys != [] && NoRepeats(keys) && forall k :: k in keys ==> k in states
    requires forall key :: key in shown <==> key.topic in keys[..|keys| - 1] && key.session in states[key.topic].topics
    requires forall key :: key in shown ==> shown[key] == states[key.topic].topics[key.session]
    ensures var k := keys[|keys| - 1];
            var next := MergeTopics(shown, k, states[k].topics);
            && (forall key :: key in next <==> key.topic in keys && key.session in states[key.topic].topics)
            && (forall key :: key in next ==> next[key] == states[key.topic].topics[key.session])
  {
    var front, k := keys[..|keys| - 1], keys[|keys| - 1];
    assert keys == front + [k];
    var next := MergeTopics(shown, k, states[k].topics);
    forall key ensures key in next <==> key.topic in keys && key.session in states[key.topic].topics
               ensures key in next ==> next[key] == states[key.topic].topics[key.session]
    {
      assert key == StateKey(key.session, key.topic);
    }
  }

  /** The newest of the metadata that the feeds hold for a session. */
  ghost predicate NewestOf(shown: map<SessionRef, (nat, SessionInfo)>, states: map<TopicRef, FeedState>,
                           keys: seq<TopicRef>, r: SessionRef)
    requires forall k :: k in keys ==> k in states
  {
    && (r in shown <==> exists k :: k in keys && r in states[k].sessions)
    && (r in shown ==>
          && (exists k :: k in keys && r in states[k].sessions && states[k].sessions[r] == shown[r])
          && (forall k :: k in keys && r in states[k].sessions ==> states[k].sessions[r].0 <= shown[r].0))
  }

  lemma MergeSessionsNext(shown: map<SessionRef, (nat, SessionInfo)>, states: map<TopicRef, FeedState>,
                          keys: seq<TopicRef>, r: SessionRef)
    requires keys != [] && forall k :: k in keys ==> k in states
    requires NewestOf(shown, states, keys[..|keys| - 1], r)
    ensures NewestOf(MergeSessions(shown, states[keys[|keys| - 1]].sessions), states, keys, r)
  {
    var front, k := keys[..|keys| - 1], keys[|keys| - 1];
    assert keys == front + [k] && k in keys;
    var next := MergeSessions(shown, states[k].sessions);
    if r in next && r in shown && next[r] == shown[r] {
      var n :| n in front && r in states[n].sessions && states[n].sessions[r] == shown[r];
      assert n in keys;
    }
    forall n | n in keys && r in states[n].sessions ensures r in next {
      if n != k { assert n in front; }
    }
  }

  lemma {:induction false} MergeIsMerged(states: map<TopicRef, FeedState>, keys: seq<TopicRef>)
    requires NoRepeats(keys) && forall k :: k in keys ==> k in states
    ensures MergedOf(Merge(states, keys), states, keys)
  {
    if keys != [] {
      MergeIsMerged(states, keys[..|keys| - 1]);
      var shown := Merge(states, keys[..|keys| - 1]);
      MergeTopicsNext(shown.topics, states, keys);
      forall r ensures NewestOf(Merge(states, keys).sessions, states, keys, r) {
        assert NewestOf(shown.sessions, states, keys[..|keys| - 1], r);
        MergeSessionsNext(shown.sessions, states, keys, r);
      }
    }
  }

  // ---- operations

  /** The event belongs to the generation that the feed's new state shows. */
  predicate StillShown(event: EventEnvelope, topic: TopicRef, state: FeedState) {
    var source := event.metadata.source;
    source.topic != topic
    || (source.session in state.topics && state.topics[source.session].generation == event.metadata.generation)
  }

  function Retain(events: seq<(nat, EventEnvelope)>, topic: TopicRef, state: FeedState): seq<(nat, EventEnvelope)> {
    if events == [] then []
    else
      Retain(events[..|events| - 1], topic, state)
      + if StillShown(events[|events| - 1].1, topic, state) then [events[|events| - 1]] else []
  }

  lemma {:induction false} RetainPicks(events: seq<(nat, EventEnvelope)>, topic: TopicRef, state: FeedState)
    returns (f: seq<nat>)
    ensures PicksStaying(f, events, Retain(events, topic, state), topic, state)
  {
    hide PicksStaying;
    if events == [] {
      f := [];
      NonePicked(topic, state);
    } else {
      var front, last := events[..|events| - 1], events[|events| - 1];
      var g := RetainPicks(front, topic, state);
      assert events == front + [last];
      assert Retain(front, topic, state) + [] == Retain(front, topic, state);
      f := if Stays(last.1, topic, state) then g + [|front|] else g;
      PicksOneMore(g, front, Retain(front, topic, state), last, topic, state);
    }
  }

  function Bytes(events: seq<(nat, EventEnvelope)>): nat {
    if events == [] then 0 else Bytes(events[..|events| - 1]) + events[|events| - 1].0
  }

  function TakeState(q: Queue, topic: TopicRef, state: FeedState): Queue {
    if q.closed then q
    else
      var kept := Retain(q.events, topic, state);
      q.(states := q.states[topic := state], changed := true, events := kept, eventBytes := Bytes(kept))
  }

  function Finish(q: Queue, terminal: Option<Terminal>): Queue {
    if q.closed then (if terminal.None? then q.(terminal := None) else q)
    else Queue(map[], false, [], 0, terminal, true)
  }

  function TakeEvent(q: Queue, event: EventEnvelope, receive: bool, budget: nat): Queue {
    if !receive || q.closed then q
    else if EventSize(event) > (if q.eventBytes > budget then 0 else budget - q.eventBytes) then Finish(q, Some(LAGGED))
    else q.(eventBytes := q.eventBytes + EventSize(event), events := q.events + [(EventSize(event), event)])
  }

  /** What a read gives: an item, a failure, completion, or nothing yet. */
  datatype Reply = Gives(item: Item) | Fails(message: string) | Done | Waits

  function Next(q: Queue): (Queue, Reply) {
    if q.terminal.Some? then
      (q.(terminal := None),
       match q.terminal.value case Ended(end) => Gives(Item.Closed(end)) case Failed(message) => Fails(message))
    else if q.closed then (q, Done)
    else if q.changed then (q.(changed := false), Gives(State(Current(q))))
    else if q.events != [] then
      (q.(events := q.events[1..],
          eventBytes := if q.eventBytes < q.events[0].0 then 0 else q.eventBytes - q.events[0].0),
       Gives(Item.Event(q.events[0].1)))
    else (q, Waits)
  }

  // ---- accounting

  /** The byte count is exact and within budget, and every entry carries its own size. */
  ghost predicate Balanced(q: Queue, budget: nat) {
    && q.eventBytes == Bytes(q.events) <= budget
    && forall e :: e in q.events ==> e.0 == EventSize(e.1)
  }

  lemma {:induction false} RetainBytes(events: seq<(nat, EventEnvelope)>, topic: TopicRef, state: FeedState)
    ensures Bytes(Retain(events, topic, state)) <= Bytes(events)
  {
    if events != [] {
      RetainBytes(events[..|events| - 1], topic, state);
      var kept := Retain(events[..|events| - 1], topic, state);
      BytesAppend(kept, events[|events| - 1]);
      assert kept + [] == kept;
    }
  }

  lemma {:induction false} RetainKeeps(events: seq<(nat, EventEnvelope)>, topic: TopicRef, state: FeedState)
    ensures forall e :: e in Retain(events, topic, state) ==> e in events && StillShown(e.1, topic, state)
  {
    if events != [] {
      RetainKeeps(events[..|events| - 1], topic, state);
      assert events == events[..|events| - 1] + [events[|events| - 1]];
    }
  }

  lemma BytesAppend(events: seq<(nat, EventEnvelope)>, e: (nat, EventEnvelope))
    ensures Bytes(events + [e]) == Bytes(events) + e.0
  {
    assert (events + [e])[..|events|] == events;
  }

  lemma {:induction false} BytesHead(events: seq<(nat, EventEnvelope)>)
    requires events != []
    ensures Bytes(events) == events[0].0 + Bytes(events[1..])
  {
    if |events| > 1 {
      BytesHead(events[..|events| - 1]);
      assert events[..|events| - 1][1..] == events[1..][..|events| - 2];
    } else {
      assert events[..0] == [];
    }
  }

  lemma StateBalanced(q: Queue, topic: TopicRef, state: FeedState, budget: nat)
    requires Balanced(q, budget)
    ensures Balanced(TakeState(q, topic, state), budget)
  {
    RetainBytes(q.events, topic, state);
    RetainKeeps(q.events, topic, state);
  }

  lemma EventBalanced(q: Queue, event: EventEnvelope, receive: bool, budget: nat)
    requires Balanced(q, budget)
    ensures Balanced(TakeEvent(q, event, receive, budget), budget)
  {
    BytesAppend(q.events, (EventSize(event), event));
  }

  lemma NextBalanced(q: Queue, budget: nat)
    requires Balanced(q, budget)
    ensures Balanced(Next(q).0, budget)
  {
    if q.events != [] {
      BytesHead(q.events);
    }
  }

  /** The listener object. Its byte counter is only ever decreased by sizes that are part of it. */
  class Listener {
    const receiveEvents: bool
    const budget: nat
    var states: map<TopicRef, FeedState>
    var changed: bool
    var events: seq<(nat, EventEnvelope)>
    var eventBytes: nat
    var terminal: Option<Terminal>
    var closed: bool

    function Contents(): Queue
      reads this
    {
      Queue(states, changed, events, eventBytes, terminal, closed)
    }

    ghost predicate Valid()
      reads this
    {
      Balanced(Contents(), budget)
    }

    constructor (receiveEvents: bool, budget: nat)
      ensures Contents() == EMPTY && Valid()
      ensures this.receiveEvents == receiveEvents && this.budget == budget
    {
      this.receiveEvents := receiveEvents;
      this.budget := budget;
      states, changed, events, eventBytes, terminal, closed := map[], false, [], 0, None, false;
    }

    static method Purge(queued: seq<(nat, EventEnvelope)>, topic: TopicRef, state: FeedState)
      returns (kept: seq<(nat, EventEnvelope)>, removed: nat)
      ensures kept == Retain(queued, topic, state)
      ensures removed + Bytes(kept) == Bytes(queued)
    {
      kept, removed := [], 0;
      for i := 0 to |queued|
        invariant kept == Retain(queued[..i], topic, state)
        invariant removed + Bytes(kept) == Bytes(queued[..i])
      {
        assert queued[..i + 1][..i] == queued[..i];
        if StillShown(queued[i].1, topic, state) {
          BytesAppend(kept, queued[i]);
          kept := kept + [queued[i]];
        } else {
          removed := removed + queued[i].0;
        }
      }
      assert queued[..|queued|] == queued;
    }

    method SetState(topic: TopicRef, state: FeedState)
      requires Valid()
      modifies this
      ensures Contents() == TakeState(old(Contents()), topic, state) && Valid()
      ensures if old(closed) then Contents() == old(Contents())
              else
                && (exists f :: PicksStaying(f, old(events), events, topic, state))
                && states == old(states)[topic := state] && changed && !closed && terminal == old(terminal)
    {
      if closed {
        return;
      }
      ghost var f := RetainPicks(events, topic, state);
      StateBalanced(Contents(), topic, state, budget);
      var kept, removed := Purge(events, topic, state);
      eventBytes := eventBytes - removed;
      events := kept;
      states := states[topic := state];
      changed := true;
    }

    method Close(end: Option<Terminal>)
      modifies this
      ensures Contents() == Finish(old(Contents()), end)
      ensures old(Valid()) ==> Valid()
    {
      if closed {
        if end.None? {
          terminal := None;
        }
        return;
      }
      closed := true;
      terminal := end;
      states, events, eventBytes, changed := map[], [], 0, false;
    }

    method Offer(event: EventEnvelope)
      requires Valid()
      modifies this
      ensures Contents() == TakeEvent(old(Contents()), event, receiveEvents, budget) && Valid()
    {
      EventBalanced(Contents(), event, receiveEvents, budget);
      if !receiveEvents {
        return;
      }
      var size := EventSize(event);
      if closed {
        return;
      }
      if size > (if eventBytes > budget then 0 else budget - eventBytes) {
        Close(Some(LAGGED));
        return;
      }
      eventBytes := eventBytes + size;
      events := events + [(size, event)];
    }

    static method MergeInto(acc: map<SessionRef, (nat, SessionInfo)>, more: map<SessionRef, (nat, SessionInfo)>)
      returns (merged: map<SessionRef, (nat, SessionInfo)>)
      ensures merged == MergeSessions(acc, more)
    {
      hide MergedUpTo;
      merged := acc;
      MergedNone(acc, more);
      var left := more.Keys;
      while left != {}
        invariant left <= more.Keys && merged == MergedUpTo(acc, more, more.Keys - left)
        decreases |left|
      {
        var r :| r in left;
        MergedOne(acc, more, more.Keys - left, r);
        if r !in merged || more[r].0 > merged[r].0 {
          merged := merged[r := more[r]];
        }
        assert more.Keys - (left - {r}) == more.Keys - left + {r};
        left := left - {r};
      }
      MergedAll(acc, more);
      assert more.Keys - left == more.Keys;
    }

    /** Merges the feeds in topic order. */
    method Snapshot() returns (shown: Shown)
      ensures shown == Current(Contents())
      ensures MergedOf(shown, states, TopicsInOrder(states.Keys))
    {
      hide Merge, MergeSessions, MergeTopics, MergedOf, Sorted;
      var keys := TopicsInOrder(states.Keys);
      MergeIsMerged(states, keys);
      var sessions: map<SessionRef, (nat, SessionInfo)> := map[];
      var topics: map<StateKey, TopicSnapshot> := map[];
      MergeNone(states);
      for i := 0 to |keys|
        invariant Shown(sessions, topics) == Merge(states, keys[..i])
      {
        var k := keys[i];
        MergeNext(states, keys, i);
        sessions := MergeInto(sessions, states[k].sessions);
        topics := MergeTopics(topics, k, states[k].topics);
      }
      assert keys[..|keys|] == keys;
      shown := Shown(sessions, topics);
    }

    method Read() returns (reply: Reply)
      requires Valid()
      modifies this
      ensures (Contents(), reply) == Next(old(Contents())) && Valid()
    {
      NextBalanced(Contents(), budget);
      if terminal.Some? {
        reply := match terminal.value case Ended(end) => Gives(Item.Closed(end)) case Failed(message) => Fails(message);
        terminal := None;
        return;
      }
      if closed {
        return Done;
      }
      if changed {
        var shown := Snapshot();
        changed := false;
        return Gives(State(shown));
      }
      if events != [] {
        BytesHead(events);
        reply := Gives(Item.Event(events[0].1));
        eventBytes := eventBytes - events[0].0;
        events := events[1..];
        return;
      }
      reply := Waits;
    }
  }
}
