/** Which events a listener keeps: entry by entry, and over whole runs. */
module Keeping {
  import opened Wire
  import opened Replica
  import opened ClientValidation
  import opened Feeds
  import opened Picking
  import L = Listening

  /** Taking a feed's state, for every open queue: an entry stays, in its order and as often
      as it was there, exactly when it belongs to another topic or the new state shows its
      session at its generation. */
  lemma StateKeeps(q: L.Queue, topic: TopicRef, state: FeedState)
    ensures var t := L.TakeState(q, topic, state);
            if q.closed then t == q
            else
              && (exists f :: PicksStaying(f, q.events, t.events, topic, state))
              && t.states == q.states[topic := state] && t.changed && !t.closed && t.terminal == q.terminal
  {
    var f := L.RetainPicks(q.events, topic, state);
  }

  /** Taking an event, for every open queue: it joins at the end when it fits beside all that
      waits, and otherwise the listener has lagged and holds nothing more. */
  lemma EventKeeps(q: L.Queue, event: EventEnvelope, budget: nat)
    requires L.Balanced(q, budget) && !q.closed
    ensures var t := L.TakeEvent(q, event, true, budget);
            if L.Bytes(q.events) + L.EventSize(event) <= budget then
              && t == q.(events := t.events, eventBytes := t.eventBytes)
              && Payloads(t.events) == Payloads(q.events) + [event]
            else t.closed && t.terminal == Some(L.LAGGED) && t.events == [] && t.states == map[]
    ensures L.TakeEvent(q, event, false, budget) == q
  {
  }

  // ---- arrival

  /** The event that a move brings to the listener, if any: one that the validator of an
      attached feed accepts. */
  function ArrivingBy(h: Hub, move: Move): seq<EventEnvelope> {
    if move.Frame? && move.topic in h.feeds && move.topic in h.attached
       && Accept(h.feeds[move.topic].validation, move.item).Ok?
       && move.item.Update? && move.item.envelope.update.Event?
    then [move.item.envelope.update.event]
    else []
  }

  lemma Arrives(h: Hub, move: Move, receive: bool, budget: nat)
    ensures Act(h, move, receive, budget).arrived == h.arrived + ArrivingBy(h, move)
  {
    hide Accept, FoldItem, L.TakeState, L.TakeEvent, L.Next, L.Finish;
    assert h.arrived + [] == h.arrived;
  }

  // ---- over runs

  /** All that was given and all that still waits. */
  function Kept(h: Hub): seq<EventEnvelope> {
    h.given + Payloads(h.queue.events)
  }

  /** The m-th move left the listener with a state of the event's topic that does not show it. */
  predicate OutshownAt(moves: seq<Move>, m: nat, event: EventEnvelope, budget: nat)
    requires m < |moves|
  {
    var states := ActAll(moves[..m + 1], true, budget).queue.states;
    event.metadata.source.topic in states && !ShowsEvent(states[event.metadata.source.topic], event)
  }

  /** After it had arrived, the event was outshown by some move. */
  ghost predicate Outshown(moves: seq<Move>, a: nat, event: EventEnvelope, budget: nat) {
    exists m: nat :: m < |moves| && a < |ActAll(moves[..m], true, budget).arrived| && OutshownAt(moves, m, event, budget)
  }

  ghost predicate Accounted(moves: seq<Move>, h: Hub, f: seq<nat>, budget: nat) {
    && Picks(f, h.arrived, Kept(h))
    && forall a: nat :: a < |h.arrived| && a !in f ==> Outshown(moves, a, h.arrived[a], budget)
  }

  lemma OutshownLater(moves: seq<Move>, more: seq<Move>, a: nat, event: EventEnvelope, budget: nat)
    requires Outshown(moves, a, event, budget)
    ensures Outshown(moves + more, a, event, budget)
  {
    var m: nat :| m < |moves| && a < |ActAll(moves[..m], true, budget).arrived| && OutshownAt(moves, m, event, budget);
    assert (moves + more)[..m] == moves[..m] && (moves + more)[..m + 1] == moves[..m + 1];
    assert OutshownAt(moves + more, m, event, budget);
  }

  lemma PicksMore(f: seq<nat>, from: seq<EventEnvelope>, to: seq<EventEnvelope>, came: seq<EventEnvelope>)
    requires Picks(f, from, to) && |came| <= 1
    ensures Picks(if came == [] then f else f + [|from|], from + came, to + came)
  {
    if came == [] {
      assert from + came == from && to + came == to;
    }
  }

  /** A move that takes nothing away and brings the given events. */
  lemma AccountMore(moves: seq<Move>, h: Hub, f: seq<nat>, move: Move, t: Hub, came: seq<EventEnvelope>, budget: nat)
    returns (g: seq<nat>)
    requires Accounted(moves, h, f, budget) && |came| <= 1
    requires t.arrived == h.arrived + came && Kept(t) == Kept(h) + came
    ensures Accounted(moves + [move], t, g, budget)
  {
    hide Outshown, Kept;
    g := if came == [] then f else f + [|h.arrived|];
    PicksMore(f, h.arrived, Kept(h), came);
    if came != [] { assert g[|f|] == |h.arrived|; }
    forall a: nat | a < |t.arrived| && a !in g ensures Outshown(moves + [move], a, t.arrived[a], budget) {
      assert a !in f && a < |h.arrived|;
      OutshownLater(moves, [move], a, h.arrived[a], budget);
    }
  }

  /** A move that publishes a feed's state to the open listener. */
  lemma AccountState(moves: seq<Move>, h: Hub, f: seq<nat>, move: Move, t: Hub, topic: TopicRef, state: FeedState,
                     budget: nat) returns (g: seq<nat>)
    requires h == ActAll(moves, true, budget) && t == ActAll(moves + [move], true, budget)
    requires Accounted(moves, h, f, budget) && !h.queue.closed
    requires t.given == h.given && t.arrived == h.arrived && t.queue == L.TakeState(h.queue, topic, state)
    ensures Accounted(moves + [move], t, g, budget)
  {
    hide Outshown, Act, ActAll, ShowsEvent, Picks, Stays;
    var p := L.RetainPicks(h.queue.events, topic, state);
    var n := |h.given|;
    PicksSplit(f, h.arrived, h.given, Payloads(h.queue.events));
    PicksThrough(f[n..], p, h.arrived, h.queue.events, t.queue.events);
    var kept := Through(f[n..], p);
    ThroughAfter(f, n, p);
    PicksJoin(f[..n], kept, h.arrived, h.given, Payloads(t.queue.events));
    g := f[..n] + kept;
    forall a: nat | a < |t.arrived| && a !in g ensures Outshown(moves + [move], a, t.arrived[a], budget) {
      if a in f {
        var i := RestIndex(f, n, a);
        ThroughHas(f[n..], p, i);
        PickedAt(f[n..], h.arrived, Payloads(h.queue.events), i);
        DropOutshown(moves, h, move, t, topic, state, p, i, a, budget);
      } else {
        OutshownLater(moves, [move], a, h.arrived[a], budget);
      }
    }
  }

  /** An entry that the new state drops is outshown by it. */
  lemma DropOutshown(moves: seq<Move>, h: Hub, move: Move, t: Hub, topic: TopicRef, state: FeedState, p: seq<nat>, i: nat,
                     a: nat, budget: nat)
    requires h == ActAll(moves, true, budget) && t == ActAll(moves + [move], true, budget)
    requires !h.queue.closed && t.queue == L.TakeState(h.queue, topic, state) && a < |h.arrived|
    requires PicksStaying(p, h.queue.events, t.queue.events, topic, state) && i < |h.queue.events| && i !in p
    ensures Outshown(moves + [move], a, h.queue.events[i].1, budget)
  {
    hide Act, ActAll, ShowsEvent;
    assert (moves + [move])[..|moves + [move]| - 1] == moves;
    assert !Stays(h.queue.events[i].1, topic, state);
    OutshownNow(moves + [move], a, h.queue.events[i].1, budget);
  }

  lemma OutshownNow(moves: seq<Move>, a: nat, event: EventEnvelope, budget: nat)
    requires moves != [] && a < |ActAll(moves[..|moves| - 1], true, budget).arrived|
    requires var states := ActAll(moves, true, budget).queue.states;
             event.metadata.source.topic in states && !ShowsEvent(states[event.metadata.source.topic], event)
    ensures Outshown(moves, a, event, budget)
  {
    assert moves[..|moves| - 1 + 1] == moves;
    assert OutshownAt(moves, |moves| - 1, event, budget);
  }

  lemma PicksThrough(f: seq<nat>, p: seq<nat>, arrived: seq<EventEnvelope>, before: seq<(nat, EventEnvelope)>,
                     after: seq<(nat, EventEnvelope)>)
    requires Picks(f, arrived, Payloads(before)) && Picks(p, before, after)
    ensures forall j :: 0 <= j < |p| ==> p[j] < |f|
    ensures Picks(Through(f, p), arrived, Payloads(after))
  {
  }

  /** How one move of a run treats the listener while it stays open. */
  datatype Effect = Brings(came: seq<EventEnvelope>) | Publishes(topic: TopicRef, state: FeedState)

  predicate Has(h: Hub, t: Hub, effect: Effect) {
    match effect
    case Brings(came) => t.arrived == h.arrived + came && Kept(t) == Kept(h) + came && |came| <= 1
    case Publishes(topic, state) =>
      t.given == h.given && t.arrived == h.arrived && t.queue == L.TakeState(h.queue, topic, state)
  }

  lemma FrameHas(h: Hub, topic: TopicRef, item: SubscriptionItem, budget: nat) returns (effect: Effect)
    requires topic in h.feeds && !TakeItem(h, topic, item, true, budget).queue.closed
    ensures Has(h, TakeItem(h, topic, item, true, budget), effect)
  {
    hide Accept, FoldItem;
    var t := TakeItem(h, topic, item, true, budget);
    effect := Brings([]);
    assert h.arrived + [] == h.arrived && Kept(h) + [] == Kept(h);
    var verdict := Accept(h.feeds[topic].validation, item);
    if verdict.Ok? {
      var next := Feed(verdict.value, FoldItem(h.feeds[topic].folding, item), h.feeds[topic].ready || item.Ready?);
      if item.Begin? || item.Closed? {
      } else if item.Update? && item.envelope.update.Event? {
        if topic in h.attached {
          var event := item.envelope.update.event;
          effect := Brings([event]);
          assert Payloads(t.queue.events) == Payloads(h.queue.events) + [event];
          assert Kept(t) == Kept(h) + [event];
        }
      } else if next.ready && topic in h.attached {
        effect := Publishes(topic, next.folding.state);
      }
    }
  }

  lemma MoveHas(h: Hub, move: Move, budget: nat) returns (effect: Effect)
    requires !Act(h, move, true, budget).queue.closed
    ensures Has(h, Act(h, move, true, budget), effect)
  {
    hide TakeItem;
    effect := Brings([]);
    assert h.arrived + [] == h.arrived && Kept(h) + [] == Kept(h);
    match move
    case Frame(topic, item) =>
      if topic in h.feeds { effect := FrameHas(h, topic, item, budget); }
    case Attach(topic) =>
      if topic in h.feeds && h.feeds[topic].ready { effect := Publishes(topic, h.feeds[topic].folding.state); }
    case Resync(topic) =>
      if topic in h.feeds && h.feeds[topic].ready && topic in h.attached { effect := Publishes(topic, NOTHING); }
    case ReadNext => ReadKeeps(h, budget);
    case _ =>
  }

  lemma ReadKeeps(h: Hub, budget: nat)
    requires !h.queue.closed
    ensures Kept(Act(h, ReadNext, true, budget)) == Kept(h)
  {
    hide L.Current, Payloads;
    if h.queue.terminal.None? && !h.queue.changed && h.queue.events != [] {
      PayloadsHead(h.given, h.queue.events);
    }
  }

  lemma PayloadsHead(given: seq<EventEnvelope>, events: seq<(nat, EventEnvelope)>)
    requires events != []
    ensures given + Payloads(events) == (given + [events[0].1]) + Payloads(events[1..])
  {
    assert Payloads(events) == [events[0].1] + Payloads(events[1..]);
  }

  lemma StaysClosed(h: Hub, move: Move, receive: bool, budget: nat)
    requires h.queue.closed
    ensures Act(h, move, receive, budget).queue.closed
  {
    hide Accept, FoldItem;
  }

  /** The law of events, for every run of a listener that takes events and is still open:
      what it was given and what still waits are arrived events in order, each once, and every
      other arrived event was outshown later: a state of its topic came that did not show its
      session at its generation. */
  lemma {:induction false} NoEventIsLost(moves: seq<Move>, budget: nat) returns (f: seq<nat>)
    requires !ActAll(moves, true, budget).queue.closed
    ensures Accounted(moves, ActAll(moves, true, budget), f, budget)
    decreases |moves|
  {
    hide Act, Outshown, Accounted, Has;
    if moves == [] {
      f := NothingKept(budget);
    } else {
      var front, move := moves[..|moves| - 1], moves[|moves| - 1];
      var h, t := ActAll(front, true, budget), ActAll(moves, true, budget);
      if h.queue.closed { StaysClosed(h, move, true, budget); }
      var g := NoEventIsLost(front, budget);
      var effect := MoveHas(h, move, budget);
      assert moves == front + [move];
      f := EffectAccounts(front, h, g, move, t, effect, budget);
    }
  }

  lemma NothingKept(budget: nat) returns (f: seq<nat>)
    ensures Accounted([], START, f, budget)
  {
    f := [];
  }

  lemma EffectAccounts(moves: seq<Move>, h: Hub, f: seq<nat>, move: Move, t: Hub, effect: Effect, budget: nat)
    returns (g: seq<nat>)
    requires h == ActAll(moves, true, budget) && t == ActAll(moves + [move], true, budget)
    requires Accounted(moves, h, f, budget) && !h.queue.closed && Has(h, t, effect)
    ensures Accounted(moves + [move], t, g, budget)
  {
    hide Accounted, ActAll;
    match effect
    case Brings(came) => g := AccountMore(moves, h, f, move, t, came, budget);
    case Publishes(topic, state) => g := AccountState(moves, h, f, move, t, topic, state, budget);
  }
}
