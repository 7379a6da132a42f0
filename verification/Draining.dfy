/** What repeated reads give, and what a dropped handle leaves. */
module Draining {
  import opened Wire
  import opened SubscriptionQueue
  import opened Views
  import opened Service
  import opened Streams
  import opened Invariant
  import opened Settling
  import opened Subscribing
  import opened Journal
  import L = Listening
  import Discards
  import Settles = Flips
  import Selecting

  // ---- a subscriber's queue

  /** The queue after a number of reads, and the items that they gave. */
  function Reads(q: Queue, n: nat): (Queue, seq<SubscriptionItem>) {
    if n == 0 then (q, [])
    else
      var (before, given) := Reads(q, n - 1);
      var (after, item, _) := Pop(before);
      (after, if item.Some? then given + [item.value] else given)
  }

  lemma PopOne(q: Queue)
    ensures Waiting(q) != [] ==>
              var (next, item, done) := Pop(q);
              && item == Some(Waiting(q)[0]) && Waiting(next) == Waiting(q)[1..] && !done
              && next.terminal == q.terminal && next.completed == q.completed
  {
    if q.initial == [] && q.updates != [] {
      assert Items(q.updates[1..]) == Items(q.updates)[1..];
      assert q.initial + Items(q.updates) == Items(q.updates);
    }
  }

  /** Reading gives all that waits, first in first out; then the end, once; then nothing. */
  lemma {:induction false} ReadsGiveAll(q: Queue, n: nat)
    requires q.completed ==> q.terminal.None?
    ensures var (left, given) := Reads(q, n);
            if n <= |Waiting(q)| then
              && given == Waiting(q)[..n] && Waiting(left) == Waiting(q)[n..]
              && left.terminal == q.terminal && left.completed == q.completed
            else
              && given == Waiting(q) + (if q.terminal.Some? then [Closed(q.terminal.value)] else [])
              && Waiting(left) == [] && left.terminal.None? && left.completed == Ended(q)
  {
    hide Waiting;
    if n > 0 {
      ReadsGiveAll(q, n - 1);
      var before := Reads(q, n - 1).0;
      PopOne(before);
      if n > |Waiting(q)| { PopEmpty(before); }
    }
  }

  lemma PopEmpty(q: Queue)
    ensures Waiting(q) == [] ==>
              var (next, item, done) := Pop(q);
              && Waiting(next) == [] && next.terminal.None?
              && item == (if q.terminal.Some? then Some(Closed(q.terminal.value)) else None)
              && next.completed == (q.completed || q.terminal.Some?)
              && (done ==> q.completed)
  {
  }

  // ---- a listener's queue

  function ListenerReads(q: L.Queue, n: nat): (L.Queue, seq<L.Reply>) {
    if n == 0 then (q, [])
    else
      var (before, given) := ListenerReads(q, n - 1);
      var (after, reply) := L.Next(before);
      (after, given + [reply])
  }

  /** What the n-th read of an undisturbed listener gives: its failure or end first, completion
      once it is closed, else changed state, then each event in order, then nothing yet. */
  function NthReply(q: L.Queue, n: nat): L.Reply
    requires n > 0
  {
    if q.terminal.Some? && n == 1 then
      match q.terminal.value case Ended(end) => L.Gives(L.Closed(end)) case Failed(message) => L.Fails(message)
    else if q.closed then L.Done
    else
      var i := n - 1 - (if q.changed then 1 else 0);
      if i < 0 then L.Gives(L.State(L.Current(q)))
      else if i < |q.events| then L.Gives(L.Event(q.events[i].1))
      else L.Waits
  }

  /** What an undisturbed listener holds after n reads. */
  predicate LeftAfter(q: L.Queue, n: nat, left: L.Queue) {
    && left.states == q.states && left.closed == q.closed
    && (q.closed ==> left.terminal == if n == 0 then q.terminal else None)
    && (!q.closed ==>
          && left.terminal.None?
          && left.changed == (q.changed && n == 0)
          && var i := n - (if q.changed && n > 0 then 1 else 0);
             left.events == q.events[if i < |q.events| then i else |q.events|..])
  }

  lemma LeftNext(q: L.Queue, n: nat, before: L.Queue)
    requires (q.terminal.Some? ==> q.closed) && LeftAfter(q, n, before)
    ensures L.Next(before).1 == NthReply(q, n + 1) && LeftAfter(q, n + 1, L.Next(before).0)
  {
    hide L.Merge;
  }

  lemma {:induction false} ListenerReadsGive(q: L.Queue, n: nat)
    requires q.terminal.Some? ==> q.closed
    ensures var (left, given) := ListenerReads(q, n);
            && LeftAfter(q, n, left) && |given| == n
            && forall i: nat :: 0 < i <= n ==> given[i - 1] == NthReply(q, i)
  {
    hide LeftAfter, NthReply, L.Next;
    if n == 0 {
      LeftNow(q);
    } else {
      ListenerReadsGive(q, n - 1);
      LeftNext(q, n - 1, ListenerReads(q, n - 1).0);
    }
  }

  lemma LeftNow(q: L.Queue)
    requires q.terminal.Some? ==> q.closed
    ensures LeftAfter(q, 0, q)
  {
  }

  // ---- reading and dropping at the service

  /** Reading hands one subscriber the first item that waits for it, and touches nothing else. */
  lemma TakeHands(s: State, n: nat)
    requires n in s.channels
    ensures var t := TakeFrom(s, n);
            && t == s.(channels := t.channels) && t.channels.Keys == s.channels.Keys
            && (forall m :: m in s.channels && m != n ==> t.channels[m] == s.channels[m])
            && t.channels[n].selection == s.channels[n].selection
            && var before, after := s.channels[n].traffic, t.channels[n].traffic;
               && after.accepted == before.accepted
               && (Waiting(before.queue) != [] ==>
                     && after.sent == before.sent + [Waiting(before.queue)[0]]
                     && Waiting(after.queue) == Waiting(before.queue)[1..])
               && (Waiting(before.queue) == [] ==>
                     after.sent == before.sent + if before.queue.terminal.Some?
                                                 then [Closed(before.queue.terminal.value)] else [])
  {
    PopOne(s.channels[n].traffic.queue);
    PopEmpty(s.channels[n].traffic.queue);
  }

  /** A demanded topic is as it was and somebody asks for it; any other is idle and empty,
      and nobody does. */
  ghost predicate DroppedTopic(s: State, t: State, p: Place)
    requires Placed(s.sessions, p) && Placed(t.sessions, p)
  {
    var asked := exists n :: n in t.subscribers && Asks(t.subscribers[n].selection, p, s.sessions[p.id].info.session);
    if asked then At(t.sessions, p) == At(s.sessions, p) && At(t.sessions, p).demanded
    else !At(t.sessions, p).demanded && At(t.sessions, p).state.health == Idle && At(t.sessions, p).state.snapshot.None?
  }

  ghost predicate DropLeaves(s: State, id: nat, t: State, flips: seq<Notice>) {
    && id !in t.subscribers && id !in t.channels && t.channels.Keys == s.channels.Keys - {id}
    && Told(s.(subscribers := s.subscribers - {id}, channels := s.channels - {id}), t, flips) && Flips(flips)
    && (forall p :: Placed(s.sessions, p) ==> Placed(t.sessions, p) && DroppedTopic(s, t, p))
  }

  predicate Asks(selection: Selection, p: Place, session: SessionRef) {
    (selection.sessions == AllSessions || selection.sessions == OneSession(session)) && p.key in selection.topics
  }

  lemma DroppedAt(s: State, id: nat, now: nat, t: State, p: Place, texts: set<JsonPayload>)
    requires Inv(s, texts) && t == Drop(s, id, now) && !s.stopped && !t.stopped && Placed(s.sessions, p)
    ensures Placed(t.sessions, p)
    ensures if At(t.sessions, p).demanded then At(t.sessions, p) == At(s.sessions, p)
            else At(t.sessions, p).state.health == Idle && At(t.sessions, p).state.snapshot.None?
  {
    hide Settle, Synced, Cached, Bounded, StateOk;
    var removed := s.(subscribers := s.subscribers - {id}, channels := s.channels - {id});
    RemoveSteady(s, id, {id}, texts);
    DropWants(s, id, removed);
    Settles.SettleAt(removed, now, p, t, texts);
    Discards.SettleReleases(removed, now, texts);
    assert At(t.sessions, p).demanded ==> At(s.sessions, p).demanded;
  }

  lemma DropWants(s: State, id: nat, removed: State)
    requires DemandExact(s) && removed.subscribers == s.subscribers - {id} && removed.sessions == s.sessions
    ensures Discards.NoneNewlyWanted(removed)
  {
    forall p | Placed(removed.sessions, p) && Demanded(removed.subscribers, removed.sessions[p.id].info.session, p.key)
      ensures At(removed.sessions, p).demanded
    {
      assert Demanded(s.subscribers, s.sessions[p.id].info.session, p.key);
    }
  }

  /** Dropping a handle forgets its subscriber, and releases exactly the topics that nobody
      else asks for; every other topic that is demanded stays as it was, and subscribers are
      told of flips of demand only. */
  lemma DropReleases(s: State, id: nat, now: nat, t: State, texts: set<JsonPayload>)
    requires Inv(s, texts) && t == Drop(s, id, now) && !s.stopped && !t.stopped
    ensures exists flips :: DropLeaves(s, id, t, flips)
  {
    hide Settle, Steady, Told, Flips, DroppedTopic, Inv;
    var removed := s.(subscribers := s.subscribers - {id}, channels := s.channels - {id});
    DropSettles(s, id, now, t, texts);
    InvSteady(s, texts);
    RemoveSteady(s, id, {id}, texts);
    SettleSteady(removed, now, texts);
    var flips := SettleTells(removed, now);
    assert DropLeaves(s, id, t, flips);
  }

  lemma DropSettles(s: State, id: nat, now: nat, t: State, texts: set<JsonPayload>)
    requires Inv(s, texts) && t == Drop(s, id, now) && !s.stopped && !t.stopped
    ensures forall p :: Placed(s.sessions, p) ==> Placed(t.sessions, p) && DroppedTopic(s, t, p)
  {
    hide Drop, Synced, Cached, Bounded, StateOk, Asks;
    DropInv(s, id, now, texts);
    DropFrame(s, id, now, t, texts);
    forall p | Placed(s.sessions, p) ensures Placed(t.sessions, p) && DroppedTopic(s, t, p) {
      DroppedAt(s, id, now, t, p, texts);
      DemandedAsks(t, p, s.sessions[p.id].info.session);
    }
  }

  lemma DropFrame(s: State, id: nat, now: nat, t: State, texts: set<JsonPayload>)
    requires Inv(s, texts) && t == Drop(s, id, now)
    ensures forall n :: n in s.sessions ==> n in t.sessions && t.sessions[n].info == s.sessions[n].info
  {
    hide Settle, Steady;
    InvSteady(s, texts);
    RemoveSteady(s, id, {id}, texts);
    SettleSteady(s.(subscribers := s.subscribers - {id}, channels := s.channels - {id}), now, texts);
  }

  lemma DemandedAsks(t: State, p: Place, session: SessionRef)
    requires DemandExact(t) && Placed(t.sessions, p) && t.sessions[p.id].info.session == session
    ensures At(t.sessions, p).demanded <==> exists n :: n in t.subscribers && Asks(t.subscribers[n].selection, p, session)
  {
    if At(t.sessions, p).demanded {
      var n :| n in t.subscribers && Selecting.Matches(t.subscribers[n].selection, session, p.key);
      assert Asks(t.subscribers[n].selection, p, session);
    }
    if exists n :: n in t.subscribers && Asks(t.subscribers[n].selection, p, session) {
      var n :| n in t.subscribers && Asks(t.subscribers[n].selection, p, session);
      assert Selecting.Matches(t.subscribers[n].selection, session, p.key);
    }
  }
}
