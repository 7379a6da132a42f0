/** One subscriber's bounded queue: bootstrap frames, then live updates under a
    byte budget, then at most one terminal item that survives any overflow. */
module SubscriptionQueue {
  import opened Wire
  import opened WireSize

  datatype Queue = Queue(
    initial: seq<SubscriptionItem>,
    updates: seq<(SubscriptionItem, nat)>,
    bytes: nat,
    terminal: Option<SubscriptionEnd>,
    completed: bool)

  const EMPTY: Queue := Queue([], [], 0, None, false)

  predicate Ended(q: Queue) {
    q.terminal.Some? || q.completed
  }

  /** Drops everything except a Begin that has not been sent yet. */
  function Discard(q: Queue): Queue {
    q.(initial := if q.initial != [] && q.initial[0].Begin? then [q.initial[0]] else [],
       updates := [],
       bytes := 0)
  }

  function Exceeded(q: Queue, size: nat, budget: nat): Option<Resource> {
    if size > budget then Some(MessageBytes)
    else if size > (if q.bytes > budget then 0 else budget - q.bytes) then Some(QueuedBytes)
    else None
  }

  predicate Admits(q: Queue, item: SubscriptionItem, budget: nat) {
    !Ended(q) && Exceeded(q, ReplySize(item), budget).None?
  }

  function Offer(q: Queue, item: SubscriptionItem, budget: nat): Queue {
    if Ended(q) then q
    else
      match Exceeded(q, ReplySize(item), budget)
      case Some(resource) => Discard(q).(terminal := Some(ResyncRequired(Lagged(resource))))
      case None => q.(bytes := q.bytes + ReplySize(item), updates := q.updates + [(item, ReplySize(item))])
  }

  function Finish(q: Queue, end: SubscriptionEnd, discard: bool): Queue {
    if Ended(q) then q
    else (if discard then Discard(q) else q).(terminal := Some(end))
  }

  /** The next queue, the item taken, and whether the stream is complete. */
  function Pop(q: Queue): (Queue, Option<SubscriptionItem>, bool) {
    if q.initial != [] then (q.(initial := q.initial[1..]), Some(q.initial[0]), false)
    else if q.updates != [] then
      (q.(updates := q.updates[1..], bytes := if q.bytes < q.updates[0].1 then 0 else q.bytes - q.updates[0].1),
       Some(q.updates[0].0), false)
    else if q.terminal.Some? then
      (q.(terminal := None, completed := true), Some(Closed(q.terminal.value)), false)
    else (q, None, q.completed)
  }

  function Items(updates: seq<(SubscriptionItem, nat)>): (r: seq<SubscriptionItem>)
    ensures |r| == |updates|
    ensures forall i :: 0 <= i < |r| ==> r[i] == updates[i].0
  {
    seq(|updates|, i requires 0 <= i < |updates| => updates[i].0)
  }

  function Waiting(q: Queue): seq<SubscriptionItem> {
    q.initial + Items(q.updates)
  }

  function Total(updates: seq<(SubscriptionItem, nat)>): nat {
    if updates == [] then 0 else updates[0].1 + Total(updates[1..])
  }

  lemma {:induction false} TotalAppend(updates: seq<(SubscriptionItem, nat)>, last: (SubscriptionItem, nat))
    ensures Total(updates + [last]) == Total(updates) + last.1
  {
    if updates == [] {
      assert updates + [last] == [last];
    } else {
      TotalAppend(updates[1..], last);
      assert (updates + [last])[1..] == updates[1..] + [last];
    }
  }

  /** Byte accounting: the counter is exactly the size of what waits, within budget. */
  ghost predicate Balanced(q: Queue, budget: nat) {
    && q.bytes == Total(q.updates) <= budget
    && forall i :: 0 <= i < |q.updates| ==> q.updates[i].1 == ReplySize(q.updates[i].0)
  }

  /** A queue with its history: what left it, and what it ever took in. */
  datatype Traffic = Traffic(queue: Queue, sent: seq<SubscriptionItem>, accepted: seq<SubscriptionItem>)

  datatype Action =
    | OfferItem(item: SubscriptionItem)
    | FinishWith(end: SubscriptionEnd, discard: bool)
    | TakeNext

  function Opened(frames: seq<SubscriptionItem>): Traffic {
    Traffic(EMPTY.(initial := frames), [], frames)
  }

  function OfferTo(t: Traffic, item: SubscriptionItem, budget: nat): Traffic {
    Traffic(Offer(t.queue, item, budget), t.sent,
            if Admits(t.queue, item, budget) then t.accepted + [item] else t.accepted)
  }

  function Take(t: Traffic): Traffic {
    var (q, item, _) := Pop(t.queue);
    Traffic(q, if item.Some? then t.sent + [item.value] else t.sent, t.accepted)
  }

  function Act(t: Traffic, action: Action, budget: nat): Traffic {
    match action
    case OfferItem(item) => OfferTo(t, item, budget)
    case FinishWith(end, discard) => t.(queue := Finish(t.queue, end, discard))
    case TakeNext => Take(t)
  }

  function ActAll(t: Traffic, actions: seq<Action>, budget: nat): Traffic {
    if actions == [] then t
    else Act(ActAll(t, actions[..|actions| - 1], budget), actions[|actions| - 1], budget)
  }

  /** Begin first and only first, and no terminal item among the data. */
  predicate Framed(items: seq<SubscriptionItem>) {
    && items != []
    && items[0].Begin?
    && (forall i :: 0 < i < |items| ==> !items[i].Begin?)
    && (forall i :: 0 <= i < |items| ==> !items[i].Closed?)
  }

  /** The queue language. Everything taken in leaves in order; an end cuts the
      stream short but never before Begin; one terminal item is last; nothing follows it. */
  ghost predicate Lawful(t: Traffic, budget: nat) {
    && Balanced(t.queue, budget)
    && Framed(t.accepted)
    && (!Ended(t.queue) ==>
          t.sent + Waiting(t.queue) == t.accepted && (t.sent == [] ==> t.queue.initial != []))
    && (t.queue.terminal.Some? ==>
          !t.queue.completed && [] < t.sent + Waiting(t.queue) <= t.accepted)
    && (t.queue.completed ==>
          && Waiting(t.queue) == []
          && |t.sent| > 1
          && t.sent[|t.sent| - 1].Closed?
          && t.sent[..|t.sent| - 1] <= t.accepted)
  }

  /** What becomes of an open queue that is offered an update. One that fits beside all that
      waits is appended. One that is itself too large, or too large for the room left, ends
      the stream as lagged, and of what waits only a Begin that was not sent survives. */
  predicate ByRoom(q: Queue, item: SubscriptionItem, budget: nat, next: Queue) {
    if Total(q.updates) + ReplySize(item) <= budget then
      && Waiting(next) == Waiting(q) + [item] && next.initial == q.initial
      && next.bytes == Total(q.updates) + ReplySize(item) && !Ended(next)
    else
      && Waiting(next) == (if q.initial != [] && q.initial[0].Begin? then [q.initial[0]] else [])
      && next.bytes == 0 && !next.completed
      && next.terminal
         == Some(ResyncRequired(Lagged(if ReplySize(item) > budget then MessageBytes else QueuedBytes)))
  }

  lemma OfferedByRoom(q: Queue, item: SubscriptionItem, budget: nat)
    requires Balanced(q, budget) && !Ended(q)
    ensures ByRoom(q, item, budget, Offer(q, item, budget))
    ensures Admits(q, item, budget) <==> Total(q.updates) + ReplySize(item) <= budget
  {
    var entry := (item, ReplySize(item));
    assert Items(q.updates + [entry]) == Items(q.updates) + [item];
    assert q.initial + (Items(q.updates) + [item]) == q.initial + Items(q.updates) + [item];
  }

  lemma DiscardKeepsBegin(t: Traffic, budget: nat)
    requires Lawful(t, budget) && !Ended(t.queue)
    ensures [] < t.sent + Waiting(Discard(t.queue)) <= t.accepted
    ensures Total(Discard(t.queue).updates) == 0
  {
    var kept := Waiting(Discard(t.queue));
    if t.sent == [] {
      assert t.accepted == Waiting(t.queue);
      assert t.accepted[0] == t.queue.initial[0];
    } else {
      assert t.accepted[|t.sent|..] == Waiting(t.queue);
    }
  }

  lemma OfferLawful(t: Traffic, item: SubscriptionItem, budget: nat)
    requires Lawful(t, budget) && !item.Begin? && !item.Closed?
    ensures Lawful(OfferTo(t, item, budget), budget)
  {
    if Ended(t.queue) {
    } else if Admits(t.queue, item, budget) {
      var entry := (item, ReplySize(item));
      TotalAppend(t.queue.updates, entry);
      assert Items(t.queue.updates + [entry]) == Items(t.queue.updates) + [item];
      assert t.sent + (t.queue.initial + (Items(t.queue.updates) + [item])) == t.accepted + [item];
    } else {
      DiscardKeepsBegin(t, budget);
    }
  }

  lemma FinishLawful(t: Traffic, end: SubscriptionEnd, discard: bool, budget: nat)
    requires Lawful(t, budget)
    ensures Lawful(t.(queue := Finish(t.queue, end, discard)), budget)
  {
    if !Ended(t.queue) {
      DiscardKeepsBegin(t, budget);
    }
  }

  lemma TakeConserves(t: Traffic)
    requires Waiting(t.queue) != []
    ensures Take(t).sent + Waiting(Take(t).queue) == t.sent + Waiting(t.queue)
    ensures Take(t).queue.terminal == t.queue.terminal && Take(t).queue.completed == t.queue.completed
    ensures |Take(t).sent| == |t.sent| + 1 && Take(t).accepted == t.accepted
  {
    var q := t.queue;
    if q.initial != [] {
      assert t.sent + [q.initial[0]] + (q.initial[1..] + Items(q.updates)) == t.sent + Waiting(q);
    } else {
      assert Items(q.updates) == [q.updates[0].0] + Items(q.updates[1..]);
      assert t.sent + [q.updates[0].0] + Items(q.updates[1..]) == t.sent + Waiting(q);
      assert Waiting(Take(t).queue) == Items(q.updates[1..]);
    }
  }

  lemma PopBalanced(q: Queue, budget: nat)
    requires Balanced(q, budget)
    ensures Balanced(Pop(q).0, budget)
  {
    if q.initial == [] && q.updates != [] {
      var rest := q.updates[1..];
      assert forall i :: 0 <= i < |rest| ==> rest[i] == q.updates[i + 1];
    }
  }

  lemma TakeLawful(t: Traffic, budget: nat)
    requires Lawful(t, budget)
    ensures Lawful(Take(t), budget)
    ensures Ended(Take(t).queue) == Ended(t.queue)
  {
    PopBalanced(t.queue, budget);
    if Waiting(t.queue) != [] {
      TakeConserves(t);
    } else if t.queue.terminal.Some? {
      var next := Take(t);
      assert next.sent[..|next.sent| - 1] == t.sent == t.sent + Waiting(t.queue);
    }
  }

  /** For every mix of offers, finishes and pops after a framed bootstrap. */
  lemma {:induction false} QueueLanguage(frames: seq<SubscriptionItem>, actions: seq<Action>, budget: nat)
    requires Framed(frames)
    requires forall a :: a in actions && a.OfferItem? ==> !a.item.Begin? && !a.item.Closed?
    ensures Lawful(ActAll(Opened(frames), actions, budget), budget)
  {
    if actions == [] {
      assert Waiting(Opened(frames).queue) == frames;
    } else {
      var n := |actions| - 1;
      QueueLanguage(frames, actions[..n], budget);
      var t := ActAll(Opened(frames), actions[..n], budget);
      assert actions[n] in actions;
      match actions[n]
      case OfferItem(item) => OfferLawful(t, item, budget);
      case FinishWith(end, discard) => FinishLawful(t, end, discard, budget);
      case TakeNext => TakeLawful(t, budget);
    }
  }

  /** The queue object that a subscriber record and its handle share. */
  class SharedQueue {
    const messageBytes: nat
    var initial: seq<SubscriptionItem>
    var updates: seq<(SubscriptionItem, nat)>
    var bytes: nat
    var terminal: Option<SubscriptionEnd>
    var completed: bool

    function Contents(): Queue
      reads this
    {
      Queue(initial, updates, bytes, terminal, completed)
    }

    constructor (messageBytes: nat)
      ensures Contents() == EMPTY && this.messageBytes == messageBytes
    {
      this.messageBytes := messageBytes;
      initial, updates, bytes, terminal, completed := [], [], 0, None, false;
    }

    method DiscardContents()
      modifies this
      ensures Contents() == Discard(old(Contents()))
    {
      var begin := [];
      if initial != [] && initial[0].Begin? {
        begin := [initial[0]];
      }
      initial := begin;
      updates := [];
      bytes := 0;
    }

    method TryOffer(item: SubscriptionItem) returns (accepted: bool)
      modifies this
      ensures Contents() == Offer(old(Contents()), item, messageBytes)
      ensures accepted == Admits(old(Contents()), item, messageBytes)
      ensures old(Balanced(Contents(), messageBytes) && !Ended(Contents())) ==>
                && ByRoom(old(Contents()), item, messageBytes, Contents())
                && accepted == (Total(old(updates)) + ReplySize(item) <= messageBytes)
    {
      if Balanced(Contents(), messageBytes) && !Ended(Contents()) {
        OfferedByRoom(Contents(), item, messageBytes);
      }
      if terminal.Some? || completed {
        return false;
      }
      var size := ReplySize(item);
      var room := if bytes > messageBytes then 0 else messageBytes - bytes;
      var exceeded: Option<Resource> :=
        if size > messageBytes then Some(MessageBytes)
        else if size > room then Some(QueuedBytes)
        else None;
      if exceeded.Some? {
        DiscardContents();
        terminal := Some(ResyncRequired(Lagged(exceeded.value)));
        return false;
      }
      bytes := bytes + size;
      updates := updates + [(item, size)];
      accepted := true;
    }

    method FinishQueue(end: SubscriptionEnd, discard: bool)
      modifies this
      ensures Contents() == Finish(old(Contents()), end, discard)
    {
      if terminal.Some? || completed {
        return;
      }
      if discard {
        DiscardContents();
      }
      terminal := Some(end);
    }

    method SetInitial(frames: seq<SubscriptionItem>)
      modifies this
      ensures Contents() == old(Contents()).(initial := frames)
    {
      initial := frames;
    }

    /** The counter never underflows: a waiting update is part of the balance. */
    method PopNext() returns (item: Option<SubscriptionItem>, complete: bool)
      requires Balanced(Contents(), messageBytes)
      modifies this
      ensures (Contents(), item, complete) == Pop(old(Contents()))
      ensures Balanced(Contents(), messageBytes)
    {
      if initial != [] {
        item, complete := Some(initial[0]), false;
        initial := initial[1..];
        return;
      }
      if updates != [] {
        assert Total(updates) == updates[0].1 + Total(updates[1..]);
        item, complete := Some(updates[0].0), false;
        bytes := bytes - updates[0].1;
        updates := updates[1..];
        return;
      }
      if terminal.Some? {
        item, complete := Some(Closed(terminal.value)), false;
        terminal := None;
        completed := true;
        return;
      }
      item, complete := None, completed;
    }
  }
}
