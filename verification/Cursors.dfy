/** Sequence numbers as a client sees them: rising, and carried by what they publish. */
module Cursors {
  import opened Wire
  import opened ClientValidation
  import opened Service
  import opened Streams
  import opened Invariant
  import opened Runs

  function CursorOf(item: SubscriptionItem): Option<nat> {
    match item
    case Begin(cursor) => Some(cursor.sequence)
    case Update(envelope) => Some(envelope.cursor.sequence)
    case _ => None
  }

  /** Every cursor is larger than all cursors before it. */
  predicate CursorsRise(items: seq<SubscriptionItem>) {
    forall i, j :: 0 <= i < j < |items| && CursorOf(items[i]).Some? && CursorOf(items[j]).Some? ==>
      CursorOf(items[i]).value < CursorOf(items[j]).value
  }

  /** A live snapshot or event carries the sequence of the very update that delivers it. */
  predicate CarriesOwn(item: SubscriptionItem) {
    item.Update? ==>
      && (item.envelope.update.Event? ==>
            item.envelope.update.event.metadata.sequence == item.envelope.cursor.sequence)
      && (item.envelope.update.TopicChanged? && item.envelope.update.topic.snapshot.Some? ==>
            item.envelope.update.topic.snapshot.value.metadata.sequence == item.envelope.cursor.sequence)
  }

  lemma AdmitSequence(v: Validation, item: SubscriptionItem, w: Validation)
    requires Admit(v, item) == Ok(w)
    ensures Begun(w)
    ensures CursorOf(item).Some? ==> w.sequence == CursorOf(item).value && (Begun(v) ==> v.sequence < w.sequence)
    ensures CursorOf(item).None? ==> w.sequence == v.sequence && Begun(v)
    ensures item.Update? && item.envelope.update.Event? ==>
              item.envelope.update.event.metadata.sequence == item.envelope.cursor.sequence
  {
  }

  lemma {:induction false} AdmittedRise(selection: Selection, items: seq<SubscriptionItem>)
    requires AdmitAll(selection, items).Ok?
    ensures CursorsRise(items)
    ensures forall i :: 0 <= i < |items| && CursorOf(items[i]).Some? ==>
              CursorOf(items[i]).value <= AdmitAll(selection, items).value.sequence
    ensures Begun(AdmitAll(selection, items).value) <==> items != []
  {
    hide Admit;
    if items != [] {
      var front, item := items[..|items| - 1], items[|items| - 1];
      AdmittedRise(selection, front);
      AdmitSequence(AdmitAll(selection, front).value, item, AdmitAll(selection, items).value);
      RiseMore(front, item, AdmitAll(selection, front).value.sequence);
      assert items == front + [item];
    }
  }

  lemma RiseMore(front: seq<SubscriptionItem>, item: SubscriptionItem, sequence: nat)
    requires CursorsRise(front)
    requires forall i :: 0 <= i < |front| && CursorOf(front[i]).Some? ==> CursorOf(front[i]).value <= sequence
    requires front != [] && CursorOf(item).Some? ==> sequence < CursorOf(item).value
    ensures CursorsRise(front + [item])
  {
    var all := front + [item];
    assert forall i :: 0 <= i < |front| ==> all[i] == front[i];
  }

  lemma {:induction false} EventsCarryOwn(selection: Selection, items: seq<SubscriptionItem>, i: nat)
    requires AdmitAll(selection, items).Ok? && i < |items|
    ensures items[i].Update? && items[i].envelope.update.Event? ==>
              items[i].envelope.update.event.metadata.sequence == items[i].envelope.cursor.sequence
    decreases |items|
  {
    var front := items[..|items| - 1];
    if i < |front| {
      EventsCarryOwn(selection, front, i);
    } else {
      AdmitSequence(AdmitAll(selection, front).value, items[i], AdmitAll(selection, items).value);
    }
  }

  /** In every reachable state, in everything any subscriber ever took in: no cursor repeats
      or falls back, and each snapshot and event carries the cursor of its own update. */
  lemma EveryCursorRises(s: State, id: nat, texts: set<JsonPayload>)
    requires Reachable(s, texts) && id in s.channels
    ensures CursorsRise(s.channels[id].traffic.accepted)
    ensures forall i :: 0 <= i < |s.channels[id].traffic.accepted| ==> CarriesOwn(s.channels[id].traffic.accepted[i])
  {
    hide Reachable, Inv;
    var ch := s.channels[id];
    ReachableInv(s, texts);
    HandleOk(s, id, texts);
    AdmittedRise(ch.selection, ch.traffic.accepted);
    forall i | 0 <= i < |ch.traffic.accepted| ensures CarriesOwn(ch.traffic.accepted[i]) {
      EventsCarryOwn(ch.selection, ch.traffic.accepted, i);
      assert ch.traffic.accepted[i] in ch.traffic.accepted;
    }
  }

  lemma HandleOk(s: State, id: nat, texts: set<JsonPayload>)
    requires Inv(s, texts) && id in s.channels
    ensures ChannelOk(s.channels[id], s.messageBytes, texts)
  {
  }
}
