/** The streams that the service produces are fit for delta delivery. */
module ServiceDeltas {
  import opened Wire
  import opened WireSize
  import opened SubscriptionQueue
  import opened ClientValidation
  import opened Views
  import opened Service
  import opened Streams
  import opened Delta
  import opened Delivering
  import opened DeltaRuns
  import opened Runs

  function LineOf(item: SubscriptionItem): TopicSource
    requires SnapshotIn(item).Some?
  {
    SnapshotIn(item).value.metadata.source
  }

  /** What the validator's own checks imply about the snapshots read so far. */
  ghost predicate Ordered(items: seq<SubscriptionItem>, v: Validation) {
    && (!Begun(v) ==> items == [])
    && Rising(items)
    && (forall i :: 0 <= i < |items| ==> Agrees(items[i]) && !items[i].SnapshotItem?)
    && (forall i :: 0 <= i < |items| && SnapshotIn(items[i]).Some? ==>
          SnapshotIn(items[i]).value.metadata.sequence <= v.sequence)
    && (!v.ready ==> forall i :: 0 <= i < |items| && SnapshotIn(items[i]).Some? ==>
          var source := LineOf(items[i]);
          source.session.sessionId in v.sessions && source.topic in v.sessions[source.session.sessionId].topics)
  }

  lemma RisingMore(items: seq<SubscriptionItem>, item: SubscriptionItem)
    requires Rising(items)
    requires SnapshotIn(item).Some? ==>
               forall i :: 0 <= i < |items| && SnapshotIn(items[i]).Some?
                           && SameLine(SnapshotIn(items[i]).value.metadata, SnapshotIn(item).value.metadata) ==>
                 SnapshotIn(items[i]).value.metadata.sequence < SnapshotIn(item).value.metadata.sequence
    ensures Rising(items + [item])
  {
    var all := items + [item];
    forall i, j | 0 <= i < j < |all| && SnapshotIn(all[i]).Some? && SnapshotIn(all[j]).Some?
                  && SameLine(SnapshotIn(all[i]).value.metadata, SnapshotIn(all[j]).value.metadata)
      ensures SnapshotIn(all[i]).value.metadata.sequence < SnapshotIn(all[j]).value.metadata.sequence
    {
      assert all[i] == items[i];
    }
  }

  lemma OrderedBootstrap(items: seq<SubscriptionItem>, v: Validation, topic: TopicSnapshot, w: Validation)
    requires Ordered(items, v) && Begun(v) && !v.ready && AcceptTopic(v, topic, true) == Ok(w)
    ensures Ordered(items + [TopicFrame(topic)], w)
  {
    RisingMore(items, TopicFrame(topic));
  }

  lemma AcceptUpdateKeeps(v: Validation, update: SubscriptionUpdate, w: Validation)
    requires AcceptUpdate(v, update) == Ok(w)
    ensures w == v.(sessions := w.sessions)
    ensures update.TopicChanged? ==> SnapshotMatches(update.topic, v.sequence)
  {
  }

  lemma OrderedUpdate(items: seq<SubscriptionItem>, v: Validation, envelope: UpdateEnvelope, w: Validation,
                      texts: set<JsonPayload>)
    requires Ordered(items, v) && Admit(v, Update(envelope)) == Ok(w) && ItemOk(Update(envelope), texts)
    ensures Ordered(items + [Update(envelope)], w)
  {
    AcceptUpdateKeeps(v.(sequence := envelope.cursor.sequence), envelope.update, w);
    RisingMore(items, Update(envelope));
  }

  lemma OrderedOther(items: seq<SubscriptionItem>, v: Validation, item: SubscriptionItem, w: Validation)
    requires Ordered(items, v) && Admit(v, item) == Ok(w)
    requires !item.TopicFrame? && !item.Update?
    ensures Ordered(items + [item], w)
  {
    RisingMore(items, item);
  }

  lemma {:induction false} AdmittedOrdered(selection: Selection, items: seq<SubscriptionItem>, texts: set<JsonPayload>)
    requires AdmitAll(selection, items).Ok? && forall item :: item in items ==> ItemOk(item, texts)
    ensures Ordered(items, AdmitAll(selection, items).value)
  {
    if items != [] {
      var front, item := items[..|items| - 1], items[|items| - 1];
      assert item in items && items == front + [item];
      AdmittedOrdered(selection, front, texts);
      var v, w := AdmitAll(selection, front).value, AdmitAll(selection, items).value;
      match item
      case TopicFrame(topic) => OrderedBootstrap(front, v, topic, w);
      case Update(envelope) => OrderedUpdate(front, v, envelope, w, texts);
      case _ => OrderedOther(front, v, item, w);
    }
  }

  lemma FromTexts(item: SubscriptionItem, texts: set<JsonPayload>)
    requires ItemOk(item, texts) && SnapshotIn(item).Some?
    ensures SnapshotIn(item).value.payload in texts
  {
  }

  ghost predicate AllCanonical<V, P>(c: Codec<V, P>, texts: set<string>) {
    forall text :: text in texts ==> Canonical(c, text)
  }

  /** Every item ever queued for a subscriber, in order, with a closing item after any prefix. */
  lemma QueuedFits<V, P>(c: Codec<V, P>, ch: Channel, budget: nat, texts: set<JsonPayload>)
    requires ChannelOk(ch, budget, texts) && AllCanonical(c, texts)
    ensures Rising(ch.traffic.accepted)
    ensures forall i :: 0 <= i < |ch.traffic.accepted| ==> ItemFits(c, ch.traffic.accepted[i], texts, budget)
  {
    var items := ch.traffic.accepted;
    AdmittedOrdered(ch.selection, items, texts);
    forall i | 0 <= i < |items| ensures ItemFits(c, items[i], texts, budget) {
      assert items[i] in items;
      if SnapshotIn(items[i]).Some? { FromTexts(items[i], texts); }
    }
  }

  /** Each item is one that was queued, in its place, or a closing item. */
  lemma StreamItems(t: Traffic, budget: nat, i: nat)
    requires Lawful(t, budget) && i < |Stream(t)|
    ensures (i < |t.accepted| && Stream(t)[i] == t.accepted[i]) || Stream(t)[i].Closed?
  {
    var body := t.sent + Waiting(t.queue);
    if t.queue.completed {
      assert Stream(t) == t.sent;
      if i < |t.sent| - 1 { assert t.sent[..|t.sent| - 1][i] == t.sent[i]; }
    } else {
      assert body <= t.accepted;
      if i < |body| { assert Stream(t)[i] == body[i]; }
    }
  }

  lemma StreamFits<V, P>(c: Codec<V, P>, ch: Channel, budget: nat, texts: set<JsonPayload>)
    requires ChannelOk(ch, budget, texts) && AllCanonical(c, texts)
    ensures Rising(Stream(ch.traffic))
    ensures forall i :: 0 <= i < |Stream(ch.traffic)| ==> ItemFits(c, Stream(ch.traffic)[i], texts, budget)
  {
    var items, all := Stream(ch.traffic), ch.traffic.accepted;
    QueuedFits(c, ch, budget, texts);
    forall i | 0 <= i < |items| ensures ItemFits(c, items[i], texts, budget) {
      StreamItems(ch.traffic, budget, i);
    }
    forall i, j | 0 <= i < j < |items| && SnapshotIn(items[i]).Some? && SnapshotIn(items[j]).Some?
                  && SameLine(SnapshotIn(items[i]).value.metadata, SnapshotIn(items[j]).value.metadata)
      ensures SnapshotIn(items[i]).value.metadata.sequence < SnapshotIn(items[j]).value.metadata.sequence
    {
      StreamItems(ch.traffic, budget, i);
      StreamItems(ch.traffic, budget, j);
    }
  }

  lemma SentFits<V, P>(c: Codec<V, P>, ch: Channel, budget: nat, texts: set<JsonPayload>)
    requires ChannelOk(ch, budget, texts) && AllCanonical(c, texts)
    ensures Rising(ch.traffic.sent)
    ensures forall i :: 0 <= i < |ch.traffic.sent| ==> ItemFits(c, ch.traffic.sent[i], texts, budget)
  {
    StreamFits(c, ch, budget, texts);
    var items := Stream(ch.traffic);
    assert forall i :: 0 <= i < |ch.traffic.sent| ==> ch.traffic.sent[i] == items[i];
  }

  /** In every reachable state the items popped for a subscription are fit for delta
      delivery: whatever the link has done with them since, the client's reader refuses
      nothing and has yielded a prefix of exactly those items, so long as its own
      metadata bound holds. */
  lemma EndToEnd<V(!new), P(!new)>(c: Codec<V, P>, s: State, id: nat, topics: set<TopicRef>, deltas: bool,
                                   moves: seq<Move>, texts: set<JsonPayload>)
    requires Reachable(s, texts) && id in s.channels
    requires Laws(c) && CollisionFree(c, texts) && AllCanonical(c, texts) && HonestMoves(c, moves, texts)
    requires var ch := s.channels[id];
             && MetadataFitsThroughout(ch.selection, ch.traffic.sent)
             && Moves(c, Connect(ch.selection, topics, deltas), moves, s.messageBytes).handed == ch.traffic.sent
    ensures var l := Moves(c, Connect(s.channels[id].selection, topics, deltas), moves, s.messageBytes);
            !l.refused && l.yielded <= s.channels[id].traffic.sent
  {
    var ch := s.channels[id];
    ReachableInv(s, texts);
    assert ChannelOk(ch, s.messageBytes, texts);
    ChannelAccepted(ch, s.messageBytes, texts);
    SentFits(c, ch, s.messageBytes, texts);
    DeltasAreTransparent(c, ch.selection, topics, deltas, moves, texts, s.messageBytes);
  }
}
