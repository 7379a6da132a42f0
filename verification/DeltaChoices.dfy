/** When a snapshot travels as a delta, and how an acknowledgement makes the next one do so. */
module DeltaChoices {
  import opened Wire
  import opened WireSize
  import opened ClientValidation
  import opened Delta
  import opened Delivering
  import opened Reading

  /** The delta from a stored snapshot to the target, when both texts parse. */
  function DeltaFrom<V, P>(c: Codec<V, P>, base: DataEnvelope, target: DataEnvelope): Option<SnapshotPayload> {
    if c.parse(base.payload).Some? && c.parse(target.payload).Some?
    then Some(SnapshotPayload.Delta(base.metadata.sequence, c.digest(target.payload),
                                    c.renderPatch(c.diff(c.parse(base.payload).value, c.parse(target.payload).value))))
    else None
  }

  /** The sender holds an acknowledged snapshot of the same source and generation, and the
      delta from it takes fewer bytes than the text. */
  predicate Smaller<V, P>(c: Codec<V, P>, d: Delivery, target: DataEnvelope) {
    var key := Key(target.metadata.source.session, target.metadata.source.topic);
    && key in d.baselines && d.baselines[key].acknowledged
    && d.baselines[key].snapshot.metadata.source == target.metadata.source
    && d.baselines[key].snapshot.metadata.generation == target.metadata.generation
    && DeltaFrom(c, d.baselines[key].snapshot, target).Some?
    && PayloadSize(DeltaFrom(c, d.baselines[key].snapshot, target).value) < PayloadSize(Full(target.payload))
  }

  ghost predicate MemoFor<V, P>(c: Codec<V, P>, d: Delivery, target: DataEnvelope, texts: set<string>, memo: Memo) {
    var key := Key(target.metadata.source.session, target.metadata.source.topic);
    && CollisionFree(c, texts) && MemoOk(c, target.payload, texts, memo)
    && (key in d.baselines ==> d.baselines[key].snapshot.payload in texts)
  }

  /** A topic update whose snapshot is of its own source. */
  predicate OfTopic(item: SubscriptionItem, target: DataEnvelope, cursor: Option<ServiceCursor>) {
    if item.TopicFrame? then
      cursor == None && item.topic.snapshot == Some(target) && target.metadata.source == item.topic.source
    else
      && item.Update? && item.envelope.update.TopicChanged? && cursor == Some(item.envelope.cursor)
      && item.envelope.update.topic.snapshot == Some(target)
      && target.metadata.source == item.envelope.update.topic.source
  }

  /** A snapshot of a delta topic always leaves as a snapshot frame: as a delta exactly when
      an acknowledged baseline makes that smaller, and in full otherwise; and it becomes the
      new baseline, not yet acknowledged. */
  lemma DeltaExactlyWhenSmaller<V, P>(c: Codec<V, P>, d: Delivery, item: SubscriptionItem, target: DataEnvelope,
                                      cursor: Option<ServiceCursor>, texts: set<string>, memo: Memo)
    requires OfTopic(item, target, cursor) && target.metadata.source.topic in d.topics
    requires MemoFor(c, d, target, texts, memo)
    ensures var key := Key(target.metadata.source.session, target.metadata.source.topic);
            var (next, frame) := Encode(c, d, item, memo);
            && frame == SnapshotItem(SnapshotFrame(
                 cursor, target.metadata,
                 if Smaller(c, d, target) then DeltaFrom(c, d.baselines[key].snapshot, target).value
                 else Full(target.payload)))
            && next == Delivery(d.topics, d.baselines[key := Baseline(target, false)])
  {
    var key := Key(target.metadata.source.session, target.metadata.source.topic);
    if key in d.baselines {
      MemoIsFresh(c, d.baselines[key].snapshot.payload, target.payload, texts, memo);
    }
  }

  /** Everything else leaves unchanged. */
  lemma OthersInFull<V, P>(c: Codec<V, P>, d: Delivery, item: SubscriptionItem, memo: Memo)
    requires forall target, cursor :: OfTopic(item, target, cursor) ==> target.metadata.source.topic !in d.topics
    requires item.TopicFrame? && item.topic.snapshot.Some? ==> item.topic.snapshot.value.metadata.source == item.topic.source
    requires item.Update? && item.envelope.update.TopicChanged? && item.envelope.update.topic.snapshot.Some? ==>
               item.envelope.update.topic.snapshot.value.metadata.source == item.envelope.update.topic.source
    ensures Encode(c, d, item, memo).1 == item
  {
    if item.TopicFrame? && item.topic.snapshot.Some? {
      assert OfTopic(item, item.topic.snapshot.value, None);
    } else if item.Update? && item.envelope.update.TopicChanged? && item.envelope.update.topic.snapshot.Some? {
      assert OfTopic(item, item.envelope.update.topic.snapshot.value, Some(item.envelope.cursor));
    }
  }

  /** A delta reader that accepts a snapshot frame holds the snapshot as its baseline and
      leaves an acknowledgement of exactly it due; no other frame makes one due. */
  lemma SnapshotLeavesAck<V, P>(c: Codec<V, P>, r: Reader, frame: SubscriptionItem, limit: nat)
    requires ReadNext(c, r, frame, limit).1.Ok?
    ensures var (next, given) := ReadNext(c, r, frame, limit);
            if frame.SnapshotItem? && r.deltas then
              exists snapshot :: OfTopic(given.value, snapshot, frame.frame.cursor)
                && snapshot.metadata == frame.frame.metadata
                && next.pendingAck == Some(SnapshotAck(snapshot.metadata, c.digest(snapshot.payload)))
                && var key := Key(snapshot.metadata.source.session, snapshot.metadata.source.topic);
                   key in next.baselines && next.baselines[key] == snapshot
            else next.pendingAck == r.pendingAck
  {
    hide Accept, Rebuild;
    if frame.SnapshotItem? && r.deltas {
      var item := ReadNext(c, r, frame, limit).1.value;
      var topic := TopicIn(item).value;
      assert OfTopic(item, topic.snapshot.value, frame.frame.cursor);
    }
  }

  /** One exchange: a snapshot sent, read and acknowledged makes the next snapshot of its
      source and generation travel as a delta whenever that is smaller. */
  lemma AcknowledgedEnablesDelta<V, P>(c: Codec<V, P>, d: Delivery, first: SubscriptionItem, sent: DataEnvelope,
                                       at: Option<ServiceCursor>, item: SubscriptionItem, target: DataEnvelope,
                                       cursor: Option<ServiceCursor>, texts: set<string>, memo: Memo, later: Memo)
    requires OfTopic(first, sent, at) && OfTopic(item, target, cursor)
    requires sent.metadata.source == target.metadata.source && sent.metadata.generation == target.metadata.generation
    requires target.metadata.source.topic in d.topics && sent.payload in texts
    requires CollisionFree(c, texts) && MemoOk(c, target.payload, texts, later)
    ensures var told := Confirm(c, Encode(c, d, first, memo).0, SnapshotAck(sent.metadata, c.digest(sent.payload)));
            var frame := Encode(c, told, item, later).1;
            && frame.SnapshotItem?
            && frame.frame.payload
               == (var delta := DeltaFrom(c, sent, target);
                   if delta.Some? && PayloadSize(delta.value) < PayloadSize(Full(target.payload)) then delta.value
                   else Full(target.payload))
  {
    hide Choose;
    var told := Confirm(c, Encode(c, d, first, memo).0, SnapshotAck(sent.metadata, c.digest(sent.payload)));
    DeltaExactlyWhenSmaller(c, told, item, target, cursor, texts, later);
  }
}
