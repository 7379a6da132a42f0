/** Per-stream acknowledged baselines on the sending side. */
module Delivering {
  import opened Wire
  import opened WireSize
  import opened Delta

  datatype Key = Key(session: SessionRef, topic: TopicRef)

  datatype Baseline = Baseline(snapshot: DataEnvelope, acknowledged: bool)

  datatype Delivery = Delivery(topics: set<TopicRef>, baselines: map<Key, Baseline>)

  function KeyOf(source: TopicSource): Key {
    Key(source.session, source.topic)
  }

  /** The topic state that an item carries, in a bootstrap or live. */
  function TopicIn(item: SubscriptionItem): Option<TopicSnapshot> {
    match item
    case TopicFrame(topic) => Some(topic)
    case Update(envelope) => if envelope.update.TopicChanged? then Some(envelope.update.topic) else None
    case _ => None
  }

  function CursorIn(item: SubscriptionItem): Option<ServiceCursor> {
    if item.Update? then Some(item.envelope.cursor) else None
  }

  function Without<T>(baselines: map<Key, T>, session: SessionRef): map<Key, T> {
    map k | k in baselines && k.session != session :: baselines[k]
  }

  predicate Usable(d: Delivery, key: Key, target: DataEnvelope) {
    && key in d.baselines
    && d.baselines[key].acknowledged
    && d.baselines[key].snapshot.metadata.source == target.metadata.source
    && d.baselines[key].snapshot.metadata.generation == target.metadata.generation
  }

  /** A delta when there is an acknowledged baseline and the patch is smaller, else the full text. */
  function Choose<V, P>(c: Codec<V, P>, d: Delivery, key: Key, target: DataEnvelope, memo: Memo): SnapshotPayload {
    var full := Full(target.payload);
    if !Usable(d, key, target) then full
    else
      match Between(c, d.baselines[key].snapshot, target, memo)
      case None => full
      case Some(delta) => if PayloadSize(delta) < PayloadSize(full) then delta else full
  }

  function EncodeTopic<V, P>(c: Codec<V, P>, d: Delivery, item: SubscriptionItem, topic: TopicSnapshot, memo: Memo)
    : (Delivery, SubscriptionItem)
  {
    var key := KeyOf(topic.source);
    if topic.source.topic !in d.topics then (d, item)
    else
      match topic.snapshot
      case None => (d.(baselines := d.baselines - {key}), item)
      case Some(target) =>
        (d.(baselines := d.baselines[key := Baseline(target, false)]),
         SnapshotItem(SnapshotFrame(CursorIn(item), target.metadata, Choose(c, d, key, target, memo))))
  }

  function Encode<V, P>(c: Codec<V, P>, d: Delivery, item: SubscriptionItem, memo: Memo): (Delivery, SubscriptionItem) {
    match TopicIn(item)
    case Some(topic) => EncodeTopic(c, d, item, topic, memo)
    case None =>
      if item.Update? && item.envelope.update.TopicReset? then
        (d.(baselines := d.baselines - {KeyOf(item.envelope.update.source)}), item)
      else if item.Update? && item.envelope.update.SessionEnded? then
        (d.(baselines := Without(d.baselines, item.envelope.update.session)), item)
      else (d, item)
  }

  function Confirm<V, P>(c: Codec<V, P>, d: Delivery, ack: SnapshotAck): Delivery {
    var key := KeyOf(ack.metadata.source);
    if key in d.baselines && d.baselines[key].snapshot.metadata == ack.metadata
       && c.digest(d.baselines[key].snapshot.payload) == ack.hash
    then d.(baselines := d.baselines[key := d.baselines[key].(acknowledged := true)])
    else d
  }

  const CLOSED: Delivery := Delivery({}, map[])

  /** Encoding never enlarges an item, so a frame that was admitted in full still fits. */
  lemma EncodeNeverGrows<V, P>(c: Codec<V, P>, d: Delivery, item: SubscriptionItem, memo: Memo)
    ensures ReplySize(Encode(c, d, item, memo).1) <= ReplySize(item)
  {
  }

  /** The delivery object that one stream's serving loop owns. */
  class Sender<V, P> {
    const codec: Codec<V, P>
    var topics: set<TopicRef>
    var baselines: map<Key, Baseline>
    var readAcks: bool

    function State(): Delivery
      reads this
    {
      Delivery(topics, baselines)
    }

    constructor (codec: Codec<V, P>, topics: set<TopicRef>)
      ensures State() == Delivery(topics, map[]) && readAcks == (topics != {}) && this.codec == codec
    {
      this.codec := codec;
      this.topics := topics;
      baselines := map[];
      readAcks := topics != {};
    }

    method Send(item: SubscriptionItem, memo: Memo) returns (frame: SubscriptionItem)
      modifies this
      ensures (State(), frame) == Encode(codec, old(State()), item, memo)
      ensures readAcks == old(readAcks)
    {
      var topic: TopicSnapshot;
      var cursor: Option<ServiceCursor> := None;
      match item {
        case TopicFrame(carried) => topic := carried;
        case Update(envelope) =>
          match envelope.update {
            case TopicChanged(carried) =>
              cursor := Some(envelope.cursor);
              topic := carried;
            case TopicReset(source, _, _) =>
              baselines := baselines - {KeyOf(source)};
              return item;
            case SessionEnded(session, _) =>
              baselines := map k | k in baselines && k.session != session :: baselines[k];
              return item;
            case _ => return item;
          }
        case _ => return item;
      }
      if topic.source.topic !in topics {
        return item;
      }
      var key := KeyOf(topic.source);
      if topic.snapshot.None? {
        baselines := baselines - {key};
        return item;
      }
      var target := topic.snapshot.value;
      var payload := Full(target.payload);
      if key in baselines && baselines[key].acknowledged
         && baselines[key].snapshot.metadata.source == target.metadata.source
         && baselines[key].snapshot.metadata.generation == target.metadata.generation
      {
        var delta := Between(codec, baselines[key].snapshot, target, memo);
        if delta.Some? && PayloadSize(delta.value) < PayloadSize(payload) {
          payload := delta.value;
        }
      }
      baselines := baselines[key := Baseline(target, false)];
      frame := SnapshotItem(SnapshotFrame(cursor, target.metadata, payload));
    }

    method HearAck(ack: SnapshotAck)
      modifies this
      ensures State() == Confirm(codec, old(State()), ack) && readAcks == old(readAcks)
    {
      var key := KeyOf(ack.metadata.source);
      if key in baselines && baselines[key].snapshot.metadata == ack.metadata
         && codec.digest(baselines[key].snapshot.payload) == ack.hash
      {
        baselines := baselines[key := baselines[key].(acknowledged := true)];
      }
    }

    /** A failed acknowledgement read turns deltas off for the rest of the stream. */
    method LoseAcks()
      modifies this
      ensures State() == CLOSED && !readAcks
    {
      readAcks := false;
      baselines := map[];
      topics := {};
    }
  }
}
