/** The client's reader: it mirrors the sender's baselines and acknowledges after install. */
module Reading {
  import opened Wire
  import opened WireSize
  import opened ClientValidation
  import opened Delta
  import opened Delivering

  datatype Reader = Reader(
    validation: Validation,
    baselines: map<Key, DataEnvelope>,
    pendingAck: Option<SnapshotAck>,
    deltas: bool)

  datatype ReadError = Resync(reason: Mismatch) | Protocol(refusal: Refusal)

  function Opening(selection: Selection, deltas: bool): Reader {
    Reader(Fresh(selection), map[], None, deltas)
  }

  function BaselineFor(baselines: map<Key, DataEnvelope>, key: Key): Option<DataEnvelope> {
    if key in baselines then Some(baselines[key]) else None
  }

  /** The item a frame stands for, given the baselines of the reader. */
  function Decode<V, P>(c: Codec<V, P>, frame: SubscriptionItem, baselines: map<Key, DataEnvelope>, limit: nat)
    : Result<SubscriptionItem, Mismatch>
  {
    if !frame.SnapshotItem? then Ok(frame)
    else
      var decoded := Reconstruct(c, frame.frame, BaselineFor(baselines, KeyOf(frame.frame.metadata.source)));
      if decoded.Ok? && ReplySize(decoded.value) > limit then Err(OverFrameLimit) else decoded
  }

  /** The baselines after an item; only snapshot frames of a delta reader become baselines. */
  function Mirrored(baselines: map<Key, DataEnvelope>, item: SubscriptionItem, acknowledged: bool)
    : map<Key, DataEnvelope>
  {
    match TopicIn(item)
    case Some(topic) =>
      if topic.snapshot.None? then baselines - {KeyOf(topic.source)}
      else if acknowledged then baselines[KeyOf(topic.source) := topic.snapshot.value]
      else baselines
    case None =>
      if item.Update? && item.envelope.update.TopicReset? then
        baselines - {KeyOf(item.envelope.update.source)}
      else if item.Update? && item.envelope.update.SessionEnded? then
        Without(baselines, item.envelope.update.session)
      else baselines
  }

  function AckOf<V, P>(c: Codec<V, P>, item: SubscriptionItem): Option<SnapshotAck> {
    match TopicIn(item)
    case None => None
    case Some(topic) =>
      if topic.snapshot.None? then None
      else Some(SnapshotAck(topic.snapshot.value.metadata, c.digest(topic.snapshot.value.payload)))
  }

  /** The reader after an item it accepted. */
  function Advanced<V, P>(c: Codec<V, P>, r: Reader, validation: Validation, item: SubscriptionItem, acknowledged: bool)
    : Reader
  {
    Reader(validation, Mirrored(r.baselines, item, acknowledged),
           if acknowledged && AckOf(c, item).Some? then AckOf(c, item) else r.pendingAck, r.deltas)
  }

  function ReadNext<V, P>(c: Codec<V, P>, r: Reader, frame: SubscriptionItem, limit: nat)
    : (Reader, Result<SubscriptionItem, ReadError>)
  {
    match Decode(c, frame, r.baselines, limit)
    case Err(reason) => (r, Err(Resync(reason)))
    case Ok(item) =>
      match Accept(r.validation, item)
      case Err(refusal) => (r, Err(Protocol(refusal)))
      case Ok(validation) => (Advanced(c, r, validation, item, frame.SnapshotItem? && r.deltas), Ok(item))
  }

  /** The reader object behind one feed. */
  class StreamReader<V, P> {
    const codec: Codec<V, P>
    const deltas: bool
    var validation: Validation
    var baselines: map<Key, DataEnvelope>
    var pendingAck: Option<SnapshotAck>

    function State(): Reader
      reads this
    {
      Reader(validation, baselines, pendingAck, deltas)
    }

    constructor (codec: Codec<V, P>, selection: Selection, deltas: bool)
      ensures State() == Opening(selection, deltas) && this.codec == codec
    {
      this.codec := codec;
      this.deltas := deltas;
      validation := Fresh(selection);
      baselines := map[];
      pendingAck := None;
    }

    method Next(frame: SubscriptionItem, limit: nat) returns (result: Result<SubscriptionItem, ReadError>)
      modifies this
      ensures (State(), result) == ReadNext(codec, old(State()), frame, limit)
    {
      var item := frame;
      var acknowledged := frame.SnapshotItem?;
      if frame.SnapshotItem? {
        var key := KeyOf(frame.frame.metadata.source);
        var decoded := Reconstruct(codec, frame.frame, BaselineFor(baselines, key));
        if decoded.Err? {
          return Err(Resync(decoded.error));
        }
        item := decoded.value;
        if ReplySize(item) > limit {
          return Err(Resync(OverFrameLimit));
        }
      }
      var verdict := Accept(validation, item);
      if verdict.Err? {
        return Err(Protocol(verdict.error));
      }
      validation := verdict.value;
      var topic := TopicIn(item);
      if topic.Some? {
        var key := KeyOf(topic.value.source);
        if topic.value.snapshot.Some? {
          if acknowledged && deltas {
            var snapshot := topic.value.snapshot.value;
            pendingAck := Some(SnapshotAck(snapshot.metadata, codec.digest(snapshot.payload)));
            baselines := baselines[key := snapshot];
          }
        } else {
          baselines := baselines - {key};
        }
      } else if item.Update? && item.envelope.update.TopicReset? {
        baselines := baselines - {KeyOf(item.envelope.update.source)};
      } else if item.Update? && item.envelope.update.SessionEnded? {
        var session := item.envelope.update.session;
        baselines := map k | k in baselines && k.session != session :: baselines[k];
      }
      result := Ok(item);
    }

    /** Called after install; hands over the acknowledgement that is due, once. */
    method TakeAck() returns (ack: Option<SnapshotAck>)
      modifies this
      ensures ack == old(pendingAck) && State() == old(State()).(pendingAck := None)
    {
      ack := pendingAck;
      pendingAck := None;
    }
  }
}
