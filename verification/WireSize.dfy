/** Serialized sizes in the postcard encoding: variable-length integers of
    seven bits a byte, length-prefixed strings, one byte for an enum tag. */
module WireSize {
  import opened Wire

  function VarintSize(n: nat): (r: nat)
    ensures r >= 1
  {
    if n < 128 then 1 else 1 + VarintSize(n / 128)
  }

  function StringSize(s: string): (r: nat)
    ensures r > |s|
  {
    VarintSize(|s|) + |s|
  }

  function SessionRefSize(r: SessionRef): nat {
    StringSize(r.runId) + StringSize(r.sessionId)
  }

  function TopicRefSize(t: TopicRef): nat {
    StringSize(t.providerId) + StringSize(t.topic) + VarintSize(t.schemaVersion)
  }

  function SourceSize(s: TopicSource): nat {
    SessionRefSize(s.session) + StringSize(s.gameId) + TopicRefSize(s.topic)
  }

  function CursorSize(c: ServiceCursor): nat {
    StringSize(c.runId) + VarintSize(c.sequence)
  }

  function InfoSize(i: SessionInfo): nat {
    SessionRefSize(i.session) + StringSize(i.providerId) + StringSize(i.gameId)
    + VarintSize(i.target.pid) + StringSize(i.target.executable)
    + (match i.gameBuild case None => 1 case Some(b) => 1 + StringSize(b))
  }

  function ReasonSize(r: UnavailableReason): nat {
    match r
    case TargetNotReady => 1
    case UnsupportedBuild => 1
    case ReadFailed(m) => 1 + StringSize(m)
    case ValidationFailed(m) => 1 + StringSize(m)
    case ProviderFailed(m) => 1 + StringSize(m)
    case DependencyUnavailable(d, _) => 2 + StringSize(d)
  }

  function HealthSize(h: CapabilityHealth): (r: nat)
    ensures r >= 1
  {
    match h
    case Unavailable(reason) => 1 + ReasonSize(reason)
    case _ => 1
  }

  function MetadataSize(m: EnvelopeMetadata): nat {
    SourceSize(m.source) + VarintSize(m.generation) + VarintSize(m.sequence)
  }

  function TopicSize(t: TopicSnapshot): nat {
    SourceSize(t.source) + VarintSize(t.generation) + HealthSize(t.health)
    + (match t.snapshot case None => 1 case Some(d) => 1 + MetadataSize(d.metadata) + StringSize(d.payload))
  }

  function UpdateSize(u: SubscriptionUpdate): nat {
    1 + match u
        case SessionStarted(info) => InfoSize(info)
        case SessionChanged(info) => InfoSize(info)
        case SessionEnded(session, _) => SessionRefSize(session) + 1
        case TopicReset(source, generation, _) => SourceSize(source) + VarintSize(generation) + 1
        case TopicChanged(topic) => TopicSize(topic)
        case Event(event) => MetadataSize(event.metadata) + StringSize(event.payload)
  }

  function PayloadSize(p: SnapshotPayload): nat {
    match p
    case Full(text) => 1 + StringSize(text)
    case Delta(base, _, patch) => 1 + VarintSize(base) + 32 + StringSize(patch)
  }

  function EndSize(e: SubscriptionEnd): nat {
    match e
    case ResyncRequired(Lagged(_)) => 3
    case ResyncRequired(SequenceExhausted) => 2
    case _ => 1
  }

  function ItemSize(item: SubscriptionItem): nat {
    1 + match item
        case Begin(cursor) => CursorSize(cursor)
        case SessionFrame(info) => InfoSize(info)
        case TopicFrame(topic) => TopicSize(topic)
        case SnapshotItem(frame) =>
          (match frame.cursor case None => 1 case Some(c) => 1 + CursorSize(c))
          + MetadataSize(frame.metadata) + PayloadSize(frame.payload)
        case Ready(cursor) => CursorSize(cursor)
        case Update(envelope) => CursorSize(envelope.cursor) + UpdateSize(envelope.update)
        case Closed(end) => EndSize(end)
  }

  /** Items travel as the Ok side of a result, which adds one tag byte. */
  function ReplySize(item: SubscriptionItem): nat {
    1 + ItemSize(item)
  }

  /** A larger number never takes fewer bytes. */
  lemma {:induction false} VarintMonotone(a: nat, b: nat)
    requires a <= b
    ensures VarintSize(a) <= VarintSize(b)
  {
    if b >= 128 && a >= 128 {
      VarintMonotone(a / 128, b / 128);
    }
  }

  function Power128(k: nat): nat {
    if k == 0 then 1 else 128 * Power128(k - 1)
  }

  /** A number takes as many bytes as it has digits in base 128, and at least one. */
  lemma {:induction false} VarintDigits(n: nat)
    ensures n < Power128(VarintSize(n))
    ensures VarintSize(n) > 1 ==> Power128(VarintSize(n) - 1) <= n
  {
    if n < 128 {
      assert Power128(1) == 128 * Power128(0);
    } else {
      VarintDigits(n / 128);
    }
  }
}
