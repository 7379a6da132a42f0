/** The client's acceptor for the frame language of one subscription stream. */
module ClientValidation {
  import opened Wire
  import opened WireSize
  import Ordering

  const MAX_ACTIVE_METADATA_BYTES: nat := 8 * 1024 * 1024

  datatype Seen = Seen(info: SessionInfo, topics: map<TopicRef, nat>)

  datatype Validation = Validation(
    selection: Selection,
    checkpoint: Option<ServiceCursor>,
    ready: bool,
    sequence: nat,
    sessions: map<string, Seen>)

  datatype Refusal =
    | InvalidBegin
    | OutsideBootstrap
    | UnexpectedSession
    | UnexpectedSource
    | GenerationChanged
    | SnapshotMismatch
    | NotReconstructed
    | InvalidReady
    | OmittedTopic
    | OutOfOrder
    | UnknownSessionChanged
    | UnknownSessionEnded
    | ResetDoesNotAdvance
    | StaleEvent
    | ClosedBeforeBegin
    | MetadataLimit

  type Verdict = Result<Validation, Refusal>

  function Fresh(selection: Selection): Validation {
    Validation(selection, None, false, 0, map[])
  }

  predicate Begun(v: Validation) {
    v.checkpoint.Some?
  }

  predicate Selected(v: Validation, info: SessionInfo) {
    && v.checkpoint.Some?
    && v.checkpoint.value.runId == info.session.runId
    && Identifier(info.session.sessionId)
    && Identifier(info.providerId)
    && Identifier(info.gameId)
    && (exists t :: t in v.selection.topics && t.providerId == info.providerId)
    && match v.selection.sessions
       case AllSessions => true
       case OneSession(reference) => reference == info.session
  }

  function AddSession(v: Validation, info: SessionInfo): Verdict {
    if Selected(v, info) && info.session.sessionId !in v.sessions
    then Ok(v.(sessions := v.sessions[info.session.sessionId := Seen(info, map[])]))
    else Err(UnexpectedSession)
  }

  predicate KnownSource(v: Validation, source: TopicSource) {
    && source.session.sessionId in v.sessions
    && var info := v.sessions[source.session.sessionId].info;
    && info.session == source.session
    && info.gameId == source.gameId
    && info.providerId == source.topic.providerId
    && source.topic in v.selection.topics
  }

  function NoteGeneration(v: Validation, source: TopicSource, generation: nat): Validation
    requires source.session.sessionId in v.sessions
  {
    var id := source.session.sessionId;
    v.(sessions := v.sessions[id := v.sessions[id].(topics := v.sessions[id].topics[source.topic := generation])])
  }

  predicate SnapshotMatches(topic: TopicSnapshot, sequence: nat) {
    topic.snapshot.Some? ==>
      var meta := topic.snapshot.value.metadata;
      && topic.health.Available?
      && meta.source == topic.source
      && meta.generation == topic.generation
      && 0 < meta.sequence <= sequence
  }

  function AcceptTopic(v: Validation, topic: TopicSnapshot, bootstrap: bool): Verdict {
    if !KnownSource(v, topic.source) then Err(UnexpectedSource)
    else
      var known := v.sessions[topic.source.session.sessionId].topics;
      var key := topic.source.topic;
      if topic.generation == 0
         || (if bootstrap then key in known else key in known && known[key] != topic.generation)
      then Err(GenerationChanged)
      else if !SnapshotMatches(topic, v.sequence) then Err(SnapshotMismatch)
      else Ok(NoteGeneration(v, topic.source, topic.generation))
  }

  function AcceptUpdate(v: Validation, update: SubscriptionUpdate): Verdict {
    match update
    case SessionStarted(info) => AddSession(v, info)
    case SessionChanged(info) =>
      var id := info.session.sessionId;
      if Selected(v, info) && id in v.sessions
         && v.sessions[id].info.providerId == info.providerId && v.sessions[id].info.gameId == info.gameId
      then Ok(v.(sessions := v.sessions[id := v.sessions[id].(info := info)]))
      else Err(UnknownSessionChanged)
    case SessionEnded(session, _) =>
      if session.sessionId in v.sessions && v.sessions[session.sessionId].info.session == session
      then Ok(v.(sessions := v.sessions - {session.sessionId}))
      else Err(UnknownSessionEnded)
    case TopicReset(source, generation, _) =>
      if !KnownSource(v, source) then Err(UnexpectedSource)
      else
        var known := v.sessions[source.session.sessionId].topics;
        if source.topic in known && generation > known[source.topic]
        then Ok(NoteGeneration(v, source, generation))
        else Err(ResetDoesNotAdvance)
    case TopicChanged(topic) => AcceptTopic(v, topic, false)
    case Event(event) =>
      var meta := event.metadata;
      if !KnownSource(v, meta.source) then Err(UnexpectedSource)
      else
        var known := v.sessions[meta.source.session.sessionId].topics;
        if meta.source.topic in known && known[meta.source.topic] == meta.generation && meta.sequence == v.sequence
        then Ok(v)
        else Err(StaleEvent)
  }

  predicate Complete(v: Validation, id: string)
    requires id in v.sessions
  {
    var seen := v.sessions[id];
    |seen.topics| == |set t | t in v.selection.topics && t.providerId == seen.info.providerId|
  }

  /** Every check of the acceptor except the closing bound on retained metadata. */
  function Admit(v: Validation, item: SubscriptionItem): Verdict {
    match item
    case Begin(cursor) =>
      if !Begun(v) && Identifier(cursor.runId)
      then Ok(v.(checkpoint := Some(cursor), sequence := cursor.sequence))
      else Err(InvalidBegin)
    case SessionFrame(info) =>
      if Begun(v) && !v.ready then AddSession(v, info) else Err(OutsideBootstrap)
    case TopicFrame(topic) =>
      if Begun(v) && !v.ready then AcceptTopic(v, topic, true) else Err(OutsideBootstrap)
    case SnapshotItem(_) => Err(NotReconstructed)
    case Ready(cursor) =>
      if v.ready || v.checkpoint != Some(cursor) then Err(InvalidReady)
      else if forall id :: id in v.sessions ==> Complete(v, id) then Ok(v.(ready := true))
      else Err(OmittedTopic)
    case Update(envelope) =>
      if v.ready && Begun(v) && v.checkpoint.value.runId == envelope.cursor.runId
         && envelope.cursor.sequence > v.sequence
      then AcceptUpdate(v.(sequence := envelope.cursor.sequence), envelope.update)
      else Err(OutOfOrder)
    case Closed(_) => if Begun(v) then Ok(v) else Err(ClosedBeforeBegin)
  }

  function TopicBytes(keys: seq<TopicRef>): nat {
    if keys == [] then 0
    else TopicBytes(keys[..|keys| - 1]) + |keys[|keys| - 1].providerId| + |keys[|keys| - 1].topic| + 256
  }

  function SeenBytes(seen: Seen): nat {
    InfoSize(seen.info) + 256 + TopicBytes(Ordering.TopicsInOrder(seen.topics.Keys))
  }

  function SessionBytes(sessions: map<string, Seen>, ids: seq<string>): nat
    requires forall id :: id in ids ==> id in sessions
  {
    if ids == [] then 0
    else SessionBytes(sessions, ids[..|ids| - 1]) + SeenBytes(sessions[ids[|ids| - 1]])
  }

  function MetadataBytes(sessions: map<string, Seen>): nat {
    SessionBytes(sessions, Ordering.IdsInOrder(sessions.Keys))
  }

  function Accept(v: Validation, item: SubscriptionItem): Verdict {
    var admitted := Admit(v, item);
    if admitted.Ok? && MetadataBytes(admitted.value.sessions) > MAX_ACTIVE_METADATA_BYTES
    then Err(MetadataLimit)
    else admitted
  }

  /** Admit folded over a whole stream. */
  function AdmitAll(selection: Selection, items: seq<SubscriptionItem>): Verdict {
    if items == [] then Ok(Fresh(selection))
    else
      match AdmitAll(selection, items[..|items| - 1])
      case Ok(v) => Admit(v, items[|items| - 1])
      case Err(e) => Err(e)
  }

  /** Accept folded over a whole stream. */
  function AcceptAll(selection: Selection, items: seq<SubscriptionItem>): Verdict {
    if items == [] then Ok(Fresh(selection))
    else
      match AcceptAll(selection, items[..|items| - 1])
      case Ok(v) => Accept(v, items[|items| - 1])
      case Err(e) => Err(e)
  }

  lemma AdmitAppend(selection: Selection, items: seq<SubscriptionItem>, item: SubscriptionItem)
    ensures AdmitAll(selection, items + [item])
            == match AdmitAll(selection, items) case Ok(v) => Admit(v, item) case Err(e) => Err(e)
  {
    assert (items + [item])[..|items|] == items;
  }

  lemma {:induction false} AdmitPrefix(selection: Selection, items: seq<SubscriptionItem>, n: nat)
    requires n <= |items| && AdmitAll(selection, items).Ok?
    ensures AdmitAll(selection, items[..n]).Ok?
  {
    if n < |items| {
      var front := items[..|items| - 1];
      AdmitPrefix(selection, front, n);
      assert front[..n] == items[..n];
    } else {
      assert items[..n] == items;
    }
  }

  predicate MetadataFits(selection: Selection, items: seq<SubscriptionItem>) {
    AdmitAll(selection, items).Ok? ==>
      MetadataBytes(AdmitAll(selection, items).value.sessions) <= MAX_ACTIVE_METADATA_BYTES
  }

  /** No prefix of the stream makes the client retain more metadata than its bound. */
  predicate MetadataFitsThroughout(selection: Selection, items: seq<SubscriptionItem>) {
    items == []
    || (MetadataFitsThroughout(selection, items[..|items| - 1]) && MetadataFits(selection, items))
  }

  /** The only further reason to refuse an admitted stream is the metadata bound. */
  lemma {:induction false} AcceptedIffMetadataFits(selection: Selection, items: seq<SubscriptionItem>)
    requires AdmitAll(selection, items).Ok?
    ensures AcceptAll(selection, items).Ok? <==> MetadataFitsThroughout(selection, items)
    ensures AcceptAll(selection, items).Ok? ==> AcceptAll(selection, items) == AdmitAll(selection, items)
  {
    if items != [] {
      AcceptedIffMetadataFits(selection, items[..|items| - 1]);
    }
  }
}
