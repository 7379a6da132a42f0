/** The client's acceptor as the object that a reader owns. */
module Validator {
  import opened Wire
  import opened WireSize
  import opened Ordering
  import opened ClientValidation

  /** How many selected topics belong to the provider. */
  method CountSelected(topics: set<TopicRef>, providerId: string) returns (n: nat)
    ensures n == |set t | t in topics && t.providerId == providerId|
  {
    ghost var counted: set<TopicRef> := {};
    var left := topics;
    n := 0;
    while left != {}
      invariant left <= topics && n == |counted|
      invariant counted == set t | t in topics && t !in left && t.providerId == providerId
      decreases |left|
    {
      var t :| t in left;
      left := left - {t};
      if t.providerId == providerId {
        counted := counted + {t};
        n := n + 1;
      }
    }
    assert counted == set t | t in topics && t.providerId == providerId;
  }

  /** Whether every session has as many topics as the selection asks of its provider. */
  method AllComplete(v: Validation) returns (complete: bool)
    ensures complete == forall id :: id in v.sessions ==> Complete(v, id)
    ensures complete
            == forall id :: id in v.sessions ==>
                 |v.sessions[id].topics|
                 == |set t | t in v.selection.topics && t.providerId == v.sessions[id].info.providerId|
  {
    var left := v.sessions.Keys;
    complete := true;
    while left != {}
      invariant left <= v.sessions.Keys
      invariant complete == forall id :: id in v.sessions && id !in left ==> Complete(v, id)
      decreases |left|
    {
      var id :| id in left;
      var expected := CountSelected(v.selection.topics, v.sessions[id].info.providerId);
      if |v.sessions[id].topics| != expected {
        complete := false;
      }
      left := left - {id};
    }
  }

  method KeyBytes(keys: seq<TopicRef>) returns (bytes: nat)
    ensures bytes == TopicBytes(keys)
  {
    bytes := 0;
    for j := 0 to |keys|
      invariant bytes == TopicBytes(keys[..j])
    {
      assert keys[..j + 1][..j] == keys[..j];
      bytes := bytes + |keys[j].providerId| + |keys[j].topic| + 256;
    }
    assert keys[..|keys|] == keys;
  }

  method RetainedMetadata(sessions: map<string, Seen>) returns (bytes: nat)
    ensures bytes == MetadataBytes(sessions)
  {
    hide InfoSize, TopicBytes, Sorted;
    var ids := IdsInOrder(sessions.Keys);
    bytes := 0;
    for i := 0 to |ids|
      invariant bytes == SessionBytes(sessions, ids[..i])
    {
      assert ids[..i + 1][..i] == ids[..i];
      var seen := sessions[ids[i]];
      var topicBytes := KeyBytes(TopicsInOrder(seen.topics.Keys));
      bytes := bytes + InfoSize(seen.info) + 256 + topicBytes;
    }
    assert ids[..|ids|] == ids;
  }

  class StreamValidator {
    const selection: Selection
    var checkpoint: Option<ServiceCursor>
    var ready: bool
    var sequence: nat
    var sessions: map<string, Seen>

    function State(): Validation
      reads this
    {
      Validation(selection, checkpoint, ready, sequence, sessions)
    }

    constructor (selection: Selection)
      ensures State() == Fresh(selection)
    {
      this.selection := selection;
      checkpoint, ready, sequence, sessions := None, false, 0, map[];
    }

    /** The object's verdict is the specification's, and on success so is its new state. */
    predicate Follows(verdict: Verdict, refusal: Option<Refusal>)
      reads this
    {
      && (refusal.None? ==> verdict == Ok(State()))
      && (refusal.Some? ==> verdict == Err(refusal.value))
    }

    method Enter(info: SessionInfo) returns (refusal: Option<Refusal>)
      modifies this
      ensures Follows(AddSession(old(State()), info), refusal)
    {
      if !Selected(State(), info) || info.session.sessionId in sessions {
        return Some(UnexpectedSession);
      }
      sessions := sessions[info.session.sessionId := Seen(info, map[])];
      refusal := None;
    }

    method Record(source: TopicSource, generation: nat)
      requires source.session.sessionId in sessions
      modifies this
      ensures State() == NoteGeneration(old(State()), source, generation)
    {
      var id := source.session.sessionId;
      sessions := sessions[id := sessions[id].(topics := sessions[id].topics[source.topic := generation])];
    }

    method Topic(topic: TopicSnapshot, bootstrap: bool) returns (refusal: Option<Refusal>)
      modifies this
      ensures Follows(AcceptTopic(old(State()), topic, bootstrap), refusal)
    {
      if !KnownSource(State(), topic.source) {
        return Some(UnexpectedSource);
      }
      var known := sessions[topic.source.session.sessionId].topics;
      var key := topic.source.topic;
      if topic.generation == 0 || (key in known && (bootstrap || known[key] != topic.generation)) {
        return Some(GenerationChanged);
      }
      if !SnapshotMatches(topic, sequence) {
        return Some(SnapshotMismatch);
      }
      Record(topic.source, topic.generation);
      refusal := None;
    }

    method Reset(source: TopicSource, generation: nat, reason: ResetReason) returns (refusal: Option<Refusal>)
      modifies this
      ensures Follows(AcceptUpdate(old(State()), TopicReset(source, generation, reason)), refusal)
    {
      if !KnownSource(State(), source) {
        return Some(UnexpectedSource);
      }
      var known := sessions[source.session.sessionId].topics;
      if source.topic !in known || generation <= known[source.topic] {
        return Some(ResetDoesNotAdvance);
      }
      Record(source, generation);
      refusal := None;
    }

    method Change(info: SessionInfo) returns (refusal: Option<Refusal>)
      modifies this
      ensures Follows(AcceptUpdate(old(State()), SessionChanged(info)), refusal)
    {
      var id := info.session.sessionId;
      if !Selected(State(), info) || id !in sessions
         || sessions[id].info.providerId != info.providerId || sessions[id].info.gameId != info.gameId
      {
        return Some(UnknownSessionChanged);
      }
      sessions := sessions[id := sessions[id].(info := info)];
      refusal := None;
    }

    method Apply(update: SubscriptionUpdate) returns (refusal: Option<Refusal>)
      modifies this
      ensures Follows(AcceptUpdate(old(State()), update), refusal)
    {
      match update {
        case SessionStarted(info) => refusal := Enter(info);
        case SessionChanged(info) => refusal := Change(info);
        case SessionEnded(session, _) =>
          var id := session.sessionId;
          if id !in sessions || sessions[id].info.session != session {
            return Some(UnknownSessionEnded);
          }
          sessions := sessions - {id};
          refusal := None;
        case TopicReset(source, generation, reason) => refusal := Reset(source, generation, reason);
        case TopicChanged(topic) => refusal := Topic(topic, false);
        case Event(event) =>
          var meta := event.metadata;
          if !KnownSource(State(), meta.source) {
            return Some(UnexpectedSource);
          }
          var known := sessions[meta.source.session.sessionId].topics;
          refusal := if meta.source.topic in known && known[meta.source.topic] == meta.generation
                        && meta.sequence == sequence then None else Some(StaleEvent);
      }
    }

    method Check(item: SubscriptionItem) returns (refusal: Option<Refusal>)
      modifies this
      ensures Follows(Admit(old(State()), item), refusal)
    {
      match item {
        case Begin(cursor) =>
          if checkpoint.Some? || !Identifier(cursor.runId) {
            return Some(InvalidBegin);
          }
          checkpoint := Some(cursor);
          sequence := cursor.sequence;
          refusal := None;
        case SessionFrame(info) =>
          if checkpoint.None? || ready {
            return Some(OutsideBootstrap);
          }
          refusal := Enter(info);
        case TopicFrame(topic) =>
          if checkpoint.None? || ready {
            return Some(OutsideBootstrap);
          }
          refusal := Topic(topic, true);
        case SnapshotItem(_) => refusal := Some(NotReconstructed);
        case Ready(cursor) =>
          if ready || checkpoint != Some(cursor) {
            return Some(InvalidReady);
          }
          var complete := AllComplete(State());
          if !complete {
            return Some(OmittedTopic);
          }
          ready := true;
          refusal := None;
        case Update(envelope) =>
          if !ready || checkpoint.None? || checkpoint.value.runId != envelope.cursor.runId
             || envelope.cursor.sequence <= sequence
          {
            return Some(OutOfOrder);
          }
          sequence := envelope.cursor.sequence;
          refusal := Apply(envelope.update);
        case Closed(_) => refusal := if checkpoint.Some? then None else Some(ClosedBeforeBegin);
      }
    }

    /** The whole check, with the bound on retained metadata last. */
    method Judge(item: SubscriptionItem) returns (refusal: Option<Refusal>)
      modifies this
      ensures Follows(Accept(old(State()), item), refusal)
    {
      refusal := Check(item);
      if refusal.None? {
        var bytes := RetainedMetadata(sessions);
        if bytes > MAX_ACTIVE_METADATA_BYTES {
          refusal := Some(MetadataLimit);
        }
      }
    }
  }
}
