/** The client feed's fold: the state it rebuilds from one stream. Topics are
    keyed by session alone, because every feed subscribes to exactly one topic. */
module Replica {
  import opened Wire

  datatype FeedState = FeedState(
    sessions: map<SessionRef, (nat, SessionInfo)>,
    topics: map<SessionRef, TopicSnapshot>)

  const NOTHING: FeedState := FeedState(map[], map[])

  /** The feed state together with the cursor sequence last read. */
  datatype Folding = Folding(sequence: nat, state: FeedState)

  function PutSession(f: FeedState, sequence: nat, info: SessionInfo): FeedState {
    f.(sessions := f.sessions[info.session := (sequence, info)])
  }

  function PutTopic(f: FeedState, topic: TopicSnapshot): FeedState {
    f.(topics := f.topics[topic.source.session := topic])
  }

  function FoldUpdate(f: FeedState, sequence: nat, update: SubscriptionUpdate): FeedState {
    match update
    case SessionStarted(info) => PutSession(f, sequence, info)
    case SessionChanged(info) => PutSession(f, sequence, info)
    case SessionEnded(session, _) => FeedState(f.sessions - {session}, f.topics - {session})
    case TopicReset(source, generation, _) => PutTopic(f, TopicSnapshot(source, generation, Initializing, None))
    case TopicChanged(topic) => PutTopic(f, topic)
    case Event(_) => f
  }

  function FoldItem(f: Folding, item: SubscriptionItem): Folding {
    match item
    case Begin(cursor) => f.(sequence := cursor.sequence)
    case SessionFrame(info) => f.(state := PutSession(f.state, f.sequence, info))
    case TopicFrame(topic) => f.(state := PutTopic(f.state, topic))
    case Update(envelope) =>
      Folding(envelope.cursor.sequence, FoldUpdate(f.state, envelope.cursor.sequence, envelope.update))
    case _ => f
  }

  function FoldAll(items: seq<SubscriptionItem>): Folding {
    if items == [] then Folding(0, NOTHING)
    else FoldItem(FoldAll(items[..|items| - 1]), items[|items| - 1])
  }

  lemma FoldAppend(items: seq<SubscriptionItem>, item: SubscriptionItem)
    ensures FoldAll(items + [item]) == FoldItem(FoldAll(items), item)
  {
    assert (items + [item])[..|items|] == items;
  }
}
