/** Which sessions, topics and updates a subscriber's selection covers. */
module Selecting {
  import opened Wire

  predicate MatchesSession(selection: Selection, session: SessionRef) {
    match selection.sessions
    case AllSessions => true
    case OneSession(reference) => reference == session
  }

  predicate Matches(selection: Selection, session: SessionRef, topic: TopicRef) {
    MatchesSession(selection, session) && topic in selection.topics
  }

  predicate MatchesInfo(selection: Selection, info: SessionInfo) {
    && MatchesSession(selection, info.session)
    && exists t :: t in selection.topics && t.providerId == info.providerId
  }

  predicate MatchesUpdate(selection: Selection, update: SubscriptionUpdate) {
    match update
    case SessionStarted(info) => MatchesInfo(selection, info)
    case SessionChanged(info) => MatchesInfo(selection, info)
    case SessionEnded(session, _) => MatchesSession(selection, session)
    case TopicReset(source, _, _) => Matches(selection, source.session, source.topic)
    case TopicChanged(topic) => Matches(selection, topic.source.session, topic.source.topic)
    case Event(event) => Matches(selection, event.metadata.source.session, event.metadata.source.topic)
  }
}
