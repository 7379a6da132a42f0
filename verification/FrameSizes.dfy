/** Data admitted once fits its frame for ever: live at any later sequence, and in a bootstrap. */
module FrameSizes {
  import opened Wire
  import opened WireSize
  import opened ClientValidation
  import opened Views
  import opened Service
  import opened Streams
  import opened PollBatch
  import opened Publication
  import opened Invariant
  import opened StagingProofs
  import Sweeps

  /** A topic state at some sequence is no larger than at the largest one. */
  lemma StampedSize(state: TopicSnapshot, top: TopicSnapshot)
    requires AtLargestSequence(state) == AtLargestSequence(top)
    requires state.snapshot.Some? ==> state.snapshot.value.metadata.sequence <= U64_MAX
    ensures TopicSize(state) <= TopicSize(AtLargestSequence(top))
  {
    if state.snapshot.Some? {
      VarintMonotone(state.snapshot.value.metadata.sequence, U64_MAX);
    }
  }

  /** An update that fits at the largest cursor fits at every cursor. */
  lemma LiveFits(s: State, state: TopicSnapshot, top: TopicSnapshot, sequence: nat)
    requires UpdateFits(s, TopicChanged(AtLargestSequence(top))) && sequence <= U64_MAX
    requires AtLargestSequence(state) == AtLargestSequence(top)
    requires state.snapshot.Some? ==> state.snapshot.value.metadata.sequence <= U64_MAX
    ensures ReplySize(Framing(s.runId, sequence, TopicChanged(state))) <= s.messageBytes
  {
    StampedSize(state, top);
    VarintMonotone(sequence, U64_MAX);
  }

  /** A bootstrap frame carries no cursor, so it is smaller than the live update. */
  lemma BootstrapFits(s: State, state: TopicSnapshot)
    requires UpdateFits(s, TopicChanged(AtLargestSequence(state)))
    requires state.snapshot.Some? ==> state.snapshot.value.metadata.sequence <= U64_MAX
    ensures ReplySize(TopicFrame(state)) <= s.messageBytes
  {
    StampedSize(state, state);
  }

  lemma EventFits(s: State, state: TopicSnapshot, payload: JsonPayload, sequence: nat)
    requires UpdateFits(s, EventAt(state, U64_MAX, payload)) && sequence <= U64_MAX
    ensures ReplySize(Framing(s.runId, sequence, EventAt(state, sequence, payload))) <= s.messageBytes
  {
    VarintMonotone(sequence, U64_MAX);
  }

  lemma LandedFits(s: State, key: TopicRef, before: TopicSnapshot, topic: Topic, sequence: nat)
    requires AdmitTopic(s, key, topic).None? && Changed(before, topic.state) && sequence <= U64_MAX
    ensures ReplySize(Framing(s.runId, sequence, TopicChanged(Landing(before, topic, sequence).state))) <= s.messageBytes
  {
    LiveFits(s, Landing(before, topic, sequence).state, topic.state, sequence);
  }

  /** Each landed topic of an accepted poll fits its frame whatever sequence it gets. */
  lemma AcceptedTopicFits(s: State, ticket: PollTicket, batch: Pending, deadline: nat, st: Staged, sequence: nat,
                          k: TopicRef, before: TopicSnapshot)
    requires ticket.sessionId in s.sessions && Vet(s, ticket, batch, deadline) == Ok(st) && sequence <= U64_MAX
    requires k in st.topics && Changed(before, st.topics[k].state)
    ensures ReplySize(Framing(s.runId, sequence, TopicChanged(Landing(before, st.topics[k], sequence).state)))
            <= s.messageBytes
  {
    Vetted(s, ticket, batch, deadline);
    LandedFits(s, k, before, st.topics[k], sequence);
  }

  /** So does each event, in the generation its topic lands in. */
  lemma AcceptedEventFits(s: State, ticket: PollTicket, batch: Pending, deadline: nat, st: Staged, sequence: nat,
                          e: (TopicRef, JsonPayload))
    requires ticket.sessionId in s.sessions && Vet(s, ticket, batch, deadline) == Ok(st) && sequence <= U64_MAX
    requires e in st.events
    ensures e.0 in st.topics
    ensures ReplySize(Framing(s.runId, sequence, EventAt(st.topics[e.0].state, sequence, e.1))) <= s.messageBytes
  {
    Vetted(s, ticket, batch, deadline);
    EventFits(s, st.topics[e.0].state, e.1, sequence);
  }

  /** In every state of the invariant each cached snapshot still fits, live and in a bootstrap. */
  lemma CachedFits(s: State, p: Place, sequence: nat, texts: set<JsonPayload>)
    requires Inv(s, texts) && Placed(s.sessions, p) && At(s.sessions, p).state.snapshot.Some? && sequence <= U64_MAX
    ensures ReplySize(TopicFrame(At(s.sessions, p).state)) <= s.messageBytes
    ensures ReplySize(Framing(s.runId, sequence, TopicChanged(At(s.sessions, p).state))) <= s.messageBytes
  {
    var state := At(s.sessions, p).state;
    Sweeps.ShapeAt(s.sessions, s.catalog, s.runId, p);
    LiveFits(s, state, state, sequence);
    BootstrapFits(s, state);
  }
}
