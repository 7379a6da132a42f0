/** What a discarded poll leaves and says, read off the ticket and the resets it still owes. */
module PollFailures {
  import opened Wire
  import opened Ordering
  import opened Views
  import opened Service
  import opened Streams
  import opened Publication
  import opened Invariant
  import opened Settling
  import opened Discards
  import opened Journal
  import ResetSurvival
  import Sweeps

  type Topics = map<TopicRef, Topic>

  /** The poll still bears on the topic: it is demanded in the ticket's generation, and the poll
      reset it, or failed while the ticket was still exact. */
  predicate Hit(topics: Topics, ticket: PollTicket, resets: seq<TopicRef>, failed: bool, k: TopicRef) {
    && k in ticket.topics && k in topics && topics[k].demanded
    && topics[k].state.generation == ticket.topics[k].generation
    && (k in resets || (failed && topics[k].epoch == ticket.topics[k].epoch))
  }

  function HitTopics(topics: Topics, ticket: PollTicket, resets: seq<TopicRef>, failed: bool): set<TopicRef> {
    set k | k in topics && Hit(topics, ticket, resets, failed, k)
  }

  /** Unavailable for the failed acquisition, without data or deadline, and in a new
      generation if it was reset. */
  function Broken(topic: Topic, reset: bool): Topic {
    Topic(
      TopicSnapshot(
        topic.state.source, topic.state.generation + (if reset then 1 else 0),
        Unavailable(ProviderFailed("provider acquisition failed; see local service logs")), None),
      topic.demanded, topic.epoch + (if reset then 1 else 0), None)
  }

  function BreakNews(topics: Topics, resets: seq<TopicRef>, keys: seq<TopicRef>): seq<SubscriptionUpdate> {
    if keys == [] then []
    else
      var k := keys[|keys| - 1];
      BreakNews(topics, resets, keys[..|keys| - 1])
      + if k !in topics then []
        else
          (if k in resets
           then [TopicReset(topics[k].state.source, topics[k].state.generation + 1, SourceChanged)] else [])
          + [TopicChanged(Broken(topics[k], k in resets).state)]
  }

  lemma HitIsAffected(session: Session, ticket: PollTicket, resets: seq<TopicRef>, failed: bool)
    ensures var affected := Affected(session, ticket, resets, failed);
            && affected.Keys == HitTopics(session.topics, ticket, resets, failed)
            && forall k :: k in affected ==> affected[k] == (k in resets)
  {
  }

  /** Failing topics publishes what each of them was, broken. */
  lemma {:induction false} FailSays(sessions: Sessions, id: string, affected: map<TopicRef, bool>, resets: seq<TopicRef>,
                                    keys: seq<TopicRef>)
    requires id in sessions && NoRepeats(keys)
    requires forall k :: k in keys ==> k in affected && k in sessions[id].topics && affected[k] == (k in resets)
    ensures var (after, updates) := FailTopics(sessions, id, affected, keys);
            && updates == BreakNews(sessions[id].topics, resets, keys) && NoEnds(updates)
            && id in after && after[id].topics.Keys == sessions[id].topics.Keys
            && forall k :: k in sessions[id].topics && k !in keys ==> after[id].topics[k] == sessions[id].topics[k]
    decreases |keys|
  {
    if keys != [] {
      var front, k := keys[..|keys| - 1], keys[|keys| - 1];
      assert keys == front + [k] && k in keys && k !in front;
      FailSays(sessions, id, affected, resets, front);
      var (mid, updates) := FailTopics(sessions, id, affected, front);
      assert k in mid[id].topics.Keys;
      assert FailingUpdates(mid[id].topics[k], k in resets)
             == (if k in resets
                 then [TopicReset(sessions[id].topics[k].state.source, sessions[id].topics[k].state.generation + 1,
                                  SourceChanged)] else [])
                + [TopicChanged(Broken(sessions[id].topics[k], k in resets).state)];
    }
  }

  /** A topic after the discard: broken if it was hit, else as it was; and if its demand was
      released on the way, idle and empty. */
  predicate BreaksAs(before: Topic, hit: bool, reset: bool, after: Topic) {
    if after.demanded then after == if hit then Broken(before, reset) else before
    else after.state.health == Idle && after.state.snapshot.None? && after.deadline.None?
  }

  ghost predicate DiscardLeaves(s: State, t: State, ticket: PollTicket, resets: seq<TopicRef>, failed: bool,
                                flips: seq<Notice>)
    requires ticket.sessionId in s.sessions
  {
    var topics := s.sessions[ticket.sessionId].topics;
    && t.sessions.Keys == s.sessions.Keys
    && (forall p :: Placed(s.sessions, p) ==>
          && Placed(t.sessions, p)
          && BreaksAs(At(s.sessions, p), p.id == ticket.sessionId && Hit(topics, ticket, resets, failed, p.key),
                      p.key in resets, At(t.sessions, p)))
    && Told(s, t, Plain(BreakNews(topics, resets, TopicsInOrder(HitTopics(topics, ticket, resets, failed)))) + flips)
    && Flips(flips)
  }

  lemma BrokenAt(s: State, t: State, ticket: PollTicket, resets: seq<TopicRef>, failed: bool, p: Place,
                 affected: map<TopicRef, bool>)
    requires ticket.sessionId in s.sessions && Placed(s.sessions, p) && StateOk(t)
    requires affected == Affected(s.sessions[ticket.sessionId], ticket, resets, failed)
    requires ResetSurvival.Stands(s, t, ticket.sessionId, affected, p)
    ensures Placed(t.sessions, p)
    ensures BreaksAs(At(s.sessions, p),
                     p.id == ticket.sessionId && Hit(s.sessions[ticket.sessionId].topics, ticket, resets, failed, p.key),
                     p.key in resets, At(t.sessions, p))
  {
    Sweeps.ShapeAt(t.sessions, t.catalog, t.runId, p);
    HitIsAffected(s.sessions[ticket.sessionId], ticket, resets, failed);
    if p.id == ticket.sessionId {
      assert At(s.sessions, p) == s.sessions[ticket.sessionId].topics[p.key];
      assert p.key in affected <==> p.key in affected.Keys;
    }
  }

  lemma DiscardTells(s: State, ticket: PollTicket, resets: seq<TopicRef>, failed: bool, now: nat,
                     affected: map<TopicRef, bool>, t: State) returns (flips: seq<Notice>)
    requires Proceeds(s, ticket, resets, failed) == Some(affected) && ticket.sessionId in s.sessions
    requires t == DiscardPoll(s, ticket, resets, failed, now).0 && !t.stopped && !s.stopped
    ensures var topics := s.sessions[ticket.sessionId].topics;
            Told(s, t, Plain(BreakNews(topics, resets, TopicsInOrder(HitTopics(topics, ticket, resets, failed)))) + flips)
    ensures Flips(flips)
  {
    hide Told, EmitAll, Settle, FailTopics, BreakNews, Flips, Hit;
    DiscardCases(s, ticket, resets, failed, now);
    var session := s.sessions[ticket.sessionId];
    HitIsAffected(session, ticket, resets, failed);
    var keys := TopicsInOrder(affected.Keys);
    FailSays(s.sessions, ticket.sessionId, affected, resets, keys);
    var (after, owed) := FailTopics(s.sessions, ticket.sessionId, affected, keys);
    var noted := s.(sessions := after);
    var mid := EmitAll(noted, owed);
    if mid.stopped { SettleStopped(mid, now); }
    QuietTells(s, noted);
    EmitAllTells(noted, owed);
    var none: seq<Notice> := [];
    assert none + Plain(owed) == Plain(owed);
    ToldTrans(s, noted, mid, none, Plain(owed));
    flips := SettleTells(mid, now);
    ToldTrans(s, mid, t, Plain(owed), flips);
  }

  /** The law of a discard, for every ticket however old and every set of resets. While the
      service runs on, exactly the topics that the poll still bears on break, each told once
      and in order with its reset if it has one; all else stays, but for demand that these very
      updates released. */
  lemma DiscardBreaks(s: State, ticket: PollTicket, resets: seq<TopicRef>, failed: bool, now: nat, t: State,
                      texts: set<JsonPayload>)
    requires Inv(s, texts) && t == DiscardPoll(s, ticket, resets, failed, now).0 && !t.stopped
    ensures if ticket.sessionId !in s.sessions then t == s
            else exists flips :: DiscardLeaves(s, t, ticket, resets, failed, flips)
  {
    hide Inv, DiscardPoll, Told, Flips, BreaksAs, ResetSurvival.Stands, BreakNews, Affected, Rebased, Hit, FailTopics,
         EmitAll, Settle;
    DiscardCases(s, ticket, resets, failed, now);
    var proceeds := Proceeds(s, ticket, resets, failed);
    if proceeds.Some? {
      var affected := proceeds.value;
      DiscardInv(s, ticket, resets, failed, now, texts);
      InvOk(t, texts);
      ResetSurvival.DiscardStands(s, ticket, resets, failed, now, affected, t, texts);
      var flips := DiscardTells(s, ticket, resets, failed, now, affected, t);
      AllBroken(s, t, ticket, resets, failed, affected);
      assert DiscardLeaves(s, t, ticket, resets, failed, flips);
    }
  }

  lemma AllBroken(s: State, t: State, ticket: PollTicket, resets: seq<TopicRef>, failed: bool, affected: map<TopicRef, bool>)
    requires ticket.sessionId in s.sessions && StateOk(t)
    requires affected == Affected(s.sessions[ticket.sessionId], ticket, resets, failed)
    requires forall p :: ResetSurvival.Stands(s, t, ticket.sessionId, affected, p)
    ensures forall p :: Placed(s.sessions, p) ==>
              && Placed(t.sessions, p)
              && BreaksAs(At(s.sessions, p),
                          p.id == ticket.sessionId && Hit(s.sessions[ticket.sessionId].topics, ticket, resets, failed, p.key),
                          p.key in resets, At(t.sessions, p))
  {
    hide StateOk, ResetSurvival.Stands, Hit, BreaksAs, Affected;
    forall p | Placed(s.sessions, p)
      ensures Placed(t.sessions, p)
      ensures BreaksAs(At(s.sessions, p),
                       p.id == ticket.sessionId && Hit(s.sessions[ticket.sessionId].topics, ticket, resets, failed, p.key),
                       p.key in resets, At(t.sessions, p))
    {
      BrokenAt(s, t, ticket, resets, failed, p, affected);
    }
  }

  lemma InvOk(s: State, texts: set<JsonPayload>)
    requires Inv(s, texts)
    ensures StateOk(s)
  {
  }

  /** Each hit topic that was reset can take one more generation and epoch. */
  predicate HitsCount(topics: Topics, hits: set<TopicRef>, resets: seq<TopicRef>) {
    forall k :: k in hits && k in resets && k in topics ==>
      topics[k].state.generation < U64_MAX && topics[k].epoch < U64_MAX
  }

  function HitResets(hits: set<TopicRef>, resets: seq<TopicRef>): set<TopicRef> {
    set k | k in hits && k in resets
  }

  /** A discard closes the service exactly when a topic it must reset has no counter left, or
      fewer sequence numbers are left than it has updates; else it goes on to settle. */
  lemma DiscardClosesIff(s: State, ticket: PollTicket, resets: seq<TopicRef>, failed: bool, now: nat)
    requires !s.stopped && ticket.sessionId in s.sessions
    ensures var topics := s.sessions[ticket.sessionId].topics;
            var hits := HitTopics(topics, ticket, resets, failed);
            var (t, next) := DiscardPoll(s, ticket, resets, failed, now);
            if HitsCount(topics, hits, resets) && s.sequence + |hits| + |HitResets(hits, resets)| <= U64_MAX then
              exists mid: State :: !mid.stopped && t == Settle(mid, now)
                && mid.sequence == s.sequence + |hits| + |HitResets(hits, resets)|
            else t == Close(s, EXHAUSTED) && next.None?
  {
    hide Settle, EmitAll, FailTopics, Close, Rebased, CurrentTicket, Affected, HitTopics;
    var session := s.sessions[ticket.sessionId];
    var affected := Affected(session, ticket, resets, failed);
    HitIsAffected(session, ticket, resets, failed);
    assert HitResets(affected.Keys, resets) == set k | k in affected && affected[k];
    assert affected.Keys <= session.topics.Keys by { HitsWithin(session, ticket, resets, failed); }
    assert |affected| == |affected.Keys|;
    DiscardCases(s, ticket, resets, failed, now);
    if Proceeds(s, ticket, resets, failed).Some? {
      DiscardRuns(s, ticket, resets, failed, affected);
    }
  }

  lemma HitsWithin(session: Session, ticket: PollTicket, resets: seq<TopicRef>, failed: bool)
    ensures Affected(session, ticket, resets, failed).Keys <= session.topics.Keys
  {
  }

  lemma DiscardRuns(s: State, ticket: PollTicket, resets: seq<TopicRef>, failed: bool, affected: map<TopicRef, bool>)
    requires !s.stopped && Proceeds(s, ticket, resets, failed) == Some(affected) && ticket.sessionId in s.sessions
    ensures var (after, owed) := FailTopics(s.sessions, ticket.sessionId, affected, TopicsInOrder(affected.Keys));
            var mid := EmitAll(s.(sessions := after), owed);
            !mid.stopped && mid.sequence == s.sequence + |affected| + ResetCount(affected)
  {
    hide FailTopics, EmitAll, Affected, BreakNews;
    var session := s.sessions[ticket.sessionId];
    HitIsAffected(session, ticket, resets, failed);
    var keys := TopicsInOrder(affected.Keys);
    HitsWithin(session, ticket, resets, failed);
    FailSays(s.sessions, ticket.sessionId, affected, resets, keys);
    NewsCount(session.topics, affected, resets, keys);
    OwedIsReserved(affected);
    var (after, owed) := FailTopics(s.sessions, ticket.sessionId, affected, keys);
    EmitsWithRoom(s.(sessions := after), owed);
  }

  lemma {:induction false} NewsCount(topics: Topics, affected: map<TopicRef, bool>, resets: seq<TopicRef>,
                                     keys: seq<TopicRef>)
    requires forall k :: k in keys ==> k in topics && k in affected && affected[k] == (k in resets)
    ensures |BreakNews(topics, resets, keys)| == |keys| + Resets(affected, keys)
    decreases |keys|
  {
    if keys != [] {
      assert keys[|keys| - 1] in keys;
      NewsCount(topics, affected, resets, keys[..|keys| - 1]);
    }
  }
}
