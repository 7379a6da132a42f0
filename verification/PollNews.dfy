/** What an accepted poll publishes and leaves, in terms of the batch alone. */
module PollNews {
  import opened Wire
  import opened Ordering
  import opened Views
  import opened Service
  import opened Streams
  import opened PollBatch
  import opened Publication
  import opened Invariant
  import opened Settling
  import opened Discards
  import opened FoldedStaging
  import opened Commits
  import opened Journal
  import opened PollOutcomes
  import Committing
  import Transactions
  import StagingProofs
  import Sweeps

  type Topics = map<TopicRef, Topic>

  /** What subscribers can see of a topic differs. */
  predicate Differs(a: TopicSnapshot, b: TopicSnapshot) {
    a.generation != b.generation || a.health != b.health || !SameData(a, b)
  }

  // ---- the news, in order

  function NewMetadata(before: SessionInfo, build: Option<string>): seq<SubscriptionUpdate> {
    if build == before.gameBuild then [] else [SessionChanged(before.(gameBuild := build))]
  }

  function ResetNews(after: Topics, resets: seq<TopicRef>): (r: seq<SubscriptionUpdate>)
    requires forall k :: k in resets ==> k in after
    ensures |r| == |resets|
    ensures forall i :: 0 <= i < |r| ==>
              r[i] == TopicReset(after[resets[i]].state.source, after[resets[i]].state.generation, SourceChanged)
  {
    seq(|resets|, i requires 0 <= i < |resets| =>
      TopicReset(after[resets[i]].state.source, after[resets[i]].state.generation, SourceChanged))
  }

  /** Each topic that now looks different, once, in its final state. */
  function Republished(before: Topics, after: Topics, keys: seq<TopicRef>): seq<SubscriptionUpdate> {
    if keys == [] then []
    else
      var k := keys[|keys| - 1];
      Republished(before, after, keys[..|keys| - 1])
      + if k in before && k in after && Differs(before[k].state, after[k].state) then [TopicChanged(after[k].state)] else []
  }

  /** The events in order, each of its topic's final generation and at its own cursor. */
  function EventNews(after: Topics, events: seq<(TopicRef, JsonPayload)>, sequence: nat): seq<SubscriptionUpdate>
    requires forall e :: e in events ==> e.0 in after
  {
    if events == [] then []
    else
      var last := events[|events| - 1];
      EventNews(after, events[..|events| - 1], sequence)
      + [Event(EventEnvelope(EnvelopeMetadata(after[last.0].state.source, after[last.0].state.generation,
                                              sequence + |events|), last.1))]
  }

  function Named(ops: seq<Operation>): set<TopicRef> {
    set i | 0 <= i < |ops| :: ops[i].key
  }

  /** The data of the news: metadata, resets, and topics that look different. */
  function DataNews(before: Session, after: Session, batch: Pending): seq<SubscriptionUpdate>
    requires forall k :: k in ResetsOf(batch.ops) ==> k in after.topics
  {
    NewMetadata(before.info, batch.gameBuild) + ResetNews(after.topics, ResetsOf(batch.ops))
    + Republished(before.topics, after.topics, TopicsInOrder(Named(batch.ops)))
  }

  /** All of an accepted poll's news; its events are those that no later reset of their topic withdrew. */
  function News(before: Session, after: Session, batch: Pending, sequence: nat): seq<SubscriptionUpdate>
    requires forall op :: op in batch.ops ==> op.key in after.topics
  {
    ResetsNamed(batch.ops);
    SurvivorsNamed(batch.ops, |batch.ops|);
    var data := DataNews(before, after, batch);
    data + EventNews(after.topics, SurvivingEvents(batch.ops, |batch.ops|), sequence + |data|)
  }

  lemma {:induction false} ResetsNamed(ops: seq<Operation>)
    ensures forall k :: k in ResetsOf(ops) ==> exists op :: op in ops && op.key == k
    decreases |ops|
  {
    if ops != [] {
      ResetsNamed(ops[..|ops| - 1]);
      assert ops[|ops| - 1] in ops;
    }
  }

  lemma {:induction false} SurvivorsNamed(ops: seq<Operation>, n: nat)
    requires n <= |ops|
    ensures forall e :: e in SurvivingEvents(ops, n) ==> exists op :: op in ops && op.key == e.0
  {
    if n > 0 {
      SurvivorsNamed(ops, n - 1);
      assert ops[n - 1] in ops;
    }
  }

  /** A published snapshot carries the cursor of its own update. */
  predicate OwnCursors(news: seq<SubscriptionUpdate>, sequence: nat) {
    forall i :: 0 <= i < |news| && news[i].TopicChanged? && news[i].topic.snapshot.Some? ==>
      news[i].topic.snapshot.value.metadata
      == EnvelopeMetadata(news[i].topic.source, news[i].topic.generation, sequence + 1 + i)
  }

  // ---- one topic lands

  lemma ChangedDiffers(a: TopicSnapshot, b: TopicSnapshot)
    ensures Changed(a, b) <==> Differs(a, b)
  {
  }

  lemma TopicTells(s: State, p: Place, topic: Topic, next: State)
    requires Placed(s.sessions, p) && !s.stopped && next == CommitTopic(s, p, topic) && !next.stopped
    requires topic.state.snapshot.Some? && Differs(At(s.sessions, p).state, topic.state) ==>
               topic.state.snapshot.value.metadata.source == topic.state.source
               && topic.state.snapshot.value.metadata.generation == topic.state.generation
    ensures var before := At(s.sessions, p).state;
            var landed := Landing(before, topic, s.sequence + 1);
            && next == s.(sequence := next.sequence, channels := next.channels, sessions := Put(s.sessions, p, landed))
            && (if Differs(before, landed.state)
                then Told(s, next, Plain([TopicChanged(landed.state)])) && OwnCursors([TopicChanged(landed.state)], s.sequence)
                else Told(s, next, Plain([])))
  {
    hide Told, Emit;
    var before := At(s.sessions, p).state;
    var landed := Landing(before, topic, s.sequence + 1);
    ChangedDiffers(before, topic.state);
    ChangedDiffers(before, landed.state);
    var stored := s.(sessions := Put(s.sessions, p, landed));
    QuietTells(s, stored);
    assert Plain([]) == [];
    if Changed(before, topic.state) {
      EmitEmitted(stored, TopicChanged(landed.state));
      EmitTells(stored, TopicChanged(landed.state));
      ToldTrans(s, stored, next, [], [Notice(TopicChanged(landed.state), None)]);
      assert [] + [Notice(TopicChanged(landed.state), None)] == Plain([TopicChanged(landed.state)]);
    }
  }

  // ---- all topics land

  predicate Enveloped(topic: Topic) {
    topic.state.snapshot.Some? ==>
      topic.state.snapshot.value.metadata.source == topic.state.source
      && topic.state.snapshot.value.metadata.generation == topic.state.generation
  }

  lemma {:induction false} RepublishedFrame(before: Topics, a: Topics, b: Topics, keys: seq<TopicRef>)
    requires forall k :: k in keys ==> (k in a <==> k in b) && (k in a && k in b ==> a[k] == b[k])
    ensures Republished(before, a, keys) == Republished(before, b, keys)
  {
    if keys != [] {
      assert keys[|keys| - 1] in keys;
      RepublishedFrame(before, a, b, keys[..|keys| - 1]);
    }
  }

  /** The states between two points of a transaction, as far as its session goes. */
  ghost predicate Reached(s: State, t: State, id: string, keys: seq<TopicRef>, used: nat)
    requires id in s.sessions
  {
    && t == s.(sequence := s.sequence + used, channels := t.channels, sessions := t.sessions)
    && id in t.sessions && t.sessions[id].topics.Keys == s.sessions[id].topics.Keys
    && (forall k :: k in s.sessions[id].topics && k !in keys ==> t.sessions[id].topics[k] == s.sessions[id].topics[k])
  }

  ghost predicate TopicsOut(s: State, t: State, id: string, keys: seq<TopicRef>)
    requires id in s.sessions && id in t.sessions
  {
    var news := Republished(s.sessions[id].topics, t.sessions[id].topics, keys);
    Reached(s, t, id, keys, |news|) && Told(s, t, Plain(news)) && OwnCursors(news, s.sequence)
  }

  lemma OwnJoin(a: seq<SubscriptionUpdate>, b: seq<SubscriptionUpdate>, sequence: nat)
    requires OwnCursors(a, sequence) && OwnCursors(b, sequence + |a|)
    ensures OwnCursors(a + b, sequence)
  {
    forall i | 0 <= i < |a + b| && (a + b)[i].TopicChanged? && (a + b)[i].topic.snapshot.Some?
      ensures (a + b)[i].topic.snapshot.value.metadata
              == EnvelopeMetadata((a + b)[i].topic.source, (a + b)[i].topic.generation, sequence + 1 + i)
    {
      if i >= |a| { assert (a + b)[i] == b[i - |a|]; }
    }
  }

  lemma PlainJoin(a: seq<SubscriptionUpdate>, b: seq<SubscriptionUpdate>)
    ensures Plain(a + b) == Plain(a) + Plain(b)
  {
  }

  lemma TopicsOutSnoc(s: State, mid: State, t: State, id: string, keys: seq<TopicRef>, last: seq<SubscriptionUpdate>)
    requires keys != [] && NoRepeats(keys) && id in s.sessions && id in mid.sessions
    requires keys[|keys| - 1] in s.sessions[id].topics
    requires TopicsOut(s, mid, id, keys[..|keys| - 1])
    requires Reached(mid, t, id, [keys[|keys| - 1]], |last|) && Told(mid, t, Plain(last)) && OwnCursors(last, mid.sequence)
    requires var k := keys[|keys| - 1];
             last == if Differs(mid.sessions[id].topics[k].state, t.sessions[id].topics[k].state)
                     then [TopicChanged(t.sessions[id].topics[k].state)] else []
    ensures TopicsOut(s, t, id, keys)
  {
    hide Told, OwnCursors, Differs;
    var front, k := keys[..|keys| - 1], keys[|keys| - 1];
    assert keys == front + [k] && k !in front;
    var before, middle, after := s.sessions[id].topics, mid.sessions[id].topics, t.sessions[id].topics;
    var news := Republished(before, middle, front);
    forall n | n in front ensures (n in middle <==> n in after) && (n in middle && n in after ==> middle[n] == after[n]) {
      assert n in middle.Keys <==> n in after.Keys;
    }
    RepublishedFrame(before, middle, after, front);
    assert k in before.Keys && k in middle.Keys && k in after.Keys && middle[k] == before[k];
    assert Republished(before, after, keys) == news + last;
    ToldTrans(s, mid, t, Plain(news), Plain(last));
    PlainJoin(news, last);
    OwnJoin(news, last, s.sequence);
    forall n | n in before && n !in keys ensures after[n] == before[n] {
      assert n !in front && n !in [k];
      assert n in middle.Keys;
    }
  }

  lemma {:induction false} TopicsTell(s: State, id: string, topics: Topics, keys: seq<TopicRef>)
    requires id in s.sessions && !s.stopped && NoRepeats(keys)
    requires forall k :: k in keys ==> k in topics && k in s.sessions[id].topics && Enveloped(topics[k])
    requires !CommitTopics(s, id, topics, keys).stopped
    ensures id in CommitTopics(s, id, topics, keys).sessions
    ensures TopicsOut(s, CommitTopics(s, id, topics, keys), id, keys)
  {
    hide Told, CommitTopic;
    if keys == [] {
      ToldNothing(s, s);
      assert Plain([]) == [];
    } else {
      var front, k := keys[..|keys| - 1], keys[|keys| - 1];
      assert keys == front + [k] && k in keys;
      var mid := CommitTopics(s, id, topics, front);
      var t := CommitTopics(s, id, topics, keys);
      if mid.stopped { StaysStopped(mid, Place(id, k), topics[k]); }
      TopicsTell(s, id, topics, front);
      assert k in mid.sessions[id].topics.Keys;
      TopicTells(mid, Place(id, k), topics[k], t);
      var landed := Landing(mid.sessions[id].topics[k].state, topics[k], mid.sequence + 1);
      var last := if Differs(mid.sessions[id].topics[k].state, landed.state) then [TopicChanged(landed.state)] else [];
      LastReached(mid, t, id, k, landed, last);
      TopicsOutSnoc(s, mid, t, id, keys, last);
    }
  }

  lemma LastReached(mid: State, t: State, id: string, k: TopicRef, landed: Topic, last: seq<SubscriptionUpdate>)
    requires id in mid.sessions && k in mid.sessions[id].topics
    requires t == mid.(sequence := t.sequence, channels := t.channels, sessions := Put(mid.sessions, Place(id, k), landed))
    requires Told(mid, t, Plain(last))
    ensures Reached(mid, t, id, [k], |last|) && t.sessions[id].topics[k] == landed
  {
  }

  lemma StaysStopped(s: State, p: Place, topic: Topic)
    requires s.stopped
    ensures CommitTopic(s, p, topic).stopped
  {
  }

  lemma {:induction false} TopicsStayStopped(s: State, id: string, topics: Topics, keys: seq<TopicRef>)
    requires s.stopped && forall k :: k in keys ==> k in topics
    ensures CommitTopics(s, id, topics, keys).stopped
  {
    hide CommitTopic;
    if keys != [] {
      TopicsStayStopped(s, id, topics, keys[..|keys| - 1]);
      StaysStopped(CommitTopics(s, id, topics, keys[..|keys| - 1]), Place(id, keys[|keys| - 1]), topics[keys[|keys| - 1]]);
    }
  }

  // ---- events go out

  lemma {:induction false} EventNewsSize(after: Topics, events: seq<(TopicRef, JsonPayload)>, sequence: nat)
    requires forall e :: e in events ==> e.0 in after
    ensures |EventNews(after, events, sequence)| == |events|
    ensures OwnCursors(EventNews(after, events, sequence), sequence) && NoEnds(EventNews(after, events, sequence))
    ensures forall u :: u in EventNews(after, events, sequence) ==> u.Event?
  {
    if events != [] {
      EventNewsSize(after, events[..|events| - 1], sequence);
    }
  }

  lemma EventTells(s: State, id: string, event: (TopicRef, JsonPayload), t: State)
    requires Placed(s.sessions, Place(id, event.0)) && !s.stopped && t == CommitEvent(s, id, event) && !t.stopped
    ensures t == s.(sequence := s.sequence + 1, channels := t.channels)
    ensures var topic := s.sessions[id].topics[event.0];
            Told(s, t, Plain([Event(EventEnvelope(EnvelopeMetadata(topic.state.source, topic.state.generation,
                                                                    s.sequence + 1), event.1))]))
  {
    hide Told;
    var update := EventAt(At(s.sessions, Place(id, event.0)).state, s.sequence + 1, event.1);
    EmitEmitted(s, update);
    EmitTells(s, update);
    assert Plain([update]) == [Notice(update, None)];
  }

  lemma EventStaysStopped(s: State, id: string, event: (TopicRef, JsonPayload))
    requires s.stopped
    ensures CommitEvent(s, id, event) == s
  {
  }

  lemma {:induction false} EventsTell(s: State, id: string, events: seq<(TopicRef, JsonPayload)>, t: State)
    requires id in s.sessions && !s.stopped && t == CommitEvents(s, id, events) && !t.stopped
    requires forall e :: e in events ==> e.0 in s.sessions[id].topics
    ensures t == s.(sequence := s.sequence + |events|, channels := t.channels)
    ensures Told(s, t, Plain(EventNews(s.sessions[id].topics, events, s.sequence)))
    decreases |events|
  {
    hide Told, CommitEvent;
    if events == [] {
      ToldNothing(s, s);
      assert Plain([]) == [];
    } else {
      var front, last := events[..|events| - 1], events[|events| - 1];
      assert last in events;
      var mid := CommitEvents(s, id, front);
      if mid.stopped { EventStaysStopped(mid, id, last); }
      EventsTell(s, id, front, mid);
      EventTells(mid, id, last, t);
      var news := EventNews(s.sessions[id].topics, front, s.sequence);
      var more := [EventNews(s.sessions[id].topics, events, s.sequence)[|news|]];
      EventNewsSize(s.sessions[id].topics, front, s.sequence);
      assert EventNews(s.sessions[id].topics, events, s.sequence) == news + more;
      ToldTrans(s, mid, t, Plain(news), Plain(more));
      PlainJoin(news, more);
    }
  }

  lemma {:induction false} EventsStayStopped(s: State, id: string, events: seq<(TopicRef, JsonPayload)>)
    requires s.stopped
    ensures CommitEvents(s, id, events) == s
  {
    hide CommitEvent;
    if events != [] {
      EventsStayStopped(s, id, events[..|events| - 1]);
      EventStaysStopped(s, id, events[|events| - 1]);
    }
  }

  // ---- metadata and resets

  lemma MetadataTells(s: State, id: string, batch: Pending, mid: State)
    requires id in s.sessions && !s.stopped && mid == CommitMetadata(s, id, batch) && !mid.stopped
    ensures Told(s, mid, Plain(NewMetadata(s.sessions[id].info, batch.gameBuild)))
    ensures mid.sequence == s.sequence + |NewMetadata(s.sessions[id].info, batch.gameBuild)|
    ensures id in mid.sessions && mid.sessions[id] == s.sessions[id].(info := s.sessions[id].info.(gameBuild := batch.gameBuild))
  {
    hide Told;
    if batch.gameBuild == s.sessions[id].info.gameBuild {
      ToldNothing(s, s);
      assert Plain([]) == [];
    } else {
      var info := s.sessions[id].info.(gameBuild := batch.gameBuild);
      var stored := s.(sessions := s.sessions[id := s.sessions[id].(info := info)]);
      QuietTells(s, stored);
      EmitEmitted(stored, SessionChanged(info));
      EmitTells(stored, SessionChanged(info));
      ToldTrans(s, stored, mid, [], [Notice(SessionChanged(info), None)]);
      assert [] + [Notice(SessionChanged(info), None)] == Plain([SessionChanged(info)]);
    }
  }

  // ---- the whole poll

  ghost predicate Placeable(session: Session, st: Staged) {
    StagedOk(st) && forall k :: k in st.topics ==> k in session.topics && Enveloped(st.topics[k])
  }

  lemma ResetsTell(s: State, st: Staged, reset: State)
    requires !s.stopped && StagedOk(st) && reset == EmitAll(s, ResetUpdates(st)) && !reset.stopped
    ensures reset == s.(sequence := s.sequence + |ResetUpdates(st)|, channels := reset.channels)
    ensures Told(s, reset, Plain(ResetUpdates(st)))
  {
    hide Told;
    EmitAllFrame(s, ResetUpdates(st));
    Transactions.ResetUpdatesOk(st, {});
    EmitAllTells(s, ResetUpdates(st));
  }

  lemma StagesRun(s: State, id: string, st: Staged, reset: State, stored: State)
    requires StagedOk(st) && reset == EmitAll(s, ResetUpdates(st))
    requires stored == CommitTopics(reset, id, st.topics, TopicsInOrder(st.topics.Keys))
    requires !CommitEvents(stored, id, st.events).stopped
    ensures !s.stopped && !reset.stopped && !stored.stopped
  {
    hide CommitTopics, CommitEvents, Emit;
    if stored.stopped { EventsStayStopped(stored, id, st.events); }
    if reset.stopped { TopicsStayStopped(reset, id, st.topics, TopicsInOrder(st.topics.Keys)); }
    EmitAllFrame(s, ResetUpdates(st));
  }

  lemma TopicsStage(reset: State, id: string, st: Staged, stored: State)
    requires id in reset.sessions && !reset.stopped && Placeable(reset.sessions[id], st)
    requires stored == CommitTopics(reset, id, st.topics, TopicsInOrder(st.topics.Keys)) && !stored.stopped
    ensures id in stored.sessions && TopicsOut(reset, stored, id, TopicsInOrder(st.topics.Keys))
    ensures stored.sessions[id].topics.Keys == reset.sessions[id].topics.Keys
  {
    hide Told, CommitTopics, Enveloped, OwnCursors, Differs;
    TopicsTell(reset, id, st.topics, TopicsInOrder(st.topics.Keys));
  }

  /** The stages of a transaction: resets announced, topics stored, events out. */
  lemma StagesTell(s: State, id: string, st: Staged, reset: State, stored: State, t: State)
    requires id in s.sessions && Placeable(s.sessions[id], st) && !t.stopped
    requires reset == EmitAll(s, ResetUpdates(st))
    requires stored == CommitTopics(reset, id, st.topics, TopicsInOrder(st.topics.Keys))
    requires t == CommitEvents(stored, id, st.events)
    ensures id in t.sessions && t.sessions[id].topics.Keys == s.sessions[id].topics.Keys
    ensures forall e :: e in st.events ==> e.0 in t.sessions[id].topics
    ensures var keys := TopicsInOrder(st.topics.Keys);
            var republished := Republished(s.sessions[id].topics, t.sessions[id].topics, keys);
            var data := ResetUpdates(st) + republished;
            var events := EventNews(t.sessions[id].topics, st.events, s.sequence + |data|);
            && Told(s, t, Plain(data + events)) && OwnCursors(data + events, s.sequence)
  {
    hide Told, CommitTopics, CommitEvents, EmitAll, Enveloped, OwnCursors, Republished, EventNews, Differs, TopicsInOrder;
    StagesRun(s, id, st, reset, stored);
    ResetsTell(s, st, reset);
    TopicsStage(reset, id, st, stored);
    var republished := Republished(s.sessions[id].topics, stored.sessions[id].topics, TopicsInOrder(st.topics.Keys));
    forall e | e in st.events ensures e.0 in stored.sessions[id].topics {
      assert e.0 in stored.sessions[id].topics.Keys;
    }
    EventsTell(stored, id, st.events, t);
    EventNewsSize(stored.sessions[id].topics, st.events, stored.sequence);
    ResetsOwn(st, s.sequence);
    StagesJoin(s, reset, stored, t, ResetUpdates(st), republished,
               EventNews(stored.sessions[id].topics, st.events, stored.sequence));
  }

  lemma ResetsOwn(st: Staged, sequence: nat)
    requires StagedOk(st)
    ensures OwnCursors(ResetUpdates(st), sequence)
  {
  }

  lemma StagesJoin(s: State, a: State, b: State, c: State, x: seq<SubscriptionUpdate>, y: seq<SubscriptionUpdate>,
                   z: seq<SubscriptionUpdate>)
    requires Told(s, a, Plain(x)) && Told(a, b, Plain(y)) && Told(b, c, Plain(z))
    requires OwnCursors(x, s.sequence) && OwnCursors(y, s.sequence + |x|) && OwnCursors(z, s.sequence + |x + y|)
    ensures Told(s, c, Plain(x + y + z)) && OwnCursors(x + y + z, s.sequence)
  {
    hide OwnCursors;
    ToldTrans(s, a, b, Plain(x), Plain(y));
    PlainJoin(x, y);
    ToldTrans(s, b, c, Plain(x + y), Plain(z));
    PlainJoin(x + y, z);
    OwnJoin(x, y, s.sequence);
    OwnJoin(x + y, z, s.sequence);
  }

  /** What an accepted poll leaves of its session before demand settles: topics that it does
      not name are untouched, and each named one is what the batch makes of it, with its old
      envelope when nothing that subscribers see has changed. */
  ghost predicate LandsAs(before: Session, after: Session, batch: Pending, deadline: nat) {
    && after.info == before.info.(gameBuild := batch.gameBuild)
    && after.topics.Keys == before.topics.Keys
    && forall k :: k in before.topics ==>
         if Names(batch.ops, k) then
           && Results(before.topics[k], batch.ops, deadline, k, after.topics[k])
           && (!Differs(before.topics[k].state, after.topics[k].state) ==>
                 after.topics[k].state == before.topics[k].state)
         else after.topics[k] == before.topics[k]
  }

  lemma LandedResults(before: Topic, ops: seq<Operation>, deadline: nat, k: TopicRef, staged: Topic, landed: Topic)
    requires StagesAs(before, ops, deadline, k, staged) && Committing.LandedAs(before, staged, landed)
    ensures Results(before, ops, deadline, k, landed)
    ensures !Differs(before.state, landed.state) ==> landed.state == before.state
  {
    hide LastSet, LastDecided, NoneSets, NoneDecides, ResetsAt;
    ChangedDiffers(before.state, staged.state);
    ChangedDiffers(before.state, landed.state);
  }

  lemma PollLandsAs(s: State, t: State, id: string, batch: Pending, deadline: nat, st: Staged)
    requires id in s.sessions && LandedPoll(s, t, id, batch, st)
    requires Describes(s.sessions[id], batch.ops, deadline, st.topics)
    ensures LandsAs(s.sessions[id], t.sessions[id], batch, deadline)
  {
    hide Names, Results, StagesAs, Reserve, Differs, Committing.LandedAs;
    var before, after := s.sessions[id], t.sessions[id];
    forall k | k in before.topics
      ensures if Names(batch.ops, k) then
                && Results(before.topics[k], batch.ops, deadline, k, after.topics[k])
                && (!Differs(before.topics[k].state, after.topics[k].state) ==>
                      after.topics[k].state == before.topics[k].state)
              else after.topics[k] == before.topics[k]
    {
      assert Committing.LandedAt(before.topics[k], st, k, true, after.topics[k]);
      if k in st.topics {
        LandedResults(before.topics[k], batch.ops, deadline, k, st.topics[k], after.topics[k]);
      }
    }
  }

  lemma NamedKeys(session: Session, ops: seq<Operation>, deadline: nat, topics: Topics)
    requires Describes(session, ops, deadline, topics)
    ensures topics.Keys == Named(ops)
  {
    hide StagesAs;
    forall k ensures k in topics.Keys <==> k in Named(ops) {
      assert k in topics <==> Names(ops, k);
    }
  }

  /** The news of a poll, from its staged output. */
  lemma NewsIs(before: Session, after: Session, batch: Pending, st: Staged, deadline: nat, sequence: nat)
    requires StagedByFold(before, st, batch.ops, deadline) && Describes(before, batch.ops, deadline, st.topics)
    requires StagedOk(st) && after.topics.Keys == before.topics.Keys
    requires forall k :: k in st.topics ==>
               k in after.topics && after.topics[k].state.source == st.topics[k].state.source
               && after.topics[k].state.generation == st.topics[k].state.generation
    ensures forall op :: op in batch.ops ==> op.key in after.topics
    ensures forall e :: e in st.events ==> e.0 in after.topics
    ensures var data := ResetUpdates(st) + Republished(before.topics, after.topics, TopicsInOrder(st.topics.Keys));
            var metadata := NewMetadata(before.info, batch.gameBuild);
            News(before, after, batch, sequence)
            == metadata + (data + EventNews(after.topics, st.events, sequence + |metadata| + |data|))
  {
    hide StagesAs, FoldsAt, Republished, EventNews, NewMetadata, SurvivingEvents, ResetsOf, Differs;
    NamedKeys(before, batch.ops, deadline, st.topics);
    forall op | op in batch.ops ensures op.key in after.topics {
      assert Names(batch.ops, op.key);
    }
    ResetsNamed(batch.ops);
    SurvivorsNamed(batch.ops, |batch.ops|);
    assert ResetNews(after.topics, st.resets) == ResetUpdates(st);
    var metadata := NewMetadata(before.info, batch.gameBuild);
    var republished := Republished(before.topics, after.topics, TopicsInOrder(st.topics.Keys));
    assert metadata + ResetUpdates(st) + republished == metadata + (ResetUpdates(st) + republished);
  }

  lemma PlanPlaceable(s: State, id: string, st: Staged, manifest: Manifest, texts: set<JsonPayload>)
    requires Committing.Plan(s, id, st, manifest, texts)
    ensures Placeable(s.sessions[id], st)
  {
    forall k | k in st.topics ensures k in s.sessions[id].topics && Enveloped(st.topics[k]) {
      assert StagingProofs.PreparedAt(s.sessions[id], st, manifest, texts, k);
    }
  }

  lemma MetadataOwn(info: SessionInfo, build: Option<string>, sequence: nat)
    ensures OwnCursors(NewMetadata(info, build), sequence)
  {
  }

  lemma LandedFacts(s: State, ticket: PollTicket, batch: Pending, manifest: Manifest, deadline: nat, st: Staged,
                    landed: State, texts: set<JsonPayload>)
    requires Steady(s, texts) && !s.stopped && Current(s, ticket)
    requires HonestPoll(s, ticket.sessionId, batch, manifest, texts)
    requires Vet(s, ticket, batch, deadline) == Ok(st) && StagedOk(st)
    requires Room(s, Reserve(s.sessions[ticket.sessionId], batch, st))
    requires landed == Landed(s, ticket, batch, st)
    ensures var id := ticket.sessionId;
            && LandedPoll(s, landed, id, batch, st)
            && Describes(s.sessions[id], batch.ops, deadline, st.topics)
            && StagedByFold(s.sessions[id], st, batch.ops, deadline)
            && LandsAs(s.sessions[id], landed.sessions[id], batch, deadline)
  {
    hide Steady, HonestPoll, LandsAs, StagesAs, FoldsAt, LandedPoll, Reserve, CommitStaged, CommitMetadata, Validate;
    var id := ticket.sessionId;
    PollLands(s, ticket, batch, manifest, deadline, st, texts);
    StagingProofs.Vetted(s, ticket, batch, deadline);
    PrepareDescribes(s.sessions[id], ticket, batch.ops, deadline, st);
    PrepareFolds(s.sessions[id], ticket, batch.ops, deadline, st);
    PollLandsAs(s, landed, id, batch, deadline, st);
  }

  lemma MetadataThen(s: State, mid: State, t: State, metadata: seq<SubscriptionUpdate>, rest: seq<SubscriptionUpdate>)
    requires Told(s, mid, Plain(metadata)) && Told(mid, t, Plain(rest))
    requires OwnCursors(metadata, s.sequence) && OwnCursors(rest, mid.sequence)
    ensures Told(s, t, Plain(metadata + rest)) && OwnCursors(metadata + rest, s.sequence)
  {
    ToldTrans(s, mid, t, Plain(metadata), Plain(rest));
    PlainJoin(metadata, rest);
    OwnJoin(metadata, rest, s.sequence);
  }

  /** Everything that the transaction publishes, with the session it leaves. */
  lemma LandedTells(s: State, ticket: PollTicket, batch: Pending, manifest: Manifest, deadline: nat, st: Staged,
                    landed: State, texts: set<JsonPayload>)
    requires Steady(s, texts) && !s.stopped && Current(s, ticket)
    requires HonestPoll(s, ticket.sessionId, batch, manifest, texts)
    requires Vet(s, ticket, batch, deadline) == Ok(st) && StagedOk(st)
    requires Room(s, Reserve(s.sessions[ticket.sessionId], batch, st))
    requires landed == Landed(s, ticket, batch, st)
    ensures var id := ticket.sessionId;
            && LandedPoll(s, landed, id, batch, st)
            && LandsAs(s.sessions[id], landed.sessions[id], batch, deadline)
            && (forall op :: op in batch.ops ==> op.key in landed.sessions[id].topics)
            && var news := News(s.sessions[id], landed.sessions[id], batch, s.sequence);
               Told(s, landed, Plain(news)) && OwnCursors(news, s.sequence)
  {
    hide Told, OwnCursors, CommitTopics, CommitEvents, CommitMetadata, EmitAll, Steady, HonestPoll, LandsAs, Republished,
         EventNews, News, StagesAs, FoldsAt, Reserve, Committing.LandedAt, NewMetadata, Vet, Room, Differs,
         ResetUpdates, Enveloped;
    var id := ticket.sessionId;
    LandedFacts(s, ticket, batch, manifest, deadline, st, landed, texts);
    var mid := CommitMetadata(s, id, batch);
    MetadataRuns(s, ticket, batch, manifest, deadline, st, mid, texts);
    MetadataTells(s, id, batch, mid);
    LandedRuns(s, landed, id, batch, st);
    var reset := EmitAll(mid, ResetUpdates(st));
    StagesTell(mid, id, st, reset, CommitTopics(reset, id, st.topics, TopicsInOrder(st.topics.Keys)), landed);
    NewsIs(s.sessions[id], landed.sessions[id], batch, st, deadline, s.sequence);
    var metadata := NewMetadata(s.sessions[id].info, batch.gameBuild);
    var data := ResetUpdates(st) + Republished(s.sessions[id].topics, landed.sessions[id].topics, TopicsInOrder(st.topics.Keys));
    var rest := data + EventNews(landed.sessions[id].topics, st.events, mid.sequence + |data|);
    MetadataOwn(s.sessions[id].info, batch.gameBuild, s.sequence);
    MetadataThen(s, mid, landed, metadata, rest);
  }

  lemma MetadataRuns(s: State, ticket: PollTicket, batch: Pending, manifest: Manifest, deadline: nat, st: Staged,
                     mid: State, texts: set<JsonPayload>)
    requires Steady(s, texts) && !s.stopped && Current(s, ticket)
    requires HonestPoll(s, ticket.sessionId, batch, manifest, texts)
    requires Vet(s, ticket, batch, deadline) == Ok(st)
    requires Room(s, Reserve(s.sessions[ticket.sessionId], batch, st))
    requires mid == CommitMetadata(s, ticket.sessionId, batch)
    ensures !mid.stopped && ticket.sessionId in mid.sessions && Placeable(mid.sessions[ticket.sessionId], st)
  {
    hide CommitMetadata;
    VettedPlan(s, ticket, batch, manifest, deadline, st, texts);
    Transactions.MetadataKeeps(s, mid, ticket.sessionId, batch, texts);
    PlanRefreshed(s, mid, ticket.sessionId, batch, st, manifest, texts);
    PlanPlaceable(mid, ticket.sessionId, st, manifest, texts);
  }

  /** A landed poll has not stopped the service, and lands each staged source and generation. */
  lemma LandedRuns(s: State, landed: State, id: string, batch: Pending, st: Staged)
    requires id in s.sessions && LandedPoll(s, landed, id, batch, st) && !s.stopped
    requires forall k :: k in st.topics ==> k in s.sessions[id].topics
    ensures !landed.stopped && id in landed.sessions
    ensures landed.sessions[id].topics.Keys == s.sessions[id].topics.Keys
    ensures forall k :: k in st.topics ==>
              k in landed.sessions[id].topics
              && landed.sessions[id].topics[k].state.source == st.topics[k].state.source
              && landed.sessions[id].topics[k].state.generation == st.topics[k].state.generation
  {
    hide Reserve;
    forall k | k in st.topics
      ensures k in landed.sessions[id].topics
      ensures landed.sessions[id].topics[k].state.source == st.topics[k].state.source
      ensures landed.sessions[id].topics[k].state.generation == st.topics[k].state.generation
    {
      assert k in landed.sessions[id].topics.Keys;
      assert Committing.LandedAt(s.sessions[id].topics[k], st, k, true, landed.sessions[id].topics[k]);
    }
  }

  // ---- after settling

  /** The session in its final state: what the poll made of it, but for topics whose demand
      its own publications released. */
  ghost predicate StandsAs(t: State, id: string, after: Session) {
    && id in t.sessions && t.sessions[id].info == after.info
    && t.sessions[id].topics.Keys == after.topics.Keys
    && forall k :: k in after.topics && t.sessions[id].topics[k].demanded ==> t.sessions[id].topics[k] == after.topics[k]
  }

  lemma LandedWants(s: State, landed: State, id: string, batch: Pending, st: Staged)
    requires DemandExact(s) && id in s.sessions && LandedPoll(s, landed, id, batch, st)
    requires forall k :: k in st.topics ==> k in s.sessions[id].topics && st.topics[k].demanded == s.sessions[id].topics[k].demanded
    ensures NoneNewlyWanted(landed)
  {
    hide Reserve;
    forall p | Placed(landed.sessions, p) && Demanded(landed.subscribers, landed.sessions[p.id].info.session, p.key)
      ensures At(landed.sessions, p).demanded
    {
      if p.id == id {
        assert p.key in s.sessions[id].topics.Keys;
        assert Committing.LandedAt(s.sessions[id].topics[p.key], st, p.key, true, landed.sessions[id].topics[p.key]);
      }
      assert Placed(s.sessions, p);
    }
  }

  lemma SettledStands(landed: State, t: State, now: nat, id: string, texts: set<JsonPayload>)
    requires Steady(landed, texts) && NoneNewlyWanted(landed) && id in landed.sessions && t == Settle(landed, now)
    ensures StandsAs(t, id, landed.sessions[id])
    ensures forall n :: n in landed.sessions ==> n in t.sessions && t.sessions[n].info == landed.sessions[n].info
    ensures t.sessions.Keys == landed.sessions.Keys
  {
    hide Settle, Steady;
    SettleReleases(landed, now, texts);
    forall k | k in landed.sessions[id].topics && t.sessions[id].topics[k].demanded
      ensures t.sessions[id].topics[k] == landed.sessions[id].topics[k]
    {
      assert Placed(landed.sessions, Place(id, k));
      assert Released(At(landed.sessions, Place(id, k)), At(t.sessions, Place(id, k)));
    }
  }

  /** What an accepted poll leaves and says, with the session as the poll made it and the
      flips of demand that its own publications caused. */
  ghost predicate PollLeaves(s: State, t: State, id: string, batch: Pending, deadline: nat, after: Session,
                             flips: seq<Notice>)
  {
    && id in s.sessions && LandsAs(s.sessions[id], after, batch, deadline)
    && (forall op :: op in batch.ops ==> op.key in after.topics)
    && (var news := News(s.sessions[id], after, batch, s.sequence);
        Told(s, t, Plain(news) + flips) && OwnCursors(news, s.sequence))
    && Flips(flips)
    && StandsAs(t, id, after)
    && t.sessions.Keys == s.sessions.Keys
    && (forall n :: n in s.sessions && n != id ==> StandsAs(t, n, s.sessions[n]))
  }

  lemma PollLeavesBy(s: State, ticket: PollTicket, batch: Pending, manifest: Manifest, deadline: nat, now: nat, st: Staged,
                     landed: State, t: State, texts: set<JsonPayload>) returns (flips: seq<Notice>)
    requires Inv(s, texts) && !s.stopped && Current(s, ticket)
    requires HonestPoll(s, ticket.sessionId, batch, manifest, texts)
    requires Vet(s, ticket, batch, deadline) == Ok(st) && StagedOk(st)
    requires Room(s, Reserve(s.sessions[ticket.sessionId], batch, st))
    requires landed == Landed(s, ticket, batch, st) && t == Settle(landed, now) && !t.stopped
    ensures ticket.sessionId in landed.sessions
    ensures PollLeaves(s, t, ticket.sessionId, batch, deadline, landed.sessions[ticket.sessionId], flips)
  {
    hide Told, OwnCursors, Steady, HonestPoll, LandsAs, News, Reserve, Vet, Room, Landed, Settle, Flips, Committing.Plan,
         Committing.LandedAt, Synced, StateOk, Cached, Bounded;
    var id := ticket.sessionId;
    SteadyInv(s, texts);
    LandedTells(s, ticket, batch, manifest, deadline, st, landed, texts);
    PollLands(s, ticket, batch, manifest, deadline, st, texts);
    PlanDemands(s, ticket, batch, manifest, deadline, st, texts);
    LandedWants(s, landed, id, batch, st);
    SettledStands(landed, t, now, id, texts);
    forall n | n in s.sessions && n != id ensures StandsAs(t, n, s.sessions[n]) {
      SettledStands(landed, t, now, n, texts);
    }
    flips := SettleTells(landed, now);
    ToldTrans(s, landed, t, Plain(News(s.sessions[id], landed.sessions[id], batch, s.sequence)), flips);
  }

  lemma SteadyInv(s: State, texts: set<JsonPayload>)
    requires Inv(s, texts)
    ensures Steady(s, texts) && DemandExact(s)
  {
  }

  lemma PlanDemands(s: State, ticket: PollTicket, batch: Pending, manifest: Manifest, deadline: nat, st: Staged,
                    texts: set<JsonPayload>)
    requires Steady(s, texts) && !s.stopped && Current(s, ticket)
    requires HonestPoll(s, ticket.sessionId, batch, manifest, texts) && Vet(s, ticket, batch, deadline) == Ok(st)
    ensures forall k :: k in st.topics ==>
              k in s.sessions[ticket.sessionId].topics
              && st.topics[k].demanded == s.sessions[ticket.sessionId].topics[k].demanded
  {
    VettedPlan(s, ticket, batch, manifest, deadline, st, texts);
    forall k | k in st.topics
      ensures k in s.sessions[ticket.sessionId].topics
      ensures st.topics[k].demanded == s.sessions[ticket.sessionId].topics[k].demanded
    {
      assert StagingProofs.PreparedAt(s.sessions[ticket.sessionId], st, manifest, texts, k);
    }
  }

  /** The law of an accepted poll, for every service state and every honest batch. Of its
      session, each named topic becomes what the batch makes of it and every other stays.
      Published are, in this order and each once: new metadata, the resets, each topic that
      now looks different, and each event that no later reset of its topic withdrew; then
      only flips of demand. */
  lemma AcceptedPoll(s: State, ticket: PollTicket, batch: Pending, manifest: Manifest, deadline: nat, now: nat, t: State,
                     texts: set<JsonPayload>)
    requires Inv(s, texts) && HonestPoll(s, ticket.sessionId, batch, manifest, texts)
    requires CommitPoll(s, ticket, batch, deadline, now) == (t, Ok(true)) && !t.stopped
    ensures exists after, flips :: PollLeaves(s, t, ticket.sessionId, batch, deadline, after, flips)
  {
    hide PollLeaves, Inv, HonestPoll, Vet, Reserve, CommitPoll;
    OutcomeCases(s, ticket, batch, deadline, now);
    var st := OutcomeOf(s, ticket, batch, deadline).st;
    var landed := Landed(s, ticket, batch, st);
    var flips := PollLeavesBy(s, ticket, batch, manifest, deadline, now, st, landed, t, texts);
  }

  /** An accepted poll has landed on a running service; only settling what it left can still
      close it. */
  lemma AcceptedSettles(s: State, ticket: PollTicket, batch: Pending, manifest: Manifest, deadline: nat, now: nat, t: State,
                        texts: set<JsonPayload>)
    requires Inv(s, texts) && HonestPoll(s, ticket.sessionId, batch, manifest, texts)
    requires CommitPoll(s, ticket, batch, deadline, now) == (t, Ok(true))
    ensures exists landed: State ::
              && !landed.stopped && t == Settle(landed, now)
              && ticket.sessionId in s.sessions && ticket.sessionId in landed.sessions
              && LandsAs(s.sessions[ticket.sessionId], landed.sessions[ticket.sessionId], batch, deadline)
  {
    hide LandsAs, Inv, Steady, HonestPoll, Vet, Reserve, CommitPoll, Landed, Describes, Settle, Room;
    OutcomeCases(s, ticket, batch, deadline, now);
    SteadyInv(s, texts);
    var st := OutcomeOf(s, ticket, batch, deadline).st;
    var landed := Landed(s, ticket, batch, st);
    LandedFacts(s, ticket, batch, manifest, deadline, st, landed, texts);
    assert landed.sessions.Keys == s.sessions.Keys && landed.stopped == s.stopped;
  }
}
