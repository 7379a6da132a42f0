/** The language that the client accepts, stated on the frames alone: each frame is judged
    by the frames before it, without any state of the acceptor. */
module FrameLanguage {
  import opened Wire
  import opened ClientValidation
  import opened Replica
  import Feeds

  // ---- what a frame says

  predicate Starts(item: SubscriptionItem, id: string) {
    || (item.SessionFrame? && item.info.session.sessionId == id)
    || (item.Update? && item.envelope.update.SessionStarted? && item.envelope.update.info.session.sessionId == id)
  }

  predicate Describes(item: SubscriptionItem, id: string) {
    || Starts(item, id)
    || (item.Update? && item.envelope.update.SessionChanged? && item.envelope.update.info.session.sessionId == id)
  }

  predicate Ends(item: SubscriptionItem, id: string) {
    item.Update? && item.envelope.update.SessionEnded? && item.envelope.update.session.sessionId == id
  }

  function InfoIn(item: SubscriptionItem): SessionInfo
    requires item.SessionFrame?
             || (item.Update? && (item.envelope.update.SessionStarted? || item.envelope.update.SessionChanged?))
  {
    if item.SessionFrame? then item.info else item.envelope.update.info
  }

  predicate Concerns(source: TopicSource, id: string, key: TopicRef) {
    source.session.sessionId == id && source.topic == key
  }

  /** The frame gives the topic a generation. */
  predicate Counts(item: SubscriptionItem, id: string, key: TopicRef) {
    || (item.TopicFrame? && Concerns(item.topic.source, id, key))
    || (item.Update? && item.envelope.update.TopicReset? && Concerns(item.envelope.update.source, id, key))
    || (item.Update? && item.envelope.update.TopicChanged? && Concerns(item.envelope.update.topic.source, id, key))
  }

  function GenerationIn(item: SubscriptionItem): nat
    requires item.TopicFrame?
             || (item.Update? && (item.envelope.update.TopicReset? || item.envelope.update.TopicChanged?))
  {
    if item.TopicFrame? then item.topic.generation
    else if item.envelope.update.TopicReset? then item.envelope.update.generation
    else item.envelope.update.topic.generation
  }

  // ---- what a stream has said so far

  /** The i-th frame is the last word on a session that has not ended since. */
  predicate Shows(past: seq<SubscriptionItem>, id: string, i: nat) {
    && i < |past| && Describes(past[i], id)
    && forall j :: i < j < |past| ==> !Describes(past[j], id) && !Ends(past[j], id)
  }

  /** The i-th frame is the last word on the topic's generation in the session as it stands. */
  predicate CountsLast(past: seq<SubscriptionItem>, id: string, key: TopicRef, i: nat) {
    && i < |past| && Counts(past[i], id, key)
    && forall j :: i < j < |past| ==> !Counts(past[j], id, key) && !Starts(past[j], id) && !Ends(past[j], id)
  }

  predicate BeganWith(past: seq<SubscriptionItem>, cursor: ServiceCursor) {
    Begin(cursor) in past
  }

  predicate Readied(past: seq<SubscriptionItem>) {
    exists i :: 0 <= i < |past| && past[i].Ready?
  }

  predicate CursorBelow(item: SubscriptionItem, n: nat) {
    && (item.Begin? ==> item.cursor.sequence < n)
    && (item.Update? ==> item.envelope.cursor.sequence < n)
  }

  predicate AllBelow(past: seq<SubscriptionItem>, n: nat) {
    forall i :: 0 <= i < |past| ==> CursorBelow(past[i], n)
  }

  // ---- the language

  /** A session that the request asks for, in the run that the stream began with. */
  ghost predicate Wanted(selection: Selection, past: seq<SubscriptionItem>, info: SessionInfo) {
    && (exists c :: BeganWith(past, c) && c.runId == info.session.runId)
    && Identifier(info.session.sessionId) && Identifier(info.providerId) && Identifier(info.gameId)
    && (exists t :: t in selection.topics && t.providerId == info.providerId)
    && (selection.sessions == AllSessions || selection.sessions == OneSession(info.session))
  }

  ghost predicate Absent(past: seq<SubscriptionItem>, id: string) {
    forall i: nat :: !Shows(past, id, i)
  }

  /** A selected topic of a session that stands, of its own provider and game. */
  ghost predicate Known(selection: Selection, past: seq<SubscriptionItem>, source: TopicSource) {
    && source.topic in selection.topics
    && exists i: nat :: Shows(past, source.session.sessionId, i) && Owns(InfoIn(past[i]), source)
  }

  predicate Owns(info: SessionInfo, source: TopicSource) {
    info.session == source.session && info.gameId == source.gameId && info.providerId == source.topic.providerId
  }

  ghost predicate Counted(past: seq<SubscriptionItem>, source: TopicSource) {
    exists i: nat :: CountsLast(past, source.session.sessionId, source.topic, i)
  }

  ghost predicate CountedAs(past: seq<SubscriptionItem>, source: TopicSource, generation: nat) {
    exists i: nat :: CountsLast(past, source.session.sessionId, source.topic, i) && GenerationIn(past[i]) == generation
  }

  /** Data only on an available topic, of its source and generation. */
  predicate Carries(topic: TopicSnapshot) {
    topic.snapshot.Some? ==>
      var meta := topic.snapshot.value.metadata;
      && topic.health == Available
      && meta.source == topic.source && meta.generation == topic.generation && 0 < meta.sequence
  }

  /** The topics of a session that are known are exactly the selected ones of its provider. */
  ghost predicate HasAll(selection: Selection, past: seq<SubscriptionItem>, id: string, i: nat)
    requires i < |past| && Describes(past[i], id)
  {
    forall key ::
      (exists j: nat :: CountsLast(past, id, key, j))
      <==> key in selection.topics && key.providerId == InfoIn(past[i]).providerId
  }

  ghost predicate UpdateLawful(selection: Selection, past: seq<SubscriptionItem>, sequence: nat, update: SubscriptionUpdate) {
    match update
    case SessionStarted(info) => Wanted(selection, past, info) && Absent(past, info.session.sessionId)
    case SessionChanged(info) =>
      && Wanted(selection, past, info)
      && exists i: nat :: Shows(past, info.session.sessionId, i)
           && InfoIn(past[i]).providerId == info.providerId && InfoIn(past[i]).gameId == info.gameId
    case SessionEnded(session, _) =>
      exists i: nat :: Shows(past, session.sessionId, i) && InfoIn(past[i]).session == session
    case TopicReset(source, generation, _) =>
      Known(selection, past, source) && exists known: nat :: CountedAs(past, source, known) && known < generation
    case TopicChanged(topic) =>
      && Known(selection, past, topic.source) && topic.generation > 0
      && (Counted(past, topic.source) ==> CountedAs(past, topic.source, topic.generation))
      && Carries(topic) && (topic.snapshot.Some? ==> topic.snapshot.value.metadata.sequence <= sequence)
    case Event(event) =>
      && Known(selection, past, event.metadata.source)
      && CountedAs(past, event.metadata.source, event.metadata.generation)
      && event.metadata.sequence == sequence
  }

  /** The frame may follow these. */
  ghost predicate Lawful(selection: Selection, past: seq<SubscriptionItem>, item: SubscriptionItem) {
    match item
    case Begin(cursor) => (forall c :: !BeganWith(past, c)) && Identifier(cursor.runId)
    case SessionFrame(info) =>
      && (exists c :: BeganWith(past, c)) && !Readied(past)
      && Wanted(selection, past, info) && Absent(past, info.session.sessionId)
    case TopicFrame(topic) =>
      && (exists c :: BeganWith(past, c)) && !Readied(past)
      && Known(selection, past, topic.source) && topic.generation > 0 && !Counted(past, topic.source)
      && Carries(topic) && (topic.snapshot.Some? ==> !AllBelow(past, topic.snapshot.value.metadata.sequence))
    case SnapshotItem(_) => false
    case Ready(cursor) =>
      && BeganWith(past, cursor) && !Readied(past)
      && forall id, i: nat :: Shows(past, id, i) ==> HasAll(selection, past, id, i)
    case Update(envelope) =>
      && Readied(past) && (exists c :: BeganWith(past, c) && c.runId == envelope.cursor.runId)
      && AllBelow(past, envelope.cursor.sequence)
      && UpdateLawful(selection, past, envelope.cursor.sequence, envelope.update)
    case Closed(_) => exists c :: BeganWith(past, c)
  }

  // ---- what the acceptor knows

  ghost predicate TopicMeans(topics: map<TopicRef, nat>, past: seq<SubscriptionItem>, id: string, key: TopicRef) {
    && (key in topics <==> exists i: nat :: CountsLast(past, id, key, i))
    && (forall i: nat :: CountsLast(past, id, key, i) ==> key in topics && topics[key] == GenerationIn(past[i]))
  }

  ghost predicate SessionMeans(sessions: map<string, Seen>, past: seq<SubscriptionItem>, id: string) {
    && (id in sessions <==> exists i: nat :: Shows(past, id, i))
    && (forall i: nat :: Shows(past, id, i) ==> id in sessions && sessions[id].info == InfoIn(past[i]))
    && (id in sessions ==> sessions[id].info.session.sessionId == id && forall key :: TopicMeans(sessions[id].topics, past, id, key))
  }

  predicate Within(v: Validation) {
    && (forall id, key :: id in v.sessions && key in v.sessions[id].topics ==>
          key in v.selection.topics && key.providerId == v.sessions[id].info.providerId)
    && (forall id :: id in v.sessions ==>
          exists t :: t in v.selection.topics && t.providerId == v.sessions[id].info.providerId)
  }

  ghost predicate CursorMeans(v: Validation, past: seq<SubscriptionItem>) {
    && (forall c :: v.checkpoint == Some(c) <==> BeganWith(past, c))
    && (v.checkpoint.Some? ==> forall n: nat :: v.sequence < n <==> AllBelow(past, n))
  }

  ghost predicate Means(v: Validation, selection: Selection, past: seq<SubscriptionItem>) {
    && v.selection == selection && Within(v)
    && (v.ready <==> Readied(past))
    && CursorMeans(v, past)
    && forall id :: SessionMeans(v.sessions, past, id)
  }

  // ---- one frame more

  lemma ShowsMore(past: seq<SubscriptionItem>, item: SubscriptionItem, id: string, i: nat)
    ensures Shows(past + [item], id, i)
            <==> if Describes(item, id) then i == |past| else !Ends(item, id) && Shows(past, id, i)
    ensures i < |past| ==> (past + [item])[i] == past[i]
    ensures (past + [item])[|past|] == item
  {
    var more := past + [item];
    assert more[|past|] == item;
    forall j | 0 <= j < |past| ensures more[j] == past[j] {
    }
    if Shows(more, id, i) && !Describes(item, id) {
      forall j | i < j < |past| ensures !Describes(past[j], id) && !Ends(past[j], id) { assert more[j] == past[j]; }
    }
  }

  lemma CountsMore(past: seq<SubscriptionItem>, item: SubscriptionItem, id: string, key: TopicRef, i: nat)
    ensures CountsLast(past + [item], id, key, i)
            <==> if Counts(item, id, key) then i == |past|
                 else !Starts(item, id) && !Ends(item, id) && CountsLast(past, id, key, i)
    ensures i < |past| ==> (past + [item])[i] == past[i]
    ensures (past + [item])[|past|] == item
  {
    var more := past + [item];
    assert more[|past|] == item;
    forall j | 0 <= j < |past| ensures more[j] == past[j] {
    }
    if CountsLast(more, id, key, i) && !Counts(item, id, key) {
      forall j | i < j < |past| ensures !Counts(past[j], id, key) && !Starts(past[j], id) && !Ends(past[j], id) {
        assert more[j] == past[j];
      }
    }
  }

  lemma TopicStays(topics: map<TopicRef, nat>, past: seq<SubscriptionItem>, item: SubscriptionItem, id: string, key: TopicRef)
    requires TopicMeans(topics, past, id, key)
    requires !Counts(item, id, key) && !Starts(item, id) && !Ends(item, id)
    ensures TopicMeans(topics, past + [item], id, key)
  {
    hide Counts, Starts, Ends;
    forall i: nat ensures CountsLast(past + [item], id, key, i) <==> CountsLast(past, id, key, i)
                  ensures CountsLast(past, id, key, i) ==> i < |past| && (past + [item])[i] == past[i]
    {
      CountsMore(past, item, id, key, i);
    }
  }

  lemma TopicCounts(topics: map<TopicRef, nat>, past: seq<SubscriptionItem>, item: SubscriptionItem, id: string, key: TopicRef)
    requires Counts(item, id, key) && key in topics && topics[key] == GenerationIn(item)
    ensures TopicMeans(topics, past + [item], id, key)
  {
    hide Counts, Starts, Ends;
    forall i: nat ensures CountsLast(past + [item], id, key, i) <==> i == |past| {
      CountsMore(past, item, id, key, i);
    }
    assert (past + [item])[|past|] == item;
    assert CountsLast(past + [item], id, key, |past|);
  }

  lemma TopicFresh(past: seq<SubscriptionItem>, item: SubscriptionItem, id: string, key: TopicRef)
    requires Starts(item, id)
    ensures TopicMeans(map[], past + [item], id, key)
  {
    forall i: nat ensures !CountsLast(past + [item], id, key, i) {
      CountsMore(past, item, id, key, i);
    }
  }

  /** A frame that says nothing of a session leaves what is known of it. */
  lemma SessionStays(before: map<string, Seen>, after: map<string, Seen>, past: seq<SubscriptionItem>, item: SubscriptionItem,
                     id: string)
    requires SessionMeans(before, past, id) && !Describes(item, id) && !Ends(item, id)
    requires forall key :: !Counts(item, id, key)
    requires (id in after <==> id in before) && (id in before ==> after[id] == before[id])
    ensures SessionMeans(after, past + [item], id)
  {
    hide Counts, TopicMeans, Ends;
    forall i: nat ensures Shows(past + [item], id, i) <==> Shows(past, id, i)
                  ensures Shows(past, id, i) ==> i < |past| && (past + [item])[i] == past[i]
    {
      ShowsMore(past, item, id, i);
    }
    if id in before {
      forall key ensures TopicMeans(after[id].topics, past + [item], id, key) {
        TopicStays(before[id].topics, past, item, id, key);
      }
    }
  }

  lemma SessionStarts(before: map<string, Seen>, past: seq<SubscriptionItem>, item: SubscriptionItem, info: SessionInfo)
    requires Starts(item, info.session.sessionId) && InfoIn(item) == info
    ensures SessionMeans(before[info.session.sessionId := Seen(info, map[])], past + [item], info.session.sessionId)
  {
    hide Starts, TopicMeans;
    var id := info.session.sessionId;
    forall i: nat ensures Shows(past + [item], id, i) <==> i == |past| {
      ShowsMore(past, item, id, i);
    }
    assert (past + [item])[|past|] == item && Shows(past + [item], id, |past|);
    forall key ensures TopicMeans(map[], past + [item], id, key) {
      TopicFresh(past, item, id, key);
    }
  }

  lemma SessionEnds(before: map<string, Seen>, past: seq<SubscriptionItem>, item: SubscriptionItem, id: string)
    requires Ends(item, id)
    ensures SessionMeans(before - {id}, past + [item], id)
  {
    forall i: nat ensures !Shows(past + [item], id, i) {
      ShowsMore(past, item, id, i);
    }
  }

  lemma SessionChanges(before: map<string, Seen>, past: seq<SubscriptionItem>, item: SubscriptionItem, info: SessionInfo)
    requires var id := info.session.sessionId; SessionMeans(before, past, id) && id in before
    requires item.Update? && item.envelope.update == SubscriptionUpdate.SessionChanged(info)
    ensures var id := info.session.sessionId; SessionMeans(before[id := before[id].(info := info)], past + [item], id)
  {
    hide TopicMeans;
    var id := info.session.sessionId;
    assert Describes(item, id);
    forall i: nat ensures Shows(past + [item], id, i) <==> i == |past| {
      ShowsMore(past, item, id, i);
    }
    assert (past + [item])[|past|] == item && Shows(past + [item], id, |past|);
    forall key ensures TopicMeans(before[id].topics, past + [item], id, key) {
      TopicStays(before[id].topics, past, item, id, key);
    }
  }

  lemma SessionCounts(before: map<string, Seen>, past: seq<SubscriptionItem>, item: SubscriptionItem, id: string, key: TopicRef)
    requires SessionMeans(before, past, id) && id in before
    requires Counts(item, id, key) && forall other :: other != key ==> !Counts(item, id, other)
    requires !Describes(item, id) && !Ends(item, id)
    ensures SessionMeans(before[id := before[id].(topics := before[id].topics[key := GenerationIn(item)])], past + [item], id)
  {
    var topics := before[id].topics[key := GenerationIn(item)];
    hide Counts, TopicMeans, Ends;
    forall i: nat ensures Shows(past + [item], id, i) <==> Shows(past, id, i)
                  ensures Shows(past, id, i) ==> i < |past| && (past + [item])[i] == past[i]
    {
      ShowsMore(past, item, id, i);
    }
    forall k ensures TopicMeans(topics, past + [item], id, k) {
      if k == key {
        TopicCounts(topics, past, item, id, key);
      } else {
        TopicStays(before[id].topics, past, item, id, k);
        SameTopic(before[id].topics, topics, past + [item], id, k);
      }
    }
  }

  lemma SameTopic(a: map<TopicRef, nat>, b: map<TopicRef, nat>, past: seq<SubscriptionItem>, id: string, key: TopicRef)
    requires TopicMeans(a, past, id, key) && (key in a <==> key in b) && (key in a ==> a[key] == b[key])
    ensures TopicMeans(b, past, id, key)
  {
  }

  // ---- an accepted frame keeps the meaning

  lemma SourcedMeans(v: Validation, past: seq<SubscriptionItem>, item: SubscriptionItem, source: TopicSource)
    requires forall id :: SessionMeans(v.sessions, past, id)
    requires KnownSource(v, source)
    requires Counts(item, source.session.sessionId, source.topic)
    ensures forall id :: SessionMeans(NoteGeneration(v, source, GenerationIn(item)).sessions, past + [item], id)
  {
    hide SessionMeans;
    var w := NoteGeneration(v, source, GenerationIn(item));
    forall id ensures SessionMeans(w.sessions, past + [item], id) {
      if id == source.session.sessionId {
        SessionCounts(v.sessions, past, item, id, source.topic);
      } else {
        SessionStays(v.sessions, w.sessions, past, item, id);
      }
    }
  }

  lemma SessionsMean(v: Validation, w: Validation, past: seq<SubscriptionItem>, item: SubscriptionItem)
    requires forall id :: SessionMeans(v.sessions, past, id)
    requires Admit(v, item) == Ok(w)
    ensures forall id :: SessionMeans(w.sessions, past + [item], id)
  {
    hide SessionMeans, SnapshotMatches, Selected, Complete;
    match item
    case TopicFrame(topic) =>
      assert w == NoteGeneration(v, topic.source, GenerationIn(item));
      SourcedMeans(v, past, item, topic.source);
    case SessionFrame(info) => StartedMeans(v, w, past, item, info);
    case Update(envelope) =>
      var u := v.(sequence := envelope.cursor.sequence);
      match envelope.update {
        case TopicReset(source, _, _) =>
          assert w == NoteGeneration(u, source, GenerationIn(item));
          SourcedMeans(u, past, item, source);
        case TopicChanged(topic) =>
          assert w == NoteGeneration(u, topic.source, GenerationIn(item));
          SourcedMeans(u, past, item, topic.source);
        case SessionStarted(info) => StartedMeans(u, w, past, item, info);
        case SessionChanged(info) =>
          forall id ensures SessionMeans(w.sessions, past + [item], id) {
            if id == info.session.sessionId { SessionChanges(v.sessions, past, item, info); }
            else { SessionStays(v.sessions, w.sessions, past, item, id); }
          }
        case SessionEnded(session, _) =>
          forall id ensures SessionMeans(w.sessions, past + [item], id) {
            if id == session.sessionId { SessionEnds(v.sessions, past, item, id); }
            else { SessionStays(v.sessions, w.sessions, past, item, id); }
          }
        case Event(_) =>
          forall id ensures SessionMeans(w.sessions, past + [item], id) {
            SessionStays(v.sessions, w.sessions, past, item, id);
          }
      }
    case SnapshotItem(_) =>
    case _ => QuietMeans(v, w, past, item);
  }

  lemma QuietMeans(v: Validation, w: Validation, past: seq<SubscriptionItem>, item: SubscriptionItem)
    requires forall id :: SessionMeans(v.sessions, past, id)
    requires w.sessions == v.sessions && (item.Begin? || item.Ready? || item.Closed?)
    ensures forall id :: SessionMeans(w.sessions, past + [item], id)
  {
    hide SessionMeans;
    forall id ensures SessionMeans(w.sessions, past + [item], id) {
      SessionStays(v.sessions, w.sessions, past, item, id);
    }
  }

  lemma StartedMeans(v: Validation, w: Validation, past: seq<SubscriptionItem>, item: SubscriptionItem, info: SessionInfo)
    requires forall id :: SessionMeans(v.sessions, past, id)
    requires Starts(item, info.session.sessionId) && InfoIn(item) == info
    requires w.sessions == v.sessions[info.session.sessionId := Seen(info, map[])]
    ensures forall id :: SessionMeans(w.sessions, past + [item], id)
  {
    hide SessionMeans;
    forall id ensures SessionMeans(w.sessions, past + [item], id) {
      if id == info.session.sessionId { SessionStarts(v.sessions, past, item, info); }
      else { SessionStays(v.sessions, w.sessions, past, item, id); }
    }
  }

  lemma BelowMore(past: seq<SubscriptionItem>, item: SubscriptionItem)
    ensures forall n: nat :: AllBelow(past + [item], n) <==> AllBelow(past, n) && CursorBelow(item, n)
    ensures forall c :: BeganWith(past + [item], c) <==> BeganWith(past, c) || item == Begin(c)
    ensures Readied(past + [item]) <==> Readied(past) || item.Ready?
  {
    var more := past + [item];
    assert more[|past|] == item;
    assert forall j :: 0 <= j < |past| ==> more[j] == past[j];
    forall n: nat ensures AllBelow(more, n) <==> AllBelow(past, n) && CursorBelow(item, n) {
      if AllBelow(more, n) {
        assert CursorBelow(more[|past|], n);
        forall j | 0 <= j < |past| ensures CursorBelow(past[j], n) { assert more[j] == past[j]; }
      }
    }
    if Readied(past) {
      var i :| 0 <= i < |past| && past[i].Ready?;
      assert more[i].Ready?;
    }
  }

  lemma NothingBegan(past: seq<SubscriptionItem>, v: Validation, selection: Selection)
    requires AdmitAll(selection, past) == Ok(v) && v.checkpoint.None?
    ensures past == []
  {
    if past != [] {
      var front := past[..|past| - 1];
      NothingBegan(front, AdmitAll(selection, front).value, selection);
    }
  }

  lemma CursorsMean(v: Validation, w: Validation, past: seq<SubscriptionItem>, item: SubscriptionItem)
    requires CursorMeans(v, past) && Admit(v, item) == Ok(w) && (v.checkpoint.None? ==> past == [])
    ensures CursorMeans(w, past + [item])
  {
    hide AddSession, AcceptTopic, Complete, AllBelow;
    BelowMore(past, item);
    Cursors(v, w, item);
    if v.checkpoint.None? {
      assert forall n: nat :: AllBelow([], n) by { NoneBelow(); }
    }
  }

  lemma NoneBelow()
    ensures forall n: nat :: AllBelow([], n)
  {
  }

  /** What an accepted frame does to the cursor. */
  lemma Cursors(v: Validation, w: Validation, item: SubscriptionItem)
    requires Admit(v, item) == Ok(w)
    ensures w.selection == v.selection
    ensures w.checkpoint == if item.Begin? then Some(item.cursor) else v.checkpoint
    ensures item.Begin? ==> v.checkpoint.None?
    ensures !item.Begin? ==> v.checkpoint.Some?
    ensures item.Update? ==> v.sequence < w.sequence
    ensures w.sequence == (if item.Begin? then item.cursor.sequence else if item.Update? then item.envelope.cursor.sequence
                           else v.sequence)
    ensures w.ready <==> v.ready || item.Ready?
  {
    hide Complete, SnapshotMatches;
  }

  lemma StaysWithin(v: Validation, w: Validation, item: SubscriptionItem)
    requires Within(v) && Admit(v, item) == Ok(w)
    ensures Within(w)
  {
    hide Complete, SnapshotMatches, Within, KnownSource, Selected;
    match item
    case SessionFrame(info) => EntryWithin(v, w, info);
    case TopicFrame(topic) => NoteWithin(v, topic.source, topic.generation);
    case Update(envelope) =>
      var u := v.(sequence := envelope.cursor.sequence);
      SameWithin(v, u);
      UpdateWithin(u, w, envelope.update);
    case _ => SameWithin(v, w);
  }

  lemma SameWithin(v: Validation, w: Validation)
    requires Within(v) && w.sessions == v.sessions && w.selection == v.selection
    ensures Within(w)
  {
  }

  lemma EntryWithin(v: Validation, w: Validation, info: SessionInfo)
    requires Within(v) && ClientValidation.AddSession(v, info) == Ok(w)
    ensures Within(w)
  {
  }

  lemma NoteWithin(v: Validation, source: TopicSource, generation: nat)
    requires Within(v) && KnownSource(v, source)
    ensures Within(NoteGeneration(v, source, generation))
  {
  }

  lemma UpdateWithin(v: Validation, w: Validation, update: SubscriptionUpdate)
    requires Within(v) && AcceptUpdate(v, update) == Ok(w)
    ensures Within(w)
  {
    hide SnapshotMatches, KnownSource, Within;
    match update
    case SessionStarted(info) => EntryWithin(v, w, info);
    case SessionChanged(info) => ChangeWithin(v, info);
    case SessionEnded(session, _) => EndWithin(v, session.sessionId);
    case TopicReset(source, generation, _) => NoteWithin(v, source, generation);
    case TopicChanged(topic) => NoteWithin(v, topic.source, topic.generation);
    case Event(_) =>
  }

  lemma ChangeWithin(v: Validation, info: SessionInfo)
    requires Within(v) && info.session.sessionId in v.sessions
    requires v.sessions[info.session.sessionId].info.providerId == info.providerId
    ensures var id := info.session.sessionId;
            Within(v.(sessions := v.sessions[id := v.sessions[id].(info := info)]))
  {
  }

  lemma EndWithin(v: Validation, id: string)
    requires Within(v)
    ensures Within(v.(sessions := v.sessions - {id}))
  {
  }

  lemma MeansMore(v: Validation, w: Validation, selection: Selection, past: seq<SubscriptionItem>, item: SubscriptionItem)
    requires Means(v, selection, past) && Admit(v, item) == Ok(w) && (v.checkpoint.None? ==> past == [])
    ensures Means(w, selection, past + [item])
  {
    hide SessionMeans, CursorMeans, Within, Admit, Readied;
    SessionsMean(v, w, past, item);
    CursorsMean(v, w, past, item);
    Cursors(v, w, item);
    StaysWithin(v, w, item);
    BelowMore(past, item);
  }

  /** What the acceptor knows of an admitted stream is what the stream says. */
  lemma {:induction false} AdmittedMeans(selection: Selection, items: seq<SubscriptionItem>, v: Validation)
    requires AdmitAll(selection, items) == Ok(v)
    ensures Means(v, selection, items)
    decreases |items|
  {
    if items == [] {
      FreshMeans(selection);
    } else {
      hide Means, Admit;
      var front := items[..|items| - 1];
      var before := AdmitAll(selection, front).value;
      AdmittedMeans(selection, front, before);
      if before.checkpoint.None? { NothingBegan(front, before, selection); }
      MeansMore(before, v, selection, front, items[|items| - 1]);
      assert items == front + [items[|items| - 1]];
    }
  }

  lemma FreshMeans(selection: Selection)
    ensures Means(Fresh(selection), selection, [])
  {
    forall id ensures SessionMeans(map[], [], id) {
      forall i: nat ensures !Shows([], id, i) {
      }
    }
  }

  // ---- each frame is judged by its past

  lemma KnownIff(v: Validation, selection: Selection, past: seq<SubscriptionItem>, source: TopicSource)
    requires Means(v, selection, past)
    ensures KnownSource(v, source) <==> Known(selection, past, source)
  {
    assert SessionMeans(v.sessions, past, source.session.sessionId);
  }

  lemma WantedIff(v: Validation, selection: Selection, past: seq<SubscriptionItem>, info: SessionInfo)
    requires Means(v, selection, past)
    ensures Selected(v, info) <==> Wanted(selection, past, info)
    ensures info.session.sessionId !in v.sessions <==> Absent(past, info.session.sessionId)
  {
    assert SessionMeans(v.sessions, past, info.session.sessionId);
  }

  lemma CountedIff(v: Validation, selection: Selection, past: seq<SubscriptionItem>, source: TopicSource)
    requires Means(v, selection, past) && source.session.sessionId in v.sessions
    ensures var topics := v.sessions[source.session.sessionId].topics;
            && (source.topic in topics <==> Counted(past, source))
            && forall n: nat :: source.topic in topics && topics[source.topic] == n <==> CountedAs(past, source, n)
  {
    assert SessionMeans(v.sessions, past, source.session.sessionId);
    assert TopicMeans(v.sessions[source.session.sessionId].topics, past, source.session.sessionId, source.topic);
  }

  lemma TopicIff(v: Validation, selection: Selection, past: seq<SubscriptionItem>, topic: TopicSnapshot, bootstrap: bool)
    requires Means(v, selection, past)
    ensures (exists w :: AcceptTopic(v, topic, bootstrap) == Ok(w))
            <==> && Known(selection, past, topic.source) && topic.generation > 0
                 && (Counted(past, topic.source) ==> !bootstrap && CountedAs(past, topic.source, topic.generation))
                 && Carries(topic) && (topic.snapshot.Some? ==> topic.snapshot.value.metadata.sequence <= v.sequence)
  {
    hide Means, Known, Counted, CountedAs;
    KnownIff(v, selection, past, topic.source);
    if KnownSource(v, topic.source) {
      CountedIff(v, selection, past, topic.source);
    }
    if AcceptTopic(v, topic, bootstrap).Ok? {
      assert AcceptTopic(v, topic, bootstrap) == Ok(AcceptTopic(v, topic, bootstrap).value);
    }
  }

  lemma SameCount<K>(a: set<K>, b: set<K>)
    requires a <= b
    ensures |a| == |b| <==> a == b
  {
    assert |b| == |a| + |b - a| by { assert b == a + (b - a); }
  }

  lemma CompleteIff(v: Validation, selection: Selection, past: seq<SubscriptionItem>, id: string, i: nat)
    requires Means(v, selection, past) && Shows(past, id, i)
    ensures id in v.sessions && (Complete(v, id) <==> HasAll(selection, past, id, i))
  {
    assert SessionMeans(v.sessions, past, id);
    var seen := v.sessions[id];
    var wanted := set t | t in selection.topics && t.providerId == seen.info.providerId;
    assert seen.topics.Keys <= wanted;
    SameCount(seen.topics.Keys, wanted);
    forall key ensures key in seen.topics <==> exists j: nat :: CountsLast(past, id, key, j) {
      assert TopicMeans(seen.topics, past, id, key);
    }
    if HasAll(selection, past, id, i) {
      forall key ensures key in seen.topics.Keys <==> key in wanted {
        assert key in seen.topics <==> exists j: nat :: CountsLast(past, id, key, j);
      }
    }
    if Complete(v, id) {
      forall key
        ensures (exists j: nat :: CountsLast(past, id, key, j))
                <==> key in selection.topics && key.providerId == InfoIn(past[i]).providerId
      {
        assert key in seen.topics <==> key in wanted;
      }
    }
  }

  lemma AllCompleteIff(v: Validation, selection: Selection, past: seq<SubscriptionItem>)
    requires Means(v, selection, past)
    ensures (forall id :: id in v.sessions ==> Complete(v, id))
            <==> forall id, i: nat :: Shows(past, id, i) ==> HasAll(selection, past, id, i)
  {
    hide Complete, HasAll;
    forall id, i: nat | Shows(past, id, i) ensures id in v.sessions && (Complete(v, id) <==> HasAll(selection, past, id, i)) {
      CompleteIff(v, selection, past, id, i);
    }
    forall id | id in v.sessions ensures exists i: nat :: Shows(past, id, i) {
      assert SessionMeans(v.sessions, past, id);
    }
  }

  lemma MeansLater(v: Validation, selection: Selection, past: seq<SubscriptionItem>, sequence: nat)
    requires Means(v, selection, past)
    ensures var u := v.(sequence := sequence);
            && (forall info :: Selected(u, info) == Selected(v, info))
            && (forall source :: KnownSource(u, source) == KnownSource(v, source))
  {
  }

  lemma EndIff(v: Validation, selection: Selection, past: seq<SubscriptionItem>, session: SessionRef)
    requires Means(v, selection, past)
    ensures (session.sessionId in v.sessions && v.sessions[session.sessionId].info.session == session)
            <==> exists i: nat :: Shows(past, session.sessionId, i) && InfoIn(past[i]).session == session
  {
    assert SessionMeans(v.sessions, past, session.sessionId);
  }

  lemma ChangeIff(v: Validation, selection: Selection, past: seq<SubscriptionItem>, info: SessionInfo)
    requires Means(v, selection, past)
    ensures (&& info.session.sessionId in v.sessions
             && v.sessions[info.session.sessionId].info.providerId == info.providerId
             && v.sessions[info.session.sessionId].info.gameId == info.gameId)
            <==> exists i: nat :: Shows(past, info.session.sessionId, i)
                   && InfoIn(past[i]).providerId == info.providerId && InfoIn(past[i]).gameId == info.gameId
  {
    assert SessionMeans(v.sessions, past, info.session.sessionId);
  }

  /** A live update, at the cursor that its frame moves the stream to. */
  lemma UpdateIff(v: Validation, u: Validation, selection: Selection, past: seq<SubscriptionItem>, sequence: nat,
                  update: SubscriptionUpdate)
    requires Means(v, selection, past) && u == v.(sequence := sequence)
    ensures AcceptUpdate(u, update).Ok? <==> UpdateLawful(selection, past, sequence, update)
  {
    hide Means, Known, Wanted, Absent, Counted, CountedAs, Shows, Selected, KnownSource, Carries;
    MeansLater(v, selection, past, sequence);
    match update
    case SessionStarted(info) => WantedIff(v, selection, past, info);
    case SessionChanged(info) =>
      WantedIff(v, selection, past, info);
      ChangeIff(v, selection, past, info);
    case SessionEnded(session, _) => EndIff(v, selection, past, session);
    case TopicReset(source, generation, _) =>
      KnownIff(v, selection, past, source);
      if KnownSource(v, source) {
        KnownIn(v, source);
        CountedIff(v, selection, past, source);
        var topics := v.sessions[source.session.sessionId].topics;
        if source.topic in topics { assert CountedAs(past, source, topics[source.topic]); }
      }
    case TopicChanged(topic) => LiveTopicIff(v, u, selection, past, sequence, topic);
    case Event(event) =>
      KnownIff(v, selection, past, event.metadata.source);
      if KnownSource(v, event.metadata.source) {
        KnownIn(v, event.metadata.source);
        CountedIff(v, selection, past, event.metadata.source);
      }
  }

  lemma KnownIn(v: Validation, source: TopicSource)
    requires KnownSource(v, source)
    ensures source.session.sessionId in v.sessions
  {
  }

  lemma LiveTopicIff(v: Validation, u: Validation, selection: Selection, past: seq<SubscriptionItem>, sequence: nat,
                     topic: TopicSnapshot)
    requires Means(v, selection, past) && u == v.(sequence := sequence)
    ensures AcceptTopic(u, topic, false).Ok?
            <==> && Known(selection, past, topic.source) && topic.generation > 0
                 && (Counted(past, topic.source) ==> CountedAs(past, topic.source, topic.generation))
                 && Carries(topic) && (topic.snapshot.Some? ==> topic.snapshot.value.metadata.sequence <= sequence)
  {
    hide Means, Known, Counted, CountedAs;
    MeansLater(v, selection, past, sequence);
    KnownIff(v, selection, past, topic.source);
    if KnownSource(v, topic.source) {
      CountedIff(v, selection, past, topic.source);
    }
  }

  lemma BootTopicIff(v: Validation, selection: Selection, past: seq<SubscriptionItem>, topic: TopicSnapshot)
    requires Means(v, selection, past) && v.checkpoint.Some?
    ensures AcceptTopic(v, topic, true).Ok?
            <==> && Known(selection, past, topic.source) && topic.generation > 0 && !Counted(past, topic.source)
                 && Carries(topic) && (topic.snapshot.Some? ==> !AllBelow(past, topic.snapshot.value.metadata.sequence))
  {
    KnownIff(v, selection, past, topic.source);
    if KnownSource(v, topic.source) {
      CountedIff(v, selection, past, topic.source);
    }
    hide SessionMeans, Known, Counted;
  }

  lemma ItemIff(v: Validation, selection: Selection, past: seq<SubscriptionItem>, item: SubscriptionItem)
    requires Means(v, selection, past)
    ensures Admit(v, item).Ok? <==> Lawful(selection, past, item)
  {
    hide SessionMeans, Known, Counted, Wanted, Absent, Complete, HasAll, AcceptTopic, AcceptUpdate, UpdateLawful, Shows,
         Within, Selected, Readied, Carries;
    match item
    case SessionFrame(info) => WantedIff(v, selection, past, info);
    case TopicFrame(topic) => if v.checkpoint.Some? { BootTopicIff(v, selection, past, topic); }
    case Ready(cursor) => AllCompleteIff(v, selection, past);
    case Update(envelope) =>
      UpdateIff(v, v.(sequence := envelope.cursor.sequence), selection, past, envelope.cursor.sequence, envelope.update);
    case _ =>
  }

  /** The law of the acceptor, for every selection and every sequence of frames whatever: it
      admits a stream exactly when each frame is lawful after those before it. */
  lemma {:induction false} AdmittedIffLawful(selection: Selection, items: seq<SubscriptionItem>)
    ensures AdmitAll(selection, items).Ok?
            <==> forall i: nat :: i < |items| ==> Lawful(selection, items[..i], items[i])
    decreases |items|
  {
    hide Lawful, Admit;
    if items != [] {
      var front, last := items[..|items| - 1], items[|items| - 1];
      AdmittedIffLawful(selection, front);
      forall i: nat | i < |front| ensures front[..i] == items[..i] && front[i] == items[i] {
      }
      if AdmitAll(selection, front).Ok? {
        var v := AdmitAll(selection, front).value;
        AdmittedMeans(selection, front, v);
        ItemIff(v, selection, front, last);
      }
    }
  }

  // ---- the replica of one topic

  /** Validator and replica stay together along a whole stream of one topic. */
  lemma {:induction false} StreamConsistent(selection: Selection, key: TopicRef, items: seq<SubscriptionItem>, v: Validation)
    requires selection.topics == {key} && AdmitAll(selection, items) == Ok(v)
    ensures Feeds.Consistent(v, FoldAll(items).state, key) && v.selection == selection
    decreases |items|
  {
    hide Feeds.Consistent, Admit, FoldItem;
    if items == [] {
      NothingConsistent(selection, key);
    } else {
      var front, last := items[..|items| - 1], items[|items| - 1];
      var before := AdmitAll(selection, front).value;
      StreamConsistent(selection, key, front, before);
      Feeds.ItemConsistent(before, FoldAll(front), key, last, v);
    }
  }

  lemma NothingConsistent(selection: Selection, key: TopicRef)
    ensures Feeds.Consistent(Fresh(selection), NOTHING, key)
  {
  }

  /** Once a stream of one topic is ready, the replica shows that topic of every session of the
      bootstrap, in the generation that the stream last gave it. */
  lemma ReadyShowsTopic(selection: Selection, key: TopicRef, items: seq<SubscriptionItem>, r: nat, id: string, i: nat)
    requires selection.topics == {key} && AdmitAll(selection, items).Ok? && r < |items| && items[r].Ready?
    requires Shows(items[..r], id, i)
    ensures var session := InfoIn(items[i]).session;
            var topics := FoldAll(items[..r]).state.topics;
            session in topics && CountedAs(items[..r], topics[session].source, topics[session].generation)
    ensures items[i] == items[..r][i]
  {
    var past := items[..r];
    AdmitPrefix(selection, items, r);
    AdmitPrefix(selection, items, r + 1);
    var v := AdmitAll(selection, past).value;
    assert items[..r + 1][..r] == past;
    assert Admit(v, items[r]).Ok?;
    ReadyShows(selection, key, past, v, items[r], id, i);
  }

  lemma ReadyShows(selection: Selection, key: TopicRef, past: seq<SubscriptionItem>, v: Validation, ready: SubscriptionItem,
                   id: string, i: nat)
    requires selection.topics == {key} && AdmitAll(selection, past) == Ok(v) && Admit(v, ready).Ok? && ready.Ready?
    requires Shows(past, id, i)
    ensures var session := InfoIn(past[i]).session;
            var topics := FoldAll(past).state.topics;
            session in topics && CountedAs(past, topics[session].source, topics[session].generation)
  {
    hide AdmitAll, FoldAll, HasAll, Within, CursorMeans, Readied;
    AdmittedMeans(selection, past, v);
    StreamConsistent(selection, key, past, v);
    ShownKnows(selection, key, past, v, ready, id, i);
    var session := InfoIn(past[i]).session;
    assert Feeds.ConsistentAt(v, FoldAll(past).state, key, session);
    CountedIff(v, selection, past, FoldAll(past).state.topics[session].source);
  }

  lemma ShownKnows(selection: Selection, key: TopicRef, past: seq<SubscriptionItem>, v: Validation, ready: SubscriptionItem,
                   id: string, i: nat)
    requires selection.topics == {key} && Means(v, selection, past) && Admit(v, ready).Ok? && ready.Ready?
    requires Shows(past, id, i)
    ensures id in v.sessions && v.sessions[id].info == InfoIn(past[i]) && key in v.sessions[id].topics
    ensures v.sessions[id].info.session.sessionId == id
  {
    hide CountsLast, Shows;
    assert SessionMeans(v.sessions, past, id);
    var seen := v.sessions[id];
    var wanted := set t | t in v.selection.topics && t.providerId == seen.info.providerId;
    assert key in wanted;
    assert Complete(v, id);
    SameCount(seen.topics.Keys, wanted);
  }
}
