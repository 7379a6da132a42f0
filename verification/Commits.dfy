/** Committing a poll is a transaction on the whole service. */
module Commits {
  import opened Wire
  import opened Ordering
  import opened ClientValidation
  import opened Views
  import opened Service
  import opened Streams
  import opened PollBatch
  import opened Publication
  import opened Invariant
  import opened Sweeps
  import opened Retention
  import opened Settling
  import opened SessionSync
  import opened StagingProofs
  import opened Committing
  import opened Transactions
  import opened FoldedStaging

  /** What the host promises of a poll: the batch was built against the manifest of
      the registered provider that runs the session, and publishes only the given texts. */
  ghost predicate HonestPoll(s: State, sessionId: string, batch: Pending, manifest: Manifest,
                             texts: set<JsonPayload>)
  {
    && WellFormed(batch, manifest)
    && (forall op :: op in batch.ops ==> PayloadFrom(op, texts))
    && manifest.id in s.catalog && s.catalog[manifest.id] == manifest.capabilities
    && (sessionId in s.sessions ==> s.sessions[sessionId].info.providerId == manifest.id)
  }

  lemma CurrentStageable(s: State, ticket: PollTicket, manifest: Manifest, texts: set<JsonPayload>)
    requires StateOk(s) && Cached(s, texts) && Current(s, ticket)
    requires manifest.id in s.catalog && s.catalog[manifest.id] == manifest.capabilities
    requires s.sessions[ticket.sessionId].info.providerId == manifest.id
    ensures Stageable(s.sessions[ticket.sessionId], ticket, manifest, texts)
  {
    var session := s.sessions[ticket.sessionId];
    forall k | k in ticket.topics && k in session.topics
               && CapabilityKey(k.topic, k.schemaVersion) in manifest.capabilities
      ensures StagedTopicOk(session.topics[k], session.topics[k], false,
                            manifest.capabilities[CapabilityKey(k.topic, k.schemaVersion)], texts)
    {
      var p := Place(ticket.sessionId, k);
      assert Placed(s.sessions, p) && At(s.sessions, p) == session.topics[k];
      ShapeAt(s.sessions, s.catalog, s.runId, p);
    }
  }

  /** A vetted poll is a plan for the transaction. */
  lemma VettedPlan(s: State, ticket: PollTicket, batch: Pending, manifest: Manifest, deadline: nat, st: Staged,
                   texts: set<JsonPayload>)
    requires StateOk(s) && Cached(s, texts) && !s.stopped && Current(s, ticket)
    requires HonestPoll(s, ticket.sessionId, batch, manifest, texts)
    requires Vet(s, ticket, batch, deadline) == Ok(st)
    ensures Plan(s, ticket.sessionId, st, manifest, texts) && st.resets == batch.resets
  {
    CurrentStageable(s, ticket, manifest, texts);
    Vetted(s, ticket, batch, deadline);
    PrepareKeeps(s.sessions[ticket.sessionId], ticket, batch.ops, deadline, manifest, texts);
  }

  lemma PreparedReinfo(session: Session, build: Option<string>, st: Staged, manifest: Manifest,
                       texts: set<JsonPayload>)
    requires Prepared(session, st, manifest, texts)
    ensures Prepared(session.(info := session.info.(gameBuild := build)), st, manifest, texts)
  {
    forall k | k in st.topics
      ensures PreparedAt(session.(info := session.info.(gameBuild := build)), st, manifest, texts, k)
    {
      assert PreparedAt(session, st, manifest, texts, k);
    }
  }

  lemma PlanRefreshed(s: State, t: State, id: string, batch: Pending, st: Staged, manifest: Manifest,
                      texts: set<JsonPayload>)
    requires Plan(s, id, st, manifest, texts) && Refreshed(s, t, id, batch, texts)
    ensures Plan(t, id, st, manifest, texts)
  {
    PreparedReinfo(s.sessions[id], batch.gameBuild, st, manifest, texts);
    forall k | k in st.topics ensures AdmitTopic(t, k, st.topics[k]).None? {
      AdmitTopicLater(s, t, k, st.topics[k]);
    }
  }

  lemma ReinfoRetains(sessions: Sessions, id: string, build: Option<string>)
    requires id in sessions
    ensures Retained(Reinfo(sessions, id, build)) == Retained(sessions)
  {
    var keys := TopicsInOrder({});
    assert keys == [];
    RetainedReplaces(sessions, Reinfo(sessions, id, build), id, map[]);
  }

  /** The state of the service between the transaction and settling. */
  function Landed(s: State, ticket: PollTicket, batch: Pending, st: Staged): State
    requires ticket.sessionId in s.sessions && StagedOk(st)
  {
    CommitStaged(CommitMetadata(s, ticket.sessionId, batch), ticket.sessionId, st)
  }

  /** What a landed poll leaves, in terms of the state before it. */
  ghost predicate LandedPoll(s: State, t: State, id: string, batch: Pending, st: Staged)
    requires id in s.sessions
  {
    && t == s.(sequence := t.sequence, channels := t.channels, sessions := t.sessions)
    && s.sequence <= t.sequence <= s.sequence + Reserve(s.sessions[id], batch, st)
    && t.sessions.Keys == s.sessions.Keys
    && (forall n :: n in s.sessions && n != id ==> t.sessions[n] == s.sessions[n])
    && t.sessions[id].info == s.sessions[id].info.(gameBuild := batch.gameBuild)
    && t.sessions[id].topics.Keys == s.sessions[id].topics.Keys
    && (forall k :: k in s.sessions[id].topics ==>
          LandedAt(s.sessions[id].topics[k], st, k, true, t.sessions[id].topics[k]))
  }

  lemma LandedJoin(s: State, mid: State, t: State, id: string, batch: Pending, st: Staged)
    requires id in s.sessions
    requires mid == s.(sequence := s.sequence + |MetadataUpdate(s.sessions[id], batch)|, channels := mid.channels,
                       sessions := Reinfo(s.sessions, id, batch.gameBuild))
    requires Transacted(mid, t, id, st)
    ensures LandedPoll(s, t, id, batch, st)
  {
  }

  lemma LandedSteady(s: State, mid: State, t: State, ticket: PollTicket, batch: Pending, manifest: Manifest,
                     deadline: nat, st: Staged, texts: set<JsonPayload>)
    requires ticket.sessionId in s.sessions && Vet(s, ticket, batch, deadline) == Ok(st)
    requires Refreshed(s, mid, ticket.sessionId, batch, texts)
    requires Plan(mid, ticket.sessionId, st, manifest, texts)
    requires Room(mid, |st.resets| + |st.topics| + |st.events|)
    requires t == CommitStaged(mid, ticket.sessionId, st)
    ensures Steady(t, texts) && Transacted(mid, t, ticket.sessionId, st)
  {
    hide Plan, Prepare, Validate, Synced, StateOk, Cached, CommitStaged, Retained;
    var id := ticket.sessionId;
    StagedLands(mid, id, st, manifest, texts);
    TransactedCached(mid, t, id, st, manifest, texts);
    Vetted(s, ticket, batch, deadline);
    ReinfoRetains(s.sessions, id, batch.gameBuild);
    forall k | k in st.topics ensures k in mid.sessions[id].topics {
      PlanAt(mid, id, st, manifest, texts, k);
    }
    TransactedBounded(mid, t, id, st);
  }

  /** A vetted poll with room lands as a whole, and every client follows. */
  lemma PollLands(s: State, ticket: PollTicket, batch: Pending, manifest: Manifest, deadline: nat, st: Staged,
                  texts: set<JsonPayload>)
    requires Steady(s, texts) && !s.stopped && Current(s, ticket)
    requires HonestPoll(s, ticket.sessionId, batch, manifest, texts)
    requires Vet(s, ticket, batch, deadline) == Ok(st) && StagedOk(st)
    requires Room(s, Reserve(s.sessions[ticket.sessionId], batch, st))
    ensures var t := Landed(s, ticket, batch, st);
            Steady(t, texts) && LandedPoll(s, t, ticket.sessionId, batch, st)
  {
    var id := ticket.sessionId;
    VettedPlan(s, ticket, batch, manifest, deadline, st, texts);
    var mid := CommitMetadata(s, id, batch);
    MetadataKeeps(s, mid, id, batch, texts);
    PlanRefreshed(s, mid, id, batch, st, manifest, texts);
    var t := Landed(s, ticket, batch, st);
    LandedSteady(s, mid, t, ticket, batch, manifest, deadline, st, texts);
    LandedJoin(s, mid, t, id, batch, st);
  }

  /** The staged topics whose published state a commit changes. */
  ghost function NewsOf(session: Session, st: Staged): set<TopicRef> {
    ChangedAmong(session, st, TopicsInOrder(st.topics.Keys))
  }

  lemma NewsAfterRefresh(session: Session, build: Option<string>, st: Staged)
    ensures NewsOf(session.(info := session.info.(gameBuild := build)), st) == NewsOf(session, st)
  {
  }

  /** A landed poll has used exactly one sequence number for each update it published: new
      metadata, each reset, each topic whose state changed, and each surviving event. */
  lemma PollUsesExactly(s: State, ticket: PollTicket, batch: Pending, manifest: Manifest, deadline: nat, st: Staged,
                        texts: set<JsonPayload>)
    requires Steady(s, texts) && !s.stopped && Current(s, ticket)
    requires HonestPoll(s, ticket.sessionId, batch, manifest, texts)
    requires Vet(s, ticket, batch, deadline) == Ok(st) && StagedOk(st)
    requires Room(s, Reserve(s.sessions[ticket.sessionId], batch, st))
    ensures var session := s.sessions[ticket.sessionId];
            Landed(s, ticket, batch, st).sequence
            == s.sequence + |MetadataUpdate(session, batch)| + |st.resets| + |NewsOf(session, st)| + |st.events|
  {
    var id := ticket.sessionId;
    VettedPlan(s, ticket, batch, manifest, deadline, st, texts);
    var mid := CommitMetadata(s, id, batch);
    MetadataKeeps(s, mid, id, batch, texts);
    PlanRefreshed(s, mid, id, batch, st, manifest, texts);
    StagedUses(mid, id, st, manifest, texts);
    NewsAfterRefresh(s.sessions[id], batch.gameBuild, st);
  }

  // ---- the transaction theorem

  lemma LandedSettles(s: State, t: State, id: string, batch: Pending, st: Staged, now: nat, texts: set<JsonPayload>)
    requires id in s.sessions && AllActive(s) && Steady(t, texts) && LandedPoll(s, t, id, batch, st)
    ensures Inv(Settle(t, now), texts)
  {
    assert AllActive(t);
    SettleInv(t, now, texts);
  }

  lemma ClosedInv(s: State, texts: set<JsonPayload>)
    requires Inv(s, texts)
    ensures Inv(Close(s, EXHAUSTED), texts)
  {
    CloseSteady(s, EXHAUSTED, Public(s.sessions), texts);
  }

  /** How a commit ends. */
  datatype Outcome = Refused | Stale | RanOut | Committed(st: Staged)

  function OutcomeOf(s: State, ticket: PollTicket, batch: Pending, deadline: nat): Outcome {
    if batch.failed then Refused
    else if s.stopped || !Current(s, ticket) then Stale
    else if ResetExhausts(s.sessions[ticket.sessionId], batch.ops) then RanOut
    else
      var vetted := Vet(s, ticket, batch, deadline);
      if vetted.Err? then Refused
      else if !Room(s, Reserve(s.sessions[ticket.sessionId], batch, vetted.value)) then RanOut
      else Committed(vetted.value)
  }

  lemma OutcomeCases(s: State, ticket: PollTicket, batch: Pending, deadline: nat, now: nat)
    ensures var (t, verdict) := CommitPoll(s, ticket, batch, deadline, now);
            match OutcomeOf(s, ticket, batch, deadline)
            case Refused => verdict.Err? && t == s
            case Stale => verdict == Ok(false) && t == s
            case RanOut => verdict == Ok(false) && t == Close(s, EXHAUSTED)
            case Committed(st) =>
              && verdict == Ok(true)
              && Current(s, ticket) && !s.stopped
              && Vet(s, ticket, batch, deadline) == Ok(st) && StagedOk(st)
              && Room(s, Reserve(s.sessions[ticket.sessionId], batch, st))
              && t == Settle(Landed(s, ticket, batch, st), now)
  {
    hide Settle, CommitStaged, CommitMetadata, Close, Validate, Prepare, ResetExhausts;
    if OutcomeOf(s, ticket, batch, deadline).Committed? {
      PrepareOk(s.sessions[ticket.sessionId], ticket, batch.ops, deadline);
    }
  }

  /** A commit keeps the invariant whichever way it ends. */
  lemma CommitInv(s: State, ticket: PollTicket, batch: Pending, manifest: Manifest, deadline: nat, now: nat,
                  texts: set<JsonPayload>)
    requires Inv(s, texts) && HonestPoll(s, ticket.sessionId, batch, manifest, texts)
    ensures Inv(CommitPoll(s, ticket, batch, deadline, now).0, texts)
  {
    OutcomeCases(s, ticket, batch, deadline, now);
    match OutcomeOf(s, ticket, batch, deadline)
    case Refused =>
    case Stale =>
    case RanOut => ClosedInv(s, texts);
    case Committed(st) =>
      PollLands(s, ticket, batch, manifest, deadline, st, texts);
      LandedSettles(s, Landed(s, ticket, batch, st), ticket.sessionId, batch, st, now, texts);
  }

  /** commit_poll is a transaction: an error or a stale ticket changes nothing, a
      counter that would run out closes the whole service first, and success lands
      every touched topic as the fold of its own operations before settling. */
  lemma CommitIsTransaction(s: State, ticket: PollTicket, batch: Pending, manifest: Manifest, deadline: nat, now: nat,
                            texts: set<JsonPayload>)
    requires Inv(s, texts) && HonestPoll(s, ticket.sessionId, batch, manifest, texts)
    ensures var (t, verdict) := CommitPoll(s, ticket, batch, deadline, now);
            && (verdict.Err? ==> t == s)
            && (verdict == Ok(false) ==> t == s || t == Close(s, EXHAUSTED))
            && (verdict == Ok(true) ==>
                  exists st, landed ::
                    && ticket.sessionId in s.sessions
                    && LandedPoll(s, landed, ticket.sessionId, batch, st)
                    && StagedByFold(s.sessions[ticket.sessionId], st, batch.ops, deadline)
                    && t == Settle(landed, now))
  {
    OutcomeCases(s, ticket, batch, deadline, now);
    var outcome := OutcomeOf(s, ticket, batch, deadline);
    if outcome.Committed? {
      PollLands(s, ticket, batch, manifest, deadline, outcome.st, texts);
      Vetted(s, ticket, batch, deadline);
      PrepareFolds(s.sessions[ticket.sessionId], ticket, batch.ops, deadline, outcome.st);
      assert LandedPoll(s, Landed(s, ticket, batch, outcome.st), ticket.sessionId, batch, outcome.st);
    }
  }

  // ---- a poll that says nothing new

  /** The staged output equals the data already published. */
  predicate NothingNew(session: Session, batch: Pending, st: Staged) {
    && batch.gameBuild == session.info.gameBuild
    && st.resets == [] && st.events == []
    && forall k :: k in st.topics && k in session.topics ==> !Changed(session.topics[k].state, st.topics[k].state)
  }

  function RenewedTopics(topics: map<TopicRef, Topic>, st: Staged, keys: set<TopicRef>): map<TopicRef, Topic> {
    map k | k in topics ::
      if k in keys && k in st.topics then topics[k].(deadline := st.topics[k].deadline) else topics[k]
  }

  /** The same service with new deadlines on the given topics. */
  function Renewed(s: State, id: string, st: Staged, keys: set<TopicRef>): State
    requires id in s.sessions
  {
    s.(sessions := s.sessions[id := s.sessions[id].(topics := RenewedTopics(s.sessions[id].topics, st, keys))])
  }

  ghost predicate Unmoved(session: Session, st: Staged) {
    forall k :: k in st.topics ==>
      && k in session.topics
      && !Changed(session.topics[k].state, st.topics[k].state)
      && st.topics[k].state.source == session.topics[k].state.source
      && st.topics[k].demanded == session.topics[k].demanded && st.topics[k].epoch == session.topics[k].epoch
  }

  lemma LandsRenewed(before: Topic, staged: Topic, sequence: nat)
    requires !Changed(before.state, staged.state) && staged.state.source == before.state.source
    requires staged.demanded == before.demanded && staged.epoch == before.epoch
    ensures Landing(before.state, staged, sequence) == before.(deadline := staged.deadline)
  {
  }

  lemma RenewedMore(topics: map<TopicRef, Topic>, st: Staged, keys: set<TopicRef>, k: TopicRef)
    requires k in topics && k in st.topics
    ensures RenewedTopics(topics, st, keys)[k := topics[k].(deadline := st.topics[k].deadline)]
            == RenewedTopics(topics, st, keys + {k})
  {
  }

  lemma RenewOne(s: State, id: string, st: Staged, keys: set<TopicRef>, k: TopicRef)
    requires id in s.sessions && Unmoved(s.sessions[id], st) && k in st.topics && k !in keys
    ensures CommitTopic(Renewed(s, id, st, keys), Place(id, k), st.topics[k]) == Renewed(s, id, st, keys + {k})
  {
    hide Emit, Landing;
    var topics := s.sessions[id].topics;
    var t := Renewed(s, id, st, keys);
    assert At(t.sessions, Place(id, k)) == topics[k];
    LandsRenewed(topics[k], st.topics[k], t.sequence + 1);
    RenewedMore(topics, st, keys, k);
  }

  lemma {:induction false} RenewAll(s: State, id: string, st: Staged, keys: seq<TopicRef>)
    requires id in s.sessions && Unmoved(s.sessions[id], st)
    requires NoRepeats(keys) && forall k :: k in keys ==> k in st.topics
    ensures CommitTopics(s, id, st.topics, keys) == Renewed(s, id, st, Keys(keys))
  {
    if keys == [] {
      assert RenewedTopics(s.sessions[id].topics, st, Keys(keys)) == s.sessions[id].topics;
    } else {
      KeysSnoc(keys);
      RenewAll(s, id, st, keys[..|keys| - 1]);
      RenewOne(s, id, st, Keys(keys[..|keys| - 1]), keys[|keys| - 1]);
    }
  }

  lemma RenewedSettled(s: State, id: string, st: Staged, keys: set<TopicRef>)
    requires Settled(s) && id in s.sessions
    ensures Settled(Renewed(s, id, st, keys))
  {
    var t := Renewed(s, id, st, keys);
    forall p | Placed(t.sessions, p)
      ensures At(t.sessions, p).demanded == Demanded(t.subscribers, t.sessions[p.id].info.session, p.key)
    {
      assert Placed(s.sessions, p) && At(s.sessions, p).demanded == At(t.sessions, p).demanded;
    }
    forall n | n in t.subscribers ensures !Gone(t, n) {
      assert !Gone(s, n);
    }
  }

  lemma PlanUnmoved(s: State, id: string, batch: Pending, st: Staged, manifest: Manifest, texts: set<JsonPayload>)
    requires Plan(s, id, st, manifest, texts) && NothingNew(s.sessions[id], batch, st)
    ensures Unmoved(s.sessions[id], st)
  {
    forall k | k in st.topics
      ensures k in s.sessions[id].topics && st.topics[k].state.source == s.sessions[id].topics[k].state.source
      ensures st.topics[k].demanded == s.sessions[id].topics[k].demanded
      ensures st.topics[k].epoch == s.sessions[id].topics[k].epoch
    {
      PlanAt(s, id, st, manifest, texts, k);
    }
  }

  /** A poll whose result equals the current data renews deadlines, and nothing else:
      no sequence number is consumed, nobody is told, and demand stays as it was. */
  lemma SilentCommit(s: State, ticket: PollTicket, batch: Pending, manifest: Manifest, deadline: nat, now: nat,
                     st: Staged, texts: set<JsonPayload>)
    requires Inv(s, texts) && HonestPoll(s, ticket.sessionId, batch, manifest, texts)
    requires OutcomeOf(s, ticket, batch, deadline) == Committed(st)
    requires NothingNew(s.sessions[ticket.sessionId], batch, st)
    ensures CommitPoll(s, ticket, batch, deadline, now)
            == (Renewed(s, ticket.sessionId, st, st.topics.Keys), Ok(true))
  {
    var id := ticket.sessionId;
    OutcomeCases(s, ticket, batch, deadline, now);
    VettedPlan(s, ticket, batch, manifest, deadline, st, texts);
    PlanUnmoved(s, id, batch, st, manifest, texts);
    KeysAll(st);
    RenewAll(s, id, st, TopicsInOrder(st.topics.Keys));
    assert ResetUpdates(st) == [];
    RenewedSettled(s, id, st, st.topics.Keys);
    SettleIdempotent(Renewed(s, id, st, st.topics.Keys), now);
  }
}
