/** Epochs: every operation moves the topics of a session that stays onward, so an
    unchanged epoch means unchanged demand and generation. */
module Epochs {
  import opened Wire
  import opened Ordering
  import opened SubscriptionQueue
  import opened Service
  import opened PollBatch
  import opened Publication
  import opened Invariant
  import opened Sweeps
  import opened Settling
  import opened StagingProofs
  import opened Committing
  import opened Commits
  import opened Subscribing
  import opened Discards

  /** Epochs and generations never fall back, resumed demand opens a new generation,
      and while the epoch stands still so do demand and generation. */
  predicate Onward(before: Topic, after: Topic) {
    && before.epoch <= after.epoch
    && before.state.generation <= after.state.generation
    && (!before.demanded && after.demanded ==> before.state.generation < after.state.generation)
    && (before.epoch == after.epoch ==>
          after.demanded == before.demanded && after.state.generation == before.state.generation)
  }

  ghost predicate OnwardAll(before: Session, after: Session) {
    && before.topics.Keys == after.topics.Keys
    && forall k :: k in before.topics ==> Onward(before.topics[k], after.topics[k])
  }

  /** A step's effect on one session that it neither starts nor ends. */
  ghost predicate Forward(s: State, t: State, id: string) {
    && (s.stopped ==> t.stopped)
    && (t.stopped || (id in s.sessions && id in t.sessions ==> OnwardAll(s.sessions[id], t.sessions[id])))
  }

  /** As Forward, and the session stays. */
  ghost predicate Onwards(s: State, t: State, id: string) {
    Forward(s, t, id) && (id in s.sessions ==> id in t.sessions)
  }

  lemma ForwardTrans(s: State, t: State, u: State, id: string)
    requires Forward(s, t, id) && Forward(t, u, id)
    requires id in s.sessions && id in u.sessions ==> id in t.sessions
    ensures Forward(s, u, id)
  {
    if !u.stopped && id in s.sessions && id in u.sessions {
      assert s.sessions[id].topics.Keys == t.sessions[id].topics.Keys == u.sessions[id].topics.Keys;
      forall k | k in s.sessions[id].topics ensures Onward(s.sessions[id].topics[k], u.sessions[id].topics[k]) {
        assert k in t.sessions[id].topics.Keys;
      }
    }
  }

  lemma OnwardsTrans(s: State, t: State, u: State, id: string)
    requires Onwards(s, t, id) && Onwards(t, u, id)
    ensures Onwards(s, u, id)
  {
    ForwardTrans(s, t, u, id);
  }

  lemma SameSessions(s: State, t: State, id: string)
    requires t.sessions == s.sessions && (s.stopped ==> t.stopped)
    ensures Onwards(s, t, id)
  {
  }

  lemma CloseForward(s: State, end: SubscriptionEnd, id: string)
    ensures Onwards(s, Close(s, end), id)
  {
  }

  lemma EmitAllForward(s: State, updates: seq<SubscriptionUpdate>, id: string)
    ensures Onwards(s, EmitAll(s, updates), id)
    ensures !EmitAll(s, updates).stopped ==> EmitAll(s, updates).sessions == s.sessions
  {
    EmitAllFrame(s, updates);
    EmitAllReleases(s, updates);
  }

  lemma TouchOnward(w: Sweep, info: SessionInfo, key: TopicRef, topic: Topic)
    ensures !TouchAt(w, info, key, topic).RunOut? ==> Onward(topic, Touched(w, info, key, topic))
  {
  }

  lemma SweepOnward(sessions: Sessions, w: Sweep, id: string)
    requires !SweepAll(sessions, w).exhausted && id in sessions
    ensures id in SweepAll(sessions, w).sessions
    ensures OnwardAll(sessions[id], SweepAll(sessions, w).sessions[id])
  {
    var r := SweepAll(sessions, w);
    SweepAllPointwise(sessions, w);
    PlacesCover(sessions);
    PlacesInDistinct(sessions, IdsInOrder(sessions.Keys));
    forall k | k in sessions[id].topics ensures Onward(sessions[id].topics[k], r.sessions[id].topics[k]) {
      var p := Place(id, k);
      assert Placed(sessions, p) && At(sessions, p) == sessions[id].topics[k];
      assert SweptAt(sessions, r, Places(sessions), w, p);
      NotExhausted(sessions, [], Places(sessions), w, p);
      TouchOnward(w, sessions[id].info, k, At(sessions, p));
    }
  }

  /** A sweep, its updates, or the closure it causes. */
  lemma SweptForward(s: State, w: Sweep, id: string)
    ensures var r := SweepAll(s.sessions, w);
            Onwards(s, if r.exhausted then Close(s.(sessions := r.sessions), EXHAUSTED)
                       else EmitAll(NoteChanges(s, r), r.changes), id)
  {
    var r := SweepAll(s.sessions, w);
    SweepAllPointwise(s.sessions, w);
    if !r.exhausted {
      if id in s.sessions { SweepOnward(s.sessions, w, id); }
      assert Onwards(s, NoteChanges(s, r), id);
      EmitAllForward(NoteChanges(s, r), r.changes, id);
      OnwardsTrans(s, NoteChanges(s, r), EmitAll(NoteChanges(s, r), r.changes), id);
    }
  }

  lemma RoundForward(s: State, now: nat, id: string)
    ensures Onwards(s, SettleRound(s, now), id)
  {
    var live := RetainLive(s);
    SameSessions(s, live, id);
    SweptForward(live, Reconcile(live.subscribers, now), id);
    OnwardsTrans(s, live, SettleRound(s, now), id);
  }

  lemma {:induction false} SettleForward(s: State, now: nat, id: string)
    ensures Onwards(s, Settle(s, now), id)
    decreases |Live(s)|
  {
    var next := SettleRound(s, now);
    RoundForward(s, now, id);
    if Unsettled(next) {
      RoundLoses(s, now);
      SettleForward(next, now, id);
      OnwardsTrans(s, next, Settle(s, now), id);
    }
  }

  lemma ExpireForward(s: State, now: nat, id: string)
    ensures Onwards(s, Expire(s, now), id)
  {
    var r := SweepAll(s.sessions, Overdue(now));
    SweptForward(s, Overdue(now), id);
    if !r.exhausted {
      var mid := EmitAll(NoteChanges(s, r), r.changes);
      SettleForward(mid, now, id);
      OnwardsTrans(s, mid, Settle(mid, now), id);
    }
  }

  // ---- subscribing

  lemma SetUpForward(s: State, n: nat, selection: Selection, now: nat, id: string)
    ensures Onwards(s, SetUp(s, n, selection, now).0, id)
  {
    var enrolled := Enroll(s, n, selection);
    var settled := Settle(enrolled, now);
    SameSessions(s, enrolled, id);
    SettleForward(enrolled, now, id);
    OnwardsTrans(s, enrolled, settled, id);
    var captured := Capture(settled, n);
    if captured.Ok? {
      SameSessions(settled, Activate(settled, n, captured.value), id);
      OnwardsTrans(s, settled, Activate(settled, n, captured.value), id);
    } else {
      var removed := settled.(subscribers := settled.subscribers - {n});
      SameSessions(settled, removed, id);
      SettleForward(removed, now, id);
      OnwardsTrans(settled, removed, Settle(removed, now), id);
      OnwardsTrans(s, settled, Settle(removed, now), id);
    }
  }

  lemma OpenCheckedForward(s: State, selection: Selection, now: nat, id: string)
    ensures Onwards(s, OpenChecked(s, selection, now).0, id)
  {
    var admitted := OpenCheckedCases(s, selection, now);
    if admitted {
      SetUpForward(s, s.nextSubscription + 1, selection, now, id);
    } else {
      SameSessions(s, s, id);
    }
  }

  lemma OpenForward(s: State, request: Subscribe, at: nat, now: nat, id: string)
    ensures Onwards(s, Open(s, request, at, now).0, id)
  {
    ExpireForward(s, at, id);
    OpenCheckedForward(Expire(s, at), Normalize(request), now, id);
    OnwardsTrans(s, Expire(s, at), OpenChecked(Expire(s, at), Normalize(request), now).0, id);
    SameSessions(s, s, id);
  }

  lemma DropForward(s: State, n: nat, now: nat, id: string)
    ensures Onwards(s, Drop(s, n, now), id)
  {
    var dropped := s.(subscribers := s.subscribers - {n}, channels := s.channels - {n});
    SameSessions(s, dropped, id);
    SettleForward(dropped, now, id);
    OnwardsTrans(s, dropped, Drop(s, n, now), id);
  }

  // ---- sessions

  /** A session that the step leaves exactly as it was, unless it stopped the service. */
  ghost predicate Untouched(s: State, t: State, id: string) {
    && (s.stopped ==> t.stopped)
    && (t.stopped || (id in s.sessions ==> id in t.sessions && t.sessions[id] == s.sessions[id]))
  }

  lemma EndOne(s: State, n: string, status: HostStatus, id: string)
    ensures var t := EndSession(s, n, status);
            && (id != n ==> Untouched(s, t, id))
            && (id == n || id !in s.sessions ==> id !in t.sessions)
            && (s.stopped ==> t.stopped)
  {
  }

  lemma {:induction false} EndMany(s: State, ids: seq<string>, status: HostStatus, id: string)
    ensures var t := EndSessions(s, ids, status);
            && (id !in ids ==> Untouched(s, t, id))
            && (id in ids || id !in s.sessions ==> id !in t.sessions)
            && (s.stopped ==> t.stopped)
  {
    if ids != [] {
      EndMany(s, ids[..|ids| - 1], status, id);
      EndOne(EndSessions(s, ids[..|ids| - 1], status), ids[|ids| - 1], status, id);
      assert ids == ids[..|ids| - 1] + [ids[|ids| - 1]];
    }
  }

  lemma AddOne(s: State, info: SessionInfo, id: string)
    requires info.session.sessionId !in s.sessions
    ensures var t := Service.AddSession(s, info).0;
            Untouched(s, t, id) && (id != info.session.sessionId && id !in s.sessions ==> id !in t.sessions)
  {
    if info.providerId in s.catalog && !s.stopped && Room(s, 1 + |s.catalog[info.providerId]|) {
      var keys := KeysOf(info.providerId, s.catalog[info.providerId]);
      var added := s.(sessions := s.sessions[info.session.sessionId := Session(info, NewTopics(info, keys))]);
      var told := Emit(added, SessionStarted(info));
      EmitAllForward(told, Announce(info, TopicsInOrder(keys)), id);
      EmitAllReleases(told, Announce(info, TopicsInOrder(keys)));
    }
  }

  lemma {:induction false} AddMany(s: State, incoming: map<string, SessionInfo>, ids: seq<string>, id: string)
    requires forall n :: n in ids ==> n in incoming
    requires forall n :: n in incoming ==> incoming[n].session.sessionId == n
    ensures var t := AddSessions(s, incoming, ids).0;
            Untouched(s, t, id) && (id !in incoming && id !in s.sessions ==> id !in t.sessions)
  {
    if ids != [] {
      AddMany(s, incoming, ids[..|ids| - 1], id);
      var (t, e) := AddSessions(s, incoming, ids[..|ids| - 1]);
      var n := ids[|ids| - 1];
      assert n in ids;
      if e.None? && n !in t.sessions {
        AddOne(t, incoming[n], id);
      }
    }
  }

  lemma {:induction false} IncomingFiled(s: State, targets: seq<TargetStatus>)
    ensures forall n :: n in Incoming(s, targets) ==> Incoming(s, targets)[n].session.sessionId == n
  {
    if targets != [] {
      IncomingFiled(s, targets[..|targets| - 1]);
    }
  }

  lemma ReplacedForward(s: State, ended: State, added: State, incoming: map<string, SessionInfo>, id: string)
    requires (s.stopped ==> ended.stopped) && Untouched(ended, added, id)
    requires id in s.sessions && id !in incoming ==> id !in ended.sessions
    requires id !in s.sessions || id in incoming ==> Untouched(s, ended, id)
    requires id !in incoming && id !in ended.sessions ==> id !in added.sessions
    ensures Forward(s, added, id)
  {
  }

  lemma SyncForward(s: State, status: HostStatus, now: nat, id: string)
    ensures Forward(s, SyncRuntime(s, status, now).0, id)
  {
    if !s.stopped && s.runtime != status {
      var incoming := Incoming(s, status.targets);
      var gone := IdsInOrder(s.sessions.Keys - incoming.Keys);
      var ended := EndSessions(s, gone, status);
      IncomingFiled(s, status.targets);
      EndMany(s, gone, status, id);
      var (added, e) := AddSessions(ended, incoming, IdsInOrder(incoming.Keys));
      AddMany(ended, incoming, IdsInOrder(incoming.Keys), id);
      ReplacedForward(s, ended, added, incoming, id);
      if e.None? {
        var noted := added.(runtime := status);
        var advanced := Advance(noted).0;
        AdvanceForward(added, noted, id);
        SettleForward(advanced, now, id);
        OnwardsTrans(added, advanced, Settle(advanced, now), id);
        SettledKeys(advanced, now, id);
        ForwardTrans(s, added, Settle(advanced, now), id);
      }
    }
  }

  lemma AdvanceForward(added: State, noted: State, id: string)
    requires noted == added.(runtime := noted.runtime)
    ensures Onwards(added, Advance(noted).0, id)
    ensures id in Advance(noted).0.sessions ==> id in added.sessions
  {
    SameSessions(added, noted, id);
    CloseForward(noted, EXHAUSTED, id);
  }

  lemma RoundKeys(s: State, now: nat)
    ensures SettleRound(s, now).sessions.Keys == s.sessions.Keys
  {
    var live := RetainLive(s);
    var r := SweepAll(live.sessions, Reconcile(live.subscribers, now));
    SweepAllPointwise(live.sessions, Reconcile(live.subscribers, now));
    EmitAllReleases(NoteChanges(live, r), r.changes);
  }

  lemma {:induction false} SettledKeys(s: State, now: nat, id: string)
    ensures id in Settle(s, now).sessions <==> id in s.sessions
    decreases |Live(s)|
  {
    RoundKeys(s, now);
    if Unsettled(SettleRound(s, now)) {
      RoundLoses(s, now);
      SettledKeys(SettleRound(s, now), now, id);
    }
  }

  // ---- publication

  lemma LandedForward(s: State, t: State, ticket: PollTicket, batch: Pending, st: Staged, manifest: Manifest, id: string,
                      texts: set<JsonPayload>)
    requires Plan(s, ticket.sessionId, st, manifest, texts) && LandedPoll(s, t, ticket.sessionId, batch, st)
    ensures Onwards(s, t, id)
  {
    if id == ticket.sessionId {
      forall k | k in s.sessions[id].topics ensures Onward(s.sessions[id].topics[k], t.sessions[id].topics[k]) {
        assert LandedAt(s.sessions[id].topics[k], st, k, true, t.sessions[id].topics[k]);
        if k in st.topics { PlanAt(s, id, st, manifest, texts, k); }
      }
    } else if id in s.sessions {
      assert t.sessions[id] == s.sessions[id];
    }
  }

  lemma CommitForward(s: State, ticket: PollTicket, batch: Pending, manifest: Manifest, deadline: nat, now: nat,
                      id: string, texts: set<JsonPayload>)
    requires Inv(s, texts) && HonestPoll(s, ticket.sessionId, batch, manifest, texts)
    ensures Onwards(s, CommitPoll(s, ticket, batch, deadline, now).0, id)
  {
    hide CommitPoll, HonestPoll, Landed, LandedPoll, Plan, Onwards, StateOk, Cached, Vet, Reserve;
    OutcomeCases(s, ticket, batch, deadline, now);
    var outcome := OutcomeOf(s, ticket, batch, deadline);
    SameSessions(s, s, id);
    if outcome.RanOut? {
      CloseForward(s, EXHAUSTED, id);
    } else if outcome.Committed? {
      var landed := Landed(s, ticket, batch, outcome.st);
      PollLands(s, ticket, batch, manifest, deadline, outcome.st, texts);
      VettedPlan(s, ticket, batch, manifest, deadline, outcome.st, texts);
      LandedForward(s, landed, ticket, batch, outcome.st, manifest, id, texts);
      SettleForward(landed, now, id);
      OnwardsTrans(s, landed, Settle(landed, now), id);
    }
  }

  lemma FailedForward(s: State, t: State, n: string, affected: map<TopicRef, bool>, id: string)
    requires Discarded(s, t, n, affected)
    ensures Onwards(s, t, id)
  {
    if id in s.sessions {
      forall k | k in s.sessions[id].topics ensures Onward(s.sessions[id].topics[k], t.sessions[id].topics[k]) {
        var p := Place(id, k);
        assert FailedAt(s.sessions, t.sessions, n, affected, affected.Keys, p);
        assert At(s.sessions, p) == s.sessions[id].topics[k];
      }
    }
  }

  lemma DiscardForward(s: State, ticket: PollTicket, resets: seq<TopicRef>, failed: bool, now: nat, id: string,
                       texts: set<JsonPayload>)
    requires Inv(s, texts)
    ensures Onwards(s, DiscardPoll(s, ticket, resets, failed, now).0, id)
  {
    hide DiscardPoll, Onwards, StateOk, Cached, Settle, FailTopics, Discarded;
    SameSessions(s, s, id);
    DiscardCases(s, ticket, resets, failed, now);
    match Proceeds(s, ticket, resets, failed)
    case None => CloseForward(s, EXHAUSTED, id);
    case Some(affected) =>
      var mid := DiscardProceeds(s, ticket, resets, failed, now, affected, texts);
      FailedForward(s, mid, ticket.sessionId, affected, id);
      SettleForward(mid, now, id);
      OnwardsTrans(s, mid, Settle(mid, now), id);
  }
}
