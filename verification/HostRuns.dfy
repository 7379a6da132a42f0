/** Polls of one hosted session interleaved with everything else the service does. */
module HostRuns {
  import opened Wire
  import opened Service
  import opened PollBatch
  import opened Publication
  import opened Invariant
  import opened Commits
  import opened Discards
  import opened ResetSurvival
  import opened Epochs
  import opened Runs
  import Fence
  import Committing
  import opened Hosting

  /** The service, the host, and which generation of each topic the provider works in:
      the one it was last told to begin, moved on by its own accepted resets. */
  datatype Rig = Rig(s: State, host: Host, known: map<TopicRef, nat>)

  datatype Turn =
    | Elsewhere(step: Step)
    | StartTurn(now: nat)
    | EndTurn(batch: Pending, result: Hosting.Result, end: nat, range: nat, now: nat)

  function Told(known: map<TopicRef, nat>, ticket: PollTicket): map<TopicRef, nat> {
    map k | k in known.Keys + ticket.topics.Keys :: if k in ticket.topics then ticket.topics[k].generation else known[k]
  }

  predicate Accepts(s: State, ticket: PollTicket, batch: Pending, result: Hosting.Result, end: nat, range: nat, now: nat)
  {
    && PlanFor(result, end, range).Some?
    && CommitPoll(s, ticket, batch, PlanFor(result, end, range).value.1, now).1 == Ok(true)
  }

  function Turned(r: Rig, turn: Turn, id: string): Rig {
    match turn
    case Elsewhere(step) => r.(s := Next(r.s, step))
    case StartTurn(now) =>
      var ticket := CurrentTicket(r.s, id);
      if r.host.inFlight.Some? || ticket.None? || !Due(r.host, ticket.value, now) then r
      else Rig(r.s, BeginPoll(r.host, ticket.value), Told(r.known, ticket.value))
    case EndTurn(batch, result, end, range, now) =>
      if r.host.inFlight.None? then r
      else
        var ticket := r.host.inFlight.value;
        var (host, t) := EndPoll(r.host, r.s, batch, result, end, range, now);
        Rig(t, host,
            if Accepts(r.s, ticket, batch, result, end, range, now) then Told(r.known, RebaseResets(ticket, batch.resets))
            else r.known)
  }

  ghost predicate HonestTurn(r: Rig, turn: Turn, id: string, manifest: Manifest, texts: set<JsonPayload>) {
    match turn
    case Elsewhere(step) => Honest(r.s, step, texts)
    case StartTurn(_) => true
    case EndTurn(batch, _, _, _, _) => HonestPoll(r.s, id, batch, manifest, texts)
  }

  // ---- the invariant

  /** A generation that the provider works in but that no ticket on record covers is
      older than any generation in which the topic is demanded again. */
  predicate KnownOk(known: nat, recorded: bool, topic: Topic) {
    && known <= topic.state.generation
    && (!recorded && topic.demanded ==> known < topic.state.generation)
  }

  predicate Recorded(h: Host, k: TopicRef) {
    h.generations.Some? && k in h.generations.value.topics
  }

  ghost predicate RigOk(r: Rig, id: string, texts: set<JsonPayload>) {
    && Inv(r.s, texts)
    && (r.host.generations.None? ==> r.known == map[])
    && (r.host.inFlight.Some? ==> r.host.generations == r.host.inFlight && r.host.inFlight.value.sessionId == id)
    && (forall k :: Recorded(r.host, k) ==> k in r.known && r.known[k] == r.host.generations.value.topics[k].generation)
    && (!r.s.stopped && id in r.s.sessions ==>
          forall k :: k in r.known && k in r.s.sessions[id].topics ==>
            KnownOk(r.known[k], Recorded(r.host, k), r.s.sessions[id].topics[k]))
  }

  lemma KnownOnward(known: nat, recorded: bool, before: Topic, after: Topic)
    requires KnownOk(known, recorded, before) && Onward(before, after)
    ensures KnownOk(known, recorded, after)
  {
  }

  /** Anything that moves the session onward keeps the invariant. */
  lemma RigForward(r: Rig, t: State, id: string, texts: set<JsonPayload>)
    requires RigOk(r, id, texts) && Inv(t, texts) && Forward(r.s, t, id) && (!t.stopped ==> id in r.s.sessions)
    ensures RigOk(r.(s := t), id, texts)
  {
    if !t.stopped && id in t.sessions {
      forall k | k in r.known && k in t.sessions[id].topics
        ensures KnownOk(r.known[k], Recorded(r.host, k), t.sessions[id].topics[k])
      {
        assert k in r.s.sessions[id].topics.Keys;
        KnownOnward(r.known[k], Recorded(r.host, k), r.s.sessions[id].topics[k], t.sessions[id].topics[k]);
      }
    }
  }

  /** The exact law of begin_generation: the provider is told exactly about the demanded
      topics whose generation is not the one it already works in. */
  lemma BegunExactly(r: Rig, id: string, k: TopicRef, texts: set<JsonPayload>)
    requires RigOk(r, id, texts) && CurrentTicket(r.s, id).Some?
    requires k in CurrentTicket(r.s, id).value.topics
    ensures var ticket := CurrentTicket(r.s, id).value;
            k in Hosting.Begun(r.host, ticket) <==> k !in r.known || r.known[k] != ticket.topics[k].generation
  {
    var ticket := CurrentTicket(r.s, id).value;
    var topic := r.s.sessions[id].topics[k];
    assert topic.demanded && ticket.topics[k].generation == topic.state.generation;
    if k in r.known && !Recorded(r.host, k) {
      assert KnownOk(r.known[k], false, topic);
    }
  }

  lemma BeginKeeps(r: Rig, now: nat, id: string, texts: set<JsonPayload>)
    requires RigOk(r, id, texts)
    ensures RigOk(Turned(r, StartTurn(now), id), id, texts)
  {
    var next := Turned(r, StartTurn(now), id);
    if next != r {
      var ticket := CurrentTicket(r.s, id).value;
      forall k | k in next.known && k in r.s.sessions[id].topics
        ensures KnownOk(next.known[k], Recorded(next.host, k), r.s.sessions[id].topics[k])
      {
        if k !in ticket.topics {
          assert KnownOk(r.known[k], Recorded(r.host, k), r.s.sessions[id].topics[k]);
        }
      }
    }
  }

  // ---- the end of a poll

  lemma CommittedAt(s: State, ticket: PollTicket, batch: Pending, manifest: Manifest, deadline: nat, now: nat,
                    t: State, k: TopicRef, texts: set<JsonPayload>)
    requires Inv(s, texts) && HonestPoll(s, ticket.sessionId, batch, manifest, texts)
    requires CommitPoll(s, ticket, batch, deadline, now) == (t, Ok(true)) && !t.stopped
    requires k in ticket.topics && ticket.sessionId in t.sessions && k in t.sessions[ticket.sessionId].topics
    ensures RebaseResets(ticket, batch.resets).topics[k].generation
            <= t.sessions[ticket.sessionId].topics[k].state.generation
  {
    var id := ticket.sessionId;
    OutcomeCases(s, ticket, batch, deadline, now);
    var st := OutcomeOf(s, ticket, batch, deadline).st;
    var landed := Landed(s, ticket, batch, st);
    PollLands(s, ticket, batch, manifest, deadline, st, texts);
    VettedPlan(s, ticket, batch, manifest, deadline, st, texts);
    SettleForward(landed, now, id);
    assert k in landed.sessions[id].topics.Keys;
    LandedAtLeast(s, landed, ticket, batch, st, manifest, k, texts);
  }

  lemma LandedAtLeast(s: State, landed: State, ticket: PollTicket, batch: Pending, st: Staged, manifest: Manifest,
                      k: TopicRef, texts: set<JsonPayload>)
    requires Committing.Plan(s, ticket.sessionId, st, manifest, texts) && st.resets == batch.resets
    requires Current(s, ticket) && k in ticket.topics
    requires LandedPoll(s, landed, ticket.sessionId, batch, st)
    ensures k in landed.sessions[ticket.sessionId].topics
    ensures RebaseResets(ticket, batch.resets).topics[k].generation
            <= landed.sessions[ticket.sessionId].topics[k].state.generation
  {
    hide StateOk, AdmitTopic, Reserve;
    var id := ticket.sessionId;
    var before := s.sessions[id].topics[k];
    assert k in landed.sessions[id].topics.Keys;
    assert Committing.LandedAt(before, st, k, true, landed.sessions[id].topics[k]);
    if k in st.topics {
      Committing.PlanAt(s, id, st, manifest, texts, k);
    }
  }

  lemma AcceptedKeeps(r: Rig, t: State, ticket: PollTicket, batch: Pending, manifest: Manifest, deadline: nat, now: nat,
                      next: Option<nat>, id: string, texts: set<JsonPayload>)
    requires RigOk(r, id, texts) && r.host.inFlight == Some(ticket) && Inv(t, texts)
    requires HonestPoll(r.s, id, batch, manifest, texts)
    requires CommitPoll(r.s, ticket, batch, deadline, now) == (t, Ok(true))
    requires Forward(r.s, t, id) && (!t.stopped ==> id in r.s.sessions)
    ensures var rebased := RebaseResets(ticket, batch.resets);
            RigOk(Rig(t, Host(Some(rebased), Some(rebased), next, None), Told(r.known, rebased)), id, texts)
  {
    hide Inv, CommitPoll, HonestPoll;
    var rebased := RebaseResets(ticket, batch.resets);
    var known := Told(r.known, rebased);
    if !t.stopped && id in t.sessions {
      forall k | k in known && k in t.sessions[id].topics
        ensures KnownOk(known[k], k in rebased.topics, t.sessions[id].topics[k])
      {
        if k in ticket.topics {
          CommittedAt(r.s, ticket, batch, manifest, deadline, now, t, k, texts);
        } else {
          assert k in r.s.sessions[id].topics.Keys;
          KnownOnward(r.known[k], false, r.s.sessions[id].topics[k], t.sessions[id].topics[k]);
        }
      }
    }
  }

  /** The host's own fields after a rejection: the generations on record stay. */
  lemma RejectedKeeps(r: Rig, t: State, host: Host, id: string, texts: set<JsonPayload>)
    requires RigOk(r, id, texts) && Inv(t, texts) && Forward(r.s, t, id) && (!t.stopped ==> id in r.s.sessions)
    requires host.generations == r.host.generations && host.inFlight.None?
    ensures RigOk(Rig(t, host, r.known), id, texts)
  {
    RigForward(r, t, id, texts);
    assert forall k :: Recorded(host, k) == Recorded(r.host, k);
  }

  lemma DiscardMoves(s: State, ticket: PollTicket, resets: seq<TopicRef>, failed: bool, now: nat, id: string, t: State,
                     texts: set<JsonPayload>)
    requires Inv(s, texts) && t == DiscardPoll(s, ticket, resets, failed, now).0
    ensures Inv(t, texts) && Forward(s, t, id)
  {
    DiscardInv(s, ticket, resets, failed, now, texts);
    DiscardForward(s, ticket, resets, failed, now, id, texts);
  }

  lemma StaleTwice(s: State, mid: State, t: State, id: string)
    requires Forward(s, mid, id) && Forward(mid, t, id) && (mid == s || mid.stopped)
    ensures Forward(s, t, id)
  {
  }

  /** A commit that does not accept, and the discard that follows it. */
  lemma DeclinedThenDiscarded(s: State, ticket: PollTicket, batch: Pending, manifest: Manifest, deadline: nat, now: nat,
                              id: string, mid: State, t: State, failed: bool, texts: set<JsonPayload>)
    requires Inv(s, texts) && HonestPoll(s, ticket.sessionId, batch, manifest, texts)
    requires CommitPoll(s, ticket, batch, deadline, now).0 == mid
    requires CommitPoll(s, ticket, batch, deadline, now).1 != Ok(true)
    requires t == DiscardPoll(mid, ticket, batch.resets, failed, now).0
    ensures Inv(t, texts) && Forward(s, t, id)
  {
    OutcomeCases(s, ticket, batch, deadline, now);
    CommitInv(s, ticket, batch, manifest, deadline, now, texts);
    CommitForward(s, ticket, batch, manifest, deadline, now, id, texts);
    DiscardMoves(mid, ticket, batch.resets, failed, now, id, t, texts);
    StaleTwice(s, mid, t, id);
  }

  /** A poll that is not accepted leaves the generations on record alone. */
  lemma EndCases(r: Rig, batch: Pending, result: Hosting.Result, end: nat, range: nat, now: nat, id: string,
                 manifest: Manifest, next: Rig, texts: set<JsonPayload>)
    requires RigOk(r, id, texts) && r.host.inFlight.Some? && HonestPoll(r.s, id, batch, manifest, texts)
    requires next == Turned(r, EndTurn(batch, result, end, range, now), id)
    requires !Accepts(r.s, r.host.inFlight.value, batch, result, end, range, now)
    ensures next.known == r.known && next.host.generations == r.host.generations && next.host.inFlight.None?
    ensures Inv(next.s, texts) && Forward(r.s, next.s, id)
  {
    hide Inv, CommitPoll, HonestPoll, DiscardPoll, Forward;
    var ticket := r.host.inFlight.value;
    var plan := PlanFor(result, end, range);
    EndPollCases(r.host, r.s, batch, result, end, range, now);
    if plan.None? {
      DiscardMoves(r.s, ticket, batch.resets, true, now, id, next.s, texts);
    } else {
      var (mid, verdict) := CommitPoll(r.s, ticket, batch, plan.value.1, now);
      DeclinedThenDiscarded(r.s, ticket, batch, manifest, plan.value.1, now, id, mid, next.s, verdict.Err?, texts);
    }
  }

  lemma EndKeeps(r: Rig, batch: Pending, result: Hosting.Result, end: nat, range: nat, now: nat, id: string,
                 manifest: Manifest, next: Rig, texts: set<JsonPayload>)
    requires RigOk(r, id, texts) && HonestPoll(r.s, id, batch, manifest, texts)
    requires next == Turned(r, EndTurn(batch, result, end, range, now), id)
    requires !next.s.stopped ==> id in r.s.sessions
    ensures RigOk(next, id, texts)
  {
    hide Inv, CommitPoll, HonestPoll, DiscardPoll, Forward;
    if r.host.inFlight.Some? {
      var ticket := r.host.inFlight.value;
      if Accepts(r.s, ticket, batch, result, end, range, now) {
        var plan := PlanFor(result, end, range).value;
        CommitInv(r.s, ticket, batch, manifest, plan.1, now, texts);
        CommitForward(r.s, ticket, batch, manifest, plan.1, now, id, texts);
        AcceptedKeeps(r, next.s, ticket, batch, manifest, plan.1, now, plan.0, id, texts);
      } else {
        EndCases(r, batch, result, end, range, now, id, manifest, next, texts);
        RejectedKeeps(r, next.s, next.host, id, texts);
      }
    }
  }

  lemma ElsewhereKeeps(r: Rig, step: Step, id: string, texts: set<JsonPayload>)
    requires RigOk(r, id, texts) && Honest(r.s, step, texts)
    requires !Next(r.s, step).stopped ==> id in r.s.sessions
    ensures RigOk(r.(s := Next(r.s, step)), id, texts)
  {
    StepInv(r.s, step, texts);
    Fence.StepForward(r.s, step, Next(r.s, step), id, texts);
    RigForward(r, Next(r.s, step), id, texts);
  }

  /** Every turn of host or service keeps the invariant while the session lasts. */
  lemma TurnKeeps(r: Rig, turn: Turn, id: string, manifest: Manifest, next: Rig, texts: set<JsonPayload>)
    requires RigOk(r, id, texts) && HonestTurn(r, turn, id, manifest, texts) && next == Turned(r, turn, id)
    requires !next.s.stopped ==> id in r.s.sessions
    ensures RigOk(next, id, texts)
  {
    match turn
    case Elsewhere(step) => ElsewhereKeeps(r, step, id, texts);
    case StartTurn(now) => BeginKeeps(r, now, id, texts);
    case EndTurn(batch, result, end, range, now) =>
      EndKeeps(r, batch, result, end, range, now, id, manifest, next, texts);
  }

  function Turns(r: Rig, turns: seq<Turn>, id: string): Rig {
    if turns == [] then r else Turned(Turns(r, turns[..|turns| - 1], id), turns[|turns| - 1], id)
  }

  /** Honest turns, with the session present until the service stops. */
  ghost predicate HostedRun(r: Rig, turns: seq<Turn>, id: string, manifest: Manifest, texts: set<JsonPayload>) {
    turns != [] ==>
      && HostedRun(r, turns[..|turns| - 1], id, manifest, texts)
      && var last := Turns(r, turns[..|turns| - 1], id);
         HonestTurn(last, turns[|turns| - 1], id, manifest, texts)
         && (!Turns(r, turns, id).s.stopped ==> id in last.s.sessions)
  }

  lemma {:induction false} HostRunsOk(r: Rig, turns: seq<Turn>, id: string, manifest: Manifest, last: Rig,
                                      texts: set<JsonPayload>)
    requires RigOk(r, id, texts) && HostedRun(r, turns, id, manifest, texts) && last == Turns(r, turns, id)
    ensures RigOk(last, id, texts)
    decreases |turns|
  {
    if turns != [] {
      var mid := Turns(r, turns[..|turns| - 1], id);
      HostRunsOk(r, turns[..|turns| - 1], id, manifest, mid, texts);
      TurnKeeps(mid, turns[|turns| - 1], id, manifest, last, texts);
    }
  }

  /** Over every sequence of polls, accepted, rejected or failed, and whatever the
      service does in between: begin_generation is called for a demanded topic exactly
      when its generation is not the one the provider was last told, moved on by the
      provider's own accepted resets. */
  lemma BeginGenerationIsExact(s: State, turns: seq<Turn>, id: string, manifest: Manifest, k: TopicRef,
                               texts: set<JsonPayload>)
    requires Inv(s, texts) && HostedRun(Rig(s, STARTED, map[]), turns, id, manifest, texts)
    requires var r := Turns(Rig(s, STARTED, map[]), turns, id);
             CurrentTicket(r.s, id).Some? && k in CurrentTicket(r.s, id).value.topics
    ensures var r := Turns(Rig(s, STARTED, map[]), turns, id);
            var ticket := CurrentTicket(r.s, id).value;
            k in Hosting.Begun(r.host, ticket) <==> k !in r.known || r.known[k] != ticket.topics[k].generation
  {
    var r := Turns(Rig(s, STARTED, map[]), turns, id);
    HostRunsOk(Rig(s, STARTED, map[]), turns, id, manifest, r, texts);
    BegunExactly(r, id, k, texts);
  }

  // ---- the retry delay

  /** Before its time a host polls exactly when the demand on record is not this one. */
  lemma WaitsFor(h: Host, ticket: PollTicket, at: nat)
    requires h.nextPoll.Some? && at < h.nextPoll.value && (h.lastDemand.Some? ==> h.lastDemand.value == ticket)
    ensures !Due(h, ticket, at) <==> h.lastDemand.Some?
  {
  }

  /** After a rejected poll, the next one waits out the retry delay exactly when nothing
      but the poll's own resets has changed the demand: any other change is polled for
      at once. */
  lemma RetryWaitsIff(s: State, h: Host, ticket: PollTicket, batch: Pending, failed: bool, end: nat, now: nat, at: nat,
                      t: State, host: Host, texts: set<JsonPayload>)
    requires Inv(s, texts) && (host, t) == Reject(h, s, ticket, batch, failed, end, now)
    requires CurrentTicket(t, ticket.sessionId).Some? && at < end + RETRY_DELAY
    ensures ticket.sessionId in s.sessions && ticket.sessionId in t.sessions
    ensures !Due(host, CurrentTicket(t, ticket.sessionId).value, at) <==>
            DemandedKeys(t.sessions[ticket.sessionId], ticket.topics.Keys)
            && AtTicketed(s.sessions[ticket.sessionId], ticket)
  {
    var next := DiscardPoll(s, ticket, batch.resets, failed, now).1;
    ReturnedIsCurrent(s, ticket, batch.resets, failed, now, t, next);
    TicketReturnsIff(s, ticket, batch.resets, failed, now, t, next, texts);
    WaitsFor(host, CurrentTicket(t, ticket.sessionId).value, at);
  }
}
