/** Every interleaving of service operations, as a run of atomic steps. */
module Runs {
  import opened Wire
  import opened SubscriptionQueue
  import opened ClientValidation
  import opened Replica
  import opened Views
  import opened Service
  import opened Streams
  import opened PollBatch
  import opened Publication
  import opened Invariant
  import opened Settling
  import opened Bootstrapping
  import opened Subscribing
  import opened SessionSync
  import opened Commits
  import opened Discards
  import Selecting
  import Sweeps

  /** One locked operation, or one item taken by a reader. */
  datatype Step =
    | OpenStep(request: Subscribe, at: nat, now: nat)
    | DropStep(id: nat, now: nat)
    | TakeStep(id: nat)
    | ExpireStep(now: nat)
    | SyncStep(status: HostStatus, now: nat)
    | CommitStep(ticket: PollTicket, batch: Pending, manifest: Manifest, deadline: nat, now: nat)
    | DiscardStep(ticket: PollTicket, resets: seq<TopicRef>, failed: bool, now: nat)
    | ShutdownStep

  function Next(s: State, step: Step): State {
    match step
    case OpenStep(request, at, now) => Open(s, request, at, now).0
    case DropStep(id, now) => Drop(s, id, now)
    case TakeStep(id) => TakeFrom(s, id)
    case ExpireStep(now) => Expire(s, now)
    case SyncStep(status, now) => SyncRuntime(s, status, now).0
    case CommitStep(ticket, batch, _, deadline, now) => CommitPoll(s, ticket, batch, deadline, now).0
    case DiscardStep(ticket, resets, failed, now) => DiscardPoll(s, ticket, resets, failed, now).0
    case ShutdownStep => Close(s, ServiceStopped)
  }

  /** What the environment promises of a step: honest host reports and honest polls. */
  ghost predicate Honest(s: State, step: Step, texts: set<JsonPayload>) {
    match step
    case SyncStep(status, _) => HonestStatus(status, s.catalog)
    case CommitStep(ticket, batch, manifest, _, _) => HonestPoll(s, ticket.sessionId, batch, manifest, texts)
    case _ => true
  }

  function Run(s: State, steps: seq<Step>): State {
    if steps == [] then s else Next(Run(s, steps[..|steps| - 1]), steps[|steps| - 1])
  }

  ghost predicate HonestRun(s: State, steps: seq<Step>, texts: set<JsonPayload>) {
    steps != [] ==>
      && HonestRun(s, steps[..|steps| - 1], texts)
      && Honest(Run(s, steps[..|steps| - 1]), steps[|steps| - 1], texts)
  }

  lemma ShutdownInv(s: State, texts: set<JsonPayload>)
    requires Inv(s, texts)
    ensures Inv(Close(s, ServiceStopped), texts)
  {
    CloseSteady(s, ServiceStopped, Public(s.sessions), texts);
  }

  /** Every transition keeps the invariant. */
  lemma StepInv(s: State, step: Step, texts: set<JsonPayload>)
    requires Inv(s, texts) && Honest(s, step, texts)
    ensures Inv(Next(s, step), texts)
  {
    match step
    case OpenStep(request, at, now) => OpenInv(s, request, at, now, texts);
    case DropStep(id, now) => DropInv(s, id, now, texts);
    case TakeStep(id) => TakeInv(s, id, texts);
    case ExpireStep(now) => ExpireInv(s, now, texts);
    case SyncStep(status, now) => SyncInv(s, status, now, texts);
    case CommitStep(ticket, batch, manifest, deadline, now) =>
      CommitInv(s, ticket, batch, manifest, deadline, now, texts);
    case DiscardStep(ticket, resets, failed, now) => DiscardInv(s, ticket, resets, failed, now, texts);
    case ShutdownStep => ShutdownInv(s, texts);
  }

  lemma InitialInv(catalog: Catalog, messageBytes: nat, runId: string, texts: set<JsonPayload>)
    requires Identifier(runId)
    ensures Inv(Initial(catalog, messageBytes, runId), texts)
  {
    var s := Initial(catalog, messageBytes, runId);
    assert Retained(s.sessions) == 0;
  }

  /** The invariant holds after every honest run from any state that satisfies it. */
  lemma {:induction false} RunInv(s: State, steps: seq<Step>, texts: set<JsonPayload>)
    requires Inv(s, texts) && HonestRun(s, steps, texts)
    ensures Inv(Run(s, steps), texts)
  {
    if steps != [] {
      RunInv(s, steps[..|steps| - 1], texts);
      StepInv(Run(s, steps[..|steps| - 1]), steps[|steps| - 1], texts);
    }
  }

  /** A state that some honest run reaches from a fresh service. */
  ghost predicate Reachable(s: State, texts: set<JsonPayload>) {
    exists catalog, messageBytes, runId, steps ::
      && Identifier(runId)
      && HonestRun(Initial(catalog, messageBytes, runId), steps, texts)
      && s == Run(Initial(catalog, messageBytes, runId), steps)
  }

  lemma ReachableInv(s: State, texts: set<JsonPayload>)
    requires Reachable(s, texts)
    ensures Inv(s, texts)
  {
    var catalog, messageBytes, runId, steps :|
      && Identifier(runId)
      && HonestRun(Initial(catalog, messageBytes, runId), steps, texts)
      && s == Run(Initial(catalog, messageBytes, runId), steps);
    InitialInv(catalog, messageBytes, runId, texts);
    RunInv(Initial(catalog, messageBytes, runId), steps, texts);
  }

  /** Everything a reader got and will get if nothing more is offered. */
  function Stream(t: Traffic): seq<SubscriptionItem> {
    t.sent + Waiting(t.queue) + if t.queue.terminal.Some? then [Closed(t.queue.terminal.value)] else []
  }

  lemma BegunAfter(selection: Selection, items: seq<SubscriptionItem>)
    requires items != [] && items[0].Begin? && AdmitAll(selection, items).Ok?
    ensures Begun(AdmitAll(selection, items).value)
  {
    if |items| > 1 {
      BegunAfter(selection, items[..|items| - 1]);
    }
  }

  lemma CloseAdmitted(selection: Selection, accepted: seq<SubscriptionItem>, front: seq<SubscriptionItem>,
                      end: SubscriptionItem)
    requires Framed(accepted) && AdmitAll(selection, accepted).Ok?
    requires [] < front <= accepted && end.Closed?
    ensures AdmitAll(selection, front + [end]).Ok?
  {
    AdmitPrefix(selection, accepted, |front|);
    assert accepted[..|front|] == front;
    BegunAfter(selection, front);
    AdmitAppend(selection, front, end);
  }

  lemma ChannelAdmitted(ch: Channel, budget: nat, texts: set<JsonPayload>)
    requires ChannelOk(ch, budget, texts)
    ensures AdmitAll(ch.selection, Stream(ch.traffic)).Ok?
  {
    var t := ch.traffic;
    if t.queue.terminal.Some? {
      CloseAdmitted(ch.selection, t.accepted, t.sent + Waiting(t.queue), Closed(t.queue.terminal.value));
    } else if t.queue.completed {
      var n := |t.sent| - 1;
      assert t.sent == t.sent[..n] + [t.sent[n]];
      assert Stream(t) == t.sent;
      CloseAdmitted(ch.selection, t.accepted, t.sent[..n], t.sent[n]);
    } else {
      assert Stream(t) == t.accepted;
    }
  }

  /** Free of protocol errors, so refused only for passing the client's own metadata bound. */
  predicate AcceptedUnlessMetadata(selection: Selection, items: seq<SubscriptionItem>) {
    && AdmitAll(selection, items).Ok?
    && (AcceptAll(selection, items).Ok? <==> MetadataFitsThroughout(selection, items))
  }

  lemma ChannelAccepted(ch: Channel, budget: nat, texts: set<JsonPayload>)
    requires ChannelOk(ch, budget, texts)
    ensures AcceptedUnlessMetadata(ch.selection, Stream(ch.traffic))
    ensures AcceptedUnlessMetadata(ch.selection, ch.traffic.sent)
  {
    ChannelAdmitted(ch, budget, texts);
    AdmitPrefix(ch.selection, Stream(ch.traffic), |ch.traffic.sent|);
    assert Stream(ch.traffic)[..|ch.traffic.sent|] == ch.traffic.sent;
    AcceptedIffMetadataFits(ch.selection, Stream(ch.traffic));
    AcceptedIffMetadataFits(ch.selection, ch.traffic.sent);
  }

  /** In every reachable state the whole stream of every subscription, live, ended or
      abandoned by the service, is free of protocol errors; a client refuses it
      exactly when its own bound on retained metadata is passed, and what has been
      read so far is accepted on the same terms. */
  lemma EveryStreamIsAccepted(s: State, id: nat, texts: set<JsonPayload>)
    requires Reachable(s, texts) && id in s.channels
    ensures AcceptedUnlessMetadata(s.channels[id].selection, Stream(s.channels[id].traffic))
    ensures AcceptedUnlessMetadata(s.channels[id].selection, s.channels[id].traffic.sent)
  {
    ReachableInv(s, texts);
    ChannelAccepted(s.channels[id], s.messageBytes, texts);
  }

  lemma SeesDetermines(a: map<string, Seen>, b: map<string, Seen>, view: View, selection: Selection)
    requires Sees(a, view, selection) && Sees(b, view, selection)
    ensures a == b
  {
    assert a.Keys == b.Keys;
    forall id | id in a ensures a[id] == b[id] {
      assert SeesSession(a[id], view[id], selection) && SeesSession(b[id], view[id], selection);
      assert a[id].topics.Keys == b[id].topics.Keys;
      assert a[id].topics == b[id].topics;
    }
  }

  /** Same sessions with the same metadata, same topic states. */
  predicate SameContents(f: FeedState, g: FeedState) {
    && f.topics == g.topics
    && f.sessions.Keys == g.sessions.Keys
    && forall r :: r in f.sessions ==> f.sessions[r].1 == g.sessions[r].1
  }

  lemma LiveChannel(s: State, id: nat, texts: set<JsonPayload>)
    requires Inv(s, texts) && id in s.subscribers
    ensures id in s.channels && s.channels[id].selection == s.subscribers[id].selection
    ensures Tracks(s.channels[id], Public(s.sessions), s.runId, s.sequence)
    ensures s.channels[id].traffic.sent + Waiting(s.channels[id].traffic.queue) == s.channels[id].traffic.accepted
  {
    assert SubscriberOk(s, id, Public(s.sessions));
    assert !Gone(s, id);
    assert ChannelOk(s.channels[id], s.messageBytes, texts);
  }

  /** Replica agreement: for every subscriber in every reachable state, the frames it
      was sent and the frames still queued rebuild exactly what a bootstrap captured
      now would give, in the feed's replica and in the validator alike. */
  lemma ReplicaAgrees(s: State, id: nat, texts: set<JsonPayload>)
    requires Reachable(s, texts) && id in s.subscribers
    ensures id in s.channels
    ensures var ch := s.channels[id];
            var live := ch.traffic.sent + Waiting(ch.traffic.queue);
            var now := Bootstrap(s, ch.selection);
            && AdmitAll(ch.selection, live).Ok? && AdmitAll(ch.selection, now).Ok?
            && AdmitAll(ch.selection, live).value.sessions == AdmitAll(ch.selection, now).value.sessions
            && forall key :: ch.selection.topics == {key} ==>
                 SameContents(FoldAll(live).state, FoldAll(now).state)
  {
    ReachableInv(s, texts);
    LiveChannel(s, id, texts);
    var ch := s.channels[id];
    var live := ch.traffic.accepted;
    var now := Bootstrap(s, ch.selection);
    BootstrapTracks(s, ch.selection);
    SeesDetermines(AdmitAll(ch.selection, live).value.sessions, AdmitAll(ch.selection, now).value.sessions,
                   Public(s.sessions), ch.selection);
    forall key | ch.selection.topics == {key} ensures SameContents(FoldAll(live).state, FoldAll(now).state) {
      HoldsDetermines(FoldAll(live).state, FoldAll(now).state, Public(s.sessions), ch.selection, key, s.runId);
    }
  }

  /** Some subscriber that has not ended selects the topic. */
  ghost predicate Wanted(s: State, p: Place)
    requires p.id in s.sessions
  {
    exists id :: id in s.subscribers && !Gone(s, id)
                 && Selecting.Matches(s.subscribers[id].selection, s.sessions[p.id].info.session, p.key)
  }

  /** The topic invariant in every reachable state: Idle exactly when not demanded, demanded
      exactly when an unended subscriber selects it, a snapshot only on available data and
      agreeing with its topic, available snapshot capabilities never without one, available
      data never without a deadline, and every counter within u64. */
  lemma EveryTopicIsSound(s: State, p: Place, texts: set<JsonPayload>)
    requires Reachable(s, texts) && Placed(s.sessions, p)
    ensures Registered(s.catalog, p.key)
    ensures var topic := At(s.sessions, p);
            && (topic.state.health.Idle? <==> !topic.demanded)
            && (topic.demanded <==> Wanted(s, p))
            && (topic.state.snapshot.Some? ==>
                  var meta := topic.state.snapshot.value.metadata;
                  && topic.state.health.Available?
                  && meta.source == topic.state.source && meta.generation == topic.state.generation
                  && 0 < meta.sequence <= s.sequence)
            && (topic.state.health.Available? && CapabilityOf(s.catalog, p.key).snapshots ==> topic.state.snapshot.Some?)
            && (topic.state.health.Available? ==> topic.deadline.Some?)
            && 1 <= topic.state.generation <= U64_MAX && topic.epoch <= U64_MAX
    ensures s.sequence <= U64_MAX && Retained(s.sessions) <= RETAINED_SNAPSHOT_BYTES
  {
    ReachableInv(s, texts);
    Sweeps.ShapeAt(s.sessions, s.catalog, s.runId, p);
    DemandIsWanted(s, p);
  }

  lemma DemandIsWanted(s: State, p: Place)
    requires Settled(s) && Placed(s.sessions, p)
    ensures At(s.sessions, p).demanded <==> Wanted(s, p)
  {
    if At(s.sessions, p).demanded {
      var id :| id in s.subscribers
                && Selecting.Matches(s.subscribers[id].selection, s.sessions[p.id].info.session, p.key);
      assert !Gone(s, id);
    }
  }
}
