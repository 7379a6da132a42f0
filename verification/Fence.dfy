/** The publication fence: output gathered under a ticket is never published after
    one of its topics had a demand flip, an expiry or a reset. */
module Fence {
  import opened Wire
  import opened Service
  import opened PollBatch
  import opened Publication
  import opened Invariant
  import opened Commits
  import opened Epochs
  import opened Runs

  lemma PollStepForward(s: State, step: Step, t: State, id: string, texts: set<JsonPayload>)
    requires Inv(s, texts) && Honest(s, step, texts) && t == Next(s, step)
    requires step.CommitStep? || step.DiscardStep?
    ensures Forward(s, t, id)
  {
    match step
    case CommitStep(ticket, batch, manifest, deadline, now) =>
      CommitForward(s, ticket, batch, manifest, deadline, now, id, texts);
    case DiscardStep(ticket, resets, failed, now) => DiscardForward(s, ticket, resets, failed, now, id, texts);
  }

  lemma OtherStepForward(s: State, step: Step, t: State, id: string)
    requires t == Next(s, step) && !step.CommitStep? && !step.DiscardStep?
    ensures Forward(s, t, id)
  {
    match step
    case OpenStep(request, at, now) => OpenForward(s, request, at, now, id);
    case DropStep(n, now) => DropForward(s, n, now, id);
    case TakeStep(n) => SameSessions(s, t, id);
    case ExpireStep(now) => ExpireForward(s, now, id);
    case SyncStep(status, now) => SyncForward(s, status, now, id);
    case ShutdownStep => CloseForward(s, ServiceStopped, id);
  }

  /** Every step moves every topic of a session it neither starts nor ends onward. */
  lemma StepForward(s: State, step: Step, t: State, id: string, texts: set<JsonPayload>)
    requires Inv(s, texts) && Honest(s, step, texts) && t == Next(s, step)
    ensures Forward(s, t, id)
  {
    if step.CommitStep? || step.DiscardStep? {
      PollStepForward(s, step, t, id, texts);
    } else {
      OtherStepForward(s, step, t, id);
    }
  }

  /** The session is there before, throughout and after the run. */
  predicate Persists(s: State, steps: seq<Step>, id: string) {
    id in Run(s, steps).sessions && (steps != [] ==> Persists(s, steps[..|steps| - 1], id))
  }

  lemma {:induction false} RunForward(s: State, steps: seq<Step>, t: State, id: string, texts: set<JsonPayload>)
    requires Inv(s, texts) && HonestRun(s, steps, texts) && Persists(s, steps, id) && t == Run(s, steps)
    ensures Forward(s, t, id)
    decreases |steps|
  {
    hide Inv, Next, Honest;
    if steps != [] {
      var front := steps[..|steps| - 1];
      var mid := Run(s, front);
      RunForward(s, front, mid, id, texts);
      RunInv(s, front, texts);
      StepForward(mid, steps[|steps| - 1], t, id, texts);
      ForwardTrans(s, mid, t, id);
    }
  }

  /** A topic exactly as a ticket recorded it. */
  predicate AsTicketed(s: State, ticket: PollTicket, k: TopicRef) {
    && ticket.sessionId in s.sessions && k in s.sessions[ticket.sessionId].topics && k in ticket.topics
    && var topic := s.sessions[ticket.sessionId].topics[k];
    && topic.demanded
    && topic.epoch == ticket.topics[k].epoch
    && topic.state.generation == ticket.topics[k].generation
  }

  lemma Squeezed(a: State, b: State, c: State, ticket: PollTicket, k: TopicRef)
    requires Forward(a, b, ticket.sessionId) && Forward(b, c, ticket.sessionId) && !c.stopped
    requires ticket.sessionId in b.sessions
    requires AsTicketed(a, ticket, k) && AsTicketed(c, ticket, k)
    ensures AsTicketed(b, ticket, k)
  {
    var id := ticket.sessionId;
    assert k in b.sessions[id].topics.Keys;
    assert Onward(a.sessions[id].topics[k], b.sessions[id].topics[k]);
    assert Onward(b.sessions[id].topics[k], c.sessions[id].topics[k]);
  }

  lemma CommittedCurrent(s: State, ticket: PollTicket, batch: Pending, deadline: nat, now: nat, k: TopicRef)
    requires CommitPoll(s, ticket, batch, deadline, now).1 == Ok(true) && k in ticket.topics
    ensures AsTicketed(s, ticket, k) && !s.stopped
  {
    OutcomeCases(s, ticket, batch, deadline, now);
  }

  /** The fence over whole runs: when a ticket that was current once is accepted any
      number of steps later, then in every state in between each of its topics was
      still demanded at the ticket's very epoch and generation. */
  lemma FenceHolds(s: State, before: seq<Step>, after: seq<Step>, ticket: PollTicket, batch: Pending, deadline: nat,
                   now: nat, k: TopicRef, texts: set<JsonPayload>)
    requires Inv(s, texts) && k in ticket.topics && Current(s, ticket)
    requires var mid := Run(s, before);
             && HonestRun(s, before, texts) && Persists(s, before, ticket.sessionId)
             && HonestRun(mid, after, texts) && Persists(mid, after, ticket.sessionId)
             && CommitPoll(Run(mid, after), ticket, batch, deadline, now).1 == Ok(true)
    ensures AsTicketed(Run(s, before), ticket, k)
  {
    var mid := Run(s, before);
    var last := Run(mid, after);
    RunForward(s, before, mid, ticket.sessionId, texts);
    RunInv(s, before, texts);
    RunForward(mid, after, last, ticket.sessionId, texts);
    CommittedCurrent(last, ticket, batch, deadline, now, k);
    Squeezed(s, mid, last, ticket, k);
  }
}
