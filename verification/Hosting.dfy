/** The host's bookkeeping around provider polls. */
module Hosting {
  import opened Wire
  import opened Service
  import opened PollBatch
  import opened Publication

  const MIN_POLL: nat := 25
  const RETRY_DELAY: nat := 1000

  datatype Schedule = After(delay: nat) | Idle

  /** Tickets of the last poll, as demand and as generations, and when to poll next;
      between the two halves of a poll, the ticket it runs under. */
  datatype Host = Host(
    lastDemand: Option<PollTicket>,
    generations: Option<PollTicket>,
    nextPoll: Option<nat>,
    inFlight: Option<PollTicket>)

  const STARTED: Host := Host(None, None, None, None)

  predicate DemandChanged(h: Host, ticket: PollTicket) {
    h.lastDemand.None? || !SameDemand(ticket, h.lastDemand.value)
  }

  /** A poll is due when demand changed, or when its time has come. */
  predicate Due(h: Host, ticket: PollTicket, now: nat) {
    DemandChanged(h, ticket) || (h.nextPoll.Some? && now >= h.nextPoll.value)
  }

  /** The topics whose generation the provider is told to begin. */
  function Begun(h: Host, ticket: PollTicket): set<TopicRef> {
    set k | k in ticket.topics && Moved(h.generations, ticket, k)
  }

  predicate Moved(generations: Option<PollTicket>, ticket: PollTicket, k: TopicRef) {
    generations.None? || !SameGeneration(ticket, generations.value, k)
  }

  /** Collects the topics to begin, one by one. */
  method CollectBegun(generations: Option<PollTicket>, ticket: PollTicket) returns (begun: set<TopicRef>)
    ensures forall k :: k in begun <==> k in ticket.topics && Moved(generations, ticket, k)
  {
    begun := {};
    var left := ticket.topics.Keys;
    while left != {}
      invariant left <= ticket.topics.Keys
      invariant forall k :: k in begun <==> k in ticket.topics && k !in left && Moved(generations, ticket, k)
      decreases |left|
    {
      var k :| k in left;
      if Moved(generations, ticket, k) {
        begun := begun + {k};
      }
      left := left - {k};
    }
  }

  function BeginPoll(h: Host, ticket: PollTicket): Host {
    h.(generations := Some(ticket), inFlight := Some(ticket))
  }

  /** When to poll again and until when the output counts, within the clock's range. */
  function Deadlines(schedule: Schedule, end: nat, range: nat): Option<(Option<nat>, nat)> {
    var next: Option<nat> := match schedule
                             case After(delay) => Some(end + if delay < MIN_POLL then MIN_POLL else delay)
                             case Idle => None;
    var deadline := (if next.Some? then next.value else end) + POLL_GRACE;
    if deadline <= range then Some((next, deadline)) else None
  }

  /** How the provider's side of a poll ended. */
  datatype Result = Polled(schedule: Schedule) | ProviderError

  /** A discarded poll: what the service hands back replaces the demand on record. */
  function Reject(h: Host, s: State, ticket: PollTicket, batch: Pending, failed: bool, end: nat, now: nat): (Host, State) {
    var (t, next) := DiscardPoll(s, ticket, batch.resets, failed, now);
    (h.(lastDemand := next, nextPoll := Some(end + RETRY_DELAY), inFlight := None), t)
  }

  function CommitOrReject(h: Host, s: State, ticket: PollTicket, batch: Pending, next: Option<nat>, deadline: nat, end: nat,
                   now: nat): (Host, State)
  {
    var (t, verdict) := CommitPoll(s, ticket, batch, deadline, now);
    match verdict
    case Ok(true) =>
      (Host(Some(RebaseResets(ticket, batch.resets)), Some(RebaseResets(ticket, batch.resets)), next, None), t)
    case Ok(false) => Reject(h, t, ticket, batch, false, end, now)
    case Err(_) => Reject(h, t, ticket, batch, true, end, now)
  }

  /** The second half of a poll. The commit and a discard after it see the service in turn. */
  function EndPoll(h: Host, s: State, batch: Pending, result: Result, end: nat, range: nat, now: nat): (Host, State) {
    if h.inFlight.None? then (h, s)
    else
      var ticket := h.inFlight.value;
      match result
      case ProviderError => Reject(h, s, ticket, batch, true, end, now)
      case Polled(schedule) =>
        match Deadlines(schedule, end, range)
        case None => Reject(h, s, ticket, batch, true, end, now)
        case Some((next, deadline)) => CommitOrReject(h, s, ticket, batch, next, deadline, end, now)
  }

  function PlanFor(result: Result, end: nat, range: nat): Option<(Option<nat>, nat)> {
    if result.Polled? then Deadlines(result.schedule, end, range) else None
  }

  /** Every ending but an accepted commit is a rejection, with the service as the commit left it. */
  lemma EndPollCases(h: Host, s: State, batch: Pending, result: Result, end: nat, range: nat, now: nat)
    requires h.inFlight.Some?
    ensures var ticket := h.inFlight.value;
            var plan := PlanFor(result, end, range);
            if plan.None? then
              EndPoll(h, s, batch, result, end, range, now) == Reject(h, s, ticket, batch, true, end, now)
            else
              var (t, verdict) := CommitPoll(s, ticket, batch, plan.value.1, now);
              verdict != Ok(true) ==>
                EndPoll(h, s, batch, result, end, range, now) == Reject(h, t, ticket, batch, verdict.Err?, end, now)
  {
  }

  /** The next poll is never scheduled sooner than the least delay, and the deadline
      of the published data always outlasts it by the grace period. */
  lemma DeadlinesOutlast(schedule: Schedule, end: nat, range: nat)
    ensures var d := Deadlines(schedule, end, range);
            && (d.None? <==> end + POLL_GRACE > range
                             || (schedule.After? && (end + schedule.delay + POLL_GRACE > range
                                                     || end + MIN_POLL + POLL_GRACE > range)))
            && (d.Some? && schedule.Idle? ==> d.value == (None, end + POLL_GRACE))
            && (d.Some? && schedule.After? ==>
                  && d.value.0.Some? && d.value.1 == d.value.0.value + POLL_GRACE
                  && d.value.0.value >= end + MIN_POLL && d.value.0.value >= end + schedule.delay
                  && (d.value.0.value == end + MIN_POLL || d.value.0.value == end + schedule.delay))
  {
  }

  /** The bookkeeping fields of a hosted session. Service and provider calls are made
      between its methods, with the tickets and verdicts passed in. */
  class HostedSession {
    var lastDemand: Option<PollTicket>
    var generations: Option<PollTicket>
    var nextPoll: Option<nat>
    var inFlight: Option<PollTicket>

    function State(): Host
      reads this
    {
      Host(lastDemand, generations, nextPoll, inFlight)
    }

    constructor ()
      ensures State() == STARTED
    {
      lastDemand, generations, nextPoll, inFlight := None, None, None, None;
    }

    /** Decides whether to poll now; if so, which generations the provider must begin. */
    method Start(ticket: PollTicket, now: nat) returns (due: bool, begun: set<TopicRef>)
      modifies this
      ensures due == Due(old(State()), ticket, now)
      ensures due ==> begun == Begun(old(State()), ticket) && State() == BeginPoll(old(State()), ticket)
      ensures !due ==> begun == {} && State() == old(State())
    {
      begun := {};
      var changed := lastDemand.None? || !SameDemand(ticket, lastDemand.value);
      if !changed && (nextPoll.None? || now < nextPoll.value) {
        return false, begun;
      }
      begun := CollectBegun(generations, ticket);
      assert begun == Begun(State(), ticket);
      generations := Some(ticket);
      inFlight := Some(ticket);
      due := true;
    }

    /** Records an accepted poll: its own resets are part of what the provider knows. */
    method Accepted(ticket: PollTicket, resets: seq<TopicRef>, next: Option<nat>)
      requires inFlight == Some(ticket) && generations == Some(ticket)
      modifies this
      ensures State() == Host(Some(RebaseResets(ticket, resets)), Some(RebaseResets(ticket, resets)), next, None)
    {
      lastDemand := Some(ticket);
      nextPoll := next;
      generations := Some(RebaseResets(generations.value, resets));
      lastDemand := Some(RebaseResets(lastDemand.value, resets));
      inFlight := None;
    }

    /** Records a rejected poll with the ticket that the service handed back, if any. */
    method Rejected(next: Option<PollTicket>, end: nat)
      modifies this
      ensures State() == old(State()).(lastDemand := next, nextPoll := Some(end + RETRY_DELAY), inFlight := None)
    {
      lastDemand := next;
      nextPoll := Some(end + RETRY_DELAY);
      inFlight := None;
    }
  }
}
