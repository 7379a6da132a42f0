/** When the host polls next, after a poll that was accepted. */
module PollTimes {
  import opened Wire
  import opened Service
  import opened PollBatch
  import opened Publication
  import opened Commits
  import opened Hosting

  /** The ticket asks for what was asked before, one generation on for each topic that the
      accepted poll itself reset. */
  predicate Unchanged(ticket: PollTicket, resets: seq<TopicRef>, later: PollTicket) {
    && later.sessionId == ticket.sessionId && later.topics.Keys == ticket.topics.Keys
    && forall k :: k in ticket.topics ==>
         later.topics[k].generation == ticket.topics[k].generation + if k in resets then 1 else 0
  }

  /** The provider's delay, but never less than the least one. */
  function Pause(delay: nat): nat {
    if delay < 25 then 25 else delay
  }

  /** Until when the output of a poll counts: five seconds past the next poll, or past this one. */
  function CountsUntil(schedule: Schedule, end: nat): nat {
    end + 5000 + match schedule case After(delay) => Pause(delay) case Idle => 0
  }

  lemma {:induction false} ResetIn(ops: seq<Operation>, k: TopicRef)
    requires k in ResetsOf(ops)
    ensures exists op :: op in ops && op == ResetOp(k)
    decreases |ops|
  {
    var front, last := ops[..|ops| - 1], ops[|ops| - 1];
    if last == ResetOp(k) {
      assert last in ops;
    } else {
      ResetIn(front, k);
      var op :| op in front && op == ResetOp(k);
      assert op in ops;
    }
  }

  /** The resets of an accepted poll do not run a counter of its ticket out. */
  lemma AcceptedCounts(s: State, ticket: PollTicket, batch: Pending, manifest: Manifest, deadline: nat, now: nat)
    requires WellFormed(batch, manifest) && CommitPoll(s, ticket, batch, deadline, now).1 == Ok(true)
    ensures forall k :: k in ticket.topics && k in batch.resets ==> ticket.topics[k].generation < U64_MAX
  {
    hide Vet, Reserve, Settle, Landed, CommitPoll, Close;
    OutcomeCases(s, ticket, batch, deadline, now);
    forall k | k in ticket.topics && k in batch.resets ensures ticket.topics[k].generation < U64_MAX {
      ResetIn(batch.ops, k);
    }
  }

  /** After an accepted poll the host polls an unchanged demand again exactly from the
      provider's delay after the poll ended, an idle one not at all, and a changed demand at
      once; nothing is in flight. */
  lemma AcceptedWaits(h: Host, s: State, ticket: PollTicket, batch: Pending, manifest: Manifest, schedule: Schedule,
                      end: nat, range: nat, now: nat, later: PollTicket, time: nat)
    requires h.inFlight == Some(ticket) && WellFormed(batch, manifest) && CountsUntil(schedule, end) <= range
    requires CommitPoll(s, ticket, batch, CountsUntil(schedule, end), now).1 == Ok(true)
    ensures var (next, t) := EndPoll(h, s, batch, Polled(schedule), end, range, now);
            && t == CommitPoll(s, ticket, batch, CountsUntil(schedule, end), now).0
            && next.inFlight.None?
            && next.nextPoll == (match schedule case After(delay) => Some(end + Pause(delay)) case Idle => None)
            && (Due(next, later, time) <==>
                  !Unchanged(ticket, batch.resets, later) || (schedule.After? && time >= end + Pause(schedule.delay)))
  {
    hide CommitPoll, WellFormed;
    AcceptedCounts(s, ticket, batch, manifest, CountsUntil(schedule, end), now);
    SameAsUnchanged(ticket, batch.resets, later);
  }

  lemma SameAsUnchanged(ticket: PollTicket, resets: seq<TopicRef>, later: PollTicket)
    requires forall k :: k in ticket.topics && k in resets ==> ticket.topics[k].generation < U64_MAX
    ensures SameDemand(later, RebaseResets(ticket, resets)) <==> Unchanged(ticket, resets, later)
  {
    assert RebaseResets(ticket, resets).topics.Keys == ticket.topics.Keys;
  }

  /** A poll whose output would count past the range of the clock is discarded as failed. */
  lemma OutOfRangeFails(h: Host, s: State, ticket: PollTicket, batch: Pending, schedule: Schedule, end: nat, range: nat,
                        now: nat)
    requires h.inFlight == Some(ticket) && CountsUntil(schedule, end) > range
    ensures var (next, t) := EndPoll(h, s, batch, Polled(schedule), end, range, now);
            && (t, next.lastDemand) == DiscardPoll(s, ticket, batch.resets, true, now)
            && next.nextPoll == Some(end + 1000) && next.inFlight.None?
  {
    hide DiscardPoll;
  }
}
