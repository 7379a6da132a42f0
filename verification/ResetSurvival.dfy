/** A verified source reset survives a rejected poll exactly once. */
module ResetSurvival {
  import opened Wire
  import opened Ordering
  import opened Service
  import opened Publication
  import opened Invariant
  import opened Sweeps
  import opened Settling
  import opened Discards

  /** A topic that the discard resets: in the batch's reset intents, and in the
      ticket at the generation the topic still has. The epoch plays no part. */
  predicate StillOwed(session: Session, ticket: PollTicket, resets: seq<TopicRef>, k: TopicRef) {
    && k in resets && k in ticket.topics && k in session.topics
    && session.topics[k].demanded
    && session.topics[k].state.generation == ticket.topics[k].generation
  }

  lemma DiscardedWants(s: State, mid: State, id: string, affected: map<TopicRef, bool>)
    requires DemandExact(s) && Discarded(s, mid, id, affected)
    ensures NoneNewlyWanted(mid)
  {
    forall p | Placed(mid.sessions, p) && Demanded(mid.subscribers, mid.sessions[p.id].info.session, p.key)
      ensures At(mid.sessions, p).demanded
    {
      assert FailedAt(s.sessions, mid.sessions, id, affected, affected.Keys, p);
      assert p.key in s.sessions[p.id].topics.Keys;
      assert Placed(s.sessions, p);
    }
  }

  /** Where each topic stands after a discard that proceeded. */
  ghost predicate Stands(s: State, t: State, id: string, affected: map<TopicRef, bool>, p: Place) {
    Placed(s.sessions, p) ==>
      && Placed(t.sessions, p)
      && Released(if p.id == id && p.key in affected then Failing(At(s.sessions, p), affected[p.key])
                  else At(s.sessions, p),
                  At(t.sessions, p))
  }

  lemma DiscardStands(s: State, ticket: PollTicket, resets: seq<TopicRef>, failed: bool, now: nat,
                      affected: map<TopicRef, bool>, t: State, texts: set<JsonPayload>)
    requires Inv(s, texts) && Proceeds(s, ticket, resets, failed) == Some(affected)
    requires t == DiscardPoll(s, ticket, resets, failed, now).0
    ensures SameFrame(s.sessions, t.sessions)
    ensures forall p :: Stands(s, t, ticket.sessionId, affected, p)
  {
    var mid := DiscardProceeds(s, ticket, resets, failed, now, affected, texts);
    DiscardedWants(s, mid, ticket.sessionId, affected);
    SettleReleases(mid, now, texts);
    forall p ensures Stands(s, t, ticket.sessionId, affected, p) {
      assert FailedAt(s.sessions, mid.sessions, ticket.sessionId, affected, affected.Keys, p);
    }
  }

  lemma StandsOwed(s: State, t: State, ticket: PollTicket, resets: seq<TopicRef>, failed: bool,
                   affected: map<TopicRef, bool>, p: Place)
    requires ticket.sessionId in s.sessions && Placed(s.sessions, p)
    requires affected == Affected(s.sessions[ticket.sessionId], ticket, resets, failed)
    requires Stands(s, t, ticket.sessionId, affected, p)
    ensures Placed(t.sessions, p)
    ensures At(t.sessions, p).state.generation
            == At(s.sessions, p).state.generation
               + if p.id == ticket.sessionId && StillOwed(s.sessions[p.id], ticket, resets, p.key) then 1 else 0
  {
  }

  /** The generation goes up by one exactly for the topics still owed a reset, even
      where expiry has moved the epoch meanwhile, and for no other topic. */
  lemma DiscardResetsOwed(s: State, ticket: PollTicket, resets: seq<TopicRef>, failed: bool, now: nat, p: Place,
                          t: State, texts: set<JsonPayload>)
    requires Inv(s, texts) && Proceeds(s, ticket, resets, failed).Some? && Placed(s.sessions, p)
    requires t == DiscardPoll(s, ticket, resets, failed, now).0
    ensures Placed(t.sessions, p)
    ensures At(t.sessions, p).state.generation
            == At(s.sessions, p).state.generation
               + if p.id == ticket.sessionId && StillOwed(s.sessions[p.id], ticket, resets, p.key) then 1 else 0
  {
    var affected := Proceeds(s, ticket, resets, failed).value;
    DiscardStands(s, ticket, resets, failed, now, affected, t, texts);
    assert Stands(s, t, ticket.sessionId, affected, p);
    StandsOwed(s, t, ticket, resets, failed, affected, p);
  }

  lemma NothingLeftAt(s: State, t: State, ticket: PollTicket, resets: seq<TopicRef>, failed: bool,
                      affected: map<TopicRef, bool>, k: TopicRef)
    requires ticket.sessionId in s.sessions && ticket.sessionId in t.sessions
    requires affected == Affected(s.sessions[ticket.sessionId], ticket, resets, failed)
    requires k in s.sessions[ticket.sessionId].topics
    requires Stands(s, t, ticket.sessionId, affected, Place(ticket.sessionId, k))
    ensures !StillOwed(t.sessions[ticket.sessionId], ticket, resets, k)
  {
    var p := Place(ticket.sessionId, k);
    assert At(s.sessions, p) == s.sessions[ticket.sessionId].topics[k];
    assert At(t.sessions, p) == t.sessions[ticket.sessionId].topics[k];
  }

  lemma QuietDiscard(t: State, ticket: PollTicket, resets: seq<TopicRef>, now: nat)
    requires t.sequence <= U64_MAX && Settled(t)
    requires !t.stopped && ticket.sessionId in t.sessions ==>
               forall k :: !StillOwed(t.sessions[ticket.sessionId], ticket, resets, k)
    ensures DiscardPoll(t, ticket, resets, false, now).0 == t
  {
    if !t.stopped && ticket.sessionId in t.sessions {
      var session := t.sessions[ticket.sessionId];
      var affected := Affected(session, ticket, resets, false);
      forall k ensures k in affected <==> StillOwed(session, ticket, resets, k) {
      }
      assert affected == map[];
      assert TopicsInOrder(affected.Keys) == [];
      ResetCountAtMost(affected);
      SettleIdempotent(t, now);
    }
  }

  lemma NothingOwed(s: State, ticket: PollTicket, resets: seq<TopicRef>, failed: bool, now: nat, t: State,
                    texts: set<JsonPayload>)
    requires Inv(s, texts) && Proceeds(s, ticket, resets, failed).Some?
    requires t == DiscardPoll(s, ticket, resets, failed, now).0
    ensures ticket.sessionId in t.sessions
    ensures forall k :: !StillOwed(t.sessions[ticket.sessionId], ticket, resets, k)
  {
    var id := ticket.sessionId;
    var affected := Proceeds(s, ticket, resets, failed).value;
    DiscardStands(s, ticket, resets, failed, now, affected, t, texts);
    forall k ensures !StillOwed(t.sessions[id], ticket, resets, k) {
      if k in t.sessions[id].topics.Keys {
        assert k in s.sessions[id].topics.Keys;
        assert Stands(s, t, id, affected, Place(id, k));
        NothingLeftAt(s, t, ticket, resets, failed, affected, k);
      }
    }
  }

  lemma NotProceeding(s: State, ticket: PollTicket, resets: seq<TopicRef>, failed: bool, now: nat)
    requires Proceeds(s, ticket, resets, failed).None?
    ensures var t := DiscardPoll(s, ticket, resets, failed, now).0;
            t.stopped || ticket.sessionId !in t.sessions
  {
    DiscardCases(s, ticket, resets, failed, now);
  }

  /** Discarding the same poll again, without a new failure, changes nothing. */
  lemma DiscardOnce(s: State, ticket: PollTicket, resets: seq<TopicRef>, failed: bool, now: nat, later: nat, t: State,
                    texts: set<JsonPayload>)
    requires Inv(s, texts) && t == DiscardPoll(s, ticket, resets, failed, now).0
    ensures DiscardPoll(t, ticket, resets, false, later).0 == t
  {
    DiscardInv(s, ticket, resets, failed, now, texts);
    if Proceeds(s, ticket, resets, failed).Some? {
      NothingOwed(s, ticket, resets, failed, now, t, texts);
    } else {
      NotProceeding(s, ticket, resets, failed, now);
    }
    QuietDiscard(t, ticket, resets, later);
  }

  // ---- the ticket handed back

  /** Every topic of the ticket still has the generation that the ticket recorded. */
  predicate AtTicketed(session: Session, ticket: PollTicket) {
    forall k :: k in ticket.topics ==>
      k in session.topics && session.topics[k].state.generation == ticket.topics[k].generation
  }

  ghost predicate DemandedKeys(session: Session, keys: set<TopicRef>) {
    forall k :: k in keys <==> k in session.topics && session.topics[k].demanded
  }

  lemma RebasedAt(s: State, t: State, ticket: PollTicket, resets: seq<TopicRef>, failed: bool,
                  affected: map<TopicRef, bool>, k: TopicRef)
    requires ticket.sessionId in s.sessions && ticket.sessionId in t.sessions
    requires affected == Affected(s.sessions[ticket.sessionId], ticket, resets, failed)
    requires k in s.sessions[ticket.sessionId].topics && k in t.sessions[ticket.sessionId].topics
    requires k in ticket.topics && t.sessions[ticket.sessionId].topics[k].demanded
    requires Stands(s, t, ticket.sessionId, affected, Place(ticket.sessionId, k))
    ensures s.sessions[ticket.sessionId].topics[k].demanded
    ensures t.sessions[ticket.sessionId].topics[k].state.generation
            == Rebased(ticket, s.sessions[ticket.sessionId], affected).topics[k].generation
            <==> s.sessions[ticket.sessionId].topics[k].state.generation == ticket.topics[k].generation
  {
    var p := Place(ticket.sessionId, k);
    assert At(s.sessions, p) == s.sessions[ticket.sessionId].topics[k];
    assert At(t.sessions, p) == t.sessions[ticket.sessionId].topics[k];
  }

  lemma SameDemandSpelled(t: State, ticket: PollTicket, rebased: PollTicket)
    requires !t.stopped && ticket.sessionId in t.sessions
    requires rebased.sessionId == ticket.sessionId && rebased.topics.Keys == ticket.topics.Keys
    ensures SameDemand(CurrentTicket(t, ticket.sessionId).value, rebased) <==>
            && DemandedKeys(t.sessions[ticket.sessionId], ticket.topics.Keys)
            && forall k :: k in ticket.topics && k in t.sessions[ticket.sessionId].topics ==>
                 t.sessions[ticket.sessionId].topics[k].state.generation == rebased.topics[k].generation
  {
    var session := t.sessions[ticket.sessionId];
    var current := CurrentTicket(t, ticket.sessionId).value;
    assert forall k :: k in current.topics <==> k in session.topics && session.topics[k].demanded;
    if SameDemand(current, rebased) {
      forall k ensures k in ticket.topics <==> k in session.topics && session.topics[k].demanded {
        assert k in current.topics.Keys <==> k in ticket.topics.Keys;
      }
    }
    if DemandedKeys(session, ticket.topics.Keys) {
      assert current.topics.Keys == rebased.topics.Keys;
    }
  }

  lemma RebasedAll(s: State, t: State, ticket: PollTicket, resets: seq<TopicRef>, failed: bool,
                   affected: map<TopicRef, bool>, rebased: PollTicket)
    requires ticket.sessionId in s.sessions && SameFrame(s.sessions, t.sessions)
    requires affected == Affected(s.sessions[ticket.sessionId], ticket, resets, failed)
    requires rebased == Rebased(ticket, s.sessions[ticket.sessionId], affected)
    requires forall p :: Stands(s, t, ticket.sessionId, affected, p)
    requires DemandedKeys(t.sessions[ticket.sessionId], ticket.topics.Keys)
    ensures AtTicketed(s.sessions[ticket.sessionId], ticket) <==>
            forall k :: k in ticket.topics && k in t.sessions[ticket.sessionId].topics ==>
              t.sessions[ticket.sessionId].topics[k].state.generation == rebased.topics[k].generation
  {
    var id := ticket.sessionId;
    forall k | k in ticket.topics
      ensures k in s.sessions[id].topics && k in t.sessions[id].topics
      ensures t.sessions[id].topics[k].state.generation == rebased.topics[k].generation
              <==> s.sessions[id].topics[k].state.generation == ticket.topics[k].generation
    {
      assert k in ticket.topics.Keys;
      assert k in t.sessions[id].topics.Keys;
      assert Stands(s, t, id, affected, Place(id, k));
      RebasedAt(s, t, ticket, resets, failed, affected, k);
    }
  }

  lemma ReturnsWhen(s: State, ticket: PollTicket, resets: seq<TopicRef>, failed: bool, now: nat,
                    affected: map<TopicRef, bool>, t: State, next: Option<PollTicket>, rebased: PollTicket)
    requires Proceeds(s, ticket, resets, failed) == Some(affected)
    requires (t, next) == DiscardPoll(s, ticket, resets, failed, now)
    requires ticket.sessionId in s.sessions && ticket.sessionId in t.sessions && !t.stopped
    requires rebased == Rebased(ticket, s.sessions[ticket.sessionId], affected)
    ensures next.Some? <==> SameDemand(CurrentTicket(t, ticket.sessionId).value, rebased)
    ensures next.Some? ==> Current(t, next.value)
  {
    DiscardCases(s, ticket, resets, failed, now);
  }

  lemma NeverReturns(s: State, ticket: PollTicket, resets: seq<TopicRef>, failed: bool, now: nat)
    ensures var (t, next) := DiscardPoll(s, ticket, resets, failed, now);
            (t.stopped || Proceeds(s, ticket, resets, failed).None?) ==> next.None?
  {
    DiscardCases(s, ticket, resets, failed, now);
  }

  /** A ticket comes back exactly when the service survived, the demanded topics are
      still those of the ticket, and each had the ticket's generation before the
      discard: no demand but the discard's own resets has changed. */
  lemma TicketReturnsIff(s: State, ticket: PollTicket, resets: seq<TopicRef>, failed: bool, now: nat, t: State,
                         next: Option<PollTicket>, texts: set<JsonPayload>)
    requires Inv(s, texts) && (t, next) == DiscardPoll(s, ticket, resets, failed, now)
    ensures next.Some? <==>
            && !t.stopped && ticket.sessionId in s.sessions && ticket.sessionId in t.sessions
            && DemandedKeys(t.sessions[ticket.sessionId], ticket.topics.Keys)
            && AtTicketed(s.sessions[ticket.sessionId], ticket)
    ensures next.Some? ==> Current(t, next.value)
  {
    hide DiscardPoll, Inv, Affected;
    NeverReturns(s, ticket, resets, failed, now);
    if Proceeds(s, ticket, resets, failed).None? {
      NotProceeding(s, ticket, resets, failed, now);
    } else if !t.stopped {
      var affected := Proceeds(s, ticket, resets, failed).value;
      var rebased := Rebased(ticket, s.sessions[ticket.sessionId], affected);
      DiscardStands(s, ticket, resets, failed, now, affected, t, texts);
      ReturnsWhen(s, ticket, resets, failed, now, affected, t, next, rebased);
      SameDemandSpelled(t, ticket, rebased);
      if DemandedKeys(t.sessions[ticket.sessionId], ticket.topics.Keys) {
        RebasedAll(s, t, ticket, resets, failed, affected, rebased);
      }
    }
  }

  lemma ReturnedIsCurrent(s: State, ticket: PollTicket, resets: seq<TopicRef>, failed: bool, now: nat, t: State,
                          next: Option<PollTicket>)
    requires (t, next) == DiscardPoll(s, ticket, resets, failed, now)
    ensures next.Some? ==> next == CurrentTicket(t, ticket.sessionId)
    ensures CurrentTicket(t, ticket.sessionId).Some? ==>
              !t.stopped && ticket.sessionId in s.sessions && ticket.sessionId in t.sessions
  {
    DiscardCases(s, ticket, resets, failed, now);
  }
}
