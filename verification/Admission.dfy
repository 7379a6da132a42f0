/** When a subscription request is admitted. */
module Admission {
  import opened Wire
  import opened WireSize
  import opened Selecting
  import opened Ordering
  import opened Views
  import opened Service
  import opened Streams
  import opened Invariant
  import opened Settling
  import opened Subscribing
  import PollAdmission
  import Flips
  import Journal

  /** A session of this run that is there, named by legal identifiers. */
  predicate Present(s: State, reference: SessionRef) {
    && Identifier(reference.runId) && Identifier(reference.sessionId)
    && reference.runId == s.runId && reference.sessionId in s.sessions
  }

  /** Some topic is asked for, every one is registered, and those of one session belong to its provider. */
  predicate Answerable(s: State, request: Subscribe) {
    && request.topics != []
    && (forall k :: k in request.topics ==> PollAdmission.Addressable(s.catalog, k))
    && (request.sessions.OneSession? ==>
          && Present(s, request.sessions.reference)
          && forall k :: k in request.topics ==>
               k.providerId == s.sessions[request.sessions.reference.sessionId].info.providerId)
  }

  function Sizes(frames: seq<SubscriptionItem>): nat {
    if frames == [] then 0 else ReplySize(frames[0]) + Sizes(frames[1..])
  }

  predicate Deliverable(frames: seq<SubscriptionItem>, messageBytes: nat) {
    && (forall i :: 0 <= i < |frames| ==> ReplySize(frames[i]) <= messageBytes)
    && Sizes(frames) <= 32 * 1024 * 1024
  }

  lemma {:induction false} DeliverableIff(frames: seq<SubscriptionItem>, bytes: nat, messageBytes: nat)
    ensures FramesExceed(frames, bytes, messageBytes).None?
            <==> (forall i :: 0 <= i < |frames| ==> ReplySize(frames[i]) <= messageBytes)
                 && (frames == [] || bytes + Sizes(frames) <= RETAINED_SNAPSHOT_BYTES)
    decreases |frames|
  {
    hide ReplySize;
    if frames != [] {
      DeliverableIff(frames[1..], bytes + ReplySize(frames[0]), messageBytes);
      assert forall i :: 0 <= i < |frames| ==> i == 0 || frames[i] == frames[1..][i - 1];
      assert forall i :: 0 <= i < |frames[1..]| ==> frames[1..][i] == frames[i + 1];
    }
  }

  lemma CheckedTopicIff(s: State, selector: SessionSelector, k: TopicRef)
    ensures CheckTopic(s, selector, k).None?
            <==> && PollAdmission.Addressable(s.catalog, k)
                 && (selector.OneSession? ==>
                       && Present(s, selector.reference)
                       && s.sessions[selector.reference.sessionId].info.providerId == k.providerId)
  {
    hide FindCapability, PollAdmission.Addressable;
    PollAdmission.FindsIff(s.catalog, k);
  }

  lemma {:induction false} CheckedTopicsIff(s: State, selector: SessionSelector, keys: seq<TopicRef>)
    ensures CheckTopics(s, selector, keys).None? <==> forall k :: k in keys ==> CheckTopic(s, selector, k).None?
    decreases |keys|
  {
    hide CheckTopic;
    if keys != [] {
      CheckedTopicsIff(s, selector, keys[1..]);
      assert keys == [keys[0]] + keys[1..];
    }
  }

  lemma CheckedIff(s: State, request: Subscribe)
    ensures CheckSelection(s, Normalize(request)).None? <==> !s.stopped && Answerable(s, request)
  {
    hide CheckTopic, PollAdmission.Addressable;
    var selection := Normalize(request);
    var keys := TopicsInOrder(selection.topics);
    CheckedTopicsIff(s, selection.sessions, keys);
    forall k ensures k in keys <==> k in request.topics {
    }
    forall k | k in keys
      ensures CheckTopic(s, selection.sessions, k).None?
              <==> && PollAdmission.Addressable(s.catalog, k)
                   && (selection.sessions.OneSession? ==>
                         && Present(s, selection.sessions.reference)
                         && s.sessions[selection.sessions.reference.sessionId].info.providerId == k.providerId)
    {
      CheckedTopicIff(s, selection.sessions, k);
    }
    if request.topics != [] { assert request.topics[0] in selection.topics; }
    if selection.topics != {} {
      var k :| k in selection.topics;
      assert k in request.topics;
    }
    assert selection.sessions.OneSession? ==>
        (FindSession(s, selection.sessions.reference).Ok? <==> Present(s, selection.sessions.reference));
  }

  /** The state in which the bootstrap of a new subscriber would be captured. */
  function Demanding(s: State, request: Subscribe, now: nat): State {
    Settle(Enroll(s, s.nextSubscription + 1, Normalize(request)), now)
  }

  lemma CapturedIff(s: State, request: Subscribe, now: nat, texts: set<JsonPayload>)
    requires Inv(s, texts) && !s.stopped && SelectionOk(Normalize(request), s.catalog) && s.nextSubscription < U64_MAX
    ensures var settled := Demanding(s, request, now);
            Capture(settled, s.nextSubscription + 1).Ok?
            <==> !settled.stopped && Deliverable(Bootstrap(settled, Normalize(request)), s.messageBytes)
  {
    hide Inv, Settle, Bootstrap, FramesExceed, Steady, Sizes;
    var id := s.nextSubscription + 1;
    var settled := Demanding(s, request, now);
    var enrolled := Enroll(s, id, Normalize(request));
    InvSteady(s, texts);
    Flips.NewIdentity(s, texts);
    EnrollSteady(s, id, Normalize(request), texts);
    SettleSteady(enrolled, now, texts);
    NewcomerStays(enrolled, id, now);
    StoppedIsEmpty(settled, texts);
    DeliverableIff(Bootstrap(settled, Normalize(request)), 0, s.messageBytes);
    assert Bootstrap(settled, Normalize(request)) != [] by { NeverEmpty(settled, Normalize(request)); }
  }

  lemma NeverEmpty(s: State, selection: Selection)
    ensures Bootstrap(s, selection) != []
  {
  }

  lemma StoppedIsEmpty(s: State, texts: set<JsonPayload>)
    requires Steady(s, texts)
    ensures s.stopped ==> s.subscribers == map[]
  {
  }

  /** A subscriber that has no handle yet outlasts every round but a closing one. */
  lemma {:induction false} NewcomerStays(s: State, id: nat, now: nat)
    requires id in s.subscribers && id !in s.channels
    ensures !Settle(s, now).stopped ==> id in Settle(s, now).subscribers
    decreases |Live(s)|
  {
    hide SettleRound, Live;
    var next := SettleRound(s, now);
    RoundKeepsNewcomer(s, id, now);
    if Unsettled(next) {
      RoundLoses(s, now);
      if next.stopped { StoppedSettles(next, now); } else { NewcomerStays(next, id, now); }
    }
  }

  lemma StoppedSettles(s: State, now: nat)
    requires s.stopped
    ensures Settle(s, now).stopped
  {
    hide Settle;
    Journal.SettleStopped(s, now);
  }

  lemma RoundKeepsNewcomer(s: State, id: nat, now: nat)
    requires id in s.subscribers && id !in s.channels
    ensures var t := SettleRound(s, now); !t.stopped ==> id in t.subscribers && id !in t.channels
  {
    hide SweepAll, EmitAll;
    var live := RetainLive(s);
    var swept := SweepAll(live.sessions, Reconcile(live.subscribers, now));
    if !swept.exhausted {
      EmitAllFrame(NoteChanges(live, swept), swept.changes);
      assert id !in SettleRound(s, now).channels.Keys;
    }
  }

  // ---- the law

  lemma SetUpIff(s: State, request: Subscribe, now: nat, texts: set<JsonPayload>)
    requires Inv(s, texts)
    ensures OpenChecked(s, Normalize(request), now).1.Ok?
            <==> && !s.stopped && Answerable(s, request) && s.nextSubscription < U64_MAX
                 && !Demanding(s, request, now).stopped
                 && Deliverable(Bootstrap(Demanding(s, request, now), Normalize(request)), s.messageBytes)
  {
    hide Inv, Settle, Answerable, CheckSelection, Bootstrap, Capture, Deliverable;
    CheckedIff(s, request);
    if CheckSelection(s, Normalize(request)).None? && s.nextSubscription < U64_MAX {
      CheckedSelection(s, Normalize(request));
      CapturedIff(s, request, now, texts);
    }
  }

  /** Expiry changes nothing that a request is checked against. */
  lemma AnswerableAfter(s: State, expired: State, request: Subscribe)
    requires Frame(s, expired)
    ensures Answerable(expired, request) <==> Answerable(s, request)
  {
    if request.sessions.OneSession? {
      var id := request.sessions.reference.sessionId;
      assert id in s.sessions.Keys <==> id in expired.sessions.Keys;
    }
  }

  /** The law of admission, for every request: it is admitted exactly when it fits its frame,
      asks for registered topics only, of one present session's own provider if it names one,
      an identity is left, no counter runs out while overdue topics expire and its demand is
      created, and each frame of its bootstrap and all of them together fit. */
  lemma AdmittedIff(s: State, request: Subscribe, at: nat, now: nat, texts: set<JsonPayload>)
    requires Inv(s, texts)
    ensures var expired := Expire(s, at);
            Service.Open(s, request, at, now).1.Ok?
            <==> && SubscribeSize(request) <= s.messageBytes
                 && Answerable(s, request) && s.nextSubscription < U64_MAX
                 && !expired.stopped && !Demanding(expired, request, now).stopped
                 && Deliverable(Bootstrap(Demanding(expired, request, now), Normalize(request)), s.messageBytes)
  {
    hide Inv, OpenChecked, Expire, Bootstrap, Answerable, Demanding, Deliverable;
    ExpireInv(s, at, texts);
    AnswerableAfter(s, Expire(s, at), request);
    SetUpIff(Expire(s, at), request, now, texts);
  }
}
