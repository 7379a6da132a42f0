/** The attachment lifecycle: discovery, attachment, and spaced retries. */
module Scheduling {
  import opened Wire
  import opened Service

  const DISCOVERY_INTERVAL: nat := 1000
  const RETRY_INTERVAL: nat := 5000

  /** An attachment is known by a token of the native backend. */
  datatype Tracked = Tracked(status: TargetStatus, attachment: Option<nat>, retryAt: Option<nat>)

  datatype Lifecycle = Lifecycle(
    targets: map<RecordedProcess, Tracked>,
    discoveryError: Option<string>,
    nextDiscovery: Option<nat>)

  const IDLE: Lifecycle := Lifecycle(map[], None, None)

  /** The clock reading at which an attempt is considered, the one at which it failed, and its result. */
  datatype Attempt = Attempt(checked: nat, ended: nat, outcome: Outcome)

  datatype Outcome = Attached(token: nat, sessionId: string) | AttachFailed(error: string)

  /** What the operating system and the clock do during one step. */
  datatype Surroundings = Surroundings(
    current: set<nat>,
    at: nat,
    listed: nat,
    discovered: Result<seq<TargetInfo>, string>,
    attempts: RecordedProcess -> Attempt)

  function Retried(t: Tracked, error: string, now: nat): Tracked {
    Tracked(t.status.(activity := Retrying(error)), None, Some(now + RETRY_INTERVAL))
  }

  predicate StillHeld(t: Tracked, current: set<nat>) {
    t.attachment.None? || t.attachment.value in current
  }

  /** Candidates by process; a later one of the same process replaces an earlier one. */
  function Candidates(found: seq<TargetInfo>): map<RecordedProcess, TargetInfo> {
    if found == [] then map[]
    else Candidates(found[..|found| - 1])[found[|found| - 1].process := found[|found| - 1]]
  }

  /** Already attached, or failed too recently to try again. */
  predicate Waits(t: Tracked, checked: nat) {
    t.attachment.Some? || (t.retryAt.Some? && checked < t.retryAt.value)
  }

  predicate Eligible(targets: map<RecordedProcess, Tracked>, p: RecordedProcess, checked: nat) {
    p !in targets || !Waits(targets[p], checked)
  }

  function Tried(info: TargetInfo, attempt: Attempt): Tracked {
    match attempt.outcome
    case Attached(token, sessionId) => Tracked(TargetStatus(info, Observing(sessionId)), Some(token), None)
    case AttachFailed(error) =>
      Tracked(TargetStatus(info, Retrying(error)), None, Some(attempt.ended + RETRY_INTERVAL))
  }

  function Kept(targets: map<RecordedProcess, Tracked>, current: set<nat>): map<RecordedProcess, Tracked> {
    map p | p in targets && StillHeld(targets[p], current) :: targets[p]
  }

  /** A missed enumeration evicts only targets without an attachment. */
  function Relevant(targets: map<RecordedProcess, Tracked>, candidates: map<RecordedProcess, TargetInfo>)
    : map<RecordedProcess, Tracked>
  {
    map p | p in targets && (targets[p].attachment.Some? || p in candidates) :: targets[p]
  }

  function TriedAt(targets: map<RecordedProcess, Tracked>, candidates: map<RecordedProcess, TargetInfo>,
                   attempts: RecordedProcess -> Attempt, p: RecordedProcess): Tracked
    requires p in targets || p in candidates
  {
    if p in candidates && Eligible(targets, p, attempts(p).checked) then Tried(candidates[p], attempts(p))
    else targets[p]
  }

  function TryAll(targets: map<RecordedProcess, Tracked>, candidates: map<RecordedProcess, TargetInfo>,
                  attempts: RecordedProcess -> Attempt): map<RecordedProcess, Tracked>
  {
    map p | p in targets.Keys + candidates.Keys :: TriedAt(targets, candidates, attempts, p)
  }

  function Step(l: Lifecycle, env: Surroundings): Lifecycle {
    var held := Kept(l.targets, env.current);
    if l.nextDiscovery.Some? && env.at < l.nextDiscovery.value then l.(targets := held)
    else
      match env.discovered
      case Err(error) => Lifecycle(held, Some(error), Some(env.listed + RETRY_INTERVAL))
      case Ok(found) =>
        var candidates := Candidates(found);
        Lifecycle(TryAll(Relevant(held, candidates), candidates, env.attempts), None,
                  Some(env.listed + DISCOVERY_INTERVAL))
  }

  datatype Event = Stepped(env: Surroundings) | Retired(process: RecordedProcess, error: string, now: nat)

  /** A step, or a held attachment whose verification failed while it was polled. */
  function Happens(l: Lifecycle, event: Event): Lifecycle {
    match event
    case Stepped(env) => Step(l, env)
    case Retired(p, error, now) =>
      if p in l.targets && l.targets[p].attachment.Some?
      then l.(targets := l.targets[p := Retried(l.targets[p], error, now)]) else l
  }

  function History(l: Lifecycle, events: seq<Event>): Lifecycle {
    if events == [] then l else Happens(History(l, events[..|events| - 1]), events[|events| - 1])
  }

  // ---- Observing exactly while attached

  predicate TrackedOk(t: Tracked) {
    && (t.status.activity.Observing? <==> t.attachment.Some?)
    && (t.attachment.None? <==> t.retryAt.Some?)
  }

  predicate LifecycleOk(l: Lifecycle) {
    forall p :: p in l.targets ==> TrackedOk(l.targets[p])
  }

  lemma HappensOk(l: Lifecycle, event: Event)
    requires LifecycleOk(l)
    ensures LifecycleOk(Happens(l, event))
  {
  }

  /** In every reachable state a target is reported as observed exactly while its attachment is held. */
  lemma {:induction false} ObservingIffAttached(events: seq<Event>)
    ensures LifecycleOk(History(IDLE, events))
  {
    if events != [] {
      ObservingIffAttached(events[..|events| - 1]);
      HappensOk(History(IDLE, events[..|events| - 1]), events[|events| - 1]);
    }
  }

  // ---- a current attachment is left alone

  /** The attachment is still current in every step, and no poll of it failed. */
  predicate StaysCurrent(event: Event, p: RecordedProcess, token: nat) {
    match event
    case Stepped(env) => token in env.current
    case Retired(q, _, _) => q != p
  }

  lemma HeldStep(l: Lifecycle, event: Event, p: RecordedProcess, token: nat)
    requires p in l.targets && l.targets[p].attachment == Some(token) && StaysCurrent(event, p, token)
    ensures p in Happens(l, event).targets && Happens(l, event).targets[p] == l.targets[p]
  {
  }

  /** An attachment that stays current keeps its session identity over the whole run: no
      missed, empty or failed discovery evicts it and no candidate replaces it. */
  lemma {:induction false} AttachmentsAreKept(l: Lifecycle, events: seq<Event>, p: RecordedProcess, token: nat)
    requires p in l.targets && l.targets[p].attachment == Some(token)
    requires forall e :: e in events ==> StaysCurrent(e, p, token)
    ensures p in History(l, events).targets && History(l, events).targets[p] == l.targets[p]
  {
    if events != [] {
      var front, last := events[..|events| - 1], events[|events| - 1];
      assert last in events && forall e :: e in front ==> e in events;
      AttachmentsAreKept(l, front, p, token);
      HeldStep(History(l, front), last, p, token);
    }
  }

  // ---- retries are spaced

  /** The step considers an attempt at the process and makes it. */
  predicate Attempts(l: Lifecycle, env: Surroundings, p: RecordedProcess) {
    && !(l.nextDiscovery.Some? && env.at < l.nextDiscovery.value)
    && env.discovered.Ok?
    && p in Candidates(env.discovered.value)
    && Eligible(Relevant(Kept(l.targets, env.current), Candidates(env.discovered.value)), p, env.attempts(p).checked)
  }

  /** A step that enumerates lists the process. */
  predicate Lists(env: Surroundings, p: RecordedProcess) {
    env.discovered.Ok? ==> p in Candidates(env.discovered.value)
  }

  predicate StaysListed(event: Event, p: RecordedProcess) {
    event.Stepped? ==> Lists(event.env, p)
  }

  predicate FailedUntil(l: Lifecycle, p: RecordedProcess, deadline: nat) {
    p in l.targets && l.targets[p].attachment.None? && l.targets[p].retryAt == Some(deadline)
  }

  lemma WaitingStep(l: Lifecycle, event: Event, p: RecordedProcess, deadline: nat)
    requires FailedUntil(l, p, deadline) && StaysListed(event, p)
    requires event.Stepped? && Attempts(l, event.env, p) ==> event.env.attempts(p).checked < deadline
    ensures FailedUntil(Happens(l, event), p, deadline)
    ensures !(event.Stepped? && Attempts(l, event.env, p))
  {
  }

  /** A process whose attachment failed and which stays listed is not tried again before
      the retry interval has passed: any attempt that a later step makes is considered at
      or after the deadline set by the failure. */
  lemma {:induction false} RetriesAreSpaced(l: Lifecycle, events: seq<Event>, last: Surroundings, p: RecordedProcess,
                                            deadline: nat)
    requires FailedUntil(l, p, deadline)
    requires forall i :: 0 <= i < |events| ==>
               StaysListed(events[i], p)
               && !(events[i].Stepped? && Attempts(History(l, events[..i]), events[i].env, p))
    requires Attempts(History(l, events), last, p)
    ensures last.attempts(p).checked >= deadline
  {
    WaitsThroughout(l, events, p, deadline);
    if last.attempts(p).checked < deadline {
      WaitingStep(History(l, events), Stepped(last), p, deadline);
    }
  }

  lemma {:induction false} WaitsThroughout(l: Lifecycle, events: seq<Event>, p: RecordedProcess, deadline: nat)
    requires FailedUntil(l, p, deadline)
    requires forall i :: 0 <= i < |events| ==>
               StaysListed(events[i], p)
               && !(events[i].Stepped? && Attempts(History(l, events[..i]), events[i].env, p))
    ensures FailedUntil(History(l, events), p, deadline)
  {
    if events != [] {
      var n := |events| - 1;
      forall i | 0 <= i < n ensures events[..n][..i] == events[..i] {
      }
      WaitsThroughout(l, events[..n], p, deadline);
      WaitingStep(History(l, events[..n]), events[n], p, deadline);
    }
  }

  /** Both ways of failing set the deadline one retry interval ahead. */
  lemma FailuresSetDeadline(l: Lifecycle, event: Event, p: RecordedProcess)
    requires LifecycleOk(l)
    ensures event.Stepped? && Attempts(l, event.env, p) && event.env.attempts(p).outcome.AttachFailed? ==>
              FailedUntil(Happens(l, event), p, event.env.attempts(p).ended + RETRY_INTERVAL)
    ensures event.Retired? && event.process == p && p in l.targets && l.targets[p].attachment.Some? ==>
              FailedUntil(Happens(l, event), p, event.now + RETRY_INTERVAL)
  {
  }

  /** The targets when only some candidates have been considered. */
  function TriedUpTo(targets: map<RecordedProcess, Tracked>, candidates: map<RecordedProcess, TargetInfo>,
                     attempts: RecordedProcess -> Attempt, done: set<RecordedProcess>): map<RecordedProcess, Tracked>
  {
    map p | p in targets.Keys + (candidates.Keys * done) ::
      if p in done then TriedAt(targets, candidates, attempts, p) else targets[p]
  }

  lemma TriedNone(targets: map<RecordedProcess, Tracked>, candidates: map<RecordedProcess, TargetInfo>,
                  attempts: RecordedProcess -> Attempt)
    ensures TriedUpTo(targets, candidates, attempts, candidates.Keys - candidates.Keys) == targets
  {
  }

  lemma TriedEvery(targets: map<RecordedProcess, Tracked>, candidates: map<RecordedProcess, TargetInfo>,
                   attempts: RecordedProcess -> Attempt)
    ensures TriedUpTo(targets, candidates, attempts, candidates.Keys) == TryAll(targets, candidates, attempts)
  {
  }

  lemma TriedOne(targets: map<RecordedProcess, Tracked>, candidates: map<RecordedProcess, TargetInfo>,
                 attempts: RecordedProcess -> Attempt, done: set<RecordedProcess>, p: RecordedProcess)
    requires p in candidates && p !in done
    ensures var tried := TriedUpTo(targets, candidates, attempts, done);
            TriedUpTo(targets, candidates, attempts, done + {p})
            == if Eligible(tried, p, attempts(p).checked) then tried[p := Tried(candidates[p], attempts(p))] else tried
  {
    var tried := TriedUpTo(targets, candidates, attempts, done);
    assert p in tried <==> p in targets;
    assert targets.Keys + (candidates.Keys * (done + {p})) == targets.Keys + (candidates.Keys * done) + {p};
  }

  /** The worker object. */
  class Worker {
    var targets: map<RecordedProcess, Tracked>
    var discoveryError: Option<string>
    var nextDiscovery: Option<nat>

    function State(): Lifecycle
      reads this
    {
      Lifecycle(targets, discoveryError, nextDiscovery)
    }

    constructor ()
      ensures State() == IDLE
    {
      targets, discoveryError, nextDiscovery := map[], None, None;
    }

    /** Attempts each candidate at most once, in any order, recording an attaching target first. */
    static method Try(start: map<RecordedProcess, Tracked>, candidates: map<RecordedProcess, TargetInfo>,
                      attempts: RecordedProcess -> Attempt) returns (targets: map<RecordedProcess, Tracked>)
      ensures targets == TryAll(start, candidates, attempts)
    {
      hide TriedUpTo, TryAll;
      targets := start;
      TriedNone(start, candidates, attempts);
      var left := candidates.Keys;
      while left != {}
        invariant left <= candidates.Keys && targets == TriedUpTo(start, candidates, attempts, candidates.Keys - left)
        decreases |left|
      {
        var p :| p in left;
        TriedOne(start, candidates, attempts, candidates.Keys - left, p);
        assert candidates.Keys - (left - {p}) == candidates.Keys - left + {p};
        left := left - {p};
        var attempt := attempts(p);
        if p in targets && (targets[p].attachment.Some?
                            || (targets[p].retryAt.Some? && attempt.checked < targets[p].retryAt.value))
        {
          continue;
        }
        targets := targets[p := Tracked(TargetStatus(candidates[p], Attaching), None, None)];
        match attempt.outcome {
          case Attached(token, sessionId) =>
            targets := targets[p := Tracked(TargetStatus(candidates[p], Observing(sessionId)), Some(token), None)];
          case AttachFailed(error) =>
            targets := targets[p := Tracked(TargetStatus(candidates[p], Retrying(error)), None,
                                            Some(attempt.ended + RETRY_INTERVAL))];
        }
      }
      TriedEvery(start, candidates, attempts);
      assert candidates.Keys - left == candidates.Keys;
    }

    method Advance(env: Surroundings)
      modifies this
      ensures State() == Step(old(State()), env)
    {
      targets := Kept(targets, env.current);
      if nextDiscovery.Some? && env.at < nextDiscovery.value {
        return;
      }
      if env.discovered.Err? {
        discoveryError := Some(env.discovered.error);
        nextDiscovery := Some(env.listed + RETRY_INTERVAL);
        return;
      }
      discoveryError := None;
      nextDiscovery := Some(env.listed + DISCOVERY_INTERVAL);
      var candidates := Candidates(env.discovered.value);
      targets := Relevant(targets, candidates);
      targets := Try(targets, candidates, env.attempts);
    }

    method Retire(p: RecordedProcess, error: string, now: nat)
      modifies this
      ensures State() == Happens(old(State()), Retired(p, error, now))
    {
      if p in targets && targets[p].attachment.Some? {
        targets := targets[p := Tracked(targets[p].status.(activity := Retrying(error)), None,
                                        Some(now + RETRY_INTERVAL))];
      }
    }
  }
}
