/** What one lifecycle step makes of each process, case by case. */
module Attachments {
  import opened Wire
  import opened Service
  import opened Scheduling

  /** The last listing of a process in an enumeration. */
  predicate LastListed(found: seq<TargetInfo>, p: RecordedProcess, i: nat) {
    i < |found| && found[i].process == p && forall j :: i < j < |found| ==> found[j].process != p
  }

  predicate Unlisted(found: seq<TargetInfo>, p: RecordedProcess) {
    forall i :: 0 <= i < |found| ==> found[i].process != p
  }

  /** What an attempt at a listed target records: its own session and token, or its error and
      a deadline one retry interval after it ended. */
  predicate RecordedAs(target: TargetInfo, attempt: Attempt, t: Tracked) {
    && t.status.target == target
    && match attempt.outcome
       case Attached(token, sessionId) =>
         t.status.activity == Observing(sessionId) && t.attachment == Some(token) && t.retryAt.None?
       case AttachFailed(error) =>
         t.status.activity == Retrying(error) && t.attachment.None? && t.retryAt == Some(attempt.ended + 5000)
  }

  /** The process was tried in this step, and is tracked by what came of it. */
  ghost predicate FreshlyTried(env: Surroundings, p: RecordedProcess, targets: map<RecordedProcess, Tracked>) {
    && p in targets && env.discovered.Ok?
    && forall i: nat :: LastListed(env.discovered.value, p, i) ==>
         RecordedAs(env.discovered.value[i], env.attempts(p), targets[p])
  }

  predicate Enumerates(l: Lifecycle, env: Surroundings) {
    (l.nextDiscovery.None? || env.at >= l.nextDiscovery.value) && env.discovered.Ok?
  }

  /** Held: the attachment of the process is current. Lost: it has one that is not. */
  predicate Held(l: Lifecycle, env: Surroundings, p: RecordedProcess) {
    p in l.targets && l.targets[p].attachment.Some? && l.targets[p].attachment.value in env.current
  }

  predicate Lost(l: Lifecycle, env: Surroundings, p: RecordedProcess) {
    p in l.targets && l.targets[p].attachment.Some? && l.targets[p].attachment.value !in env.current
  }

  predicate Failed(l: Lifecycle, p: RecordedProcess) {
    p in l.targets && l.targets[p].attachment.None?
  }

  lemma {:induction false} CandidatesAre(found: seq<TargetInfo>, p: RecordedProcess)
    ensures p in Candidates(found) <==> !Unlisted(found, p)
    ensures forall i: nat :: LastListed(found, p, i) ==> p in Candidates(found) && Candidates(found)[p] == found[i]
    decreases |found|
  {
    if found != [] {
      var front, last := found[..|found| - 1], found[|found| - 1];
      CandidatesAre(front, p);
      assert found == front + [last];
      assert last.process == p ==> !Unlisted(found, p);
      if !Unlisted(front, p) {
        var i :| 0 <= i < |front| && front[i].process == p;
        assert found[i].process == p;
      }
      assert found[|front|] == last;
      forall i: nat | LastListed(found, p, i) ensures p in Candidates(found) && Candidates(found)[p] == found[i] {
        if last.process != p {
          assert LastListed(front, p, i) by {
            forall j | i < j < |front| ensures front[j].process != p { assert found[j].process != p; }
          }
        }
      }
    }
  }

  /** The law of a step, for every process. A current attachment is left alone. A lost one
      leaves, and so does a failed process that an enumeration no longer lists. A failed process
      that is listed waits out its deadline. Every other listed process is tried, once, and
      tracked by what came of it. Without an enumeration nothing but lost attachments leaves. */
  lemma StepExactly(l: Lifecycle, env: Surroundings, p: RecordedProcess)
    requires LifecycleOk(l)
    ensures var t := Step(l, env).targets;
            if Held(l, env, p) then p in t && t[p] == l.targets[p]
            else if !Enumerates(l, env) then
              if Failed(l, p) then p in t && t[p] == l.targets[p] else p !in t
            else if Unlisted(env.discovered.value, p) then p !in t
            else if Failed(l, p) && env.attempts(p).checked < l.targets[p].retryAt.value then
              p in t && t[p] == l.targets[p]
            else FreshlyTried(env, p, t)
  {
    if env.discovered.Ok? {
      CandidatesAre(env.discovered.value, p);
    }
    assert p in l.targets ==> TrackedOk(l.targets[p]);
  }

  /** An attachment that is no longer current leaves the targets, unless its process was
      attached or tried anew in the very same step. */
  lemma LostLeaves(l: Lifecycle, env: Surroundings, p: RecordedProcess)
    requires LifecycleOk(l) && Lost(l, env, p)
    ensures p in Step(l, env).targets ==> Enumerates(l, env) && FreshlyTried(env, p, Step(l, env).targets)
  {
    StepExactly(l, env, p);
  }

  /** A step that enumerates does so again one interval after the listing, sooner after a
      success than after a failure; one that does not keeps its plan. */
  lemma NextEnumeration(l: Lifecycle, env: Surroundings)
    ensures var t := Step(l, env);
            if l.nextDiscovery.Some? && env.at < l.nextDiscovery.value then
              t.nextDiscovery == l.nextDiscovery && t.discoveryError == l.discoveryError
            else
              && t.nextDiscovery == Some(env.listed + if env.discovered.Ok? then 1000 else 5000)
              && t.discoveryError == (if env.discovered.Ok? then None else Some(env.discovered.error))
  {
  }

  /** In every reachable state, whoever is observed is observed under the session and token of
      an attempt that succeeded at it in some step of the run. */
  lemma {:induction false} ObservedWasAttached(events: seq<Event>, p: RecordedProcess)
    requires p in History(IDLE, events).targets && History(IDLE, events).targets[p].attachment.Some?
    ensures exists i: nat :: i < |events| && AttachedBy(events[i], p, History(IDLE, events).targets[p])
    decreases |events|
  {
    var front, last := events[..|events| - 1], events[|events| - 1];
    var l := History(IDLE, front);
    var t := History(IDLE, events).targets[p];
    ObservingIffAttached(front);
    if last.Stepped? {
      StepExactly(l, last.env, p);
    }
    if p in l.targets && l.targets[p] == t {
      ObservedWasAttached(front, p);
      var i: nat :| i < |front| && AttachedBy(front[i], p, t);
      assert AttachedBy(events[i], p, t);
    } else {
      TriedAttaches(l, last, p);
      assert AttachedBy(events[|events| - 1], p, t);
    }
  }

  predicate AttachedBy(event: Event, p: RecordedProcess, t: Tracked) {
    && event.Stepped? && event.env.attempts(p).outcome.Attached?
    && t.attachment == Some(event.env.attempts(p).outcome.token)
    && t.status.activity == Observing(event.env.attempts(p).outcome.sessionId)
  }

  lemma {:induction false} ListedLast(found: seq<TargetInfo>, p: RecordedProcess) returns (i: nat)
    requires !Unlisted(found, p)
    ensures LastListed(found, p, i)
    decreases |found|
  {
    var front := found[..|found| - 1];
    if found[|found| - 1].process == p {
      i := |found| - 1;
    } else {
      assert !Unlisted(front, p) by {
        var j :| 0 <= j < |found| && found[j].process == p;
        assert front[j].process == p;
      }
      i := ListedLast(front, p);
      assert found[i] == front[i];
    }
  }

  lemma TriedAttaches(l: Lifecycle, event: Event, p: RecordedProcess)
    requires LifecycleOk(l) && p in Happens(l, event).targets && Happens(l, event).targets[p].attachment.Some?
    requires !(p in l.targets && l.targets[p] == Happens(l, event).targets[p])
    ensures AttachedBy(event, p, Happens(l, event).targets[p])
  {
    if event.Stepped? {
      StepExactly(l, event.env, p);
      var i := ListedLast(event.env.discovered.value, p);
      assert RecordedAs(event.env.discovered.value[i], event.env.attempts(p), Happens(l, event).targets[p]);
    }
  }

  /** A retired attachment is given up with its error, and its process waits one retry
      interval; nobody else is affected. */
  lemma RetiredExactly(l: Lifecycle, p: RecordedProcess, error: string, now: nat)
    ensures var t := Happens(l, Retired(p, error, now));
            && t.targets.Keys == l.targets.Keys
            && (forall q :: q in l.targets && q != p ==> t.targets[q] == l.targets[q])
            && t.nextDiscovery == l.nextDiscovery && t.discoveryError == l.discoveryError
            && (p in l.targets ==>
                  if l.targets[p].attachment.Some? then
                    && t.targets[p].status == TargetStatus(l.targets[p].status.target, Retrying(error))
                    && t.targets[p].attachment.None? && t.targets[p].retryAt == Some(now + 5000)
                  else t.targets[p] == l.targets[p])
  {
  }
}
