/** What a batch holds, read off the calls that the provider made on it. */
module BatchCalls {
  import opened Wire
  import opened Service
  import opened PollBatch

  function Topic(manifest: Manifest, claim: Claim): TopicRef {
    TopicRef(manifest.id, claim.key.topic, claim.key.schemaVersion)
  }

  /** At most 256 characters of a message are kept. */
  predicate Shortened(message: string, kept: string) {
    kept <= message && |kept| == if |message| < 256 then |message| else 256
  }

  predicate ReasonKept(reason: UnavailableReason, kept: UnavailableReason) {
    match reason
    case TargetNotReady => kept == TargetNotReady
    case UnsupportedBuild => kept == UnsupportedBuild
    case ReadFailed(m) => kept.ReadFailed? && Shortened(m, kept.message)
    case ValidationFailed(m) => kept.ValidationFailed? && Shortened(m, kept.message)
    case ProviderFailed(m) => kept.ProviderFailed? && Shortened(m, kept.message)
    case DependencyUnavailable(d, failure) =>
      kept.DependencyUnavailable? && Shortened(d, kept.dependency) && kept.failure == failure
  }

  /** The operation is the call's own: its topic, its kind and its payload. */
  predicate Records(manifest: Manifest, call: Call, op: Operation) {
    match call
    case CallReset(claim) => op == ResetOp(Topic(manifest, claim))
    case CallSnapshot(claim, payload) => op == SnapshotOp(Topic(manifest, claim), payload)
    case CallEvent(claim, payload) => op == EventOp(Topic(manifest, claim), payload)
    case CallHealth(claim, health) =>
      && op.HealthOp? && op.key == Topic(manifest, claim)
      && (health.Healthy? ==> op.health == Available)
      && (health.Unhealthy? ==> op.health.Unavailable? && ReasonKept(health.reason, op.health.reason))
    case CallBuild(_) => false
  }

  /** The operations are those of the calls, one each and in order; naming a build is none. */
  predicate Recorded(manifest: Manifest, calls: seq<Call>, ops: seq<Operation>) {
    if calls == [] then ops == []
    else if calls[|calls| - 1].CallBuild? then Recorded(manifest, calls[..|calls| - 1], ops)
    else
      && ops != [] && Records(manifest, calls[|calls| - 1], ops[|ops| - 1])
      && Recorded(manifest, calls[..|calls| - 1], ops[..|ops| - 1])
  }

  /** The last build that was named. */
  predicate LastBuild(calls: seq<Call>, build: Option<string>) {
    if calls == [] then build == None
    else if calls[|calls| - 1].CallBuild? then build == calls[|calls| - 1].build
    else LastBuild(calls[..|calls| - 1], build)
  }

  /** What a call counts towards the bound; resets and builds are free. */
  function Weight(manifest: Manifest, call: Call, overhead: nat): nat {
    match call
    case CallSnapshot(claim, payload) => |payload| + overhead + |manifest.id| + |claim.key.topic|
    case CallEvent(claim, payload) => |payload| + overhead + |manifest.id| + |claim.key.topic|
    case CallHealth(claim, _) => 1024 + overhead + |manifest.id| + |claim.key.topic|
    case _ => 0
  }

  function WeightOf(manifest: Manifest, calls: seq<Call>, overhead: nat): nat {
    if calls == [] then 0
    else WeightOf(manifest, calls[..|calls| - 1], overhead) + Weight(manifest, calls[|calls| - 1], overhead)
  }

  /** A call that a batch which has taken the earlier ones may take. */
  predicate Allowed(manifest: Manifest, past: seq<Call>, call: Call, overhead: nat) {
    if call.CallBuild? then call.build.Some? ==> |call.build.value| <= 256
    else
      && call.claim.key in manifest.capabilities && manifest.capabilities[call.claim.key] == call.claim.capability
      && (call.CallReset? ==> forall i :: 0 <= i < |past| && past[i].CallReset? ==> past[i].claim.key != call.claim.key)
      && (call.CallSnapshot? ==> call.claim.capability.snapshots)
      && (call.CallEvent? ==> call.claim.capability.events)
      && (!call.CallReset? ==>
            WeightOf(manifest, past, overhead) + Weight(manifest, call, overhead) <= 32 * 1024 * 1024)
  }

  predicate ResetEarlier(manifest: Manifest, calls: seq<Call>, key: TopicRef) {
    exists i :: 0 <= i < |calls| && calls[i].CallReset? && Topic(manifest, calls[i].claim) == key
  }

  lemma ResetMore(manifest: Manifest, calls: seq<Call>, call: Call, key: TopicRef)
    ensures ResetEarlier(manifest, calls + [call], key)
            <==> ResetEarlier(manifest, calls, key) || (call.CallReset? && Topic(manifest, call.claim) == key)
  {
    var more := calls + [call];
    assert more[|calls|] == call;
    if ResetEarlier(manifest, calls, key) {
      var i :| 0 <= i < |calls| && calls[i].CallReset? && Topic(manifest, calls[i].claim) == key;
      assert more[i] == calls[i];
    }
  }

  ghost predicate Holds(manifest: Manifest, calls: seq<Call>, overhead: nat, b: Pending) {
    && Recorded(manifest, calls, b.ops)
    && LastBuild(calls, b.gameBuild)
    && b.bytes == WeightOf(manifest, calls, overhead) <= MAX_BATCH_BYTES
    && forall key :: key in b.resets <==> ResetEarlier(manifest, calls, key)
  }

  lemma RecordedMore(manifest: Manifest, calls: seq<Call>, ops: seq<Operation>, call: Call, op: Operation)
    requires Recorded(manifest, calls, ops) && Records(manifest, call, op)
    ensures Recorded(manifest, calls + [call], ops + [op])
  {
    assert (calls + [call])[..|calls|] == calls && (ops + [op])[..|ops|] == ops;
  }

  lemma CallHolds(manifest: Manifest, calls: seq<Call>, overhead: nat, b: Pending, call: Call)
    requires Holds(manifest, calls, overhead, b) && !b.failed
    ensures var next := Perform(b, manifest, call, overhead);
            && (!next.failed <==> Allowed(manifest, calls, call, overhead))
            && (!next.failed ==> Holds(manifest, calls + [call], overhead, next))
  {
    hide Recorded, LastBuild, WeightOf;
    var next := Perform(b, manifest, call, overhead);
    MoreCalls(manifest, calls, call, overhead, b);
    forall key ensures ResetEarlier(manifest, calls + [call], key)
                       <==> ResetEarlier(manifest, calls, key) || (call.CallReset? && Topic(manifest, call.claim) == key)
    {
      ResetMore(manifest, calls, call, key);
    }
    if !call.CallBuild? {
      assert KeyOf(manifest, call.claim) == Topic(manifest, call.claim);
      assert ResetEarlier(manifest, calls, Topic(manifest, call.claim))
             <==> exists i :: 0 <= i < |calls| && calls[i].CallReset? && calls[i].claim.key == call.claim.key by {
        SameKey(manifest, calls, call.claim);
      }
      if !next.failed {
        RecordedMore(manifest, calls, b.ops, call, next.ops[|b.ops|]);
      }
    }
  }

  lemma SameKey(manifest: Manifest, calls: seq<Call>, claim: Claim)
    ensures ResetEarlier(manifest, calls, Topic(manifest, claim))
            <==> exists i :: 0 <= i < |calls| && calls[i].CallReset? && calls[i].claim.key == claim.key
  {
    forall c: Claim ensures Topic(manifest, c) == Topic(manifest, claim) <==> c.key == claim.key {
      assert c.key == CapabilityKey(c.key.topic, c.key.schemaVersion);
    }
  }

  lemma MoreCalls(manifest: Manifest, calls: seq<Call>, call: Call, overhead: nat, b: Pending)
    ensures WeightOf(manifest, calls + [call], overhead)
            == WeightOf(manifest, calls, overhead) + Weight(manifest, call, overhead)
    ensures forall build :: LastBuild(calls + [call], build)
                            <==> if call.CallBuild? then build == call.build else LastBuild(calls, build)
    ensures call.CallBuild? ==> forall ops :: Recorded(manifest, calls + [call], ops) <==> Recorded(manifest, calls, ops)
  {
    assert (calls + [call])[..|calls|] == calls;
  }

  /** The law of a batch, for every sequence of provider calls: it stands exactly when each call
      was allowed after those before it, and then it holds, call by call and in order, the
      operation of that call with its own payload, and the last build that was named. */
  lemma {:induction false} BatchRecordsCalls(manifest: Manifest, calls: seq<Call>, overhead: nat)
    ensures var b := PerformAll(manifest, calls, overhead);
            && (!b.failed <==> forall i :: 0 <= i < |calls| ==> Allowed(manifest, calls[..i], calls[i], overhead))
            && (!b.failed ==> Recorded(manifest, calls, b.ops) && LastBuild(calls, b.gameBuild))
            && (!b.failed ==> Holds(manifest, calls, overhead, b))
    decreases |calls|
  {
    hide Allowed, Perform;
    if calls != [] {
      var front, call := calls[..|calls| - 1], calls[|calls| - 1];
      BatchRecordsCalls(manifest, front, overhead);
      assert calls == front + [call];
      forall i | 0 <= i < |front| ensures front[..i] == calls[..i] && front[i] == calls[i] {
      }
      var b := PerformAll(manifest, front, overhead);
      FailureSticks(b, manifest, call, overhead);
      if !b.failed {
        CallHolds(manifest, front, overhead, b, call);
      }
    }
  }
}
