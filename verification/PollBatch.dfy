/** Bounded provider output, staged outside the service lock. */
module PollBatch {
  import opened Wire
  import opened Ordering
  import opened Service

  const MAX_BATCH_BYTES: nat := 32 * 1024 * 1024

  datatype Operation =
    | ResetOp(key: TopicRef)
    | SnapshotOp(key: TopicRef, payload: JsonPayload)
    | EventOp(key: TopicRef, payload: JsonPayload)
    | HealthOp(key: TopicRef, health: CapabilityHealth)

  datatype Pending = Pending(
    ops: seq<Operation>,
    resets: seq<TopicRef>,
    gameBuild: Option<string>,
    bytes: nat,
    failed: bool)

  const NO_OUTPUT: Pending := Pending([], [], None, 0, false)

  datatype Manifest = Manifest(id: string, capabilities: map<CapabilityKey, Capability>)

  /** A capability as a provider names it when it publishes. */
  datatype Claim = Claim(key: CapabilityKey, capability: Capability)

  /** Providers report only these two; the other healths belong to the service. */
  datatype ProviderHealth = Healthy | Unhealthy(reason: UnavailableReason)

  predicate Declared(manifest: Manifest, claim: Claim) {
    claim.key in manifest.capabilities && manifest.capabilities[claim.key] == claim.capability
  }

  function KeyOf(manifest: Manifest, claim: Claim): TopicRef {
    TopicRef(manifest.id, claim.key.topic, claim.key.schemaVersion)
  }

  /** A call that a provider makes on the batch; size is the claimed data size,
      overhead the fixed storage of one operation. */
  datatype Call =
    | CallReset(claim: Claim)
    | CallSnapshot(claim: Claim, payload: JsonPayload)
    | CallEvent(claim: Claim, payload: JsonPayload)
    | CallHealth(claim: Claim, health: ProviderHealth)
    | CallBuild(build: Option<string>)

  function Fail(b: Pending): Pending {
    b.(failed := true)
  }

  function Push(b: Pending, op: Operation, size: nat, overhead: nat): Pending {
    var bytes := size + overhead + |op.key.providerId| + |op.key.topic|;
    if bytes > (if b.bytes > MAX_BATCH_BYTES then 0 else MAX_BATCH_BYTES - b.bytes) then Fail(b)
    else b.(bytes := b.bytes + bytes, ops := b.ops + [op])
  }

  function Trim(message: string): string {
    if |message| <= 256 then message else message[..256]
  }

  function PublicReason(reason: UnavailableReason): UnavailableReason {
    match reason
    case ReadFailed(m) => ReadFailed(Trim(m))
    case ValidationFailed(m) => ValidationFailed(Trim(m))
    case ProviderFailed(m) => ProviderFailed(Trim(m))
    case DependencyUnavailable(d, f) => DependencyUnavailable(Trim(d), f)
    case _ => reason
  }

  function PublicHealth(health: ProviderHealth): CapabilityHealth {
    match health
    case Healthy => Available
    case Unhealthy(reason) => Unavailable(PublicReason(reason))
  }

  /** Resets bypass the byte budget: at most one is kept per declared capability. */
  function Perform(b: Pending, manifest: Manifest, call: Call, overhead: nat): Pending {
    if call.CallBuild? then
      if call.build.Some? && |call.build.value| > 256 then Fail(b) else b.(gameBuild := call.build)
    else if !Declared(manifest, call.claim) then Fail(b)
    else
      var key := KeyOf(manifest, call.claim);
      match call
      case CallReset(_) =>
        if key in b.resets then Fail(b)
        else b.(resets := b.resets + [key], ops := b.ops + [ResetOp(key)])
      case CallSnapshot(claim, payload) =>
        if !claim.capability.snapshots then Fail(b) else Push(b, SnapshotOp(key, payload), |payload|, overhead)
      case CallEvent(claim, payload) =>
        if !claim.capability.events then Fail(b) else Push(b, EventOp(key, payload), |payload|, overhead)
      case CallHealth(_, health) => Push(b, HealthOp(key, PublicHealth(health)), 1024, overhead)
  }

  function PerformAll(manifest: Manifest, calls: seq<Call>, overhead: nat): Pending {
    if calls == [] then NO_OUTPUT
    else Perform(PerformAll(manifest, calls[..|calls| - 1], overhead), manifest, calls[|calls| - 1], overhead)
  }

  /** The keys of the reset operations, in order. */
  function ResetsOf(ops: seq<Operation>): seq<TopicRef> {
    if ops == [] then []
    else ResetsOf(ops[..|ops| - 1]) + if ops[|ops| - 1].ResetOp? then [ops[|ops| - 1].key] else []
  }

  predicate OpOk(op: Operation, manifest: Manifest) {
    && op.key.providerId == manifest.id
    && CapabilityKey(op.key.topic, op.key.schemaVersion) in manifest.capabilities
    && (op.SnapshotOp? ==> manifest.capabilities[CapabilityKey(op.key.topic, op.key.schemaVersion)].snapshots)
    && (op.HealthOp? ==> op.health.Available? || op.health.Unavailable?)
  }

  /** What every batch satisfies, whatever the provider called and in whatever order. */
  ghost predicate WellFormed(b: Pending, manifest: Manifest) {
    && b.bytes <= MAX_BATCH_BYTES
    && b.resets == ResetsOf(b.ops)
    && NoRepeats(b.resets)
    && (forall op :: op in b.ops ==> OpOk(op, manifest))
    && (b.gameBuild.Some? ==> |b.gameBuild.value| <= 256)
  }

  lemma AppendOp(ops: seq<Operation>, op: Operation)
    ensures ResetsOf(ops + [op]) == ResetsOf(ops) + if op.ResetOp? then [op.key] else []
  {
    assert (ops + [op])[..|ops|] == ops;
  }

  lemma PushKeepsWellFormed(b: Pending, manifest: Manifest, op: Operation, size: nat, overhead: nat)
    requires WellFormed(b, manifest) && OpOk(op, manifest) && !op.ResetOp?
    ensures WellFormed(Push(b, op, size, overhead), manifest)
  {
    AppendOp(b.ops, op);
    var next := b.ops + [op];
    assert forall o :: o in next ==> o in b.ops || o == op;
    assert ResetsOf(b.ops) + [] == ResetsOf(b.ops);
  }

  lemma ResetKeepsWellFormed(b: Pending, manifest: Manifest, key: TopicRef)
    requires WellFormed(b, manifest) && OpOk(ResetOp(key), manifest) && key !in b.resets
    ensures WellFormed(b.(resets := b.resets + [key], ops := b.ops + [ResetOp(key)]), manifest)
  {
    AppendOp(b.ops, ResetOp(key));
    var next := b.ops + [ResetOp(key)];
    assert forall o :: o in next ==> o in b.ops || o == ResetOp(key);
  }

  lemma CallKeepsWellFormed(b: Pending, manifest: Manifest, call: Call, overhead: nat)
    requires WellFormed(b, manifest)
    ensures WellFormed(Perform(b, manifest, call, overhead), manifest)
  {
    if !call.CallBuild? && Declared(manifest, call.claim) {
      var key := KeyOf(manifest, call.claim);
      assert CapabilityKey(key.topic, key.schemaVersion) == call.claim.key;
      match call
      case CallReset(_) =>
        if key !in b.resets { ResetKeepsWellFormed(b, manifest, key); }
      case CallSnapshot(claim, payload) =>
        if claim.capability.snapshots {
          PushKeepsWellFormed(b, manifest, SnapshotOp(key, payload), |payload|, overhead);
        }
      case CallEvent(claim, payload) =>
        if claim.capability.events {
          PushKeepsWellFormed(b, manifest, EventOp(key, payload), |payload|, overhead);
        }
      case CallHealth(_, health) =>
        PushKeepsWellFormed(b, manifest, HealthOp(key, PublicHealth(health)), 1024, overhead);
    }
  }

  /** Every batch that any sequence of provider calls can build is well formed:
      no topic is reset twice, and only snapshot capabilities carry snapshots. */
  lemma {:induction false} EveryBatchIsWellFormed(manifest: Manifest, calls: seq<Call>, overhead: nat)
    ensures WellFormed(PerformAll(manifest, calls, overhead), manifest)
  {
    if calls != [] {
      EveryBatchIsWellFormed(manifest, calls[..|calls| - 1], overhead);
      CallKeepsWellFormed(PerformAll(manifest, calls[..|calls| - 1], overhead), manifest, calls[|calls| - 1], overhead);
    }
  }

  /** Once a call was refused, the batch stays failed. */
  lemma FailureSticks(b: Pending, manifest: Manifest, call: Call, overhead: nat)
    ensures b.failed ==> Perform(b, manifest, call, overhead).failed
    ensures b.resets <= Perform(b, manifest, call, overhead).resets
  {
  }

  /** The batch object that event and health sinks share. */
  class Batch {
    const manifest: Manifest
    const overhead: nat
    var ops: seq<Operation>
    var resets: seq<TopicRef>
    var gameBuild: Option<string>
    var bytes: nat
    var failed: bool

    function Contents(): Pending
      reads this
    {
      Pending(ops, resets, gameBuild, bytes, failed)
    }

    ghost predicate Valid()
      reads this
    {
      WellFormed(Contents(), manifest)
    }

    constructor (manifest: Manifest, overhead: nat)
      ensures Contents() == NO_OUTPUT && this.manifest == manifest && this.overhead == overhead
      ensures Valid()
    {
      this.manifest := manifest;
      this.overhead := overhead;
      ops, resets, gameBuild, bytes, failed := [], [], None, 0, false;
    }

    method Publish(op: Operation, size: nat) returns (ok: bool)
      modifies this
      ensures Contents() == Push(old(Contents()), op, size, overhead)
      ensures !ok ==> failed
    {
      var total := size + overhead + |op.key.providerId| + |op.key.topic|;
      var room := if bytes > MAX_BATCH_BYTES then 0 else MAX_BATCH_BYTES - bytes;
      if total > room {
        failed := true;
        return false;
      }
      bytes := bytes + total;
      ops := ops + [op];
      ok := true;
    }

    method Invoke(call: Call) returns (ok: bool)
      requires Valid()
      modifies this
      ensures Contents() == Perform(old(Contents()), manifest, call, overhead)
      ensures Valid()
      ensures !ok ==> failed
    {
      CallKeepsWellFormed(Contents(), manifest, call, overhead);
      if call.CallBuild? {
        if call.build.Some? && |call.build.value| > 256 {
          failed := true;
          return false;
        }
        gameBuild := call.build;
        return true;
      }
      if !Declared(manifest, call.claim) {
        failed := true;
        return false;
      }
      var key := KeyOf(manifest, call.claim);
      match call {
        case CallReset(_) =>
          if key in resets {
            failed := true;
            return false;
          }
          resets := resets + [key];
          ops := ops + [ResetOp(key)];
          ok := true;
        case CallSnapshot(claim, payload) =>
          if !claim.capability.snapshots {
            failed := true;
            return false;
          }
          ok := Publish(SnapshotOp(key, payload), |payload|);
        case CallEvent(claim, payload) =>
          if !claim.capability.events {
            failed := true;
            return false;
          }
          ok := Publish(EventOp(key, payload), |payload|);
        case CallHealth(_, health) =>
          ok := Publish(HealthOp(key, PublicHealth(health)), 1024);
      }
    }
  }
}
