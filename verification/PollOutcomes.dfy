/** What a batch makes of each topic, read off the batch itself: counters by its resets,
    health and deadline by the last operation that sets them, data by the last one that
    stores or withdraws it. */
module PollOutcomes {
  import opened Wire
  import opened Service
  import opened PollBatch
  import opened Publication

  predicate Names(ops: seq<Operation>, k: TopicRef) {
    exists i :: 0 <= i < |ops| && ops[i].key == k
  }

  /** Everything but an event sets the health of its topic. */
  predicate Sets(op: Operation, k: TopicRef) {
    op.key == k && !op.EventOp?
  }

  /** Stores or withdraws the data of the topic. */
  predicate Decides(op: Operation, k: TopicRef) {
    op.key == k && (op.ResetOp? || op.SnapshotOp? || (op.HealthOp? && op.health != Available))
  }

  predicate LastSet(ops: seq<Operation>, k: TopicRef, i: nat) {
    i < |ops| && Sets(ops[i], k) && forall j :: i < j < |ops| ==> !Sets(ops[j], k)
  }

  predicate LastDecided(ops: seq<Operation>, k: TopicRef, i: nat) {
    i < |ops| && Decides(ops[i], k) && forall j :: i < j < |ops| ==> !Decides(ops[j], k)
  }

  predicate NoneSets(ops: seq<Operation>, k: TopicRef) {
    forall i :: 0 <= i < |ops| ==> !Sets(ops[i], k)
  }

  predicate NoneDecides(ops: seq<Operation>, k: TopicRef) {
    forall i :: 0 <= i < |ops| ==> !Decides(ops[i], k)
  }

  function ResetsAt(ops: seq<Operation>, k: TopicRef): set<nat> {
    set i: nat | i < |ops| && ops[i] == ResetOp(k)
  }

  /** Source and demand stay; every reset raises generation and epoch by one. */
  predicate CountsResets(before: Topic, ops: seq<Operation>, k: TopicRef, after: Topic) {
    && after.demanded == before.demanded
    && after.state.source == before.state.source
    && after.state.generation == before.state.generation + |ResetsAt(ops, k)|
    && after.epoch == before.epoch + |ResetsAt(ops, k)|
  }

  /** What the last operation to set the health leaves: data counts until the given
      deadline, and a topic that is not available has none. */
  predicate SetBy(op: Operation, deadline: nat, after: Topic) {
    match op
    case ResetOp(_) => after.state.health == Initializing && after.deadline == Some(deadline)
    case SnapshotOp(_, _) => after.state.health == Available && after.deadline == Some(deadline)
    case EventOp(_, _) => true
    case HealthOp(_, health) =>
      after.state.health == health && after.deadline == (if health == Available then Some(deadline) else None)
  }

  ghost predicate ShowsLast(before: Topic, ops: seq<Operation>, deadline: nat, k: TopicRef, after: Topic) {
    && (forall i: nat :: LastSet(ops, k, i) ==> SetBy(ops[i], deadline, after))
    && (NoneSets(ops, k) ==> after.state.health == before.state.health && after.deadline == before.deadline)
  }

  predicate SameData(a: TopicSnapshot, b: TopicSnapshot) {
    a.snapshot.Some? == b.snapshot.Some?
    && (a.snapshot.Some? ==> a.snapshot.value.payload == b.snapshot.value.payload)
  }

  /** A snapshot stores its payload; a reset and any health but Available withdraw the data. */
  predicate DecidedBy(op: Operation, after: Topic) {
    if op.SnapshotOp? then after.state.snapshot.Some? && after.state.snapshot.value.payload == op.payload
    else after.state.snapshot.None?
  }

  /** A batch that neither stores nor withdraws leaves the old data. */
  ghost predicate KeepsLast(before: Topic, ops: seq<Operation>, k: TopicRef, after: Topic) {
    && (forall i: nat :: LastDecided(ops, k, i) ==> DecidedBy(ops[i], after))
    && (NoneDecides(ops, k) ==> SameData(after.state, before.state))
  }

  ghost predicate Results(before: Topic, ops: seq<Operation>, deadline: nat, k: TopicRef, after: Topic) {
    CountsResets(before, ops, k, after) && ShowsLast(before, ops, deadline, k, after) && KeepsLast(before, ops, k, after)
  }

  /** A staged snapshot is still without a sequence, unless it is the one already published. */
  predicate Unpublished(before: Topic, ops: seq<Operation>, k: TopicRef, after: Topic) {
    if NoneDecides(ops, k) then after.state.snapshot == before.state.snapshot
    else after.state.snapshot.Some? ==>
           after.state.snapshot.value.metadata == EnvelopeMetadata(after.state.source, after.state.generation, 0)
  }

  ghost predicate StagesAs(before: Topic, ops: seq<Operation>, deadline: nat, k: TopicRef, after: Topic) {
    Results(before, ops, deadline, k, after) && Unpublished(before, ops, k, after)
  }

  // ---- one operation more

  lemma ResetsMore(ops: seq<Operation>, op: Operation, k: TopicRef)
    ensures |ResetsAt(ops + [op], k)| == |ResetsAt(ops, k)| + if op == ResetOp(k) then 1 else 0
  {
    var more := ops + [op];
    assert ResetsAt(more, k) == if op == ResetOp(k) then ResetsAt(ops, k) + {|ops|} else ResetsAt(ops, k) by {
      forall i: nat ensures i in ResetsAt(more, k) <==> i in ResetsAt(ops, k) || (i == |ops| && op == ResetOp(k)) {
        if i < |ops| { assert more[i] == ops[i]; }
      }
    }
  }

  lemma NoneMore(ops: seq<Operation>, op: Operation, k: TopicRef)
    ensures NoneSets(ops + [op], k) <==> NoneSets(ops, k) && !Sets(op, k)
    ensures NoneDecides(ops + [op], k) <==> NoneDecides(ops, k) && !Decides(op, k)
  {
    var more := ops + [op];
    assert more[|ops|] == op;
    forall i | 0 <= i < |ops| ensures more[i] == ops[i] {
    }
    if NoneSets(more, k) {
      forall i | 0 <= i < |ops| ensures !Sets(ops[i], k) { assert more[i] == ops[i]; }
    }
    if NoneDecides(more, k) {
      forall i | 0 <= i < |ops| ensures !Decides(ops[i], k) { assert more[i] == ops[i]; }
    }
  }

  lemma LastMore(ops: seq<Operation>, op: Operation, k: TopicRef, i: nat)
    ensures LastSet(ops + [op], k, i) <==> if Sets(op, k) then i == |ops| else LastSet(ops, k, i)
    ensures LastDecided(ops + [op], k, i) <==> if Decides(op, k) then i == |ops| else LastDecided(ops, k, i)
    ensures i < |ops| ==> (ops + [op])[i] == ops[i]
    ensures (ops + [op])[|ops|] == op
  {
    var more := ops + [op];
    assert more[|ops|] == op;
    forall j | 0 <= j < |ops| ensures more[j] == ops[j] {
    }
    if LastSet(more, k, i) && !Sets(op, k) {
      forall j | i < j < |ops| ensures !Sets(ops[j], k) { assert more[j] == ops[j]; }
    }
    if LastDecided(more, k, i) && !Decides(op, k) {
      forall j | i < j < |ops| ensures !Decides(ops[j], k) { assert more[j] == ops[j]; }
    }
  }

  lemma ShowsStep(before: Topic, ops: seq<Operation>, deadline: nat, k: TopicRef, topic: Topic, op: Operation,
                  next: Topic)
    requires ShowsLast(before, ops, deadline, k, topic)
    requires if Sets(op, k) then SetBy(op, deadline, next)
             else next.state.health == topic.state.health && next.deadline == topic.deadline
    ensures ShowsLast(before, ops + [op], deadline, k, next)
  {
    hide NoneSets, Sets;
    NoneMore(ops, op, k);
    forall i: nat | LastSet(ops + [op], k, i) ensures SetBy((ops + [op])[i], deadline, next) {
      LastMore(ops, op, k, i);
    }
  }

  lemma KeepsStep(before: Topic, ops: seq<Operation>, k: TopicRef, topic: Topic, op: Operation, next: Topic)
    requires KeepsLast(before, ops, k, topic)
    requires if Decides(op, k) then DecidedBy(op, next) else SameData(next.state, topic.state)
    ensures KeepsLast(before, ops + [op], k, next)
  {
    hide NoneDecides, Decides;
    NoneMore(ops, op, k);
    forall i: nat | LastDecided(ops + [op], k, i) ensures DecidedBy((ops + [op])[i], next) {
      LastMore(ops, op, k, i);
    }
  }

  /** Staging one operation of the topic carries its outcome along. */
  lemma OutcomeStep(before: Topic, ops: seq<Operation>, deadline: nat, k: TopicRef, topic: Topic, op: Operation,
                    next: Topic)
    requires StagesAs(before, ops, deadline, k, topic) && op.key == k && Staging(topic, op, deadline) == Ok(next)
    ensures StagesAs(before, ops + [op], deadline, k, next)
  {
    hide LastSet, LastDecided, NoneSets, NoneDecides, ResetsAt, ShowsLast, KeepsLast;
    ResetsMore(ops, op, k);
    NoneMore(ops, op, k);
    ShowsStep(before, ops, deadline, k, topic, op, next);
    KeepsStep(before, ops, k, topic, op, next);
  }

  /** An operation of another topic changes nothing here. */
  lemma OutcomeElsewhere(before: Topic, ops: seq<Operation>, deadline: nat, k: TopicRef, topic: Topic, op: Operation)
    requires StagesAs(before, ops, deadline, k, topic) && op.key != k
    ensures StagesAs(before, ops + [op], deadline, k, topic)
  {
    hide LastSet, LastDecided, NoneSets, NoneDecides, ResetsAt, ShowsLast, KeepsLast;
    ResetsMore(ops, op, k);
    NoneMore(ops, op, k);
    ShowsStep(before, ops, deadline, k, topic, op, topic);
    KeepsStep(before, ops, k, topic, op, topic);
  }

  lemma OutcomeOfNothing(before: Topic, ops: seq<Operation>, deadline: nat, k: TopicRef)
    requires !Names(ops, k)
    ensures StagesAs(before, ops, deadline, k, before)
  {
    forall i: nat ensures !LastSet(ops, k, i) && !LastDecided(ops, k, i) {
      assert i < |ops| ==> ops[i].key != k;
    }
    assert ResetsAt(ops, k) == {};
  }

  ghost predicate Describes(session: Session, ops: seq<Operation>, deadline: nat, topics: map<TopicRef, Topic>) {
    && (forall k :: k in topics <==> Names(ops, k))
    && (forall k :: k in topics ==> k in session.topics && StagesAs(session.topics[k], ops, deadline, k, topics[k]))
  }

  lemma DescribesStep(session: Session, ticket: PollTicket, ops: seq<Operation>, op: Operation, deadline: nat,
                      st: Staged, next: Staged)
    requires Describes(session, ops, deadline, st.topics) && StageOp(session, ticket, st, op, deadline) == Ok(next)
    ensures Describes(session, ops + [op], deadline, next.topics)
  {
    hide StagesAs, Staging;
    var more := ops + [op];
    assert more[|ops|] == op && forall i :: 0 <= i < |ops| ==> more[i] == ops[i];
    var topic := if op.key in st.topics then st.topics[op.key] else session.topics[op.key];
    if op.key !in st.topics {
      OutcomeOfNothing(topic, ops, deadline, op.key);
    }
    OutcomeStep(session.topics[op.key], ops, deadline, op.key, topic, op, next.topics[op.key]);
    forall k ensures k in next.topics <==> Names(more, k)
             ensures k in next.topics ==> k in session.topics && StagesAs(session.topics[k], more, deadline, k, next.topics[k])
    {
      if k != op.key {
        NamesMore(ops, op, k);
        if k in st.topics {
          OutcomeElsewhere(session.topics[k], ops, deadline, k, st.topics[k], op);
        }
      }
    }
  }

  lemma NamesMore(ops: seq<Operation>, op: Operation, k: TopicRef)
    requires op.key != k
    ensures Names(ops + [op], k) <==> Names(ops, k)
  {
    var more := ops + [op];
    if Names(ops, k) {
      var i :| 0 <= i < |ops| && ops[i].key == k;
      assert more[i].key == k;
    }
  }

  lemma NothingDescribed(session: Session, deadline: nat)
    ensures Describes(session, [], deadline, map[])
  {
  }

  /** For every batch that can be staged: exactly the topics it names are staged, each with
      the outcome that the batch gives it. */
  lemma {:induction false} PrepareDescribes(session: Session, ticket: PollTicket, ops: seq<Operation>, deadline: nat,
                                            st: Staged)
    requires Prepare(session, ticket, ops, deadline) == Ok(st)
    ensures Describes(session, ops, deadline, st.topics)
    decreases |ops|
  {
    hide Describes, StageOp;
    if ops == [] {
      NothingDescribed(session, deadline);
    } else {
      var front, op := ops[..|ops| - 1], ops[|ops| - 1];
      var before := Prepare(session, ticket, front, deadline).value;
      PrepareDescribes(session, ticket, front, deadline, before);
      DescribesStep(session, ticket, front, op, deadline, before, st);
      assert ops == front + [op];
    }
  }
}
