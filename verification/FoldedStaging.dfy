/** Staged output, topic by topic: the in-order fold of that topic's own operations. */
module FoldedStaging {
  import opened Wire
  import opened Service
  import opened PollBatch
  import opened Publication

  function OpsFor(ops: seq<Operation>, key: TopicRef): seq<Operation> {
    if ops == [] then []
    else OpsFor(ops[..|ops| - 1], key) + if ops[|ops| - 1].key == key then [ops[|ops| - 1]] else []
  }

  /** One topic moved along by a list of operations, in order. */
  function FoldOps(topic: Topic, ops: seq<Operation>, deadline: nat): Result<Topic, RequestError> {
    if ops == [] then Ok(topic)
    else
      match FoldOps(topic, ops[..|ops| - 1], deadline)
      case Err(e) => Err(e)
      case Ok(next) => Staging(next, ops[|ops| - 1], deadline)
  }

  /** No later operation in the batch resets the topic of the i-th one. */
  predicate Survives(ops: seq<Operation>, i: nat)
    requires i < |ops|
  {
    forall j :: i < j < |ops| && ops[j].ResetOp? ==> ops[j].key != ops[i].key
  }

  function SurvivingEvents(ops: seq<Operation>, n: nat): seq<(TopicRef, JsonPayload)>
    requires n <= |ops|
  {
    if n == 0 then []
    else
      SurvivingEvents(ops, n - 1)
      + if ops[n - 1].EventOp? && Survives(ops, n - 1) then [(ops[n - 1].key, ops[n - 1].payload)] else []
  }

  lemma FoldSnoc(topic: Topic, ops: seq<Operation>, op: Operation, deadline: nat)
    requires FoldOps(topic, ops, deadline).Ok?
    ensures FoldOps(topic, ops + [op], deadline)
            == Staging(FoldOps(topic, ops, deadline).value, op, deadline)
  {
    assert (ops + [op])[..|ops|] == ops;
  }

  lemma {:induction false} WithoutAppend(events: seq<(TopicRef, JsonPayload)>, event: (TopicRef, JsonPayload),
                                         key: TopicRef)
    ensures WithoutEvents(events + [event], key)
            == WithoutEvents(events, key) + if event.0 != key then [event] else []
  {
    assert (events + [event])[..|events|] == events;
  }

  lemma WithoutNone(key: TopicRef)
    ensures WithoutEvents([], key) == []
  {
  }

  lemma SurvivesLonger(ops: seq<Operation>, op: Operation, i: nat)
    requires i < |ops|
    ensures Survives(ops + [op], i) <==> Survives(ops, i) && !(op.ResetOp? && op.key == ops[i].key)
  {
    var more := ops + [op];
    assert more[i] == ops[i] && more[|ops|] == op;
    if Survives(more, i) {
      forall j | i < j < |ops| && ops[j].ResetOp? ensures ops[j].key != ops[i].key {
        assert more[j] == ops[j];
      }
    }
  }

  /** One more operation withdraws exactly the events that it resets. */
  lemma {:induction false} SurvivingExtends(ops: seq<Operation>, op: Operation, n: nat)
    requires n <= |ops|
    ensures SurvivingEvents(ops + [op], n)
            == if op.ResetOp? then WithoutEvents(SurvivingEvents(ops, n), op.key) else SurvivingEvents(ops, n)
  {
    hide Survives, WithoutEvents;
    if n == 0 {
      WithoutNone(op.key);
    } else {
      var i := n - 1;
      SurvivingExtends(ops, op, i);
      SurvivesLonger(ops, op, i);
      assert (ops + [op])[i] == ops[i];
      if ops[i].EventOp? && Survives(ops, i) {
        WithoutAppend(SurvivingEvents(ops, i), (ops[i].key, ops[i].payload), op.key);
      } else {
        assert SurvivingEvents(ops, n) == SurvivingEvents(ops, i);
      }
    }
  }

  /** A topic is staged exactly when the batch names it, as the fold of its operations. */
  predicate FoldsAt(session: Session, topics: map<TopicRef, Topic>, ops: seq<Operation>, deadline: nat, k: TopicRef) {
    && (k in topics <==> OpsFor(ops, k) != [])
    && (k in topics ==>
          k in session.topics && FoldOps(session.topics[k], OpsFor(ops, k), deadline) == Ok(topics[k]))
  }

  ghost predicate StagedByFold(session: Session, st: Staged, ops: seq<Operation>, deadline: nat) {
    && (forall k :: FoldsAt(session, st.topics, ops, deadline, k))
    && st.resets == ResetsOf(ops)
    && st.events == SurvivingEvents(ops, |ops|)
  }

  lemma SurvivingNext(ops: seq<Operation>, op: Operation)
    ensures SurvivingEvents(ops + [op], |ops| + 1)
            == match op
               case ResetOp(key) => WithoutEvents(SurvivingEvents(ops, |ops|), key)
               case EventOp(key, payload) => SurvivingEvents(ops, |ops|) + [(key, payload)]
               case _ => SurvivingEvents(ops, |ops|)
  {
    SurvivingExtends(ops, op, |ops|);
    assert (ops + [op])[|ops|] == op;
    assert Survives(ops + [op], |ops|);
    assert SurvivingEvents(ops, |ops|) + [] == SurvivingEvents(ops, |ops|);
  }

  lemma OpsForSnoc(ops: seq<Operation>, op: Operation, k: TopicRef)
    ensures OpsFor(ops + [op], k) == if op.key == k then OpsFor(ops, k) + [op] else OpsFor(ops, k)
  {
    assert (ops + [op])[..|ops|] == ops;
  }

  lemma StagedTopicFolds(session: Session, st: Staged, op: Operation, next: Topic, ops: seq<Operation>, deadline: nat,
                         k: TopicRef)
    requires FoldsAt(session, st.topics, ops, deadline, k) && op.key in session.topics
    requires Staging(if op.key in st.topics then st.topics[op.key] else session.topics[op.key], op, deadline) == Ok(next)
    ensures FoldsAt(session, st.topics[op.key := next], ops + [op], deadline, k)
  {
    OpsForSnoc(ops, op, k);
    if k == op.key {
      FoldSnoc(session.topics[k], OpsFor(ops, k), op, deadline);
    }
  }

  lemma StageOpTopics(session: Session, ticket: PollTicket, st: Staged, next: Staged, ops: seq<Operation>,
                      op: Operation, deadline: nat)
    requires forall k :: FoldsAt(session, st.topics, ops, deadline, k)
    requires StageOp(session, ticket, st, op, deadline) == Ok(next)
    ensures forall k :: FoldsAt(session, next.topics, ops + [op], deadline, k)
  {
    var topic := next.topics[op.key];
    assert next.topics == st.topics[op.key := topic];
    forall k ensures FoldsAt(session, next.topics, ops + [op], deadline, k) {
      StagedTopicFolds(session, st, op, topic, ops, deadline, k);
    }
  }

  lemma StageOpFolds(session: Session, ticket: PollTicket, st: Staged, next: Staged, ops: seq<Operation>,
                     op: Operation, deadline: nat)
    requires StagedByFold(session, st, ops, deadline)
    requires StageOp(session, ticket, st, op, deadline) == Ok(next)
    ensures StagedByFold(session, next, ops + [op], deadline)
  {
    StageOpTopics(session, ticket, st, next, ops, op, deadline);
    AppendOp(ops, op);
    assert st.resets + [] == st.resets;
    SurvivingNext(ops, op);
  }

  /** Staging a batch is, topic by topic, the in-order fold of that topic's own
      operations; the staged events are those no later reset of their topic withdrew. */
  lemma {:induction false} PrepareFolds(session: Session, ticket: PollTicket, ops: seq<Operation>, deadline: nat,
                                        st: Staged)
    requires Prepare(session, ticket, ops, deadline) == Ok(st)
    ensures StagedByFold(session, st, ops, deadline)
    decreases |ops|
  {
    if ops == [] {
      NothingFolds(session, deadline);
    } else {
      var front, op := ops[..|ops| - 1], ops[|ops| - 1];
      var before := Prepare(session, ticket, front, deadline).value;
      PrepareFolds(session, ticket, front, deadline, before);
      StageOpFolds(session, ticket, before, st, front, op, deadline);
      assert ops == front + [op];
    }
  }

  lemma NothingFolds(session: Session, deadline: nat)
    ensures StagedByFold(session, NOTHING_STAGED, [], deadline)
  {
  }
}
