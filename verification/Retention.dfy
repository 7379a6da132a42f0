/** The bound on snapshot bytes kept over all sessions. */
module Retention {
  import opened Wire
  import opened Ordering
  import opened Sums
  import opened Service
  import opened Publication
  import opened Invariant

  lemma SessionRetainsLess(a: Session, b: Session)
    requires forall k :: k in b.topics && b.topics[k].state.snapshot.Some? ==>
               k in a.topics && a.topics[k].state == b.topics[k].state
    ensures SessionRetains(b) <= SessionRetains(a)
  {
    SumAtMost(TopicsInOrder(b.topics.Keys), TopicsInOrder(a.topics.Keys), TopicWeight(b.topics), TopicWeight(a.topics));
  }

  lemma SessionRetainsNothing(b: Session)
    requires forall k :: k in b.topics ==> b.topics[k].state.snapshot.None?
    ensures SessionRetains(b) == 0
  {
    SumAtMost(TopicsInOrder(b.topics.Keys), [], TopicWeight(b.topics), TopicWeight(b.topics));
  }

  /** Shedding snapshots never raises what is retained. */
  lemma RetainedSheds(before: Sessions, after: Sessions)
    requires Sheds(before, after)
    ensures Retained(after) <= Retained(before)
  {
    forall id | id in after
      ensures SessionWeight(after)(id) <= SessionWeight(before)(id)
    {
      forall k | k in after[id].topics && after[id].topics[k].state.snapshot.Some?
        ensures id in before && k in before[id].topics && before[id].topics[k].state == after[id].topics[k].state
      {
        var p := Place(id, k);
        assert Placed(after, p) && At(after, p) == after[id].topics[k];
        assert Placed(before, p);
      }
      if id in before {
        SessionRetainsLess(before[id], after[id]);
      } else {
        SessionRetainsNothing(after[id]);
      }
    }
    SumAtMost(IdsInOrder(after.Keys), IdsInOrder(before.Keys), SessionWeight(after), SessionWeight(before));
  }

  lemma SessionReplaces(a: Session, b: Session, topics: map<TopicRef, Topic>)
    requires topics.Keys <= a.topics.Keys == b.topics.Keys
    requires forall k :: k in a.topics && k !in topics ==> b.topics[k] == a.topics[k]
    requires forall k :: k in topics ==> SnapshotBytes(b.topics[k]) == SnapshotBytes(topics[k])
    ensures var keys := TopicsInOrder(topics.Keys);
            && SessionRetains(b) + TopicsBytes(a.topics, keys) == SessionRetains(a) + TopicsBytes(topics, keys)
            && TopicsBytes(a.topics, keys) <= SessionRetains(a)
  {
    var keys := TopicsInOrder(topics.Keys);
    var all := TopicsInOrder(a.topics.Keys);
    var f, g, h := TopicWeight(a.topics), TopicWeight(b.topics), TopicWeight(topics);
    assert forall k :: k in keys ==> k in topics && k in all;
    SumChange(all, keys, f, g);
    SumAtMost(keys, keys, g, h);
    SumAtMost(keys, keys, h, g);
  }

  lemma TotalReplaces(before: Sessions, after: Sessions, id: string)
    requires id in before && after.Keys == before.Keys
    requires forall other :: other in before && other != id ==> after[other] == before[other]
    ensures Retained(after) + SessionRetains(before[id]) == Retained(before) + SessionRetains(after[id])
    ensures SessionRetains(before[id]) <= Retained(before)
  {
    var f, g := SessionWeight(before), SessionWeight(after);
    SumChange(IdsInOrder(before.Keys), [id], f, g);
    assert [id][..0] == [];
    assert SumOver([id], f) == f(id) && SumOver([id], g) == g(id);
  }

  /** Replacing topics of one session moves the total by exactly the difference
      that the admission check computes, and the check's subtraction never underflows. */
  lemma RetainedReplaces(before: Sessions, after: Sessions, id: string, topics: map<TopicRef, Topic>)
    requires id in before && after.Keys == before.Keys
    requires forall other :: other in before && other != id ==> after[other] == before[other]
    requires topics.Keys <= before[id].topics.Keys == after[id].topics.Keys
    requires forall k :: k in before[id].topics && k !in topics ==> after[id].topics[k] == before[id].topics[k]
    requires forall k :: k in topics ==> SnapshotBytes(after[id].topics[k]) == SnapshotBytes(topics[k])
    ensures var keys := TopicsInOrder(topics.Keys);
            && TopicsBytes(before[id].topics, keys) <= Retained(before)
            && Retained(after) == Retained(before) - TopicsBytes(before[id].topics, keys) + TopicsBytes(topics, keys)
  {
    SessionReplaces(before[id], after[id], topics);
    TotalReplaces(before, after, id);
  }
}
