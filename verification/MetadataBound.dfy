/** What the client counts towards its bound on active metadata. */
module MetadataBound {
  import opened Wire
  import opened WireSize
  import opened Ordering
  import opened Sums
  import opened ClientValidation

  lemma OneMore<K(!new)>(all: seq<K>, rest: seq<K>, k: K, weight: K -> nat)
    requires NoRepeats(all) && NoRepeats(rest) && k in all && k !in rest
    requires forall x :: x in all <==> x in rest || x == k
    ensures SumOver(all, weight) == SumOver(rest, weight) + weight(k)
  {
    var i :| 0 <= i < |all| && all[i] == k;
    SumWithout(all, i, weight);
    WithoutKeeps(all, i);
    SumAtMost(all[..i] + all[i + 1..], rest, weight, weight);
    SumAtMost(rest, all[..i] + all[i + 1..], weight, weight);
  }

  function KeyWeight(k: TopicRef): nat {
    |k.providerId| + |k.topic| + 256
  }

  function SeenWeight(sessions: map<string, Seen>): string -> nat {
    id => if id in sessions then SeenBytes(sessions[id]) else 0
  }

  lemma {:induction false} TopicBytesSum(keys: seq<TopicRef>)
    ensures TopicBytes(keys) == SumOver(keys, KeyWeight)
  {
    if keys != [] {
      TopicBytesSum(keys[..|keys| - 1]);
    }
  }

  lemma {:induction false} SessionBytesSum(sessions: map<string, Seen>, ids: seq<string>)
    requires forall id :: id in ids ==> id in sessions
    ensures SessionBytes(sessions, ids) == SumOver(ids, SeenWeight(sessions))
  {
    hide SeenBytes;
    if ids != [] {
      assert ids[|ids| - 1] in ids;
      SessionBytesSum(sessions, ids[..|ids| - 1]);
    }
  }

  /** A session counts its metadata and 256 bytes, and each of its topics its name and 256 more. */
  lemma SeenCounts(seen: Seen, k: TopicRef, generation: nat)
    ensures seen.topics == map[] ==> SeenBytes(seen) == InfoSize(seen.info) + 256
    ensures k !in seen.topics ==>
              SeenBytes(seen.(topics := seen.topics[k := generation]))
              == SeenBytes(seen) + |k.providerId| + |k.topic| + 256
  {
    hide InfoSize;
    if seen.topics == map[] {
      SumAtMost(TopicsInOrder(seen.topics.Keys), [], KeyWeight, KeyWeight);
      TopicBytesSum(TopicsInOrder(seen.topics.Keys));
    }
    if k !in seen.topics {
      var more := seen.topics[k := generation];
      TopicBytesSum(TopicsInOrder(more.Keys));
      TopicBytesSum(TopicsInOrder(seen.topics.Keys));
      OneMore(TopicsInOrder(more.Keys), TopicsInOrder(seen.topics.Keys), k, KeyWeight);
    }
  }

  /** The active metadata is nothing without sessions, and a session adds exactly what it counts. */
  lemma MetadataCounts(sessions: map<string, Seen>, id: string, seen: Seen)
    requires id !in sessions
    ensures MetadataBytes(map[]) == 0
    ensures MetadataBytes(sessions[id := seen]) == MetadataBytes(sessions) + SeenBytes(seen)
  {
    hide SeenBytes;
    var none: map<string, Seen> := map[];
    SessionBytesSum(none, IdsInOrder(none.Keys));
    SumAtMost(IdsInOrder(none.Keys), [], SeenWeight(none), SeenWeight(none));
    var more := sessions[id := seen];
    var all, rest := IdsInOrder(more.Keys), IdsInOrder(sessions.Keys);
    SessionBytesSum(more, all);
    SessionBytesSum(sessions, rest);
    OneMore(all, rest, id, SeenWeight(more));
    SumAtMost(rest, rest, SeenWeight(more), SeenWeight(sessions));
    SumAtMost(rest, rest, SeenWeight(sessions), SeenWeight(more));
  }
}
