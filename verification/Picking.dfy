/** Parts of a list, in order, and the events that a state still shows. */
module Picking {
  import opened Wire
  import opened Replica

  ghost predicate Rising(f: seq<nat>) {
    forall i, j :: 0 <= i < j < |f| ==> f[i] < f[j]
  }

  /** The second list is the first at these positions, in order and each once. */
  ghost predicate Picks<T(!new)>(f: seq<nat>, from: seq<T>, to: seq<T>) {
    && |f| == |to| && Rising(f)
    && forall j :: 0 <= j < |f| ==> f[j] < |from| && to[j] == from[f[j]]
  }

  predicate ShowsEvent(state: FeedState, event: EventEnvelope) {
    && event.metadata.source.session in state.topics
    && state.topics[event.metadata.source.session].generation == event.metadata.generation
  }

  predicate Stays(event: EventEnvelope, topic: TopicRef, state: FeedState) {
    event.metadata.source.topic != topic || ShowsEvent(state, event)
  }

  ghost predicate PicksStaying(f: seq<nat>, from: seq<(nat, EventEnvelope)>, to: seq<(nat, EventEnvelope)>,
                               topic: TopicRef, state: FeedState)
  {
    && Picks(f, from, to)
    && forall i: nat :: i < |from| ==> (i in f <==> Stays(from[i].1, topic, state))
  }

  lemma NonePicked(topic: TopicRef, state: FeedState)
    ensures PicksStaying([], [], [], topic, state)
  {
  }

  lemma PicksOneMore(g: seq<nat>, from: seq<(nat, EventEnvelope)>, to: seq<(nat, EventEnvelope)>, last: (nat, EventEnvelope),
                     topic: TopicRef, state: FeedState)
    requires PicksStaying(g, from, to, topic, state)
    ensures if Stays(last.1, topic, state) then PicksStaying(g + [|from|], from + [last], to + [last], topic, state)
            else PicksStaying(g, from + [last], to, topic, state)
  {
    hide Stays;
    var f := if Stays(last.1, topic, state) then g + [|from|] else g;
    assert Stays(last.1, topic, state) ==> f[|g|] == |from|;
    forall i: nat | i < |from + [last]| ensures i in f <==> Stays((from + [last])[i].1, topic, state) {
      if i < |from| { assert (from + [last])[i] == from[i]; }
    }
  }

  // ---- positions of positions

  /** The positions that picking from a picked list amounts to. */
  function Through(f: seq<nat>, p: seq<nat>): (g: seq<nat>)
    requires forall j :: 0 <= j < |p| ==> p[j] < |f|
    ensures |g| == |p| && forall j :: 0 <= j < |p| ==> g[j] == f[p[j]]
  {
    seq(|p|, j requires 0 <= j < |p| => f[p[j]])
  }

  lemma PicksSplit<T(!new)>(f: seq<nat>, from: seq<T>, a: seq<T>, b: seq<T>)
    requires Picks(f, from, a + b)
    ensures |f| == |a| + |b| && Picks(f[..|a|], from, a) && Picks(f[|a|..], from, b)
    ensures forall x, y :: x in f[..|a|] && y in f[|a|..] ==> x < y
  {
    var n := |a|;
    forall j | 0 <= j < |b| ensures f[n..][j] == f[n + j] && b[j] == (a + b)[n + j] {
    }
    forall j | 0 <= j < n ensures f[..n][j] == f[j] && a[j] == (a + b)[j] {
    }
  }

  lemma PicksJoin<T(!new)>(f: seq<nat>, g: seq<nat>, from: seq<T>, a: seq<T>, b: seq<T>)
    requires Picks(f, from, a) && Picks(g, from, b)
    requires forall x, y :: x in f && y in g ==> x < y
    ensures Picks(f + g, from, a + b)
  {
    forall j | 0 <= j < |f + g| ensures (f + g)[j] < |from| && (a + b)[j] == from[(f + g)[j]] {
      if j >= |f| { assert (f + g)[j] == g[j - |f|]; }
    }
    forall i, j | 0 <= i < j < |f + g| ensures (f + g)[i] < (f + g)[j] {
      if i < |f| <= j {
        assert (f + g)[i] in f && (f + g)[j] in g;
      } else if j < |f| {
        assert f[i] < f[j];
      } else {
        assert g[i - |f|] < g[j - |f|];
      }
    }
  }

  lemma ThroughAfter(f: seq<nat>, n: nat, p: seq<nat>)
    requires n <= |f| && (forall j :: 0 <= j < |p| ==> p[j] < |f[n..]|)
    requires forall x, y :: x in f[..n] && y in f[n..] ==> x < y
    ensures forall x, y :: x in f[..n] && y in Through(f[n..], p) ==> x < y
  {
    forall y | y in Through(f[n..], p) ensures y in f[n..] {
      var j :| 0 <= j < |p| && Through(f[n..], p)[j] == y;
    }
  }

  lemma ThroughHas(f: seq<nat>, p: seq<nat>, i: nat)
    requires (forall j :: 0 <= j < |p| ==> p[j] < |f|) && i < |f|
    ensures i in p ==> f[i] in Through(f, p)
  {
    if i in p {
      var j :| 0 <= j < |p| && p[j] == i;
      assert Through(f, p)[j] == f[i];
    }
  }

  /** Where a position lies in the second part, when it is not in the first. */
  lemma RestIndex(f: seq<nat>, n: nat, a: nat) returns (i: nat)
    requires n <= |f| && a in f && a !in f[..n]
    ensures i < |f[n..]| && f[n..][i] == a
  {
    forall j | 0 <= j < n ensures f[j] in f[..n] {
      assert f[..n][j] == f[j];
    }
    var k :| 0 <= k < |f| && f[k] == a;
    i := k - n;
  }

  lemma PickedAt<T(!new)>(f: seq<nat>, from: seq<T>, to: seq<T>, i: nat)
    requires Picks(f, from, to) && i < |f|
    ensures i < |to| && f[i] < |from| && to[i] == from[f[i]]
  {
  }
}
