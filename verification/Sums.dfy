/** Sums of a weight over the distinct keys of a sequence. */
module Sums {
  import opened Ordering

  function SumOver<K>(keys: seq<K>, weight: K -> nat): nat {
    if keys == [] then 0
    else SumOver(keys[..|keys| - 1], weight) + weight(keys[|keys| - 1])
  }

  lemma {:induction false} SumSplit<K>(a: seq<K>, b: seq<K>, weight: K -> nat)
    ensures SumOver(a + b, weight) == SumOver(a, weight) + SumOver(b, weight)
  {
    if b == [] {
      assert a + b == a;
    } else {
      var front := b[..|b| - 1];
      SumSplit(a, front, weight);
      assert (a + b)[..|a + b| - 1] == a + front;
    }
  }

  lemma SumSingle<K>(k: K, weight: K -> nat)
    ensures SumOver([k], weight) == weight(k)
  {
    assert [k][..0] == [];
  }

  lemma SumInsert<K>(a: seq<K>, k: K, b: seq<K>, weight: K -> nat)
    ensures SumOver(a + [k] + b, weight) == SumOver(a + b, weight) + weight(k)
  {
    SumSplit(a, b, weight);
    SumSplit(a, [k], weight);
    SumSplit(a + [k], b, weight);
    SumSingle(k, weight);
  }

  /** Taking one key out of a sequence takes its weight out of the sum. */
  lemma SumWithout<K>(keys: seq<K>, i: nat, weight: K -> nat)
    requires i < |keys|
    ensures SumOver(keys, weight) == SumOver(keys[..i] + keys[i + 1..], weight) + weight(keys[i])
  {
    SumInsert(keys[..i], keys[i], keys[i + 1..], weight);
    SplitAt(keys, i);
  }

  lemma SplitAt<K>(keys: seq<K>, i: nat)
    requires i < |keys|
    ensures keys[..i] + [keys[i]] + keys[i + 1..] == keys
  {
  }

  lemma WithoutKeeps<K(!new)>(keys: seq<K>, i: nat)
    requires i < |keys| && NoRepeats(keys)
    ensures var rest := keys[..i] + keys[i + 1..];
            && NoRepeats(rest)
            && forall k :: k in rest <==> k in keys && k != keys[i]
  {
    var rest := keys[..i] + keys[i + 1..];
    assert forall j :: 0 <= j < |rest| ==> rest[j] == if j < i then keys[j] else keys[j + 1];
    forall k | k in keys && k != keys[i] ensures k in rest {
      var j :| 0 <= j < |keys| && keys[j] == k;
      assert rest[if j < i then j else j - 1] == k;
    }
  }

  /** A sum over fewer keys of smaller weights is no larger. */
  lemma {:induction false} SumAtMost<K(!new)>(a: seq<K>, b: seq<K>, f: K -> nat, g: K -> nat)
    requires NoRepeats(a) && NoRepeats(b)
    requires forall k :: k in a && k in b ==> f(k) <= g(k)
    requires forall k :: k in a && k !in b ==> f(k) == 0
    ensures SumOver(a, f) <= SumOver(b, g)
    decreases |a|
  {
    if a != [] {
      var x := a[|a| - 1];
      var front := a[..|a| - 1];
      assert x in a && forall k :: k in front ==> k in a && k != x;
      if x in b {
        var i :| 0 <= i < |b| && b[i] == x;
        SumWithout(b, i, g);
        WithoutKeeps(b, i);
        SumAtMost(front, b[..i] + b[i + 1..], f, g);
      } else {
        SumAtMost(front, b, f, g);
      }
    }
  }

  /** Changing the weights of some keys changes the sum by exactly their difference. */
  lemma {:induction false} SumChange<K(!new)>(all: seq<K>, part: seq<K>, f: K -> nat, g: K -> nat)
    requires NoRepeats(all) && NoRepeats(part)
    requires forall k :: k in part ==> k in all
    requires forall k :: k in all && k !in part ==> f(k) == g(k)
    ensures SumOver(all, g) + SumOver(part, f) == SumOver(all, f) + SumOver(part, g)
    ensures SumOver(part, f) <= SumOver(all, f)
    decreases |part|
  {
    if part == [] {
      SumAtMost(all, all, f, g);
      SumAtMost(all, all, g, f);
    } else {
      var x := part[|part| - 1];
      var front := part[..|part| - 1];
      assert x in part;
      var i :| 0 <= i < |all| && all[i] == x;
      SumWithout(all, i, f);
      SumWithout(all, i, g);
      WithoutKeeps(all, i);
      assert forall k :: k in front ==> k in part && k != x;
      assert forall k :: k in part ==> k in front || k == x;
      SumChange(all[..i] + all[i + 1..], front, f, g);
    }
  }
}
