/** The iteration order of ordered maps: keys by byte order of their strings. */
module Ordering {
  import opened Wire

  ghost predicate TotalOrder<K(!new)>(le: (K, K) -> bool) {
    && (forall a, b :: le(a, b) || le(b, a))
    && (forall a, b :: le(a, b) && le(b, a) ==> a == b)
    && (forall a, b, c :: le(a, b) && le(b, c) ==> le(a, c))
  }

  ghost predicate NoRepeats<K(!new)>(keys: seq<K>) {
    forall i, j :: 0 <= i < j < |keys| ==> keys[i] != keys[j]
  }

  ghost predicate Enumerates<K(!new)>(keys: seq<K>, s: set<K>) {
    && (forall k :: k in keys <==> k in s)
    && NoRepeats(keys)
  }

  predicate Least<K(==)>(m: K, s: set<K>, le: (K, K) -> bool) {
    m in s && forall k :: k in s ==> le(m, k)
  }

  lemma LeastExists<K(!new)>(s: set<K>, le: (K, K) -> bool)
    requires TotalOrder(le) && s != {}
    ensures exists m :: Least(m, s, le)
    decreases |s|
  {
    var x :| x in s;
    var rest := s - {x};
    if rest == {} {
      assert s == {x} && Least(x, s, le);
    } else {
      LeastExists(rest, le);
      var n :| Least(n, rest, le);
      var m := if le(x, n) then x else n;
      forall k | k in s ensures le(m, k) {
        if k != x { assert k in rest; }
      }
      assert Least(m, s, le);
    }
  }

  function Sorted<K(!new, ==)>(s: set<K>, le: (K, K) -> bool): (r: seq<K>)
    requires TotalOrder(le)
    ensures Enumerates(r, s)
    ensures forall i, j :: 0 <= i < j < |r| ==> le(r[i], r[j])
    decreases |s|
  {
    if s == {} then []
    else
      LeastExists(s, le);
      var m :| m in s && Least(m, s, le);
      var rest := Sorted(s - {m}, le);
      assert forall i :: 0 <= i < |rest| ==> rest[i] in s - {m};
      [m] + rest
  }

  predicate StringLe(a: string, b: string) {
    a == [] || (b != [] && (a[0] < b[0] || (a[0] == b[0] && StringLe(a[1..], b[1..]))))
  }

  lemma StringLeTotal(a: string, b: string)
    ensures StringLe(a, b) || StringLe(b, a)
    ensures StringLe(a, b) && StringLe(b, a) ==> a == b
  {
    if a != [] && b != [] && a[0] == b[0] {
      StringLeTotal(a[1..], b[1..]);
      assert a == [a[0]] + a[1..] && b == [b[0]] + b[1..];
    }
  }

  lemma StringLeTransitive(a: string, b: string, c: string)
    requires StringLe(a, b) && StringLe(b, c)
    ensures StringLe(a, c)
  {
    if a != [] && a[0] == b[0] && b[0] == c[0] {
      StringLeTransitive(a[1..], b[1..], c[1..]);
    }
  }

  predicate TopicLe(a: TopicRef, b: TopicRef) {
    if a.providerId != b.providerId then StringLe(a.providerId, b.providerId)
    else if a.topic != b.topic then StringLe(a.topic, b.topic)
    else a.schemaVersion <= b.schemaVersion
  }

  lemma StringOrder()
    ensures TotalOrder(StringLe)
  {
    forall a, b ensures (StringLe(a, b) || StringLe(b, a)) && (StringLe(a, b) && StringLe(b, a) ==> a == b) {
      StringLeTotal(a, b);
    }
    forall a, b, c | StringLe(a, b) && StringLe(b, c) ensures StringLe(a, c) {
      StringLeTransitive(a, b, c);
    }
  }

  lemma TopicOrder()
    ensures TotalOrder(TopicLe)
  {
    StringOrder();
    assert TotalOrder(StringLe);
    forall a: TopicRef, b: TopicRef
      ensures TopicLe(a, b) || TopicLe(b, a)
      ensures TopicLe(a, b) && TopicLe(b, a) ==> a == b
    {
      StringLeTotal(a.providerId, b.providerId);
      StringLeTotal(a.topic, b.topic);
    }
    forall a: TopicRef, b: TopicRef, c: TopicRef | TopicLe(a, b) && TopicLe(b, c)
      ensures TopicLe(a, c)
    {
      TopicLeTransitive(a, b, c);
    }
  }

  lemma TopicLeTransitive(a: TopicRef, b: TopicRef, c: TopicRef)
    requires TopicLe(a, b) && TopicLe(b, c)
    ensures TopicLe(a, c)
  {
    if a.providerId != b.providerId && b.providerId != c.providerId {
      StringLeTransitive(a.providerId, b.providerId, c.providerId);
      StringLeTotal(a.providerId, b.providerId);
    } else if a.providerId == b.providerId == c.providerId && a.topic != b.topic && b.topic != c.topic {
      StringLeTransitive(a.topic, b.topic, c.topic);
      StringLeTotal(a.topic, b.topic);
    }
  }

  function IdsInOrder(ids: set<string>): (r: seq<string>)
    ensures Enumerates(r, ids)
  {
    StringOrder();
    Sorted(ids, StringLe)
  }

  function TopicsInOrder(keys: set<TopicRef>): (r: seq<TopicRef>)
    ensures Enumerates(r, keys)
  {
    TopicOrder();
    Sorted(keys, TopicLe)
  }
}
