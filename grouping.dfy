/** The aggregation stages the registry's two counts use, for any group key:
    `{"$group": {"_id": <key>, "count": {"$sum": 1}}}` followed by a `$sort`. */
module Grouping {

  /** One output document of the $group stage: {"_id": key, "count": count}. */
  datatype Bucket<K> = Bucket(key: K, count: nat)

  function Keys<K(==)>(g: seq<Bucket<K>>): set<K>
  {
    if g == [] then {} else {g[0].key} + Keys(g[1..])
  }

  /** No two buckets share a key. */
  predicate DistinctKeys<K(==)>(g: seq<Bucket<K>>)
  {
    g == [] || (g[0].key !in Keys(g[1..]) && DistinctKeys(g[1..]))
  }

  /** The count reported for x, 0 when no bucket has key x. */
  function KeyCount<K(==)>(g: seq<Bucket<K>>, x: K): nat
  {
    if g == [] then 0 else if g[0].key == x then g[0].count else KeyCount(g[1..], x)
  }

  predicate AllPositive<K(==)>(g: seq<Bucket<K>>)
  {
    forall b :: b in g ==> b.count > 0
  }

  /** The sum of the counts. */
  function Total<K>(g: seq<Bucket<K>>): nat
  {
    if g == [] then 0 else g[0].count + Total(g[1..])
  }

  /** g is a $group/$sum result over the group keys of the documents: one bucket per
      distinct key, each with a positive count equal to the number of documents having it. */
  ghost predicate Counts<K(!new)>(keys: seq<K>, g: seq<Bucket<K>>)
  {
    DistinctKeys(g) && AllPositive(g) && forall x :: KeyCount(g, x) == multiset(keys)[x]
  }

  /** The bucket of a key of a result with distinct keys carries the key's count. */
  lemma {:induction false} BucketCount<K>(g: seq<Bucket<K>>, i: nat)
    requires DistinctKeys(g) && i < |g|
    ensures KeyCount(g, g[i].key) == g[i].count
  {
    if i > 0 {
      KeysHold(g[1..], i - 1);
      BucketCount(g[1..], i - 1);
    }
  }

  lemma {:induction false} KeysHold<K>(g: seq<Bucket<K>>, i: nat)
    requires i < |g|
    ensures g[i].key in Keys(g)
  {
    if i > 0 {
      KeysHold(g[1..], i - 1);
    }
  }

  /** DistinctKeys read pairwise: no two positions hold the same key. */
  lemma {:induction false} DistinctPairwise<K>(g: seq<Bucket<K>>, i: nat, j: nat)
    requires DistinctKeys(g) && i < j < |g|
    ensures g[i].key != g[j].key
  {
    if i == 0 {
      KeysHold(g[1..], j - 1);
    } else {
      DistinctPairwise(g[1..], i - 1, j - 1);
    }
  }

  /** A key with a positive count has a bucket. */
  lemma {:induction false} KeyCountPositive<K>(g: seq<Bucket<K>>, x: K)
    requires KeyCount(g, x) > 0
    ensures exists i :: 0 <= i < |g| && g[i].key == x
  {
    if g[0].key != x {
      KeyCountPositive(g[1..], x);
      var i :| 0 <= i < |g[1..]| && g[1..][i].key == x;
      assert g[i + 1].key == x;
    }
  }

  /** Counting one more document with key k. */
  function Add<K(==)>(g: seq<Bucket<K>>, k: K): seq<Bucket<K>>
  {
    if g == [] then [Bucket(k, 1)]
    else if g[0].key == k then [Bucket(k, g[0].count + 1)] + g[1..]
    else [g[0]] + Add(g[1..], k)
  }

  lemma {:induction false} AddSpec<K>(g: seq<Bucket<K>>, k: K)
    ensures Keys(Add(g, k)) == Keys(g) + {k}
    ensures DistinctKeys(g) ==> DistinctKeys(Add(g, k))
    ensures AllPositive(g) ==> AllPositive(Add(g, k))
    ensures forall x :: KeyCount(Add(g, k), x) == KeyCount(g, x) + (if x == k then 1 else 0)
    ensures Total(Add(g, k)) == Total(g) + 1
  {
    if g != [] {
      var r := Add(g, k);
      if g[0].key == k {
        assert r[1..] == g[1..];
      } else {
        AddSpec(g[1..], k);
        assert r[1..] == Add(g[1..], k);
        assert forall b :: b in r ==> b == g[0] || b in Add(g[1..], k);
      }
    }
  }

  /** The $group stage with count {$sum: 1}, buckets in the order their keys first appear from the end. */
  function Tally<K(==,!new)>(keys: seq<K>): (r: seq<Bucket<K>>)
    ensures Counts(keys, r) && Total(r) == |keys|
  {
    if keys == [] then []
    else
      var rest := Tally(keys[1..]);
      AddSpec(rest, keys[0]);
      assert keys == [keys[0]] + keys[1..];
      Add(rest, keys[0])
  }

  /** The $sort stage, as a stable insertion sort by `le`. */
  predicate SortedBy<T>(s: seq<T>, le: (T, T) -> bool)
  {
    forall i, j :: 0 <= i < j < |s| ==> le(s[i], s[j])
  }

  ghost predicate TotalPreorder<T(!new)>(le: (T, T) -> bool)
  {
    && (forall a, b :: le(a, b) || le(b, a))
    && (forall a, b, c :: le(a, b) && le(b, c) ==> le(a, c))
  }

  function Insert<T>(e: T, s: seq<T>, le: (T, T) -> bool): (r: seq<T>)
    ensures multiset(r) == multiset(s) + multiset{e}
  {
    if s == [] then [e]
    else if le(e, s[0]) then [e] + s
    else
      assert s == [s[0]] + s[1..];
      [s[0]] + Insert(e, s[1..], le)
  }

  lemma {:induction false} InsertSorted<T(!new)>(e: T, s: seq<T>, le: (T, T) -> bool)
    requires TotalPreorder(le) && SortedBy(s, le)
    ensures SortedBy(Insert(e, s, le), le)
  {
    if s != [] && !le(e, s[0]) {
      var tail := Insert(e, s[1..], le);
      InsertSorted(e, s[1..], le);
      forall y | y in tail
        ensures le(s[0], y)
      {
        assert y in multiset(s[1..]) + multiset{e};
      }
      var r := Insert(e, s, le);
      assert r == [s[0]] + tail;
      forall i, j | 0 <= i < j < |r|
        ensures le(r[i], r[j])
      {
        if i == 0 {
          assert r[j] == tail[j - 1];
        } else {
          assert r[i] == tail[i - 1] && r[j] == tail[j - 1];
        }
      }
    }
  }

  lemma {:induction false} InsertBuckets<K>(e: Bucket<K>, s: seq<Bucket<K>>, le: (Bucket<K>, Bucket<K>) -> bool)
    requires e.key !in Keys(s)
    ensures Keys(Insert(e, s, le)) == Keys(s) + {e.key}
    ensures DistinctKeys(s) ==> DistinctKeys(Insert(e, s, le))
    ensures forall x :: KeyCount(Insert(e, s, le), x) == if x == e.key then e.count else KeyCount(s, x)
    ensures Total(Insert(e, s, le)) == Total(s) + e.count
  {
    var r := Insert(e, s, le);
    if s == [] {
    } else if le(e, s[0]) {
      assert r[1..] == s;
    } else {
      InsertBuckets(e, s[1..], le);
      assert r[1..] == Insert(e, s[1..], le);
    }
  }

  function Sort<T>(s: seq<T>, le: (T, T) -> bool): (r: seq<T>)
    ensures multiset(r) == multiset(s)
  {
    if s == [] then []
    else
      assert s == [s[0]] + s[1..];
      Insert(s[0], Sort(s[1..], le), le)
  }

  lemma {:induction false} SortSorted<T(!new)>(s: seq<T>, le: (T, T) -> bool)
    requires TotalPreorder(le)
    ensures SortedBy(Sort(s, le), le)
  {
    if s != [] {
      SortSorted(s[1..], le);
      InsertSorted(s[0], Sort(s[1..], le), le);
    }
  }

  /** Sorting a $group result keeps what it counts. */
  lemma {:induction false} SortBuckets<K>(g: seq<Bucket<K>>, le: (Bucket<K>, Bucket<K>) -> bool)
    requires DistinctKeys(g)
    ensures Keys(Sort(g, le)) == Keys(g) && DistinctKeys(Sort(g, le))
    ensures forall x :: KeyCount(Sort(g, le), x) == KeyCount(g, x)
    ensures Total(Sort(g, le)) == Total(g)
  {
    if g != [] {
      SortBuckets(g[1..], le);
      InsertBuckets(g[0], Sort(g[1..], le), le);
    }
  }

  /** $group by key with count {$sum: 1}, then $sort by `le`. */
  function GroupCount<K(==,!new)>(keys: seq<K>, le: (Bucket<K>, Bucket<K>) -> bool): (r: seq<Bucket<K>>)
    requires TotalPreorder(le)
    ensures Counts(keys, r) && Total(r) == |keys|
    ensures SortedBy(r, le)
  {
    var g := Tally(keys);
    SortBuckets(g, le);
    SortSorted(g, le);
    assert forall b :: b in Sort(g, le) ==> b in multiset(g);
    Sort(g, le)
  }
}
