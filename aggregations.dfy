/** The registry's two aggregation pipelines: contar_bens_por_localizacao and
    contar_bens_por_categoria_e_status. */
module Aggregations {
  import opened Text
  import opened Assets
  import opened Queries
  import opened Grouping

  /** The "$location" of every document, in collection order. */
  function LocationKeys(docs: seq<Asset>): (r: seq<string>)
    ensures |r| == |docs| && forall i :: 0 <= i < |docs| ==> r[i] == docs[i].location
  {
    if docs == [] then [] else [docs[0].location] + LocationKeys(docs[1..])
  }

  /** The group key {"category": "$category", "status": "$status"}. */
  datatype CategoryStatus = CategoryStatus(category: string, status: string)

  function CategoryStatusKeys(docs: seq<Asset>): (r: seq<CategoryStatus>)
    ensures |r| == |docs| &&
      forall i :: 0 <= i < |docs| ==> r[i] == CategoryStatus(docs[i].category, docs[i].status)
  {
    if docs == [] then []
    else [CategoryStatus(docs[0].category, docs[0].status)] + CategoryStatusKeys(docs[1..])
  }

  /** {"$sort": {"count": -1}} */
  predicate ByCountDesc(a: Bucket<string>, b: Bucket<string>)
  {
    a.count >= b.count
  }

  /** {"$sort": {"_id.category": 1, "count": -1}} */
  predicate ByCategoryThenCountDesc(a: Bucket<CategoryStatus>, b: Bucket<CategoryStatus>)
  {
    if a.key.category == b.key.category then a.count >= b.count
    else LexLe(a.key.category, b.key.category)
  }

  lemma ByCountDescIsTotalPreorder()
    ensures TotalPreorder(ByCountDesc)
  {
  }

  lemma ByCategoryThenCountDescIsTotalPreorder()
    ensures TotalPreorder(ByCategoryThenCountDesc)
  {
    forall a: Bucket<CategoryStatus>, b: Bucket<CategoryStatus>
      ensures ByCategoryThenCountDesc(a, b) || ByCategoryThenCountDesc(b, a)
    {
      LexLeTotal(a.key.category, b.key.category);
    }
    forall a: Bucket<CategoryStatus>, b: Bucket<CategoryStatus>, c: Bucket<CategoryStatus> |
      ByCategoryThenCountDesc(a, b) && ByCategoryThenCountDesc(b, c)
      ensures ByCategoryThenCountDesc(a, c)
    {
      var x, y, z := a.key.category, b.key.category, c.key.category;
      if x != y && y != z {
        LexLeTransitive(x, y, z);
        if x == z {
          LexLeAntisymmetric(x, y);
        }
      }
    }
  }

  /** contar_bens_por_localizacao: one bucket per distinct location, with the number of
      documents there; the counts add up to the collection size and never increase. */
  function CountByLocation(docs: seq<Asset>): (r: seq<Bucket<string>>)
    ensures Counts(LocationKeys(docs), r)
    ensures Total(r) == |docs|
    ensures forall i, j :: 0 <= i < j < |r| ==> r[i].count >= r[j].count
  {
    ByCountDescIsTotalPreorder();
    GroupCount(LocationKeys(docs), ByCountDesc)
  }

  /** contar_bens_por_categoria_e_status: one bucket per distinct (category, status) pair,
      with its number of documents, ordered by category and, within a category, by count
      descending. */
  function CountByCategoryAndStatus(docs: seq<Asset>): (r: seq<Bucket<CategoryStatus>>)
    ensures Counts(CategoryStatusKeys(docs), r)
    ensures Total(r) == |docs|
    ensures forall i, j :: 0 <= i < j < |r| ==>
      LexLe(r[i].key.category, r[j].key.category) &&
      (r[i].key.category == r[j].key.category ==> r[i].count >= r[j].count)
  {
    ByCategoryThenCountDescIsTotalPreorder();
    var r := GroupCount(CategoryStatusKeys(docs), ByCategoryThenCountDesc);
    forall i, j | 0 <= i < j < |r|
      ensures LexLe(r[i].key.category, r[j].key.category)
    {
      LexLeTotal(r[i].key.category, r[j].key.category);
    }
    r
  }

  /** The count the location aggregation reports for a location is the number of
      documents the location search returns. */
  lemma {:induction false} CountByLocationMatchesFind(docs: seq<Asset>, location: string)
    ensures KeyCount(CountByLocation(docs), location) == |FindByLocation(docs, location)|
  {
    LocationOccurrences(docs, location);
  }

  lemma {:induction false} LocationOccurrences(docs: seq<Asset>, location: string)
    ensures multiset(LocationKeys(docs))[location] == |Find(docs, Eq(LocationField, location))|
  {
    if docs != [] {
      LocationOccurrences(docs[1..], location);
      assert LocationKeys(docs) == [docs[0].location] + LocationKeys(docs[1..]);
    }
  }

  /** Three documents at one location and one at another give exactly the two
      buckets, the larger first. */
  lemma CountByLocationThreeAndOne(docs: seq<Asset>, a: string, b: string)
    requires a != b && multiset(LocationKeys(docs)) == multiset{a, a, a, b}
    ensures CountByLocation(docs) == [Bucket(a, 3), Bucket(b, 1)]
  {
    ThreeAndOneBuckets(LocationKeys(docs), CountByLocation(docs), a, b);
  }

  /** A counting result over keys {a, a, a, b}, sorted by count descending, is determined. */
  lemma ThreeAndOneBuckets(keys: seq<string>, r: seq<Bucket<string>>, a: string, b: string)
    requires a != b && multiset(keys) == multiset{a, a, a, b}
    requires Counts(keys, r)
    requires forall i, j :: 0 <= i < j < |r| ==> r[i].count >= r[j].count
    ensures r == [Bucket(a, 3), Bucket(b, 1)]
  {
    var m := multiset(keys);
    assert m[a] == 3 && m[b] == 1;
    forall i | 0 <= i < |r|
      ensures r[i] == Bucket(a, 3) || r[i] == Bucket(b, 1)
    {
      BucketCount(r, i);
      assert r[i] in r;
      assert m[r[i].key] > 0;
    }
    KeyCountPositive(r, a);
    KeyCountPositive(r, b);
    var ia :| 0 <= ia < |r| && r[ia].key == a;
    var ib :| 0 <= ib < |r| && r[ib].key == b;
    if |r| > 2 {
      DistinctPairwise(r, 0, 2);
      DistinctPairwise(r, 1, 2);
    }
    assert ia == 0 && ib == 1;
  }

  /** A collection whose documents all sit at one location gives that single bucket. */
  lemma SingleLocationCount(docs: seq<Asset>, location: string)
    requires docs != [] && forall i :: 0 <= i < |docs| ==> docs[i].location == location
    ensures CountByLocation(docs) == [Bucket(location, |docs|)]
  {
    var keys, r := LocationKeys(docs), CountByLocation(docs);
    var m := multiset(keys);
    assert keys[0] in m;
    forall i | 0 <= i < |r|
      ensures r[i].key == location
    {
      BucketCount(r, i);
      assert r[i] in r;
      assert m[r[i].key] > 0;
      assert r[i].key in keys;
    }
    KeyCountPositive(r, location);
    if |r| > 1 {
      DistinctPairwise(r, 0, 1);
    }
    BucketCount(r, 0);
    SameKeyOccurrences(keys, location);
  }

  lemma {:induction false} SameKeyOccurrences(keys: seq<string>, x: string)
    requires forall i :: 0 <= i < |keys| ==> keys[i] == x
    ensures multiset(keys)[x] == |keys|
  {
    if keys != [] {
      SameKeyOccurrences(keys[1..], x);
      assert keys == [keys[0]] + keys[1..];
    }
  }
}
