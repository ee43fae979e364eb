/** The read side of the registry: the MongoDB filters the script uses
    ({} , {field: value} and {"$or": [...]}) and the searches built on them. */
module Queries {
  import opened Assets

  /** The document keys the script filters on. */
  datatype Field = AssetIdField | NameField | LocationField | StatusField | CategoryField

  function FieldValue(a: Asset, f: Field): string
  {
    match f
    case AssetIdField => a.assetId
    case NameField => a.assetName
    case LocationField => a.location
    case StatusField => a.status
    case CategoryField => a.category
  }

  /** A query filter: the empty filter {}, an implicit $eq on one key, $ne on one key,
      or $or of two filters. */
  datatype Query = MatchAll | Eq(field: Field, value: string) | Ne(field: Field, value: string) | Or(left: Query, right: Query)

  predicate Matches(a: Asset, q: Query)
  {
    match q
    case MatchAll => true
    case Eq(f, v) => FieldValue(a, f) == v
    case Ne(f, v) => FieldValue(a, f) != v
    case Or(l, r) => Matches(a, l) || Matches(a, r)
  }

  /** find(q): the matching documents, in the collection's natural order. */
  function Find(docs: seq<Asset>, q: Query): (r: seq<Asset>)
    ensures |r| <= |docs|
    ensures forall i :: 0 <= i < |r| ==> Matches(r[i], q)
  {
    if docs == [] then []
    else (if Matches(docs[0], q) then [docs[0]] else []) + Find(docs[1..], q)
  }

  /** find returns matching documents of the collection, each at most as often as it is
      stored, and every matching document. */
  lemma {:induction false} FindMembers(docs: seq<Asset>, q: Query)
    ensures multiset(Find(docs, q)) <= multiset(docs)
    ensures forall a :: a in Find(docs, q) <==> a in docs && Matches(a, q)
  {
    if docs != [] {
      var head := if Matches(docs[0], q) then [docs[0]] else [];
      var tail := Find(docs[1..], q);
      FindMembers(docs[1..], q);
      assert Find(docs, q) == head + tail;
      assert docs == [docs[0]] + docs[1..];
      assert multiset(Find(docs, q)) == multiset(head) + multiset(tail);
      assert multiset(docs) == multiset([docs[0]]) + multiset(docs[1..]);
      forall a
        ensures a in Find(docs, q) <==> a in docs && Matches(a, q)
      {
        assert a in Find(docs, q) <==> a in head || a in tail;
        assert a in docs <==> a == docs[0] || a in docs[1..];
      }
    }
  }

  /** Filtering a concatenation filters each part: find keeps the collection's order. */
  lemma {:induction false} FindAppend(a: seq<Asset>, b: seq<Asset>, q: Query)
    ensures Find(a + b, q) == Find(a, q) + Find(b, q)
  {
    if a == [] {
      assert a + b == b;
    } else {
      var head := if Matches(a[0], q) then [a[0]] else [];
      assert (a + b)[0] == a[0] && (a + b)[1..] == a[1..] + b;
      calc {
        Find(a + b, q);
        head + Find(a[1..] + b, q);
        { FindAppend(a[1..], b, q); }
        head + (Find(a[1..], q) + Find(b, q));
        (head + Find(a[1..], q)) + Find(b, q);
        Find(a, q) + Find(b, q);
      }
    }
  }

  /** When every document matches, find returns the whole collection. */
  lemma {:induction false} FindEvery(docs: seq<Asset>, q: Query)
    requires forall i :: 0 <= i < |docs| ==> Matches(docs[i], q)
    ensures Find(docs, q) == docs
  {
    if docs != [] {
      FindEvery(docs[1..], q);
      assert docs == [docs[0]] + docs[1..];
    }
  }

  /** When no document matches, find returns nothing. */
  lemma {:induction false} FindNone(docs: seq<Asset>, q: Query)
    requires forall i :: 0 <= i < |docs| ==> !Matches(docs[i], q)
    ensures Find(docs, q) == []
  {
    if docs != [] {
      FindNone(docs[1..], q);
    }
  }

  /** Non-matching documents followed by matching ones: find returns the latter. */
  lemma {:induction false} FindSuffix(docs: seq<Asset>, q: Query, k: nat)
    requires k <= |docs|
    requires forall i :: 0 <= i < k ==> !Matches(docs[i], q)
    requires forall i :: k <= i < |docs| ==> Matches(docs[i], q)
    ensures Find(docs, q) == docs[k..]
  {
    if k == 0 {
      FindEvery(docs, q);
    } else {
      FindSuffix(docs[1..], q, k - 1);
      assert docs[1..][k - 1..] == docs[k..];
    }
  }

  /** find({}) returns the whole collection (buscar_todos_documentos). */
  lemma FindMatchAll(docs: seq<Asset>)
    ensures Find(docs, MatchAll) == docs
  {
    FindEvery(docs, MatchAll);
  }

  /** The position of the document find_one / update_one / delete_one act on: the first match. */
  function FirstMatch(docs: seq<Asset>, q: Query): (r: Option<nat>)
    ensures r.None? <==> forall i :: 0 <= i < |docs| ==> !Matches(docs[i], q)
    ensures r.Some? ==> r.value < |docs| && Matches(docs[r.value], q)
    ensures r.Some? ==> forall j :: 0 <= j < r.value ==> !Matches(docs[j], q)
  {
    if docs == [] then None
    else if Matches(docs[0], q) then Some(0)
    else match FirstMatch(docs[1..], q)
      case None => None
      case Some(k) => Some(k + 1)
  }

  /** A matching position with no match before it is the one FirstMatch finds. */
  lemma FirstMatchAt(docs: seq<Asset>, q: Query, k: nat)
    requires k < |docs| && Matches(docs[k], q)
    requires forall j :: 0 <= j < k ==> !Matches(docs[j], q)
    ensures FirstMatch(docs, q) == Some(k)
  {
  }

  /** Removing the first match of q takes away exactly the first document find(q) returns;
      k is that position, as FirstMatch reports it. */
  lemma {:induction false} FindAfterDeleteFirst(docs: seq<Asset>, q: Query, k: nat)
    requires k < |docs| && Matches(docs[k], q)
    requires forall j :: 0 <= j < k ==> !Matches(docs[j], q)
    ensures Find(docs, q) == [docs[k]] + Find(docs[..k] + docs[k + 1..], q)
  {
    if k == 0 {
      assert docs[..0] + docs[1..] == docs[1..];
    } else {
      var tail := docs[1..];
      var rest := tail[..k - 1] + tail[k..];
      var removed := docs[..k] + docs[k + 1..];
      assert removed == [docs[0]] + rest;
      assert removed[0] == docs[0] && removed[1..] == rest;
      calc {
        Find(docs, q);
        [] + Find(tail, q);
        { FindAfterDeleteFirst(tail, q, k - 1); }
        [tail[k - 1]] + Find(rest, q);
        { assert Find(removed, q) == [] + Find(rest, q); }
        [docs[k]] + Find(removed, q);
      }
    }
  }

  /** find_one(q): the first matching document, None when nothing matches. */
  function FindOne(docs: seq<Asset>, q: Query): (r: Option<Asset>)
    ensures r.None? <==> forall a :: a in docs ==> !Matches(a, q)
    ensures r.Some? ==> exists k :: (0 <= k < |docs| && r.value == docs[k] && Matches(docs[k], q) &&
      forall j :: 0 <= j < k ==> !Matches(docs[j], q))
  {
    match FirstMatch(docs, q)
    case None => None
    case Some(k) => assert docs[k] in docs; Some(docs[k])
  }

  /** The filter the script uses to address one asset. */
  function ById(assetId: string): Query
  {
    Eq(AssetIdField, assetId)
  }

  /** buscar_bens_por_localizacao: the documents at `location`. */
  function FindByLocation(docs: seq<Asset>, location: string): (r: seq<Asset>)
    ensures forall a :: a in r ==> a in docs && a.location == location
    ensures forall i :: 0 <= i < |docs| && docs[i].location == location ==> docs[i] in r
  {
    FindMembers(docs, Eq(LocationField, location));
    Find(docs, Eq(LocationField, location))
  }

  /** The filter buscar_bens_com_status_ou_categoria builds, None when neither argument is truthy. */
  function StatusOrCategoryQuery(status: Option<string>, category: Option<string>): (r: Option<Query>)
    ensures r.None? <==> !Given(status) && !Given(category)
    ensures r.Some? ==> forall a :: Matches(a, r.value) <==>
      (Given(status) && a.status == status.value) || (Given(category) && a.category == category.value)
  {
    if Given(status) && Given(category) then Some(Or(Eq(StatusField, status.value), Eq(CategoryField, category.value)))
    else if Given(status) then Some(Eq(StatusField, status.value))
    else if Given(category) then Some(Eq(CategoryField, category.value))
    else None
  }

  /** buscar_bens_com_status_ou_categoria: $or when both are given, one equality when one is, nothing otherwise. */
  function FindByStatusOrCategory(docs: seq<Asset>, status: Option<string>, category: Option<string>): (r: seq<Asset>)
    ensures Given(status) && Given(category) ==>
      forall a :: a in r <==> a in docs && (a.status == status.value || a.category == category.value)
    ensures Given(status) && !Given(category) ==>
      forall a :: a in r <==> a in docs && a.status == status.value
    ensures !Given(status) && Given(category) ==>
      forall a :: a in r <==> a in docs && a.category == category.value
    ensures !Given(status) && !Given(category) ==> r == []
  {
    match StatusOrCategoryQuery(status, category)
    case None => []
    case Some(q) =>
      FindMembers(docs, q);
      Find(docs, q)
  }

  /** buscar_historico_de_movimentacao: the history of the first document with this
      asset_id, or [] when there is none. */
  function FindMovementHistory(docs: seq<Asset>, assetId: string): (r: seq<MovementEntry>)
    ensures (forall i :: 0 <= i < |docs| ==> docs[i].assetId != assetId) ==> r == []
    ensures (exists i :: 0 <= i < |docs| && docs[i].assetId == assetId) ==>
      exists k :: 0 <= k < |docs| && docs[k].assetId == assetId && r == docs[k].movementHistory &&
        forall j :: 0 <= j < k ==> docs[j].assetId != assetId
  {
    match FirstMatch(docs, ById(assetId))
    case None => []
    case Some(k) => docs[k].movementHistory
  }
}
