/** The "bens" collection and the MongoDB write operations the registry issues
    on it, with the meaning the MongoDB manual gives them. */
module Store {
  import opened Assets
  import opened Queries

  /** The store-assigned _id of a document. Only its freshness matters, so it is a
      number drawn from a counter rather than a concrete ObjectId. */
  type ObjectId = nat

  /** The update document {"$set": {location?, status?}, "$push": {"movement_history": push}}. */
  datatype Update = Update(setLocation: Option<string>, setStatus: Option<string>, push: MovementEntry)

  /** What $set and $push do to one document. */
  function ApplyUpdate(a: Asset, u: Update): Asset
  {
    a.(location := if u.setLocation.Some? then u.setLocation.value else a.location,
       status := if u.setStatus.Some? then u.setStatus.value else a.status,
       movementHistory := a.movementHistory + [u.push])
  }

  predicate DistinctIds(ids: seq<ObjectId>)
  {
    forall i, j :: 0 <= i < j < |ids| ==> ids[i] != ids[j]
  }

  /** The document stored under oid, given the _ids of the documents in order. */
  function IdLookup(ids: seq<ObjectId>, docs: seq<Asset>, oid: ObjectId): (r: Option<Asset>)
    requires |ids| == |docs| && DistinctIds(ids)
    ensures r.Some? <==> oid in ids
    ensures forall i :: 0 <= i < |ids| && ids[i] == oid ==> r == Some(docs[i])
  {
    if ids == [] then None
    else if ids[0] == oid then Some(docs[0])
    else
      assert DistinctIds(ids[1..]);
      IdLookup(ids[1..], docs[1..], oid)
  }

  /** The collection: its documents in natural order, and the _id of each. */
  class AssetCollection {
    var documents: seq<Asset>
    var ids: seq<ObjectId>
    var nextId: ObjectId

    ghost predicate Valid()
      reads this
    {
      && |ids| == |documents|
      && DistinctIds(ids)
      && forall i :: 0 <= i < |ids| ==> ids[i] < nextId
    }

    /** The collection as the connection finds it. */
    constructor (initial: seq<Asset>)
      ensures Valid() && documents == initial
    {
      documents := initial;
      ids := seq(|initial|, i => i);
      nextId := |initial|;
    }

    /** find_one({"_id": oid}) */
    function WithId(oid: ObjectId): (r: Option<Asset>)
      requires Valid()
      reads this
      ensures r.Some? <==> oid in ids
      ensures forall i :: 0 <= i < |ids| && ids[i] == oid ==> r == Some(documents[i])
    {
      IdLookup(ids, documents, oid)
    }

    /** delete_many({}): every document goes. */
    method DeleteAll()
      requires Valid()
      modifies this
      ensures Valid()
      ensures documents == [] && ids == [] && nextId == old(nextId)
    {
      documents := [];
      ids := [];
    }

    /** insert_many(newDocs): appends the documents under fresh _ids and returns those ids.
        pymongo refuses an empty list; that is the None result, with nothing changed. */
    method InsertMany(newDocs: seq<Asset>) returns (inserted: Option<seq<ObjectId>>)
      requires Valid()
      modifies this
      ensures Valid()
      ensures newDocs == [] ==>
        inserted == None && documents == old(documents) && ids == old(ids) && nextId == old(nextId)
      ensures newDocs != [] ==>
        && inserted.Some?
        && |inserted.value| == |newDocs|
        && documents == old(documents) + newDocs
        && ids == old(ids) + inserted.value
      ensures newDocs != [] ==> forall id :: id in inserted.value ==> id !in old(ids)
      ensures nextId >= old(nextId)
    {
      if newDocs == [] {
        return None;
      }
      var first := nextId;
      var newIds := seq(|newDocs|, i => first + i);
      assert forall i :: 0 <= i < |newIds| ==> newIds[i] == first + i;
      ghost var before := ids;
      documents := documents + newDocs;
      ids := ids + newIds;
      nextId := nextId + |newDocs|;
      assert forall i :: 0 <= i < |ids| ==> ids[i] == (if i < |before| then before[i] else first + (i - |before|));
      inserted := Some(newIds);
    }

    /** update_one(q, u): applies u to the first document matching q, if any. */
    method UpdateOne(q: Query, u: Update) returns (modifiedCount: nat)
      requires Valid()
      modifies this
      ensures Valid() && ids == old(ids) && nextId == old(nextId)
      ensures match FirstMatch(old(documents), q)
        case None => modifiedCount == 0 && documents == old(documents)
        case Some(k) =>
          modifiedCount == 1 && documents == old(documents)[k := ApplyUpdate(old(documents)[k], u)]
    {
      match FirstMatch(documents, q)
      case None =>
        modifiedCount := 0;
      case Some(k) =>
        documents := documents[k := ApplyUpdate(documents[k], u)];
        modifiedCount := 1;
    }

    /** delete_one(q): removes the first document matching q, if any. */
    method DeleteOne(q: Query) returns (deletedCount: nat)
      requires Valid()
      modifies this
      ensures Valid() && nextId == old(nextId)
      ensures match FirstMatch(old(documents), q)
        case None => deletedCount == 0 && documents == old(documents) && ids == old(ids)
        case Some(k) =>
          && deletedCount == 1
          && documents == old(documents)[..k] + old(documents)[k + 1..]
          && ids == old(ids)[..k] + old(ids)[k + 1..]
    {
      match FirstMatch(documents, q)
      case None =>
        deletedCount := 0;
      case Some(k) =>
        ghost var before := ids;
        documents := documents[..k] + documents[k + 1..];
        ids := ids[..k] + ids[k + 1..];
        assert forall i :: 0 <= i < |ids| ==> ids[i] == before[if i < k then i else i + 1];
        deletedCount := 1;
    }
  }
}
