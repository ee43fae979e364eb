/** The script's operations on the asset collection (projeto_final_bd_nosql.py):
    CSV import, extra test documents, edit with a movement entry, and delete. */
module Registry {
  import opened Assets
  import opened Queries
  import opened Store
  import opened Grouping
  import opened Aggregations

  /** pandas df.head(n): the first n rows, or all but the last -n rows when n is negative. */
  function Head(rows: seq<Row>, n: int): (r: seq<Row>)
    ensures |r| <= |rows| && r == rows[..|r|]
    ensures n >= 0 ==> |r| == if n <= |rows| then n else |rows|
    ensures n < 0 ==> |r| == if |rows| + n >= 0 then |rows| + n else 0
  {
    if n >= 0 then (if n <= |rows| then rows[..n] else rows)
    else if |rows| + n >= 0 then rows[..|rows| + n]
    else []
  }

  /** The rows the import processes: the first numRecords when the file has more. */
  function ImportSample(rows: seq<Row>, numRecords: int): (r: seq<Row>)
    ensures |r| <= |rows| && r == rows[..|r|]
    ensures numRecords >= 0 ==> |r| == if |rows| < numRecords then |rows| else numRecords
    ensures numRecords < 0 ==> |r| == if |rows| + numRecords < 0 then 0 else |rows| + numRecords
  {
    if |rows| > numRecords then Head(rows, numRecords) else rows
  }

  /** The loop of importar_csv_para_mongodb that turns each sampled row into a document. */
  method BuildImportDocuments(sample: seq<Row>) returns (documents: seq<Asset>)
    ensures |documents| == |sample|
    ensures forall i :: 0 <= i < |sample| ==> IsImportedFrom(documents[i], sample[i])
  {
    documents := [];
    for i := 0 to |sample|
      invariant |documents| == i
      invariant forall j :: 0 <= j < i ==> IsImportedFrom(documents[j], sample[j])
    {
      documents := documents + [RowToAsset(sample[i])];
    }
  }

  /** importar_csv_para_mongodb: when the file exists and yields at least one document, the
      collection is replaced by the documents of the first numRecords rows, in order;
      otherwise it is left as it was. */
  method ImportCsv(c: AssetCollection, csvExists: bool, rows: seq<Row>, numRecords: int)
    requires c.Valid()
    modifies c
    ensures c.Valid()
    ensures var sample := ImportSample(rows, numRecords);
      if csvExists && sample != [] then
        && |c.documents| == |sample|
        && forall i :: 0 <= i < |c.documents| ==> IsImportedFrom(c.documents[i], rows[i])
      else
        c.documents == old(c.documents) && c.ids == old(c.ids) && c.nextId == old(c.nextId)
  {
    if !csvExists {
      return;
    }
    var sample := ImportSample(rows, numRecords);
    var documents := BuildImportDocuments(sample);
    if documents != [] {
      c.DeleteAll();
      var _ := c.InsertMany(documents);
    }
  }

  /** Right after an import every document is in main storage: the location count is one
      bucket holding them all, and the search for main storage returns the whole collection. */
  lemma ImportedInMainStorage(documents: seq<Asset>, sample: seq<Row>)
    requires |documents| == |sample| > 0
    requires forall i :: 0 <= i < |sample| ==> IsImportedFrom(documents[i], sample[i])
    ensures CountByLocation(documents) == [Bucket(MainStorage, |documents|)]
    ensures FindByLocation(documents, MainStorage) == documents
  {
    SingleLocationCount(documents, MainStorage);
    FindSuffix(documents, Eq(LocationField, MainStorage), 0);
  }

  /** The loop of inserir_documento_extra: numDocs documents (none when numDocs <= 0),
      numbered on from the current count, with pairwise different asset ids. */
  method BuildExtraAssets(count: nat, numDocs: int) returns (newAssets: seq<Asset>)
    ensures |newAssets| == if numDocs > 0 then numDocs else 0
    ensures forall i :: 0 <= i < |newAssets| ==> IsExtraAsset(newAssets[i], count, i)
    ensures forall i, j :: 0 <= i < j < |newAssets| ==> newAssets[i].assetId != newAssets[j].assetId
  {
    newAssets := [];
    var i := 0;
    while i < numDocs
      invariant 0 <= i && |newAssets| == i
      invariant i <= if numDocs > 0 then numDocs else 0
      invariant forall j :: 0 <= j < i ==> newAssets[j] == ExtraAsset(count, j)
    {
      newAssets := newAssets + [ExtraAsset(count, i)];
      i := i + 1;
    }
    forall j, k | 0 <= j < k < |newAssets|
      ensures newAssets[j].assetId != newAssets[k].assetId
    {
      ExtraIdsDiffer(count, j, count, k);
    }
  }

  /** inserir_documento_extra: appends numDocs test documents after the existing ones and
      returns their fresh _ids; with nothing to insert the store call fails and [] is returned. */
  method InsertExtraDocuments(c: AssetCollection, numDocs: int) returns (insertedIds: seq<ObjectId>)
    requires c.Valid()
    modifies c
    ensures c.Valid()
    ensures |insertedIds| == if numDocs > 0 then numDocs else 0
    ensures |c.documents| == |old(c.documents)| + |insertedIds|
    ensures c.documents[..|old(c.documents)|] == old(c.documents)
    ensures forall i :: |old(c.documents)| <= i < |c.documents| ==>
      IsExtraAsset(c.documents[i], |old(c.documents)|, i - |old(c.documents)|)
    ensures c.ids == old(c.ids) + insertedIds
    ensures forall id :: id in insertedIds ==> id !in old(c.ids)
  {
    var newAssets := BuildExtraAssets(|c.documents|, numDocs);
    var result := c.InsertMany(newAssets);
    insertedIds := if result.Some? then result.value else [];
  }

  /** The extra documents all go to Laboratório 101: appending them extends the search for
      that location by exactly them, and its count by their number. */
  lemma ExtrasFoundAtLab(documents: seq<Asset>, extras: seq<Asset>)
    requires forall i :: 0 <= i < |extras| ==> IsExtraAsset(extras[i], |documents|, i)
    ensures FindByLocation(documents + extras, Lab101) == FindByLocation(documents, Lab101) + extras
    ensures KeyCount(CountByLocation(documents + extras), Lab101) ==
      KeyCount(CountByLocation(documents), Lab101) + |extras|
  {
    var q := Eq(LocationField, Lab101);
    FindAppend(documents, extras, q);
    FindEvery(extras, q);
    CountByLocationMatchesFind(documents + extras, Lab101);
    CountByLocationMatchesFind(documents, Lab101);
  }

  /** The asset after editar_documento: location and/or status set, one movement entry
      appended, everything else kept. */
  function EditedAsset(a: Asset, now: string, newLocation: Option<string>, newStatus: Option<string>): (r: Asset)
    requires Given(newLocation) || Given(newStatus)
    ensures r.location == if Given(newLocation) then newLocation.value else a.location
    ensures r.status == if Given(newStatus) then newStatus.value else a.status
    ensures r.(location := a.location, status := a.status, movementHistory := a.movementHistory) == a
    ensures |r.movementHistory| == |a.movementHistory| + 1
    ensures r.movementHistory[..|a.movementHistory|] == a.movementHistory
    ensures Given(newLocation) ==>
      r.movementHistory[|a.movementHistory|] == MovementEntry(now, Movement, a.location, newLocation.value, AppUser)
    ensures !Given(newLocation) ==>
      r.movementHistory[|a.movementHistory|] ==
        MovementEntry(now, StatusChangeKind(a.status, newStatus.value), a.location, a.location, AppUser)
  {
    var entry :=
      if Given(newLocation) then MovementEntry(now, Movement, a.location, newLocation.value, AppUser)
      else MovementEntry(now, StatusChangeKind(a.status, newStatus.value), a.location, a.location, AppUser);
    ApplyUpdate(a, Update(if Given(newLocation) then newLocation else None,
                          if Given(newStatus) then newStatus else None,
                          entry))
  }

  /** editar_documento: builds the $set fields and the movement entry, then updates the first
      document with this asset_id. `now` is the current time, formatted. `edited` is whether a
      document was modified. */
  method EditAsset(c: AssetCollection, assetId: string, now: string,
                   newLocation: Option<string>, newStatus: Option<string>) returns (edited: bool)
    requires c.Valid()
    requires Given(newLocation) || Given(newStatus)
    modifies c
    ensures c.Valid() && c.ids == old(c.ids) && c.nextId == old(c.nextId)
    ensures match FirstMatch(old(c.documents), ById(assetId))
      case None => !edited && c.documents == old(c.documents)
      case Some(k) =>
        edited && c.documents == old(c.documents)[k := EditedAsset(old(c.documents)[k], now, newLocation, newStatus)]
  {
    var setLocation: Option<string> := None;
    var setStatus: Option<string> := None;
    var kind := Movement;
    var fromLocation, toLocation := "", "";
    if Given(newLocation) {
      var current := FindOne(c.documents, ById(assetId));
      var oldLocation := if current.Some? then current.value.location else UnknownLocation;
      setLocation := newLocation;
      fromLocation := oldLocation;
      toLocation := newLocation.value;
    }
    if Given(newStatus) {
      var current := FindOne(c.documents, ById(assetId));
      var oldStatus := if current.Some? then current.value.status else UnknownStatus;
      setStatus := newStatus;
      if !Given(newLocation) {
        kind := StatusChangeKind(oldStatus, newStatus.value);
        fromLocation := if current.Some? then current.value.location else UnknownLocation;
        toLocation := if current.Some? then current.value.location else UnknownLocation;
      }
    }
    var entry := MovementEntry(now, kind, fromLocation, toLocation, AppUser);
    var modifiedCount := c.UpdateOne(ById(assetId), Update(setLocation, setStatus, entry));
    edited := modifiedCount > 0;
  }

  /** An edit leaves the asset where the searches find it, and the movement history they
      report grows by exactly the new entry. */
  lemma EditExtendsHistory(documents: seq<Asset>, assetId: string, now: string,
                           newLocation: Option<string>, newStatus: Option<string>, k: nat)
    requires Given(newLocation) || Given(newStatus)
    requires FirstMatch(documents, ById(assetId)) == Some(k)
    ensures var edited := EditedAsset(documents[k], now, newLocation, newStatus);
      var after := documents[k := edited];
      && FirstMatch(after, ById(assetId)) == Some(k)
      && FindMovementHistory(after, assetId) ==
           FindMovementHistory(documents, assetId) + [edited.movementHistory[|documents[k].movementHistory|]]
  {
    var edited := EditedAsset(documents[k], now, newLocation, newStatus);
    var after := documents[k := edited];
    assert edited.assetId == documents[k].assetId;
    FirstMatchAt(after, ById(assetId), k);
    var n := |documents[k].movementHistory|;
    assert edited.movementHistory == edited.movementHistory[..n] + [edited.movementHistory[n]];
  }

  /** excluir_documento: removes the first document with this asset_id, keeping the others in
      order. `deleted` is whether one was removed. */
  method DeleteAsset(c: AssetCollection, assetId: string) returns (deleted: bool)
    requires c.Valid()
    modifies c
    ensures c.Valid() && c.nextId == old(c.nextId)
    ensures match FirstMatch(old(c.documents), ById(assetId))
      case None => !deleted && c.documents == old(c.documents) && c.ids == old(c.ids)
      case Some(k) =>
        && deleted
        && c.documents == old(c.documents)[..k] + old(c.documents)[k + 1..]
        && c.ids == old(c.ids)[..k] + old(c.ids)[k + 1..]
  {
    var deletedCount := c.DeleteOne(ById(assetId));
    deleted := deletedCount > 0;
  }

  /** A delete takes away exactly the first of the documents with that asset_id. */
  lemma DeleteTakesFirstFound(documents: seq<Asset>, assetId: string, k: nat)
    requires FirstMatch(documents, ById(assetId)) == Some(k)
    ensures Find(documents, ById(assetId)) == [documents[k]] + Find(documents[..k] + documents[k + 1..], ById(assetId))
  {
    FindAfterDeleteFirst(documents, ById(assetId), k);
  }
}
