/** The main block of projeto_final_bd_nosql.py run on a two-row product file: import,
    five extra documents, two edits, two deletes, then the three searches and the location
    count. */
module Scenario {
  import opened Assets
  import opened Queries
  import opened Grouping
  import opened Aggregations
  import opened Store
  import opened Registry

  /** The collection after the import and the extra insert: the two products in file
      order, then the five test documents, whose _ids are insertedIds. */
  ghost predicate Seeded(c: AssetCollection, insertedIds: seq<ObjectId>)
    reads c
  {
    && c.Valid()
    && |c.documents| == 7 && |insertedIds| == 5
    && c.documents[0].assetId == "P1" && c.documents[0].assetName == "Caneta"
    && c.documents[0].location == MainStorage && |c.documents[0].movementHistory| == 1
    && c.documents[1].assetId == "P2" && c.documents[1].location == MainStorage
    && c.documents[1].category == "Mobiliário" && c.documents[1].status == InUse
    && (forall i :: 2 <= i < 7 ==> IsExtraAsset(c.documents[i], 2, i - 2))
    && c.ids[2..] == insertedIds
  }

  /** Import of a two-row file (5000 records asked for) into a collection holding any
      documents, then five extra documents. The import replaces what was there. */
  method Seed(initial: seq<Asset>) returns (c: AssetCollection, imported: nat, insertedIds: seq<ObjectId>)
    ensures fresh(c) && Seeded(c, insertedIds) && imported == 2
  {
    var rows: seq<Row> := [
      map["product_id" := "P1", "product_name" := "Caneta", "category" := "Papelaria"],
      map["product_id" := "P2", "product_name" := "Mesa", "category" := "Mobiliário"]];
    c := new AssetCollection(initial);
    ImportCsv(c, true, rows, 5000);
    imported := |c.documents|;
    insertedIds := InsertExtraDocuments(c, 5);
    assert c.documents[..2][0] == c.documents[0];
    assert c.documents[..2][1] == c.documents[1];
  }

  /** Extra ids are longer than the product ids, so no extra document is "P1" or "P2". */
  lemma ExtraIdNotProduct(i: nat)
    ensures ExtraId(2, i) != "P1" && ExtraId(2, i) != "P2"
  {
    assert |ExtraId(2, i)| > |ExtraIdPrefix| == 8;
  }

  /** find_one({"_id": oid}) followed by an edit of the asset_id found: the document stored
      under oid is edited when no earlier document shares its asset_id. */
  method EditThroughId(c: AssetCollection, oid: ObjectId, k: nat, now: string,
                       newLocation: Option<string>, newStatus: Option<string>)
    requires c.Valid() && (Given(newLocation) || Given(newStatus))
    requires k < |c.ids| && c.ids[k] == oid
    requires forall j :: 0 <= j < k ==> c.documents[j].assetId != c.documents[k].assetId
    modifies c
    ensures c.Valid() && c.ids == old(c.ids) && c.nextId == old(c.nextId)
    ensures c.documents == old(c.documents)[k := EditedAsset(old(c.documents)[k], now, newLocation, newStatus)]
  {
    var found := c.WithId(oid);
    FirstMatchAt(c.documents, ById(c.documents[k].assetId), k);
    var _ := EditAsset(c, found.value.assetId, now, newLocation, newStatus);
  }

  /** find_one({"_id": oid}) followed by a delete of the asset_id found. */
  method DeleteThroughId(c: AssetCollection, oid: ObjectId, k: nat)
    requires c.Valid()
    requires k < |c.ids| && c.ids[k] == oid
    requires forall j :: 0 <= j < k ==> c.documents[j].assetId != c.documents[k].assetId
    modifies c
    ensures c.Valid() && c.nextId == old(c.nextId)
    ensures c.documents == old(c.documents)[..k] + old(c.documents)[k + 1..]
    ensures c.ids == old(c.ids)[..k] + old(c.ids)[k + 1..]
  {
    var found := c.WithId(oid);
    FirstMatchAt(c.documents, ById(c.documents[k].assetId), k);
    var _ := DeleteAsset(c, found.value.assetId);
  }

  /** The first edit: the first document not named "Item Teste 1" is the first product,
      and it is moved to Reitoria and put under maintenance. */
  method EditSample(c: AssetCollection, insertedIds: seq<ObjectId>)
    requires Seeded(c, insertedIds)
    modifies c
    ensures c.Valid() && c.ids == old(c.ids)
    ensures c.documents ==
      old(c.documents)[0 := EditedAsset(old(c.documents)[0], "2024-06-01 09:00:00", Some("Reitoria"), Some("Em Manutenção"))]
  {
    var sample := FindOne(c.documents, Ne(NameField, "Item Teste 1"));
    FirstMatchAt(c.documents, Ne(NameField, "Item Teste 1"), 0);
    FirstMatchAt(c.documents, ById("P1"), 0);
    var _ := EditAsset(c, sample.value.assetId, "2024-06-01 09:00:00", Some("Reitoria"), Some("Em Manutenção"));
  }

  /** The two edits: location and status of the first product, found by a name filter,
      then the status of the first extra document, found through its _id. */
  method Edits(c: AssetCollection, insertedIds: seq<ObjectId>) returns (editedHistory: seq<MovementEntry>)
    requires Seeded(c, insertedIds)
    modifies c
    ensures c.Valid() && c.ids == old(c.ids) && |c.documents| == 7
    ensures c.documents[0].assetId == "P1" && c.documents[0].location == "Reitoria"
    ensures c.documents[0].status == "Em Manutenção"
    ensures |c.documents[0].movementHistory| == 2
    ensures c.documents[0].movementHistory[1] == MovementEntry("2024-06-01 09:00:00", Movement, MainStorage, "Reitoria", AppUser)
    ensures c.documents[1] == old(c.documents[1])
    ensures c.documents[2].assetId == ExtraId(2, 0)
    ensures forall i :: 3 <= i < 7 ==> c.documents[i] == old(c.documents[i])
    ensures c.documents[2].location == Lab101 && c.documents[2].status == "Desativado"
    ensures |editedHistory| == 2 && editedHistory[1].kind == StatusChangeKind(Active, "Desativado")
  {
    EditSample(c, insertedIds);
    assert c.ids[2] == insertedIds[0];
    ExtraIdNotProduct(0);
    EditThroughId(c, insertedIds[0], 2, "2024-06-01 09:05:00", None, Some("Desativado"));
    editedHistory := c.documents[2].movementHistory;
  }

  /** The two deletes: the first two extra documents, each found through its _id. */
  method Deletes(c: AssetCollection, insertedIds: seq<ObjectId>)
    requires c.Valid() && |c.documents| == 7 && |insertedIds| == 5 && c.ids[2..] == insertedIds
    requires c.documents[0].assetId == "P1" && c.documents[1].assetId == "P2"
    requires c.documents[2].assetId == ExtraId(2, 0) && c.documents[3].assetId == ExtraId(2, 1)
    modifies c
    ensures c.Valid()
    ensures c.documents == old(c.documents[..2]) + old(c.documents[4..])
  {
    ghost var before := c.documents;
    assert c.ids[2] == insertedIds[0];
    ExtraIdNotProduct(0);
    DeleteThroughId(c, insertedIds[0], 2);
    assert c.documents == before[..2] + before[3..];
    assert c.ids[2] == insertedIds[1];
    ExtraIdNotProduct(1);
    DeleteThroughId(c, insertedIds[1], 2);
    assert c.documents == before[..2] + before[4..];
  }

  /** What the edits and deletes leave: P1 moved to Reitoria and in maintenance, P2 as
      imported, then the last three test documents. */
  ghost predicate Remaining(docs: seq<Asset>)
  {
    && |docs| == 5
    && docs[0].assetId == "P1" && docs[0].location == "Reitoria" && docs[0].status == "Em Manutenção"
    && |docs[0].movementHistory| == 2
    && docs[0].movementHistory[1] == MovementEntry("2024-06-01 09:00:00", Movement, MainStorage, "Reitoria", AppUser)
    && docs[1].assetId == "P2" && docs[1].location == MainStorage
    && docs[1].status == InUse && docs[1].category == "Mobiliário"
    && (forall i :: 2 <= i < 5 ==> IsExtraAsset(docs[i], 2, i))
  }

  /** The two edits, then the two deletes; the second product comes through untouched. */
  method Mutations(c: AssetCollection, insertedIds: seq<ObjectId>) returns (editedHistory: seq<MovementEntry>)
    requires Seeded(c, insertedIds)
    modifies c
    ensures c.Valid() && Remaining(c.documents)
    ensures c.documents[1] == old(c.documents[1])
    ensures |editedHistory| == 2 && editedHistory[1].kind == StatusChangeKind(Active, "Desativado")
  {
    ghost var seeded := c.documents;
    editedHistory := Edits(c, insertedIds);
    assert c.documents[3].assetId == ExtraId(2, 1);
    Deletes(c, insertedIds);
    assert forall i :: 2 <= i < 5 ==> c.documents[i] == seeded[i + 2];
  }

  /** Documents elsewhere, then documents at Laboratório 101: the search returns the latter. */
  lemma LabSearch(docs: seq<Asset>, k: nat)
    requires k <= |docs|
    requires forall i :: 0 <= i < k ==> docs[i].location != Lab101
    requires forall i :: k <= i < |docs| ==> docs[i].location == Lab101
    ensures FindByLocation(docs, Lab101) == docs[k..]
  {
    FindSuffix(docs, Eq(LocationField, Lab101), k);
  }

  /** The $or search on what is left: the first document and the last three. */
  lemma MaintenanceOrElectronic(docs: seq<Asset>)
    requires |docs| == 5 && docs[0].status == "Em Manutenção"
    requires docs[1].status != "Em Manutenção" && docs[1].category != ExtraCategory
    requires forall i :: 2 <= i < 5 ==> docs[i].category == ExtraCategory
    ensures FindByStatusOrCategory(docs, Some("Em Manutenção"), Some(ExtraCategory)) == [docs[0]] + docs[2..]
  {
    var q := Or(Eq(StatusField, "Em Manutenção"), Eq(CategoryField, ExtraCategory));
    assert StatusOrCategoryQuery(Some("Em Manutenção"), Some(ExtraCategory)) == Some(q);
    var tail := docs[1..];
    FindSuffix(tail, q, 1);
    assert Find(tail, q) == docs[2..];
    FindAppend([docs[0]], tail, q);
    assert [docs[0]] + tail == docs;
  }

  /** The location search and count of the main block on what is left: the three test
      documents at Laboratório 101. */
  method LabSearches(docs: seq<Asset>) returns (inLab: seq<Asset>, labCount: nat)
    requires Remaining(docs)
    ensures inLab == FindByLocation(docs, Lab101) == docs[2..]
    ensures labCount == KeyCount(CountByLocation(docs), Lab101) == 3
    ensures |inLab| == 3 && forall i :: 0 <= i < 3 ==> inLab[i].assetId == ExtraId(2, i + 2)
  {
    LabSearch(docs, 2);
    CountByLocationMatchesFind(docs, Lab101);
    inLab := FindByLocation(docs, Lab101);
    labCount := KeyCount(CountByLocation(docs), Lab101);
  }

  /** The $or search and the history search of the main block on what is left: P1, now in
      maintenance, then the three test documents; and P1's history. */
  method SampleSearches(docs: seq<Asset>) returns (inMaintenanceOrElectronic: seq<Asset>, sampleHistory: seq<MovementEntry>)
    requires Remaining(docs)
    ensures inMaintenanceOrElectronic == FindByStatusOrCategory(docs, Some("Em Manutenção"), Some(ExtraCategory))
    ensures inMaintenanceOrElectronic == [docs[0]] + docs[2..]
    ensures sampleHistory == FindMovementHistory(docs, "P1") == docs[0].movementHistory
  {
    MaintenanceOrElectronic(docs);
    FirstMatchAt(docs, ById("P1"), 0);
    inMaintenanceOrElectronic := FindByStatusOrCategory(docs, Some("Em Manutenção"), Some(ExtraCategory));
    sampleHistory := FindMovementHistory(docs, "P1");
  }

  /** The whole main block, from any prior contents of the collection: 2 imported, 7
      after the insert, the first extra document's history ending in its status change,
      5 left after the deletes, the first product's history ending in its move to
      Reitoria, the three remaining test documents both found and counted at
      Laboratório 101, and the $or search returning P1 followed by those three. */
  method DemoRun(initial: seq<Asset>) returns (imported: nat, afterInsert: nat, editedHistory: seq<MovementEntry>,
                            remaining: nat, inLab: seq<Asset>, inMaintenanceOrElectronic: seq<Asset>, sampleHistory: seq<MovementEntry>, labCount: nat)
    ensures imported == 2 && afterInsert == 7 && remaining == 5
    ensures |editedHistory| == 2 && editedHistory[1].kind == StatusChangeKind(Active, "Desativado")
    ensures |sampleHistory| == 2 &&
      sampleHistory[1] == MovementEntry("2024-06-01 09:00:00", Movement, MainStorage, "Reitoria", AppUser)
    ensures |inLab| == 3 && forall i :: 0 <= i < 3 ==> inLab[i].assetId == ExtraId(2, i + 2)
    ensures |inMaintenanceOrElectronic| == 4 && inMaintenanceOrElectronic[0].assetId == "P1"
    ensures inMaintenanceOrElectronic[1..] == inLab
    ensures labCount == 3
  {
    var c, insertedIds;
    c, imported, insertedIds := Seed(initial);
    afterInsert := |c.documents|;
    editedHistory := Mutations(c, insertedIds);
    remaining := |c.documents|;
    inLab, labCount := LabSearches(c.documents);
    inMaintenanceOrElectronic, sampleHistory := SampleSearches(c.documents);
    assert inMaintenanceOrElectronic[1..] == c.documents[2..];
  }
}
