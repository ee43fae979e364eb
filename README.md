# Patrimony registry, modelled in Dafny

`projeto_final_bd_nosql.py` tracks university assets (bens patrimoniais) in a MongoDB
collection named `bens`. Each asset document has an `asset_id` (the simulated bar code), a
name, a category, a brand, a description, a location, a status, an acquisition date and a
`movement_history` list. The script:

- imports a product CSV into the collection;
- inserts five test documents;
- edits two documents, appending a movement entry each time;
- deletes two documents;
- runs three searches and two `$group` counts.

This project models that registry:

- `Assets` holds the document types as datatypes. It also holds the fixed strings the
  script writes, the row-to-document mapping and the numbering of test documents.
  `Text` holds the decimal rendering of a number and the string order `$sort` uses. That
  order compares characters by code point, the order of a byte-wise UTF-8 comparison.
- `Store` is the collection: the class `AssetCollection` holds the documents in natural
  order, with their abstract `_id`s in a parallel sequence. Its methods give `delete_many({})`,
  `insert_many`, `update_one` (with `$set`/`$push`), `delete_one` and `find_one({"_id": …})`
  the meaning MongoDB documents for them.
- `Queries` holds the filters the script uses (`{}`, implicit `$eq`, `$ne`, `$or`) and the
  three searches. These are functions over the document sequence.
- `Grouping` holds `$group` with `{"$sum": 1}` and `$sort`, for any group key.
  `Aggregations` instantiates them for the two counts.
- `Registry` holds the script's own operations. Import, extra insert, edit and delete are
  methods on the collection. The documents each one writes are described by predicates and
  functions.
- `Scenario` follows the main block on a two-row product file, starting from a collection
  holding anything. It works out what each step returns.

Python truthiness of the optional arguments is modelled as `Given`: `None` and `""` count as
"not given". The clock read by `editar_documento` is the parameter `now`. The existence
check on the CSV file is the parameter `csvExists`. The parsed CSV is a sequence of
column-to-text maps.

The import clears the collection only when it produced at least one document. A missing
file or an empty sample leaves the collection as it was. The import returns no count.

## Model

| member | source | states |
|---|---|---|
| Registry.Head | projeto_final_bd_nosql.py:69 | DataFrame.head(n) is a prefix of the rows: min(n, rows) of them for n >= 0, all but the last -n (none when -n exceeds the count) for n < 0 |
| Registry.ImportSample | projeto_final_bd_nosql.py:68-73 | the rows processed are a prefix of the file: all of them when there are at most numRecords, otherwise the first numRecords (head with a negative count drops that many from the end) |
| Registry.BuildImportDocuments | projeto_final_bd_nosql.py:79-101 | one document per sampled row, in order, each copying the five product columns ("" when missing), in "Armazenagem Principal", "Em Uso", with exactly one "Aquisição" entry from "Fornecedor" by "Sistema Inicial" |
| Assets.RowToAsset | projeto_final_bd_nosql.py:81-100 | the document built from a row is the one and only document that copies its product columns ("" when missing) into the fixed import location, status and single "Aquisição" entry |
| Registry.ImportCsv | projeto_final_bd_nosql.py:57-109 | with the file present and a non-empty sample, the collection becomes exactly the sampled rows' documents in row order; otherwise documents, ids and id counter are unchanged |
| Registry.ImportedInMainStorage | projeto_final_bd_nosql.py:88-101 | right after an import, the location count is the single bucket ("Armazenagem Principal", n) and the location search returns every document |
| Registry.BuildExtraAssets | projeto_final_bd_nosql.py:144-166 | max(numDocs, 0) documents; document i has id NEWASSET{count+1+i}, name "Item Teste {i+1}", description "Descrição do Item Teste {i+1} para demonstração.", location "Laboratório 101", status "Ativo" and one "Aquisição" entry by "Administrador"; their ids are pairwise different |
| Registry.InsertExtraDocuments | projeto_final_bd_nosql.py:139-173 | the test documents are appended after the untouched existing ones under fresh _ids, which are returned; nothing to insert makes the store call fail and [] is returned |
| Assets.ExtraAsset | projeto_final_bd_nosql.py:147-165 | the i-th test document is the one and only document with id NEWASSET{count+1+i}, name "Item Teste {i+1}", description "Descrição do Item Teste {i+1} para demonstração.", the fixed category, brand, location, status and date, and one "Aquisição" entry |
| Registry.ExtrasFoundAtLab | projeto_final_bd_nosql.py:153-166 | appending the test documents extends the "Laboratório 101" search by exactly them and its count by their number |
| Registry.EditedAsset | projeto_final_bd_nosql.py:180-217 | location and status set when given, every other field kept, history grown by exactly one entry after the old ones: "Movimentação" from the old to the new location when a location is given, otherwise "Atualização de Status: {old} para {new}" staying at the current location |
| Registry.EditAsset | projeto_final_bd_nosql.py:175-224 | the first document with the asset_id becomes its EditedAsset and nothing else changes; with no such document the collection is unchanged and nothing is reported edited |
| Registry.EditExtendsHistory | projeto_final_bd_nosql.py:212-218 | after an edit the asset is still the first with its asset_id, and the history search reports the old history plus exactly the new entry |
| Registry.DeleteAsset | projeto_final_bd_nosql.py:244-255 | the first document with the asset_id is removed and the others keep their order; with none, nothing changes |
| Registry.DeleteTakesFirstFound | projeto_final_bd_nosql.py:249 | the documents with that asset_id before the delete are the removed one followed by those after it |
| Store.IdLookup | projeto_final_bd_nosql.py:501 | the document stored under an _id is found exactly when the _id is in the collection |
| Store.AssetCollection.WithId | projeto_final_bd_nosql.py:501 | find_one({"_id": oid}) returns the document at oid's position, None when no document has it |
| Store.AssetCollection.DeleteAll | projeto_final_bd_nosql.py:105 | delete_many({}) leaves no documents |
| Store.AssetCollection.InsertMany | projeto_final_bd_nosql.py:106 | insert_many appends the documents under fresh distinct _ids and returns them; an empty list fails and changes nothing |
| Store.AssetCollection.UpdateOne | projeto_final_bd_nosql.py:212-218 | update_one applies $set and $push to the first match only, or changes nothing |
| Store.AssetCollection.DeleteOne | projeto_final_bd_nosql.py:249 | delete_one removes the first match only, keeping document and _id order aligned, or changes nothing |
| Queries.Find | projeto_final_bd_nosql.py:265 | find never returns more documents than the collection holds, and every document it returns matches the filter |
| Queries.FindMembers | projeto_final_bd_nosql.py:265 | find returns exactly the matching documents of the collection, none more often than stored |
| Queries.FindAppend | projeto_final_bd_nosql.py:265 | find on two parts of a collection is find on each part, in order |
| Queries.FindEvery | projeto_final_bd_nosql.py:232 | when every document matches, find returns the collection as it is |
| Queries.FindNone | projeto_final_bd_nosql.py:265 | when no document matches, find returns nothing |
| Queries.FindSuffix | projeto_final_bd_nosql.py:265 | non-matching documents followed by matching ones: find returns the matching tail |
| Queries.FindMatchAll | projeto_final_bd_nosql.py:232 | find({}) returns every document in natural order |
| Queries.FirstMatch | projeto_final_bd_nosql.py:190 | the position update_one, delete_one and find_one act on: a match with none before it, None exactly when nothing matches |
| Queries.FirstMatchAt | projeto_final_bd_nosql.py:190 | a matching position with no earlier match is that position |
| Queries.FindAfterDeleteFirst | projeto_final_bd_nosql.py:249 | removing the first match of a filter takes away exactly the head of find's result for it |
| Queries.FindOne | projeto_final_bd_nosql.py:493 | the first matching document, None exactly when no document matches |
| Queries.FindByLocation | projeto_final_bd_nosql.py:258-275 | every returned document is at the location and every document there is returned |
| Queries.FindByStatusOrCategory | projeto_final_bd_nosql.py:277-307 | with both arguments, the documents with the status or the category; with one, equality on it; with neither, nothing |
| Queries.StatusOrCategoryQuery | projeto_final_bd_nosql.py:282-294 | no filter exactly when neither argument is given; otherwise a document matches exactly when it has the given status or the given category |
| Queries.FindMovementHistory | projeto_final_bd_nosql.py:309-326 | the history of the first document with the asset_id, [] when there is none |
| Grouping.Tally | projeto_final_bd_nosql.py:337 | one bucket per distinct key with a positive count equal to its number of occurrences; the counts add up to the number of documents |
| Grouping.AddSpec | projeto_final_bd_nosql.py:337 | counting one more document raises its key's count by one and keeps keys distinct |
| Grouping.Sort | projeto_final_bd_nosql.py:338 | $sort keeps the same buckets |
| Grouping.SortSorted | projeto_final_bd_nosql.py:338 | $sort orders by any total preorder |
| Grouping.SortBuckets | projeto_final_bd_nosql.py:338 | $sort keeps every key's count and the total |
| Grouping.GroupCount | projeto_final_bd_nosql.py:336-340 | $group/$sum then $sort: the counts of the keys, sorted |
| Aggregations.CountByLocation | projeto_final_bd_nosql.py:329-350 | one bucket per distinct location with its positive number of documents, summing to the collection size, counts non-increasing |
| Aggregations.CountByCategoryAndStatus | projeto_final_bd_nosql.py:352-373 | one bucket per distinct (category, status) with its positive count, summing to the collection size, categories ascending and, within a category, counts descending |
| Aggregations.ByCategoryThenCountDescIsTotalPreorder | projeto_final_bd_nosql.py:361 | the sort on category ascending then count descending is a total preorder |
| Aggregations.CountByLocationMatchesFind | projeto_final_bd_nosql.py:336-337 | the count reported for a location is the number of documents the location search returns |
| Aggregations.SingleLocationCount | projeto_final_bd_nosql.py:336-340 | documents all at one location give exactly one bucket with all of them |
| Aggregations.CountByLocationThreeAndOne | projeto_final_bd_nosql.py:336-340 | three documents at one location and one at another give exactly the buckets (a, 3) then (b, 1) |
| Assets.ExtraIdsDiffer | projeto_final_bd_nosql.py:146 | NEWASSET ids are equal only when their numbers are |
| Text.NatToString | projeto_final_bd_nosql.py:146 | the decimal rendering is non-empty digits, without a leading zero unless the number is 0 |
| Text.DecimalRoundTrip | projeto_final_bd_nosql.py:146 | reading the decimal rendering back gives the number |
| Text.NatToStringInjective | projeto_final_bd_nosql.py:146 | different numbers render differently |
| Text.LexLeTotal | projeto_final_bd_nosql.py:361 | the string order is total |
| Text.LexLeTransitive | projeto_final_bd_nosql.py:361 | the string order is transitive |
| Scenario.Seed | projeto_final_bd_nosql.py:467-487 | from any prior contents, a two-row import then five extras: 2 documents imported, then the products followed by NEWASSET3 … NEWASSET7 |
| Scenario.EditThroughId | projeto_final_bd_nosql.py:501-502 | looking a document up by _id and editing its asset_id edits that document when no earlier one shares the asset_id |
| Scenario.DeleteThroughId | projeto_final_bd_nosql.py:513-514 | looking a document up by _id and deleting its asset_id removes that document, when no earlier document shares the asset_id |
| Scenario.EditSample | projeto_final_bd_nosql.py:493-496 | the first document whose name is not "Item Teste 1" is P1, and it alone becomes its edit to "Reitoria" / "Em Manutenção" at the given time; the _ids stay as they were |
| Scenario.Edits | projeto_final_bd_nosql.py:493-502 | the first product moves to Reitoria; the first extra keeps its location, becomes "Desativado" and gets a status-change entry |
| Scenario.Deletes | projeto_final_bd_nosql.py:509-514 | deleting the first two test documents, each looked up by its _id, leaves the two products followed by the last three test documents, in order |
| Scenario.Mutations | projeto_final_bd_nosql.py:489-514 | after both edits and both deletes: P1 at "Reitoria", in maintenance, its history ending in the move; P2 exactly as imported; then NEWASSET5 … NEWASSET7 as inserted |
| Scenario.LabSearches | projeto_final_bd_nosql.py:526-535 | on what is left, the "Laboratório 101" search returns exactly the last three documents, NEWASSET5 … NEWASSET7, and the location count gives it 3 |
| Scenario.SampleSearches | projeto_final_bd_nosql.py:528-531 | on what is left, the "Em Manutenção"-or-"Eletrônico" search returns P1 followed by the three test documents, and the history search for P1 returns P1's history |
| Scenario.DemoRun | projeto_final_bd_nosql.py:459-536 | whatever the collection held before: 2 imported, 7 after the insert, 5 after the deletes; the first product's history ends with its move to Reitoria; "Laboratório 101" holds and counts NEWASSET5 … NEWASSET7; the $or search returns P1 then those three |

## Left out

- The connection, its ping and the collection listing (lines 34-49, 477-484): I/O against a server. The model starts from a collection.
- Reading the CSV with pandas and the `str()` coercion of cells (lines 63, 83-87). Rows are given as column-to-text maps, so a NaN cell's text "nan" is whatever the row holds.
- Every `print`. Console messages are not modelled. Where a message reports an outcome, the outcome is a returned boolean or count, or, for the import's count of documents (line 107), the size of the collection's `documents` afterwards.
- The `try/except` around store calls. A store failure is not modelled, except the empty `insert_many` of the extra insert, which returns [].
- `pd.Timestamp.now()` (line 181) is the clock. It is the parameter `now`.
- Registry.EditedAsset: requires a location or a status to be given. An edit with neither issues an empty `$set` and pushes an entry without from/to keys; whether the server accepts that depends on its version.
- Registry.EditAsset: the same requirement as EditedAsset, for the same reason.
- Aggregations.CountByLocation: does not fix the order of buckets with equal counts, which MongoDB leaves unspecified. The model's sort picks one order; no contract depends on it.
- Aggregations.CountByCategoryAndStatus: the same for buckets with equal category and count.
- `_id` values are abstract numbers drawn from a counter. Only their freshness and distinctness are modelled, not the ObjectId format.
- The DataFrame display, the exploratory analysis and the charts (lines 114-137, 376-456): pandas, seaborn and matplotlib output and floating-point statistics.
- Scenario.DemoRun: does not compute the category-and-status count of line 536. Aggregations.CountByCategoryAndStatus states that count for any collection.
- `buscar_todos_documentos` (lines 226-242) prints the whole collection. Its query is Queries.FindMatchAll.
