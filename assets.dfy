/** The asset data model of the patrimony registry: the documents stored in
    the "bens" collection, the rows they are imported from, and the fixed
    values the script writes into new documents. */
module Assets {
  import opened Text

  datatype Option<+T> = None | Some(value: T)

  /** One event of an asset's movement_history. `kind` is the document's "type" key. */
  datatype MovementEntry = MovementEntry(
    date: string,
    kind: string,
    fromLocation: string,
    toLocation: string,
    responsible: string)

  /** One asset document (its store-assigned _id is kept by the collection). */
  datatype Asset = Asset(
    assetId: string,
    assetName: string,
    category: string,
    brand: string,
    description: string,
    location: string,
    status: string,
    acquisitionDate: string,
    movementHistory: seq<MovementEntry>)

  /** One CSV row after parsing: column name to the cell's text. */
  type Row = map<string, string>

  // Defaults of a document imported from the product CSV.
  const MainStorage := "Armazenagem Principal"
  const InUse := "Em Uso"
  const ImportAcquisitionDate := "2023-01-01"
  const ImportEntryDate := "2023-01-01 00:00:00"
  const InitialSystem := "Sistema Inicial"

  // Defaults of a manually inserted test document.
  const Lab101 := "Laboratório 101"
  const Active := "Ativo"
  const ExtraCategory := "Eletrônico"
  const ExtraBrand := "Genérica"
  const ExtraAcquisitionDate := "2024-05-15"
  const ExtraEntryDate := "2024-05-15 10:00:00"
  const Administrator := "Administrador"
  const ExtraIdPrefix := "NEWASSET"
  const ExtraNamePrefix := "Item Teste "
  const ExtraDescriptionPrefix := "Descrição do Item Teste "
  const ExtraDescriptionSuffix := " para demonstração."

  // Movement entries.
  const Supplier := "Fornecedor"
  const Acquisition := "Aquisição"
  const Movement := "Movimentação"
  const AppUser := "Usuário App"
  const UnknownLocation := "Desconhecida"
  const UnknownStatus := "Desconhecido"

  /** Python truthiness of an optional string argument: None and "" are "not given". */
  predicate Given(o: Option<string>)
  {
    o.Some? && o.value != ""
  }

  /** row.get(name, ""): the cell, or "" when the row has no such column. */
  function Column(row: Row, name: string): string
  {
    if name in row then row[name] else ""
  }

  /** a is the document the import writes for row: the five product columns copied
      (missing ones as ""), the fixed location, status and date, and a history of
      exactly one acquisition from the supplier into main storage. */
  predicate IsImportedFrom(a: Asset, row: Row)
  {
    && a.assetId == Column(row, "product_id")
    && a.assetName == Column(row, "product_name")
    && a.category == Column(row, "category")
    && a.brand == Column(row, "brand")
    && a.description == Column(row, "description")
    && a.location == MainStorage
    && a.status == InUse
    && a.acquisitionDate == ImportAcquisitionDate
    && |a.movementHistory| == 1
    && a.movementHistory[0].date == ImportEntryDate
    && a.movementHistory[0].kind == Acquisition
    && a.movementHistory[0].fromLocation == Supplier
    && a.movementHistory[0].toLocation == MainStorage
    && a.movementHistory[0].responsible == InitialSystem
  }

  /** The document the import builds from one CSV row: the only one imported from it. */
  function RowToAsset(row: Row): (r: Asset)
    ensures IsImportedFrom(r, row)
    ensures forall a :: IsImportedFrom(a, row) ==> a == r
  {
    Asset(
      Column(row, "product_id"),
      Column(row, "product_name"),
      Column(row, "category"),
      Column(row, "brand"),
      Column(row, "description"),
      MainStorage,
      InUse,
      ImportAcquisitionDate,
      [MovementEntry(ImportEntryDate, Acquisition, Supplier, MainStorage, InitialSystem)])
  }

  /** The asset_id of the i-th extra document when the collection holds `count` documents. */
  function ExtraId(count: nat, i: nat): string
  {
    ExtraIdPrefix + NatToString(count + 1 + i)
  }

  /** a is the i-th extra test document written when the collection held `count` documents. */
  predicate IsExtraAsset(a: Asset, count: nat, i: nat)
  {
    && a.assetId == ExtraId(count, i)
    && a.assetName == ExtraNamePrefix + NatToString(i + 1)
    && a.category == ExtraCategory
    && a.brand == ExtraBrand
    && a.description == ExtraDescriptionPrefix + NatToString(i + 1) + ExtraDescriptionSuffix
    && a.location == Lab101
    && a.status == Active
    && a.acquisitionDate == ExtraAcquisitionDate
    && a.movementHistory == [MovementEntry(ExtraEntryDate, Acquisition, Supplier, Lab101, Administrator)]
  }

  /** The i-th extra test document when the collection holds `count` documents: the only
      document that is. */
  function ExtraAsset(count: nat, i: nat): (r: Asset)
    ensures IsExtraAsset(r, count, i)
    ensures forall a :: IsExtraAsset(a, count, i) ==> a == r
  {
    Asset(
      ExtraId(count, i),
      ExtraNamePrefix + NatToString(i + 1),
      ExtraCategory,
      ExtraBrand,
      ExtraDescriptionPrefix + NatToString(i + 1) + ExtraDescriptionSuffix,
      Lab101,
      Active,
      ExtraAcquisitionDate,
      [MovementEntry(ExtraEntryDate, Acquisition, Supplier, Lab101, Administrator)])
  }

  /** Extra ids are NEWASSET followed by the number, so they are equal only when the numbers are. */
  lemma ExtraIdsDiffer(count: nat, i: nat, count': nat, j: nat)
    requires count + i != count' + j
    ensures ExtraId(count, i) != ExtraId(count', j)
  {
    if ExtraId(count, i) == ExtraId(count', j) {
      var n := |ExtraIdPrefix|;
      assert ExtraId(count, i)[n..] == NatToString(count + 1 + i);
      assert ExtraId(count', j)[n..] == NatToString(count' + 1 + j);
      NatToStringInjective(count + 1 + i, count' + 1 + j);
    }
  }

  /** The "type" of the entry written when only the status changes. */
  function StatusChangeKind(oldStatus: string, newStatus: string): string
  {
    "Atualização de Status: " + oldStatus + " para " + newStatus
  }
}
