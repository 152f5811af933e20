/** The rows of the batch_items and events tables, as the program reads them back
    (nullable columns are Options). */
module Items {
  import opened Common

  /** One batch_items row; its primary key is the key it is stored under. */
  datatype BatchItem = BatchItem(
    batchId: int,
    game: Option<string>,
    setCode: Option<string>,
    cardName: Option<string>,
    collectorNumber: Option<string>,
    scryfallId: Option<string>,
    qtyRequired: int,
    qtyPicked: int,
    condition: Option<string>,
    language: Option<string>,
    printing: Option<string>,
    isMissing: Option<int>,
    missingNote: Option<string>,
    orderNames: Option<string>,
    orderRefs: Option<string>)

  datatype EventKind = PickEvent | UndoEvent | MissingEvent | UnmissingEvent

  /** One row of the append-only events table (its timestamp is left out). */
  datatype Event = Event(kind: EventKind, itemId: int, qty: int, session: Option<string>)
}
