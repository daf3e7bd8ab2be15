/**
 * The batch queue panel (client/src/components/batch-queue.tsx): the
 * `BatchItem` record the home page keeps, and the rule that turns a list
 * of items into the rows of the panel, choosing the controls of each row
 * from its status.
 */
module BatchQueue {
  import opened Wrappers
  import opened Web
  import opened Schema

  datatype Status = Pending | Processing | Completed | Error

  /** One queued image. `progress` is declared by the source but never set or shown. */
  datatype BatchItem = BatchItem(
    id: string,
    file: File,
    metadata: ImageMetadata,
    status: Status,
    progress: Option<real>,
    processedBlob: Option<Blob>,
    error: Option<string>)

  /** The controls at the right of a row; a button carries the id its click reports. */
  datatype Control =
    | RemoveButton(target: string)
    | Spinner
    | CheckMark
    | DownloadButton(target: string)

  /** What a row shows: thumbnail of `file`, name, dimensions, size, optional error line, controls. */
  datatype Row = Row(
    key: string,
    file: File,
    filename: string,
    width: nat,
    height: nat,
    sizeBytes: nat,
    errorText: Option<string>,
    controls: seq<Control>)

  /** The panel: the count label and one row per item. */
  datatype Panel = Panel(count: nat, noun: string, rows: seq<Row>)

  function ControlsFor(item: BatchItem): seq<Control> {
    match item.status
    case Pending => [RemoveButton(item.id)]
    case Processing => [Spinner]
    case Completed => [CheckMark, DownloadButton(item.id)]
    case Error => [RemoveButton(item.id)]
  }

  function RowFor(item: BatchItem): Row {
    Row(item.id, item.file, item.metadata.filename, item.metadata.width, item.metadata.height,
        item.metadata.size, if item.status == Error then item.error else None, ControlsFor(item))
  }

  /** "image" for exactly one item, "images" otherwise. */
  function Noun(n: nat): string {
    if n != 1 then "images" else "image"
  }

  /** `BatchQueue`: nothing for an empty list, otherwise one row per item in order. */
  function Render(items: seq<BatchItem>): (panel: Option<Panel>)
    ensures panel.None? <==> items == []
    ensures panel.Some? ==> panel.value.count == |items| && |panel.value.rows| == |items|
  {
    if |items| == 0 then None
    else Some(Panel(|items|, Noun(|items|), seq(|items|, i requires 0 <= i < |items| => RowFor(items[i]))))
  }

  /**
   * The controls of a row follow its status: a remove button exactly for
   * pending and failed items, a download button exactly for completed
   * ones, and a spinner with no button while processing; every button
   * reports the item's own id.
   */
  lemma ControlsFollowStatus(item: BatchItem)
    ensures RemoveButton(item.id) in RowFor(item).controls <==> item.status == Pending || item.status == Error
    ensures DownloadButton(item.id) in RowFor(item).controls <==> item.status == Completed
    ensures Spinner in RowFor(item).controls <==> item.status == Processing
    ensures item.status == Processing ==> RowFor(item).controls == [Spinner]
    ensures forall c :: c in RowFor(item).controls && (c.RemoveButton? || c.DownloadButton?) ==> c.target == item.id
  {
  }

  /** The error line appears only for a failed item, and then shows the item's error. */
  lemma ErrorTextOnlyOnError(item: BatchItem)
    ensures RowFor(item).errorText.Some? ==> item.status == Error
    ensures item.status == Error ==> RowFor(item).errorText == item.error
  {
  }

  /** Row i shows item i, keyed by its id, and the label counts every item with the right noun. */
  lemma RenderRowsInOrder(items: seq<BatchItem>)
    requires items != []
    ensures forall i :: 0 <= i < |items| ==>
      Render(items).value.rows[i] == RowFor(items[i]) && Render(items).value.rows[i].key == items[i].id
    ensures Render(items).value.noun == "image" <==> |items| == 1
    ensures Render(items).value.noun == "images" <==> |items| != 1
  {
  }
}
