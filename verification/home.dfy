/**
 * The page state of client/src/pages/home.tsx: the single-image state,
 * the batch queue and the mode switch, with the handlers that update them.
 *
 * Each `setX` call becomes an assignment to a field. A network round trip
 * is an oracle: the blob the server answers with, or `None` when the
 * request fails or the response is not ok. Ids from `Date.now()` and
 * `Math.random()` are parameters that the caller supplies fresh.
 */
module Home {
  import opened Wrappers
  import opened Web
  import opened Schema
  import opened BatchQueue

  datatype Mode = Single | Batch

  /** The multipart body posted to `/api/process`: the image and the serialised options. */
  datatype Request = Request(image: File, options: Json)

  /** A download the browser is asked to start. */
  datatype Download = Download(name: string, blob: Blob)

  /** The error text a failed item carries. */
  const ProcessingFailed: string := "Processing failed"

  predicate DistinctIds(items: seq<BatchItem>) {
    forall i, j :: 0 <= i < j < |items| ==> items[i].id != items[j].id
  }

  /** A blob exactly when completed, an error text exactly when failed. */
  predicate Consistent(item: BatchItem) {
    && (item.processedBlob.Some? <==> item.status == Completed)
    && (item.error.Some? <==> item.status == Error)
  }

  /** The item `handleFileUpload` and `handleMultipleFilesUpload` create. */
  function NewItem(file: File, metadata: ImageMetadata, id: string): (item: BatchItem)
    ensures item.status == Pending && Consistent(item)
  {
    BatchItem(id, file, metadata, Pending, None, None, None)
  }

  function NewItems(uploads: seq<(File, ImageMetadata)>, ids: seq<string>): (items: seq<BatchItem>)
    requires |ids| == |uploads|
    ensures |items| == |uploads|
    ensures forall k :: 0 <= k < |items| ==>
      items[k].id == ids[k] && items[k].file == uploads[k].0 && items[k].metadata == uploads[k].1
      && items[k].status == Pending && Consistent(items[k])
  {
    seq(|uploads|, k requires 0 <= k < |uploads| => NewItem(uploads[k].0, uploads[k].1, ids[k]))
  }

  /** `prev.filter(item => item.id !== id)`. */
  function Without(items: seq<BatchItem>, id: string): (r: seq<BatchItem>)
    ensures |r| <= |items|
  {
    if items == [] then []
    else (if items[0].id == id then [] else [items[0]]) + Without(items[1..], id)
  }

  /** `batchItems.filter(item => item.status === "pending")`. */
  function PendingItems(items: seq<BatchItem>): (r: seq<BatchItem>)
    ensures |r| <= |items|
  {
    if items == [] then []
    else (if items[0].status == Pending then [items[0]] else []) + PendingItems(items[1..])
  }

  /** What becomes of an item once its request settles. */
  function Outcome(item: BatchItem, response: Option<Blob>): BatchItem {
    if response.Some? then item.(status := Completed, processedBlob := response)
    else item.(status := Error, error := Some(ProcessingFailed))
  }

  /** The first update of `processImage`: the item with the id becomes "processing". */
  function MarkProcessing(items: seq<BatchItem>, id: string): seq<BatchItem> {
    seq(|items|, k requires 0 <= k < |items| => if items[k].id == id then items[k].(status := Processing) else items[k])
  }

  /** The second update of `processImage`: the item with the id takes its outcome. */
  function Settle(items: seq<BatchItem>, id: string, response: Option<Blob>): seq<BatchItem> {
    seq(|items|, k requires 0 <= k < |items| => if items[k].id == id then Outcome(items[k], response) else items[k])
  }

  /** The queue after a batch run: every pending item takes the outcome of its own request. */
  function SettleAll(items: seq<BatchItem>, respond: string -> Option<Blob>): seq<BatchItem> {
    seq(|items|, k requires 0 <= k < |items| =>
      if items[k].status == Pending then Outcome(items[k], respond(items[k].id)) else items[k])
  }

  /** The queue after the requests of the items whose ids are in `done` have settled. */
  function PartlySettled(items: seq<BatchItem>, done: set<string>, respond: string -> Option<Blob>): seq<BatchItem> {
    seq(|items|, k requires 0 <= k < |items| =>
      if items[k].id in done then Outcome(items[k], respond(items[k].id)) else items[k])
  }

  function IdsOf(items: seq<BatchItem>): set<string> {
    set x | x in items :: x.id
  }

  /** The number of dispatched items whose request succeeds. */
  function CountSuccesses(dispatched: seq<BatchItem>, respond: string -> Option<Blob>): nat {
    if dispatched == [] then 0
    else CountSuccesses(dispatched[..|dispatched| - 1], respond)
         + (if respond(dispatched[|dispatched| - 1].id).Some? then 1 else 0)
  }

  /** The item `batchItems.find` returns. */
  function FindById(items: seq<BatchItem>, id: string): (r: Option<BatchItem>)
    ensures r.Some? ==> r.value in items && r.value.id == id
    ensures r.None? <==> forall x :: x in items ==> x.id != id
  {
    if items == [] then None
    else if items[0].id == id then Some(items[0])
    else FindById(items[1..], id)
  }

  class HomePage {
    var mode: Mode
    var uploadedFile: Option<File>
    var imageMetadata: Option<ImageMetadata>
    var processedBlob: Option<Blob>
    var isProcessing: bool
    var batchItems: seq<BatchItem>
    var isBatchProcessing: bool

    /** Ids are distinct, every item is consistent, and single mode has an empty queue. */
    predicate Valid()
      reads this
    {
      && DistinctIds(batchItems)
      && (forall x :: x in batchItems ==> Consistent(x))
      && (mode == Single ==> batchItems == [])
    }

    function SingleState(): (Option<File>, Option<ImageMetadata>, Option<Blob>, bool)
      reads this
    {
      (uploadedFile, imageMetadata, processedBlob, isProcessing)
    }

    constructor ()
      ensures Valid()
      ensures mode == Single && batchItems == [] && !isBatchProcessing
      ensures uploadedFile.None? && imageMetadata.None? && processedBlob.None? && !isProcessing
    {
      mode := Single;
      uploadedFile := None;
      imageMetadata := None;
      processedBlob := None;
      isProcessing := false;
      batchItems := [];
      isBatchProcessing := false;
    }

    /**
     * `handleFileUpload`: in batch mode a pending item is appended; in
     * single mode the file and metadata are replaced and any previous
     * result is cleared.
     */
    method HandleFileUpload(file: File, metadata: ImageMetadata, id: string)
      requires Valid()
      requires forall x :: x in batchItems ==> x.id != id
      modifies this
      ensures Valid() && mode == old(mode) && isBatchProcessing == old(isBatchProcessing)
      ensures old(mode) == Batch ==>
        batchItems == old(batchItems) + [NewItem(file, metadata, id)] && SingleState() == old(SingleState())
      ensures old(mode) == Single ==>
        && batchItems == old(batchItems)
        && uploadedFile == Some(file) && imageMetadata == Some(metadata) && processedBlob.None?
        && isProcessing == old(isProcessing)
    {
      if mode == Batch {
        batchItems := batchItems + [NewItem(file, metadata, id)];
      } else {
        uploadedFile := Some(file);
        imageMetadata := Some(metadata);
        processedBlob := None;
      }
    }

    /** `handleMultipleFilesUpload`: pending items appended in order, and the page is in batch mode. */
    method HandleMultipleFilesUpload(uploads: seq<(File, ImageMetadata)>, ids: seq<string>)
      requires Valid()
      requires |ids| == |uploads|
      requires forall i, j :: 0 <= i < j < |ids| ==> ids[i] != ids[j]
      requires forall x, i :: x in batchItems && 0 <= i < |ids| ==> x.id != ids[i]
      modifies this
      ensures Valid() && mode == Batch
      ensures batchItems == old(batchItems) + NewItems(uploads, ids)
      ensures SingleState() == old(SingleState()) && isBatchProcessing == old(isBatchProcessing)
    {
      var added := NewItems(uploads, ids);
      batchItems := batchItems + added;
      if mode != Batch {
        mode := Batch;
      }
      forall i, j | 0 <= i < j < |batchItems| ensures batchItems[i].id != batchItems[j].id {
        if i < |old(batchItems)| <= j {
          assert old(batchItems)[i] in old(batchItems);
          assert batchItems[j].id == ids[j - |old(batchItems)|];
        }
      }
    }

    /**
     * `handleProcess`: without an uploaded file nothing happens; otherwise
     * the file and the serialised options are posted, and the result is
     * the answered blob or, on failure, nothing.
     */
    method HandleProcess(options: Plan, response: Option<Blob>) returns (request: Option<Request>)
      modifies this
      ensures old(uploadedFile).None? ==> request.None? && SingleState() == old(SingleState())
      ensures old(uploadedFile).Some? ==>
        && request == Some(Request(old(uploadedFile).value, ToJson(options)))
        && processedBlob == response && !isProcessing
        && uploadedFile == old(uploadedFile) && imageMetadata == old(imageMetadata)
      ensures mode == old(mode) && batchItems == old(batchItems) && isBatchProcessing == old(isBatchProcessing)
    {
      if uploadedFile.None? {
        return None;
      }
      isProcessing := true;
      request := Some(Request(uploadedFile.value, ToJson(options)));
      processedBlob := response;
      isProcessing := false;
    }

    /**
     * `processImage`: the item with the id is marked processing, then
     * completed with the blob or failed with "Processing failed"; the flag
     * returned tells which.
     */
    method ProcessImage(item: BatchItem, options: Plan, response: Option<Blob>) returns (request: Request, success: bool)
      modifies this
      ensures request == Request(item.file, ToJson(options))
      ensures success <==> response.Some?
      ensures batchItems == Settle(old(batchItems), item.id, response)
      ensures mode == old(mode) && isBatchProcessing == old(isBatchProcessing) && SingleState() == old(SingleState())
    {
      ghost var before := batchItems;
      batchItems := MarkProcessing(batchItems, item.id);
      request := Request(item.file, ToJson(options));
      if response.Some? {
        batchItems := Settle(batchItems, item.id, response);
        success := true;
      } else {
        batchItems := Settle(batchItems, item.id, None);
        success := false;
      }
      assert batchItems == Settle(before, item.id, response);
    }

    /**
     * `handleBatchProcess`: only pending items are dispatched (none: no
     * effect); each settles with its own outcome, and the counts add up
     * to the number dispatched.
     */
    method HandleBatchProcess(options: Plan, respond: string -> Option<Blob>)
      returns (completed: nat, failed: nat, requests: seq<Request>)
      requires Valid()
      modifies this
      ensures Valid()
      ensures batchItems == SettleAll(old(batchItems), respond)
      ensures completed == CountSuccesses(PendingItems(old(batchItems)), respond)
      ensures completed + failed == |PendingItems(old(batchItems))| == |requests|
      ensures forall k :: 0 <= k < |requests| ==>
        requests[k] == Request(PendingItems(old(batchItems))[k].file, ToJson(options))
      ensures isBatchProcessing == (if PendingItems(old(batchItems)) == [] then old(isBatchProcessing) else false)
      ensures mode == old(mode) && SingleState() == old(SingleState())
    {
      var pending := PendingItems(batchItems);
      if |pending| == 0 {
        SettleAllWithoutPending(batchItems, respond);
        return 0, 0, [];
      }
      isBatchProcessing := true;
      ghost var items := batchItems;
      completed, requests := Dispatch(pending, options, respond);
      CountSuccessesBound(pending, respond);
      failed := |pending| - completed;
      PartlySettledIsSettleAll(items, respond);
      SettleAllKeepsValid(items, respond);
      isBatchProcessing := false;
    }

    /**
     * The `Promise.allSettled` fan-out, one `processImage` after the other:
     * every dispatched item settles, `completed` counts the successes and
     * one request is posted per item, in order.
     */
    method Dispatch(pending: seq<BatchItem>, options: Plan, respond: string -> Option<Blob>)
      returns (completed: nat, requests: seq<Request>)
      modifies this
      ensures batchItems == PartlySettled(old(batchItems), IdsOf(pending), respond)
      ensures completed == CountSuccesses(pending, respond)
      ensures |requests| == |pending|
      ensures forall k :: 0 <= k < |pending| ==> requests[k] == Request(pending[k].file, ToJson(options))
      ensures mode == old(mode) && isBatchProcessing == old(isBatchProcessing) && SingleState() == old(SingleState())
    {
      ghost var items := batchItems;
      var i := 0;
      completed := 0;
      requests := [];
      assert IdsOf(pending[..0]) == {};
      while i < |pending|
        invariant 0 <= i <= |pending|
        invariant batchItems == PartlySettled(items, IdsOf(pending[..i]), respond)
        invariant completed == CountSuccesses(pending[..i], respond)
        invariant |requests| == i
        invariant forall k :: 0 <= k < i ==> requests[k] == Request(pending[k].file, ToJson(options))
        invariant mode == old(mode) && isBatchProcessing == old(isBatchProcessing) && SingleState() == old(SingleState())
      {
        var request, ok := ProcessImage(pending[i], options, respond(pending[i].id));
        DispatchStep(items, pending, i, respond);
        requests := requests + [request];
        if ok {
          completed := completed + 1;
        }
        i := i + 1;
      }
      assert pending[..i] == pending;
    }

    /** `handleBatchRemove`: the items with the id disappear, the rest stay in order. */
    method HandleBatchRemove(id: string)
      requires Valid()
      modifies this
      ensures Valid()
      ensures batchItems == Without(old(batchItems), id)
      ensures mode == old(mode) && isBatchProcessing == old(isBatchProcessing) && SingleState() == old(SingleState())
    {
      WithoutKeepsDistinct(batchItems, id);
      WithoutMembers(batchItems, id);
      batchItems := Without(batchItems, id);
    }

    /** `handleBatchDownload`: a download named after the original file, for an item that holds a blob. */
    method HandleBatchDownload(id: string) returns (download: Option<Download>)
      requires Valid()
      ensures download.Some? <==> exists x :: x in batchItems && x.id == id && x.status == Completed
      ensures download.Some? ==> exists x :: (x in batchItems && x.id == id && x.processedBlob == Some(download.value.blob)
        && download.value.name == "processed-" + x.metadata.filename)
    {
      var found := FindById(batchItems, id);
      if found.None? || found.value.processedBlob.None? {
        if found.Some? {
          OnlyItemWithId(batchItems, found.value, id);
        }
        return None;
      }
      OnlyItemWithId(batchItems, found.value, id);
      return Some(Download("processed-" + found.value.metadata.filename, found.value.processedBlob.value));
    }

    /** `handleReset`: the single-image state is cleared. */
    method HandleReset()
      modifies this
      ensures uploadedFile.None? && imageMetadata.None? && processedBlob.None? && !isProcessing
      ensures mode == old(mode) && batchItems == old(batchItems) && isBatchProcessing == old(isBatchProcessing)
    {
      uploadedFile := None;
      imageMetadata := None;
      processedBlob := None;
      isProcessing := false;
    }

    /** `handleBatchReset`: an empty queue and single mode. */
    method HandleBatchReset()
      modifies this
      ensures Valid()
      ensures batchItems == [] && mode == Single
      ensures isBatchProcessing == old(isBatchProcessing) && SingleState() == old(SingleState())
    {
      batchItems := [];
      mode := Single;
    }

    /** `toggleMode`: single to batch keeps everything; batch to single goes through the batch reset. */
    method ToggleMode()
      requires Valid()
      modifies this
      ensures Valid()
      ensures old(mode) == Single ==> mode == Batch && batchItems == old(batchItems) == []
      ensures old(mode) == Batch ==> mode == Single && batchItems == []
      ensures isBatchProcessing == old(isBatchProcessing) && SingleState() == old(SingleState())
    {
      if mode == Single {
        mode := Batch;
      } else {
        mode := Single;
        HandleBatchReset();
      }
    }
  }

  // ---------------------------------------------------------------------
  // Lemmas about the queue functions
  // ---------------------------------------------------------------------

  /** With distinct ids, the item `find` returns is the only one with that id. */
  lemma OnlyItemWithId(items: seq<BatchItem>, found: BatchItem, id: string)
    requires DistinctIds(items)
    requires found in items && found.id == id
    ensures forall x :: x in items && x.id == id ==> x == found
  {
    forall x | x in items && x.id == id ensures x == found {
      var i :| 0 <= i < |items| && items[i] == x;
      var j :| 0 <= j < |items| && items[j] == found;
      assert i == j;
    }
  }

  /** Removal keeps exactly the items with another id. */
  lemma {:induction false} WithoutMembers(items: seq<BatchItem>, id: string)
    ensures forall x :: x in Without(items, id) <==> x in items && x.id != id
  {
    if items != [] {
      WithoutMembers(items[1..], id);
      assert items == [items[0]] + items[1..];
    }
  }

  /** The dispatched items are exactly the pending ones. */
  lemma {:induction false} PendingMembers(items: seq<BatchItem>)
    ensures forall x :: x in PendingItems(items) <==> x in items && x.status == Pending
  {
    if items != [] {
      PendingMembers(items[1..]);
      assert items == [items[0]] + items[1..];
    }
  }

  lemma WithoutKeepsDistinct(items: seq<BatchItem>, id: string)
    requires DistinctIds(items)
    ensures DistinctIds(Without(items, id))
  {
    if items != [] {
      WithoutKeepsDistinct(items[1..], id);
      WithoutMembers(items[1..], id);
      var rest := Without(items[1..], id);
      if items[0].id != id {
        forall j | 0 <= j < |rest| ensures items[0].id != rest[j].id {
          assert rest[j] in items[1..];
        }
      }
    }
  }

  /** Removal keeps the other items in their order: it distributes over concatenation. */
  lemma {:induction false} WithoutPreservesOrder(a: seq<BatchItem>, b: seq<BatchItem>, id: string)
    ensures Without(a + b, id) == Without(a, id) + Without(b, id)
  {
    if a != [] {
      var ab := a + b;
      assert ab != [] && ab[0] == a[0] && ab[1..] == a[1..] + b;
      var head := if a[0].id == id then [] else [a[0]];
      var rest := Without(a[1..], id);
      WithoutPreservesOrder(a[1..], b, id);
      assert Without(ab, id) == head + Without(a[1..] + b, id);
      assert Without(a, id) == head + rest;
      assert head + (rest + Without(b, id)) == (head + rest) + Without(b, id);
    } else {
      assert a + b == b;
    }
  }

  /** A queue without the id is left as it is. */
  lemma {:induction false} WithoutAbsentId(a: seq<BatchItem>, id: string)
    requires forall x :: x in a ==> x.id != id
    ensures Without(a, id) == a
  {
    if a != [] {
      assert a[0] in a;
      assert forall x :: x in a[1..] ==> x in a;
      WithoutAbsentId(a[1..], id);
      assert a == [a[0]] + a[1..];
    }
  }

  /** Removing twice is removing once. */
  lemma WithoutIdempotent(items: seq<BatchItem>, id: string)
    ensures Without(Without(items, id), id) == Without(items, id)
  {
    WithoutMembers(items, id);
    WithoutAbsentId(Without(items, id), id);
  }

  /** `processImage`'s first update changes only the status of the item with the id. */
  lemma MarkProcessingTouchesOneItem(items: seq<BatchItem>, id: string)
    ensures |MarkProcessing(items, id)| == |items|
    ensures forall k :: 0 <= k < |items| && items[k].id != id ==> MarkProcessing(items, id)[k] == items[k]
    ensures forall k :: 0 <= k < |items| && items[k].id == id ==>
      MarkProcessing(items, id)[k].status == Processing
      && MarkProcessing(items, id)[k] == items[k].(status := Processing)
  {
  }

  /**
   * The second update settles the item with the id, whatever status the
   * first update gave it; no other item changes.
   */
  lemma SettleTouchesOneItem(items: seq<BatchItem>, id: string, response: Option<Blob>)
    ensures Settle(MarkProcessing(items, id), id, response) == Settle(items, id, response)
    ensures forall k :: 0 <= k < |items| && items[k].id != id ==> Settle(items, id, response)[k] == items[k]
    ensures forall k :: 0 <= k < |items| && items[k].id == id ==>
      Settle(items, id, response)[k].status == (if response.Some? then Completed else Error)
  {
  }

  lemma IdsOfSnoc(s: seq<BatchItem>, x: BatchItem)
    ensures IdsOf(s + [x]) == IdsOf(s) + {x.id}
  {
    assert forall y :: y in s + [x] <==> y in s || y == x;
  }

  lemma CountSuccessesSnoc(s: seq<BatchItem>, x: BatchItem, respond: string -> Option<Blob>)
    ensures CountSuccesses(s + [x], respond) == CountSuccesses(s, respond) + (if respond(x.id).Some? then 1 else 0)
  {
    assert (s + [x])[..|s|] == s;
  }

  /** One more settled request: the queue and the success count advance by that item. */
  lemma DispatchStep(items: seq<BatchItem>, pending: seq<BatchItem>, i: nat, respond: string -> Option<Blob>)
    requires i < |pending|
    ensures Settle(PartlySettled(items, IdsOf(pending[..i]), respond), pending[i].id, respond(pending[i].id))
      == PartlySettled(items, IdsOf(pending[..i + 1]), respond)
    ensures CountSuccesses(pending[..i + 1], respond)
      == CountSuccesses(pending[..i], respond) + (if respond(pending[i].id).Some? then 1 else 0)
  {
    assert pending[..i + 1] == pending[..i] + [pending[i]];
    IdsOfSnoc(pending[..i], pending[i]);
    CountSuccessesSnoc(pending[..i], pending[i], respond);
    SettleStep(items, IdsOf(pending[..i]), pending[i].id, respond);
  }

  lemma SettleStep(items: seq<BatchItem>, done: set<string>, id: string, respond: string -> Option<Blob>)
    ensures Settle(PartlySettled(items, done, respond), id, respond(id)) == PartlySettled(items, done + {id}, respond)
  {
  }

  /** With distinct ids, settling the ids of the pending items is settling every pending item. */
  lemma PartlySettledIsSettleAll(items: seq<BatchItem>, respond: string -> Option<Blob>)
    requires DistinctIds(items)
    ensures PartlySettled(items, IdsOf(PendingItems(items)), respond) == SettleAll(items, respond)
  {
    PendingMembers(items);
    forall k | 0 <= k < |items|
      ensures items[k].id in IdsOf(PendingItems(items)) <==> items[k].status == Pending
    {
      assert items[k] in items;
      if items[k].status == Pending {
        assert items[k] in PendingItems(items);
        assert items[k].id in IdsOf(PendingItems(items));
      }
      if items[k].id in IdsOf(PendingItems(items)) {
        var x :| x in PendingItems(items) && x.id == items[k].id;
        OnlyItemWithId(items, items[k], items[k].id);
      }
    }
  }

  lemma SettleAllWithoutPending(items: seq<BatchItem>, respond: string -> Option<Blob>)
    requires PendingItems(items) == []
    ensures SettleAll(items, respond) == items
  {
    PendingMembers(items);
    forall k | 0 <= k < |items| ensures items[k].status != Pending {
      assert items[k] in items;
    }
  }

  lemma SettleAllKeepsValid(items: seq<BatchItem>, respond: string -> Option<Blob>)
    requires DistinctIds(items) && forall x :: x in items ==> Consistent(x)
    ensures DistinctIds(SettleAll(items, respond))
    ensures forall x :: x in SettleAll(items, respond) ==> Consistent(x)
  {
    var r := SettleAll(items, respond);
    assert forall k :: 0 <= k < |r| ==> r[k].id == items[k].id;
    forall x | x in r ensures Consistent(x) {
      var k :| 0 <= k < |r| && r[k] == x;
      assert items[k] in items;
    }
  }

  /**
   * After a batch run nothing is pending: each formerly pending item is
   * completed or failed, every other item is unchanged, and the queue keeps
   * its length and ids.
   */
  lemma BatchLeavesNothingPending(items: seq<BatchItem>, respond: string -> Option<Blob>)
    ensures PendingItems(SettleAll(items, respond)) == []
    ensures |SettleAll(items, respond)| == |items|
    ensures forall k :: 0 <= k < |items| ==>
      && SettleAll(items, respond)[k].id == items[k].id
      && (items[k].status == Pending ==> SettleAll(items, respond)[k].status in {Completed, Error})
      && (items[k].status != Pending ==> SettleAll(items, respond)[k] == items[k])
  {
    var r := SettleAll(items, respond);
    forall k | 0 <= k < |items|
      ensures r[k].id == items[k].id && r[k].status != Pending
      ensures items[k].status == Pending ==> r[k].status in {Completed, Error}
    {
      if items[k].status == Pending {
        assert r[k] == Outcome(items[k], respond(items[k].id));
      }
    }
    forall x | x in r ensures x.status != Pending {
      var k :| 0 <= k < |r| && r[k] == x;
    }
    NoPendingItems(r);
  }

  lemma NoPendingItems(items: seq<BatchItem>)
    requires forall x :: x in items ==> x.status != Pending
    ensures PendingItems(items) == []
  {
    if items != [] {
      assert items[0] in items;
      assert forall x :: x in items[1..] ==> x in items;
      NoPendingItems(items[1..]);
    }
  }

  /** A second batch run dispatches nothing and changes nothing. */
  lemma SettleAllIdempotent(items: seq<BatchItem>, respond: string -> Option<Blob>, again: string -> Option<Blob>)
    ensures SettleAll(SettleAll(items, respond), again) == SettleAll(items, respond)
  {
    BatchLeavesNothingPending(items, respond);
    SettleAllWithoutPending(SettleAll(items, respond), again);
  }

  /**
   * `completed` is at most the number dispatched, and it is all of them
   * exactly when every request succeeds.
   */
  lemma {:induction false} CountSuccessesBound(dispatched: seq<BatchItem>, respond: string -> Option<Blob>)
    ensures CountSuccesses(dispatched, respond) <= |dispatched|
    ensures CountSuccesses(dispatched, respond) == |dispatched| <==> forall x :: x in dispatched ==> respond(x.id).Some?
    decreases |dispatched|
  {
    if dispatched != [] {
      var init := dispatched[..|dispatched| - 1];
      var last := dispatched[|dispatched| - 1];
      CountSuccessesBound(init, respond);
      SnocMembers(dispatched, init, last);
    }
  }

  /** `completed` is zero exactly when every request fails. */
  lemma {:induction false} CountSuccessesZero(dispatched: seq<BatchItem>, respond: string -> Option<Blob>)
    ensures CountSuccesses(dispatched, respond) == 0 <==> forall x :: x in dispatched ==> respond(x.id).None?
    decreases |dispatched|
  {
    if dispatched != [] {
      var init := dispatched[..|dispatched| - 1];
      var last := dispatched[|dispatched| - 1];
      CountSuccessesZero(init, respond);
      SnocMembers(dispatched, init, last);
    }
  }

  lemma SnocMembers(s: seq<BatchItem>, init: seq<BatchItem>, last: BatchItem)
    requires s != [] && init == s[..|s| - 1] && last == s[|s| - 1]
    ensures forall x :: x in s <==> x in init || x == last
  {
    assert s == init + [last];
  }

  /** Pending items keep their queue order, and items appended later are dispatched after them. */
  lemma {:induction false} PendingItemsAppend(a: seq<BatchItem>, b: seq<BatchItem>)
    ensures PendingItems(a + b) == PendingItems(a) + PendingItems(b)
  {
    if a != [] {
      var ab := a + b;
      assert ab != [] && ab[0] == a[0] && ab[1..] == a[1..] + b;
      var head := if a[0].status == Pending then [a[0]] else [];
      var rest := PendingItems(a[1..]);
      PendingItemsAppend(a[1..], b);
      assert PendingItems(ab) == head + PendingItems(a[1..] + b);
      assert PendingItems(a) == head + rest;
      assert head + (rest + PendingItems(b)) == (head + rest) + PendingItems(b);
    } else {
      assert a + b == b;
    }
  }

}
