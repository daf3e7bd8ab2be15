# Image processor core, modelled in Dafny

The image processor is a small web application. The browser checks an image before upload (type and size), shows a form (output format, width and height linked by the aspect ratio, background removal), and posts the image with the form's options to `/api/process`. The server validates the options against a shared schema, runs a sharp pipeline (resize, flatten onto white, encode), sends the result and deletes temporary files. A periodic sweep removes expired files from `uploads/` and `outputs/`. In batch mode the page keeps a queue of images, dispatches every pending one and records each item's outcome.

The model has one module per source file. Helper modules hold shared values:

- `Wrappers` (`Option`) and `Web` (browser `File` and `Blob` values) are helpers.
- `Schema` (shared/schema.ts): the closed format list, and the options schema as a validation function `Validate: Json -> Option<Plan>` over parsed JSON. It also holds `ToJson`, the serialisation the client applies to a plan (`JSON.stringify`, which drops absent fields), and the `ImageMetadata` record.
- `Routes` (server/routes.ts):
  - multer's upload gate;
  - the sharp chain as an ordered list of abstract operations;
  - the output file name, including Node's posix `path.extname`;
  - the `/api/process` handler as a method of the `Storage` class, whose two fields are the `uploads/` and `outputs/` directories (file name to modification time);
  - the periodic sweep as a loop over one directory.
- `UploadZone` (client/src/components/image-upload-zone.tsx): the client gate and the metadata of an accepted file.
- `Controls` (client/src/components/processing-controls.tsx): the form as a class with the five state fields its handlers update and the metadata it is currently shown with, which can change while the form stays mounted. The `hasChanges` test and the emitted options are pure functions.
- `BatchQueue` (client/src/components/batch-queue.tsx): the `BatchItem` record and the rule that renders items into rows with per-status controls.
- `Home` (client/src/pages/home.tsx): the page state as a class; each `setX` call becomes an assignment. The batch run is a loop that processes the pending items one after the other.
- `Agreement`: lemmas that join the components. They show that the two upload gates agree, and that the options the form emits pass the server's schema and lead to the expected sharp chain.

Three kinds of input are modelled as parameters (oracles):
- Network answers, image decoding in the browser, and whether sharp writes its output.
- Whether `res.sendFile` succeeds.
- Directory faults during the sweep.

Ids and name tokens from `Date.now()`/`Math.random()` are parameters that the caller supplies fresh.

## Model

| member | source | states |
|---|---|---|
| Schema.FormatNamed | shared/schema.ts:3 | a payload string names a format exactly when it is one of "jpg", "jpeg", "png", "webp", and that format's name is the string |
| Schema.FormatNameRoundTrip | shared/schema.ts:3 | every format's name is in the supported list and names that format back |
| Schema.Validate | shared/schema.ts:6-28 | a plan produced by validation satisfies every bound of the schema |
| Schema.AssembledWellFormed | shared/schema.ts:6-28 | when no present key is rejected, the copied plan satisfies every bound of the schema |
| Schema.AssembledScalarsInRange | shared/schema.ts:8-27 | the copied width, height, quality, brightness and contrast are within their bounds |
| Schema.AssembledCompoundInRange | shared/schema.ts:13-25 | the copied crop and filters objects satisfy their own bounds |
| Schema.CropRoundTrip | shared/schema.ts:13-18 | a well-formed crop serialised to JSON parses back to itself |
| Schema.FiltersRoundTrip | shared/schema.ts:20-25 | well-formed filters serialised to JSON parse back to themselves |
| Schema.LookupSerialised | shared/schema.ts:6-28 | looking up a schema key in a serialised plan finds exactly the plan's field, and never a rejected value |
| Schema.SerialisedScalars | shared/schema.ts:8-19 | width, height, quality and rotation of a well-formed plan survive serialisation and parsing |
| Schema.SerialisedFlags | shared/schema.ts:7-11 | format, removeBackground and maintainAspectRatio survive serialisation and parsing |
| Schema.SerialisedAdjustments | shared/schema.ts:13-27 | crop, filters, brightness and contrast survive serialisation and parsing |
| Schema.RoundTrip | shared/schema.ts:6-28 | serialising a well-formed plan and validating it gives the same plan back |
| Schema.ValidateIdempotent | shared/schema.ts:6-28 | re-validating the serialised result of a validation yields the same plan |
| Schema.EmptyObjectValidates | shared/schema.ts:6-28 | every field is optional: `{}` validates to the plan with every field absent |
| Schema.LookupAgrees | shared/schema.ts:6-28 | two objects holding the same value (or none) under a key give the same lookup result |
| Schema.StripsUnknownKeys | shared/schema.ts:6 | two objects that agree on the schema keys validate to the same result: unknown keys are stripped, not rejected |
| Schema.AgreeOnScalars | shared/schema.ts:7-12 | objects agreeing on the schema keys give the same lookups for format, width, height, the two flags and quality |
| Schema.AgreeOnCompound | shared/schema.ts:13-27 | objects agreeing on the schema keys give the same lookups for crop, rotation, filters, brightness and contrast |
| Schema.AcceptedWithoutViolation | shared/schema.ts:6-28 | when the payload has no violation, every present key holds a value its field accepts |
| Schema.ViolationIsRejectedKey | shared/schema.ts:6-28 | a violation names a present key whose value its field rejects |
| Schema.ValidIffEveryFieldAccepted | shared/schema.ts:6-28 | a payload validates exactly when it is an object and every present key holds an accepted value |
| Schema.NothingClampedOrDefaulted | shared/schema.ts:6-28 | a schema key is in the result exactly when it was in the payload, and a scalar keeps its exact value: nothing is clamped or defaulted |
| Schema.FormatRule | shared/schema.ts:7 | `format` is accepted exactly when it is one of the four literal strings, and alone it validates exactly then |
| Schema.DimensionRule | shared/schema.ts:8-9 | `width` and `height` are accepted exactly when they are integers greater than zero |
| Schema.QualityRule | shared/schema.ts:12 | `quality` is accepted exactly when it is an integer from 1 to 100 inclusive |
| Schema.CropRule | shared/schema.ts:13-18 | `crop` is accepted exactly when it is an object with all four fields: x and y integers of at least 0, width and height integers above 0 |
| Schema.NumberRangeRule | shared/schema.ts:19-27 | `rotation` is any number; brightness and contrast lie in [0, 2], blur in [0, 100] and sharpen in [0, 10], bounds included |
| Schema.BooleanRule | shared/schema.ts:10-11 | `removeBackground` and `maintainAspectRatio` are accepted exactly when they are booleans |
| Schema.OneViolationRejects | shared/schema.ts:6-28 | one wrong-typed or out-of-range field rejects the whole payload, whatever the other fields hold |
| Routes.ChainOrdered | server/routes.ts:95-121 | the chain has at most four steps, in the order resize, removeAlpha, flatten, encode, each at most once |
| Routes.ResizeRule | server/routes.ts:97-102 | for a validated plan there is a resize step exactly when a width or height is given, with the plan's dimensions, fit "inside" exactly when maintainAspectRatio is true, and enlargement allowed |
| Routes.BackgroundRule | server/routes.ts:104-106 | removeAlpha and a flatten onto white (alpha 0) are in the chain exactly when removeBackground is true |
| Routes.EncoderRule | server/routes.ts:108-121 | there is an encoder step exactly when a format is given; jpg and jpeg both select the jpeg encoder, and the quality is always 90 |
| Routes.ChainIgnoresUnusedOptions | server/routes.ts:95-121 | quality, crop, rotation, filters, brightness and contrast never influence the chain |
| Routes.LastIndexOf | server/routes.ts:92 | the result is the position of the last occurrence of the character, or -1 when it does not occur |
| Routes.StripTrailingSlashes | server/routes.ts:92 | the result is a prefix that does not end in '/', and only slashes were removed |
| Routes.Basename | server/routes.ts:92 | the last path segment contains no '/' |
| Routes.ExtName | server/routes.ts:92 | the extension is empty or a single leading dot followed by text with no dot and no slash |
| Routes.OutputExtension | server/routes.ts:92 | the chosen extension is never empty and contains no dot and no slash |
| Routes.FormatNameIsPlain | server/routes.ts:92 | a format's name is a non-empty word with no dot and no slash |
| Routes.LastIndexOfAbsent | server/routes.ts:92 | an absent character has index -1 |
| Routes.LastIndexOfSplit | server/routes.ts:92 | in `a + [c] + b` with no `c` in `b`, the last `c` sits right after `a` |
| Routes.OutputNameCarriesExtension | server/routes.ts:92 | the output name starts with "processed-", and Node reads back from it exactly the extension the handler chose |
| Routes.OutputNameExtension | server/routes.ts:92 | `processed-<token>.<ext>` has the extension `.<ext>` for any plain token and extension |
| Routes.PrefixIsPlainStem | server/routes.ts:92 | "processed-" followed by a token without slashes is a non-empty stem with no slash |
| Routes.BasenameOfPlainName | server/routes.ts:92 | a name without slashes is its own last segment |
| Routes.ExtensionFromFormat | server/routes.ts:92 | a format given in the options wins over the original name's extension |
| Routes.ExtensionFromOriginalName | server/routes.ts:92 | without a format, the original name's extension is kept, without its dot |
| Routes.ExtensionFallsBackToPng | server/routes.ts:92 | without a format, a name with no dot, or whose only dot comes first, gives "png" |
| Routes.LeadingDotIsNoExtension | server/routes.ts:92 | a name whose only dot comes first has no extension |
| Routes.ExtNameOfSplit | server/routes.ts:92 | a plain name with a non-empty stem has, as extension, the text from its last dot |
| Routes.SweepDirectory | server/routes.ts:51-64 | the sweep of one directory adds nothing, changes no kept entry and keeps every unexpired file. Without a fault it removes exactly the expired files; when the listing fails it removes nothing |
| Routes.UnsentOutputIsReclaimed | server/routes.ts:127-137 | an output whose send failed gets no scheduled deletion and stays in `outputs/`; a fault-free sweep removes it exactly when it is older than 30 minutes |
| Routes.RejectedUploadIsReclaimed | server/routes.ts:82-89 | a received upload whose options are rejected gets 400 "Invalid processing options" and is left in `uploads/`; a fault-free sweep more than 30 minutes later removes it |
| Routes.AcceptedUploadIsProcessed | server/routes.ts:91-137 | a received upload with valid options that sharp encodes is answered with `processed-<token>.<ext>` and its plan's chain; the upload is gone, and the output is in `outputs/` and scheduled for deletion after 60 s |
| Routes.SweepIdempotent | server/routes.ts:57 | sweeping again at the same time removes nothing more |
| Routes.Storage.constructor | server/routes.ts:38-44 | the server starts from whatever `uploads/` and `outputs/` already hold: the directories are created when missing but never cleared |
| Routes.RestartLeftoversAreSwept | server/routes.ts:46-74 | files left in the directories by an earlier process survive start-up, and the first fault-free sweep keeps exactly the unexpired ones |
| Routes.Storage.Receive | server/routes.ts:12-21 | multer's disk storage adds the stored part to `uploads/` with the current time and leaves `outputs/` alone |
| Routes.Storage.Sweep | server/routes.ts:46-68 | uploads and outputs are each swept; a fault in one directory does not keep the other from being swept |
| Routes.Storage.Process | server/routes.ts:76-151 | no file: 400 "No image file uploaded". Missing or invalid options: 400 "Invalid processing options". Both 400 paths change no directory, so the upload stays until the sweep. Otherwise the handler's transform runs on the validated plan |
| Routes.Storage.Transform | server/routes.ts:91-150 | the upload is always removed. On success the output `processed-<token>.<ext>` is written, sent with the chain, and scheduled for deletion after 60 s only if the send succeeded. On failure the reply is 500 "Image processing failed"; the model assumes a sharp run that throws writes no output, since the catch block never unlinks one |
| Routes.Storage.DeleteOutput | server/routes.ts:129-135 | the delivered output is removed and nothing else changes |
| UploadZone.IndexOf | client/src/components/image-upload-zone.tsx:30 | the result is the position of the first occurrence of the character, or -1 when it does not occur |
| UploadZone.SecondSegment | client/src/components/image-upload-zone.tsx:30 | the segment after the first '/' contains no '/' |
| UploadZone.MetadataOf | client/src/components/image-upload-zone.tsx:26-32 | the metadata copies name and size from the file and the loaded dimensions, and its format contains no '/' |
| UploadZone.ValidateAndProcess | client/src/components/image-upload-zone.tsx:44-77 | exactly one outcome. A wrong type is reported first, then a size above 10 MiB, then a failed load. Otherwise the file is uploaded, and its metadata is `MetadataOf` the file and the decoded width and height: name, size, decoded dimensions and the MIME subtype as format |
| UploadZone.SizeLimitInclusive | client/src/components/image-upload-zone.tsx:54 | a file of exactly 10 MiB passes the size check and one byte more fails it |
| UploadZone.TypeCheckedBeforeSize | client/src/components/image-upload-zone.tsx:44-61 | a wrong-type file that is also too large reports the type error |
| UploadZone.SecondSegmentOfType | client/src/components/image-upload-zone.tsx:30 | the second segment of "image/<sub>" is `sub` |
| UploadZone.MetadataFormatIsSubtype | client/src/components/image-upload-zone.tsx:30 | the format of an accepted file's metadata is its MIME subtype: "jpeg", "png" or "webp" |
| UploadZone.AcceptedSubtype | client/src/components/image-upload-zone.tsx:12 | every accepted type is "image/" followed by a plain subtype |
| UploadZone.HandleDrop | client/src/components/image-upload-zone.tsx:79-92 | a drop is checked exactly when the zone is enabled and the drop holds a file |
| UploadZone.HandleFileSelect | client/src/components/image-upload-zone.tsx:104-109 | a selection is checked exactly when it holds a file |
| UploadZone.OnlyFirstFileCounts | client/src/components/image-upload-zone.tsx:84-89 | files after the first never influence the outcome. A drop uploads exactly when the zone is enabled and the first file passes both checks and loads |
| Controls.Round | client/src/components/processing-controls.tsx:43 | `Math.round` returns the integer within half a unit below and strictly less than half a unit above |
| Controls.Toggled | client/src/components/processing-controls.tsx:112-116 | clicking the selected format deselects it; clicking any other selects it |
| Controls.EmittedOptions | client/src/components/processing-controls.tsx:56-66 | the emitted options carry the form's format, width, height, lock and background switch, and never quality, crop, rotation, filters, brightness or contrast |
| Controls.ProcessingControls.constructor | client/src/components/processing-controls.tsx:30-34 | the form starts at the original dimensions with the lock on, no background removal and no format, so nothing has changed and Process is disabled |
| Controls.ProcessingControls.ToggleFormat | client/src/components/processing-controls.tsx:112-116 | only the selected format changes, to the toggled value |
| Controls.ProcessingControls.HandleWidthChange | client/src/components/processing-controls.tsx:38-45 | the width takes the input. The height becomes round(W' / (W / H)) only with the lock on and a non-empty, non-zero input; it is unchanged otherwise |
| Controls.ProcessingControls.HandleHeightChange | client/src/components/processing-controls.tsx:47-54 | the height takes the input. The width becomes round(H' * (W / H)) only with the lock on and a non-empty, non-zero input; it is unchanged otherwise |
| Controls.ProcessingControls.SetMaintainAspectRatio | client/src/components/processing-controls.tsx:136 | switching the lock recomputes no dimension |
| Controls.ProcessingControls.SetRemoveBackground | client/src/components/processing-controls.tsx:191 | only the background switch changes |
| Controls.ProcessingControls.SetMetadata | client/src/components/processing-controls.tsx:30-36 | a new `imageMetadata` prop on a mounted form leaves every form field and the emitted options as they were, while `hasChanges` and the aspect ratio read the new metadata |
| Controls.ToggleTwice | client/src/components/processing-controls.tsx:112-116 | clicking the same format twice restores no selection or its own selection; after another format was selected it ends with nothing selected |
| Controls.RoundHalvesUp | client/src/components/processing-controls.tsx:43 | halves round up, negative ones included, and integers are fixed |
| Controls.LinkedWithinHalfPixel | client/src/components/processing-controls.tsx:36-54 | a derived dimension is the exact proportional value W'·H/W (or H'·W/H), off by at most half a pixel |
| Controls.LinkedOriginalDimensions | client/src/components/processing-controls.tsx:36-54 | typing back an original dimension with the lock on restores the other original dimension |
| Controls.LinkingExamples | client/src/components/processing-controls.tsx:43 | 800×600 set to width 400 gets height 300; 3×2 set to width 1 gets height 1; 1×2 set to height 1 gets width 1 |
| Controls.EditingBackRestoresNoChanges | client/src/components/processing-controls.tsx:38-68 | with the lock on, typing back the original width brings the height back to the original, so nothing has changed; any other width is a change |
| Controls.UntouchedFormIsDirtyForNewImage | client/src/components/processing-controls.tsx:68 | a form untouched on image A has no changes against A, but reports changes against an image B of other dimensions |
| BatchQueue.Render | client/src/components/batch-queue.tsx:23-111 | nothing is rendered exactly for an empty list; otherwise the label counts every item and there is one row per item |
| BatchQueue.ControlsFollowStatus | client/src/components/batch-queue.tsx:66-104 | a remove button exactly for pending and failed items, a download button exactly for completed ones, a lone spinner while processing, and every button reports the item's own id |
| BatchQueue.ErrorTextOnlyOnError | client/src/components/batch-queue.tsx:61-63 | the error line appears only for a failed item, and then shows its error |
| BatchQueue.RenderRowsInOrder | client/src/components/batch-queue.tsx:33-38 | row i shows item i keyed by its id, and the label says "image" for exactly one item and "images" otherwise |
| Home.NewItem | client/src/pages/home.tsx:29-34 | a new item is pending, with no blob and no error |
| Home.NewItems | client/src/pages/home.tsx:48-53 | the new items carry, in order, the uploaded files and metadata with their ids, all pending |
| Home.Without | client/src/pages/home.tsx:174 | the filtered queue is never longer than the original |
| Home.PendingItems | client/src/pages/home.tsx:153 | the pending selection is never longer than the queue |
| Home.FindById | client/src/pages/home.tsx:178 | `find` returns an item of the queue with that id, and nothing exactly when no item has it |
| Home.HomePage.constructor | client/src/pages/home.tsx:13-25 | the page starts in single mode with an empty queue and no file, metadata or result |
| Home.HomePage.HandleFileUpload | client/src/pages/home.tsx:27-45 | in batch mode one pending item is appended and the single state is untouched. In single mode the file and metadata are replaced, the previous result is cleared and the queue is untouched |
| Home.HomePage.HandleMultipleFilesUpload | client/src/pages/home.tsx:47-59 | the new pending items are appended in order after the existing ones, and the page ends in batch mode |
| Home.HomePage.HandleProcess | client/src/pages/home.tsx:61-105 | without a file nothing happens. Otherwise the file is posted with the serialised options, the result is the answered blob (none on failure) and processing is over |
| Home.HomePage.ProcessImage | client/src/pages/home.tsx:107-150 | the item's file is posted with the serialised options; the queue becomes that item settled, and the returned flag is true exactly on success |
| Home.HomePage.HandleBatchProcess | client/src/pages/home.tsx:152-171 | every pending item settles with its own outcome and nothing else changes. `completed` counts the successes, `completed + failed` equals the number dispatched, and one request goes out per pending item in queue order. With nothing pending there is no effect |
| Home.HomePage.Dispatch | client/src/pages/home.tsx:158-160 | after the loop every dispatched item has settled, `completed` counts the successes and the requests follow the dispatch order |
| Home.HomePage.HandleBatchRemove | client/src/pages/home.tsx:173-175 | the queue becomes the filter of the old queue by the id, and the page invariant is kept |
| Home.HomePage.HandleBatchDownload | client/src/pages/home.tsx:177-206 | a download exists exactly when an item with the id is completed; it carries that item's blob and the name "processed-" + its original file name |
| Home.HomePage.HandleReset | client/src/pages/home.tsx:208-217 | the single-image state is cleared and the queue is untouched |
| Home.HomePage.HandleBatchReset | client/src/pages/home.tsx:219-222 | the queue is empty and the mode is single |
| Home.HomePage.ToggleMode | client/src/pages/home.tsx:224-231 | single becomes batch with nothing else changed; batch becomes single with an empty queue (through the batch reset) |
| Home.OnlyItemWithId | client/src/pages/home.tsx:178 | with distinct ids, the item `find` returns is the only one with that id |
| Home.WithoutMembers | client/src/pages/home.tsx:174 | removal keeps exactly the items with another id |
| Home.PendingMembers | client/src/pages/home.tsx:153 | the dispatched items are exactly the pending ones |
| Home.WithoutKeepsDistinct | client/src/pages/home.tsx:174 | removal keeps the ids distinct |
| Home.WithoutPreservesOrder | client/src/pages/home.tsx:174 | removal distributes over concatenation, so the kept items stay in order |
| Home.WithoutAbsentId | client/src/pages/home.tsx:174 | removing an id no item has leaves the queue as it is |
| Home.WithoutIdempotent | client/src/pages/home.tsx:174 | removing twice is removing once |
| Home.MarkProcessingTouchesOneItem | client/src/pages/home.tsx:108-112 | the first update marks only the item with the id as processing; every other item is unchanged |
| Home.SettleTouchesOneItem | client/src/pages/home.tsx:130-147 | the second update completes or fails the item with the id, whatever the first update did, and changes no other item |
| Home.IdsOfSnoc | client/src/pages/home.tsx:158-160 | one more dispatched item adds its id to the settled ids |
| Home.CountSuccessesSnoc | client/src/pages/home.tsx:162 | one more settled request adds one to the count exactly when it succeeded |
| Home.DispatchStep | client/src/pages/home.tsx:158-160 | settling the next dispatched item advances both the queue and the success count by that item |
| Home.SettleStep | client/src/pages/home.tsx:130-147 | settling one more id extends the set of settled ids |
| Home.PartlySettledIsSettleAll | client/src/pages/home.tsx:153-160 | with distinct ids, settling the ids of the pending items settles exactly the pending items |
| Home.SettleAllWithoutPending | client/src/pages/home.tsx:154 | with nothing pending, a batch run leaves the queue unchanged |
| Home.SettleAllKeepsValid | client/src/pages/home.tsx:130-147 | a batch run keeps ids distinct and every item consistent (a blob exactly when completed, an error exactly when failed) |
| Home.BatchLeavesNothingPending | client/src/pages/home.tsx:152-171 | after a batch run nothing is pending: each formerly pending item is completed or failed, other items are unchanged, and length and ids are kept |
| Home.NoPendingItems | client/src/pages/home.tsx:153 | a queue without pending items dispatches nothing |
| Home.SettleAllIdempotent | client/src/pages/home.tsx:152-171 | a second batch run dispatches nothing and changes nothing |
| Home.CountSuccessesBound | client/src/pages/home.tsx:162-163 | `completed` is at most the number dispatched, and equals it exactly when every request succeeds |
| Home.CountSuccessesZero | client/src/pages/home.tsx:162 | `completed` is zero exactly when every request fails |
| Home.SnocMembers | client/src/pages/home.tsx:162 | the members of a non-empty list are those of its initial part and its last element |
| Home.PendingItemsAppend | client/src/pages/home.tsx:153 | pending items keep queue order, and items appended later are dispatched after the earlier ones |
| Agreement.UploadGatesAgree | server/routes.ts:23-35 | the client and multer use the same whitelist and the same 10 MiB constant. Apart from a file of exactly 10 MiB, a file the client uploads is admitted by multer, and multer refuses exactly what the client reports as a wrong type or too large, plus accepted-type files of exactly 10 MiB |
| Agreement.GatesDisagreeAtLimit | client/src/components/image-upload-zone.tsx:54 | an image of exactly 10 MiB passes the client's check and is refused by multer; one byte less is admitted |
| Agreement.UploadFormatIsSupported | client/src/components/image-upload-zone.tsx:30 | the format recorded for an accepted upload is one the schema's format field accepts |
| Agreement.SerialisedDimension | client/src/components/processing-controls.tsx:56-66 | a present width or height is serialised under its own key |
| Agreement.EmittedOptionsValidate | client/src/components/processing-controls.tsx:56-66 | the emitted options validate on the server exactly when each dimension is empty or positive, and then the server reads back exactly the emitted options |
| Agreement.EmittedOptionsChain | server/routes.ts:97-121 | for accepted form options, the server resizes to the form's dimensions whenever one is filled in, with fit "inside" exactly when the lock is on. It removes the background exactly when the switch is on, and encodes only when a format is selected |
| Agreement.FormatOnlyStillResizes | client/src/components/processing-controls.tsx:56-66 | the form always sends both dimensions: a form still holding W×H where only a format was chosen resizes to W×H (fit "inside") before encoding, also when it is now shown another image |

## Left out

- sharp's pixel work is not modelled: resize geometry, removeAlpha/flatten, the encoders and the size of the written output. The chain is a list of abstract operations, and whether sharp writes the output is a parameter.
- multer's on-disk name (`<timestamp>-<random>-<originalname>`) is not modelled: the stored upload's path is a parameter of `Routes.Storage.Receive`. Also not modelled: `ensureDirectoryExists`, the Error multer's filter raises on a refused type (and the response an Express error handler builds from it), and the `/api/health` route.
- `fs` calls are map updates on the two directories. A failing unlink, in the handler's catch block or in the delayed deletion, is only logged, so it is not modelled.
- The timers are not modelled. The five-minute `setInterval` becomes a call to `Storage.Sweep`, and the 60 s `setTimeout` becomes the returned delay followed by a call to `Storage.DeleteOutput`.
- `Storage.Sweep` leaves out the outer `try` of `cleanupOldFiles`, which only logs.
- Routes.SweepDirectory: when one entry's `stat` or `unlink` throws, the model leaves the rest of that directory in an unspecified state. The result is bounded (nothing unexpired lost, nothing added) but not exact, because readdir's order is not modelled.
- `res.sendFile` is a boolean oracle; the streaming itself is not modelled.
- Routes.Storage.Process: a throw between writing the output and sending it (the input's unlink failing after sharp read it) is not modelled. In the model a successful sharp run is always followed by the send.
- `Promise.allSettled` runs the requests concurrently; the model processes them one after the other with a per-item response oracle. `fetch` and `FormData` are a `Request` value, and a non-ok response is a failed request.
- `JSON.parse` is not modelled. The handler receives its result as a `Json` value, or nothing when parsing throws, so parse errors and numbers that overflow to Infinity are not captured. JSON numbers are exact reals.
- The aspect ratio is exact rational arithmetic, not IEEE division. The KB display via `toFixed` and the rest of the JSX layout are not modelled.
- Controls.ProcessingControls.HandleWidthChange: an input field is `None` (empty) or `Some(n)` (the integer `parseInt` reads), so parseInt's handling of other text and NaN is not modelled. The method requires positive original dimensions, because a zero-height image makes the aspect ratio undefined.
- Controls.ProcessingControls.HandleHeightChange: the same input model and the same requirement of positive original dimensions.
- UploadZone.MetadataOf requires a '/' in the MIME type. It is only reached after the type check, and every accepted type has one.
- Home.HomePage.HandleFileUpload requires a fresh id, and Home.HomePage.HandleMultipleFilesUpload fresh distinct ids: `Date.now()`/`Math.random()` ids are parameters.
- Routes.AdmitsUpload: multer's size limit is enforced by its multipart parser, which is not part of this model; the model follows that parser's rule that a part reaching the limit exactly is refused.
- Routes.Storage.Transform: a sharp run that throws is assumed to leave no output file. A partly written output would stay in `outputs/` until the sweep, because the catch block never unlinks it.
- UploadZone.HandleDrop and Home.HomePage.HandleFileUpload: the model sends every drop to the handler of the current render. In the source, `handleDrop` is memoised with only `disabled` as dependency (client/src/components/image-upload-zone.tsx:79-92), so a drop can reach the `handleFileUpload` of an earlier render. For example, after a switch to batch mode it can take the single-mode branch, and after a switch back it can append to the queue in single mode. That staleness is not modelled.
- The extension computed in `handleBatchDownload` (client/src/pages/home.tsx:186) is never used and is not modelled.
- Object URLs (creation and revocation), toasts, `isDragging` and the `progress` field of `BatchItem` are not modelled. `progress` is kept in the record but is never set or shown.
- The upload zone in this version has no multi-file input, although the page passes a multi-file handler. `Home.HomePage.HandleMultipleFilesUpload` models that handler as written.
- client/src/components/image-preview.tsx is not part of this model. It handles the object-URL lifecycle and the single-image download.
