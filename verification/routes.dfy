/**
 * The server side (server/routes.ts): the upload gate multer applies, the
 * decisions of the `/api/process` handler (status codes, output file name,
 * the sharp operation chain, which temporary files are deleted on each
 * path) and the periodic sweep of the `uploads/` and `outputs/`
 * directories.
 *
 * sharp itself is not modelled: the handler's chain is a list of abstract
 * operations, and whether sharp manages to write the output is a
 * parameter. A directory is a map from file name to modification time in
 * milliseconds.
 */
module Routes {
  import opened Wrappers
  import opened Schema

  /** The quality every encoder is given; `quality` from the options is never read. */
  const EncoderQuality: int := 90

  /** Files older than this (in milliseconds) are removed by the sweep. */
  const MaxAgeMs: int := 30 * 60 * 1000

  /** How long a delivered output stays on disk (in milliseconds). */
  const OutputRetentionMs: int := 60000

  /** multer's `limits.fileSize`. */
  const MaxUploadBytes: int := 10 * 1024 * 1024

  /** multer's `fileFilter` whitelist. */
  const AllowedMimes: seq<string> := ["image/jpeg", "image/png", "image/webp"]

  /**
   * multer accepts the part: the filter passes it and it stays below the
   * limit. The multipart parser under multer signals the size limit as soon
   * as the bytes received reach `fileSize`, so a part of exactly 10 MiB is
   * refused.
   */
  predicate AdmitsUpload(mimeType: string, size: nat) {
    mimeType in AllowedMimes && size < MaxUploadBytes
  }

  // ---------------------------------------------------------------------
  // The sharp chain
  // ---------------------------------------------------------------------

  datatype Fit = Inside | Fill

  datatype Encoder = JpegEncoder | PngEncoder | WebpEncoder

  datatype Rgba = Rgba(r: int, g: int, b: int, alpha: int)

  /** The `flatten` background: white, alpha 0. */
  const FlattenBackground: Rgba := Rgba(255, 255, 255, 0)

  /** One call in the sharp chain the handler builds. */
  datatype Op =
    | Resize(width: Option<int>, height: Option<int>, fit: Fit, withoutEnlargement: bool)
    | RemoveAlpha
    | Flatten(background: Rgba)
    | Encode(encoder: Encoder, quality: int)

  /** The position an operation kind takes in the chain. */
  function Stage(op: Op): nat {
    match op
    case Resize(_, _, _, _) => 0
    case RemoveAlpha => 1
    case Flatten(_) => 2
    case Encode(_, _) => 3
  }

  function EncoderFor(f: Format): Encoder {
    match f
    case Jpg => JpegEncoder
    case Jpeg => JpegEncoder
    case Png => PngEncoder
    case Webp => WebpEncoder
  }

  /** JavaScript truthiness of an optional number: present and not zero. */
  predicate Truthy(o: Option<int>) {
    o.Some? && o.value != 0
  }

  function ResizeSteps(p: Plan): seq<Op> {
    if Truthy(p.width) || Truthy(p.height) then
      [Resize(p.width, p.height, if p.maintainAspectRatio == Some(true) then Inside else Fill, false)]
    else
      []
  }

  function BackgroundSteps(p: Plan): seq<Op> {
    if p.removeBackground == Some(true) then [RemoveAlpha, Flatten(FlattenBackground)] else []
  }

  function EncodeSteps(p: Plan): seq<Op> {
    if p.format.Some? then [Encode(EncoderFor(p.format.value), EncoderQuality)] else []
  }

  /** The chain the handler builds by reassigning `image` step by step. */
  function Chain(p: Plan): seq<Op> {
    ResizeSteps(p) + BackgroundSteps(p) + EncodeSteps(p)
  }

  /** The stages strictly increase along the chain: resize, then removeAlpha, then flatten, then encode, each at most once. */
  lemma ChainOrdered(p: Plan)
    ensures |Chain(p)| <= 4
    ensures forall i, j :: 0 <= i < j < |Chain(p)| ==> Stage(Chain(p)[i]) < Stage(Chain(p)[j])
  {
  }

  /**
   * For a validated plan: a resize step exists exactly when a width or a
   * height is given, with fit "inside" exactly when maintainAspectRatio is
   * true, and enlargement allowed.
   */
  lemma ResizeRule(p: Plan)
    requires WellFormed(p)
    ensures (exists op :: op in Chain(p) && op.Resize?) <==> p.width.Some? || p.height.Some?
    ensures forall op :: op in Chain(p) && op.Resize? ==>
      && op.width == p.width && op.height == p.height
      && (op.fit == Inside <==> p.maintainAspectRatio == Some(true))
      && !op.withoutEnlargement
  {
    if p.width.Some? || p.height.Some? {
      assert Chain(p)[0] in Chain(p);
    }
  }

  /** Background removal adds removeAlpha then a flatten onto white, after any resize and before any encoder. */
  lemma BackgroundRule(p: Plan)
    ensures RemoveAlpha in Chain(p) <==> p.removeBackground == Some(true)
    ensures Flatten(FlattenBackground) in Chain(p) <==> p.removeBackground == Some(true)
    ensures forall op :: op in Chain(p) && op.Flatten? ==> op.background == FlattenBackground
  {
    if p.removeBackground == Some(true) {
      assert Chain(p)[|ResizeSteps(p)|] == RemoveAlpha;
      assert Chain(p)[|ResizeSteps(p)| + 1] == Flatten(FlattenBackground);
    }
  }

  /** An encoder step exists exactly when a format is given; jpg and jpeg share the jpeg encoder; quality is always 90. */
  lemma EncoderRule(p: Plan)
    ensures (exists op :: op in Chain(p) && op.Encode?) <==> p.format.Some?
    ensures forall op :: op in Chain(p) && op.Encode? ==>
      op.quality == EncoderQuality && op.encoder == EncoderFor(p.format.value)
    ensures EncoderFor(Jpg) == EncoderFor(Jpeg) == JpegEncoder
    ensures EncoderFor(Png) == PngEncoder && EncoderFor(Webp) == WebpEncoder
  {
    if p.format.Some? {
      assert Chain(p)[|Chain(p)| - 1] in Chain(p);
    }
  }

  /** quality, crop, rotation, filters, brightness and contrast never influence the chain. */
  lemma ChainIgnoresUnusedOptions(p: Plan, q: Plan)
    requires p.format == q.format && p.width == q.width && p.height == q.height
    requires p.removeBackground == q.removeBackground && p.maintainAspectRatio == q.maintainAspectRatio
    ensures Chain(p) == Chain(q)
  {
  }

  // ---------------------------------------------------------------------
  // Output file name (Node's posix `path.extname`)
  // ---------------------------------------------------------------------

  /** The index of the last `c` in `s`, or -1. */
  function LastIndexOf(s: string, c: char): (i: int)
    ensures -1 <= i < |s|
    ensures i >= 0 ==> s[i] == c
    ensures forall j :: i < j < |s| ==> s[j] != c
  {
    if |s| == 0 then -1
    else if s[|s| - 1] == c then |s| - 1
    else LastIndexOf(s[..|s| - 1], c)
  }

  /** `s` without its trailing slashes. */
  function StripTrailingSlashes(s: string): (t: string)
    ensures t <= s
    ensures t == [] || t[|t| - 1] != '/'
    ensures forall j :: |t| <= j < |s| ==> s[j] == '/'
  {
    if |s| > 0 && s[|s| - 1] == '/' then StripTrailingSlashes(s[..|s| - 1]) else s
  }

  /** The last path segment, ignoring trailing slashes. */
  function Basename(path: string): (b: string)
    ensures '/' !in b
  {
    var t := StripTrailingSlashes(path);
    t[LastIndexOf(t, '/') + 1..]
  }

  /**
   * `path.extname`: from the last dot of the last segment to its end; empty
   * when the segment has no dot, starts with its only dot, or is "..".
   */
  function ExtName(path: string): (e: string)
    ensures e == [] || (e[0] == '.' && '.' !in e[1..] && '/' !in e)
  {
    var b := Basename(path);
    var d := LastIndexOf(b, '.');
    if d <= 0 || b == ".." then [] else b[d..]
  }

  /** `options.format || path.extname(originalname).slice(1) || "png"`. */
  function OutputExtension(format: Option<Format>, originalName: string): (ext: string)
    ensures ext != [] && '.' !in ext && '/' !in ext
  {
    if format.Some? then FormatNameIsPlain(format.value); format.value.Name()
    else if |ExtName(originalName)| > 1 then ExtName(originalName)[1..]
    else "png"
  }

  lemma FormatNameIsPlain(f: Format)
    ensures f.Name() != [] && '.' !in f.Name() && '/' !in f.Name()
  {
    match f
    case Jpg => assert f.Name() == "jpg";
    case Jpeg => assert f.Name() == "jpeg";
    case Png => assert f.Name() == "png";
    case Webp => assert f.Name() == "webp";
  }

  /** `processed-<token>.<ext>`, where the token stands for the timestamp and random suffix. */
  function OutputFilename(token: string, ext: string): string {
    "processed-" + token + "." + ext
  }

  lemma LastIndexOfAbsent(s: string, c: char)
    requires c !in s
    ensures LastIndexOf(s, c) == -1
  {
  }

  lemma {:induction false} LastIndexOfSplit(a: string, c: char, b: string)
    requires c !in b
    ensures LastIndexOf(a + [c] + b, c) == |a|
    decreases |b|
  {
    var s := a + [c] + b;
    if b != [] {
      assert s[..|s| - 1] == a + [c] + b[..|b| - 1];
      assert s[|s| - 1] == b[|b| - 1];
      LastIndexOfSplit(a, c, b[..|b| - 1]);
    }
  }

  /**
   * The output name always starts with "processed-", and the extension
   * Node reads back from it is the one the handler chose, so sharp infers
   * the format from the same extension.
   */
  lemma OutputNameCarriesExtension(token: string, format: Option<Format>, originalName: string)
    requires '/' !in token
    ensures var name := OutputFilename(token, OutputExtension(format, originalName));
      && name[..10] == "processed-"
      && ExtName(name) == "." + OutputExtension(format, originalName)
  {
    OutputNameExtension(token, OutputExtension(format, originalName));
  }

  lemma OutputNameExtension(token: string, ext: string)
    requires '/' !in token && ext != [] && '.' !in ext && '/' !in ext
    ensures OutputFilename(token, ext)[..10] == "processed-"
    ensures ExtName(OutputFilename(token, ext)) == "." + ext
  {
    var lead := "processed-";
    var prefix := lead + token;
    var name := prefix + ['.'] + ext;
    assert OutputFilename(token, ext) == name;
    assert |lead| == 10 && name[..10] == lead;
    PrefixIsPlainStem(lead, token);
    ExtNameOfSplit(prefix, ext);
  }

  lemma PrefixIsPlainStem(lead: string, token: string)
    requires lead == "processed-" && '/' !in token
    ensures '/' !in lead + token && lead + token != [] && lead + token != "."
  {
    assert '/' !in lead;
    assert (lead + token)[1] == 'r';
  }

  /** A name without slashes is its own last segment. */
  lemma BasenameOfPlainName(name: string)
    requires '/' !in name
    ensures Basename(name) == name
  {
    if name != [] {
      assert name[|name| - 1] in name;
    }
    assert StripTrailingSlashes(name) == name;
    LastIndexOfAbsent(name, '/');
  }

  /** A format given in the options wins over the original name. */
  lemma ExtensionFromFormat(f: Format, originalName: string)
    ensures OutputExtension(Some(f), originalName) == f.Name()
    ensures OutputExtension(Some(Jpeg), "cat.png") == "jpeg"
  {
  }

  /** Without a format, the extension of the original name is kept. */
  lemma ExtensionFromOriginalName(stem: string, ext: string)
    requires '/' !in stem && '/' !in ext && '.' !in ext
    requires stem != [] && stem != "." && ext != []
    ensures OutputExtension(None, stem + "." + ext) == ext
  {
    ExtNameOfSplit(stem, ext);
  }

  /** Without a format, a name with no dot, or whose only dot leads it, gives png. */
  lemma ExtensionFallsBackToPng(name: string)
    requires '/' !in name && '.' !in name
    ensures OutputExtension(None, name) == "png"
    ensures OutputExtension(None, "." + name) == "png"
  {
    BasenameOfPlainName(name);
    LastIndexOfAbsent(name, '.');
    LeadingDotIsNoExtension(name);
  }

  lemma LeadingDotIsNoExtension(name: string)
    requires '/' !in name && '.' !in name
    ensures ExtName("." + name) == []
  {
    var dotted := [] + ['.'] + name;
    assert dotted == "." + name;
    assert '/' !in dotted;
    BasenameOfPlainName(dotted);
    LastIndexOfSplit([], '.', name);
  }

  /** A plain name with a non-empty stem has the extension after its last dot. */
  lemma ExtNameOfSplit(stem: string, ext: string)
    requires '/' !in stem && '/' !in ext && '.' !in ext
    requires stem != [] && stem != "."
    ensures ExtName(stem + ['.'] + ext) == ['.'] + ext
  {
    var name := stem + ['.'] + ext;
    assert '/' !in name;
    BasenameOfPlainName(name);
    LastIndexOfSplit(stem, '.', ext);
    assert name[|stem|..] == ['.'] + ext;
    assert name != ".." by {
      if |name| == 2 {
        assert name[0] == stem[0];
        assert stem == [stem[0]];
      }
    }
  }

  // ---------------------------------------------------------------------
  // The periodic sweep
  // ---------------------------------------------------------------------

  /** `now - mtime > maxAge`: strictly older than 30 minutes. */
  predicate Expired(now: int, mtime: int) {
    now - mtime > MaxAgeMs
  }

  /** The entries of a directory the sweep leaves when nothing goes wrong. */
  function Unexpired(dir: map<string, int>, now: int): map<string, int> {
    map f | f in dir && !Expired(now, dir[f]) :: dir[f]
  }

  /** What can go wrong while one directory is swept. */
  datatype Fault =
    | NoFault
    | ListingFails              // readdir throws: nothing in this directory is touched
    | EntryFails(name: string)  // stat or unlink throws on this entry: the rest of this directory is skipped

  /**
   * What a sweep of one directory may leave: never an unexpired file is
   * lost or changed, nothing is added, and without a fault exactly the
   * expired files are gone.
   */
  predicate SweptDirectory(before: map<string, int>, after: map<string, int>, now: int, fault: Fault) {
    && (forall f :: f in after ==> f in before && after[f] == before[f])
    && (forall f :: f in before && !Expired(now, before[f]) ==> f in after)
    && (fault.NoFault? ==> after == Unexpired(before, now))
    && (fault.EntryFails? && fault.name !in before ==> after == Unexpired(before, now))
    && (fault.ListingFails? ==> after == before)
  }

  /** The inner loop of `cleanupOldFiles` over one directory, in readdir's (unspecified) order. */
  method SweepDirectory(dir: map<string, int>, now: int, fault: Fault) returns (kept: map<string, int>)
    ensures SweptDirectory(dir, kept, now, fault)
  {
    kept := dir;
    if fault.ListingFails? {
      return;
    }
    var todo := dir.Keys;
    while todo != {}
      invariant todo <= dir.Keys
      invariant kept == map f | f in dir && (f in todo || !Expired(now, dir[f])) :: dir[f]
      invariant fault.EntryFails? ==> fault.name !in dir || fault.name in todo
      decreases todo
    {
      var f :| f in todo;
      if fault == EntryFails(f) {
        return;
      }
      if Expired(now, dir[f]) {
        kept := kept - {f};
      }
      todo := todo - {f};
    }
  }

  /**
   * An output whose send failed has no deletion scheduled; it stays in
   * `outputs/` until a fault-free sweep more than 30 minutes after it was
   * written removes it.
   */
  lemma UnsentOutputIsReclaimed(uploads0: map<string, int>, outputs0: map<string, int>,
                                uploads: map<string, int>, outputs: map<string, int>,
                                upload: StoredUpload, plan: Plan, token: string, written: int,
                                reply: Reply, deleteAfter: Option<int>, now: int, swept: map<string, int>)
    requires upload.path in uploads0
    requires Transformed(uploads0, outputs0, uploads, outputs, upload, plan, token, written, true, false, reply, deleteAfter)
    requires SweptDirectory(outputs, swept, now, NoFault)
    ensures reply.SendFile? && deleteAfter.None? && reply.name in outputs
    ensures Expired(now, written) ==> reply.name !in swept
    ensures !Expired(now, written) ==> reply.name in swept
  {
  }

  /** Sweeping twice at the same time changes nothing more. */
  lemma SweepIdempotent(dir: map<string, int>, now: int)
    ensures Unexpired(Unexpired(dir, now), now) == Unexpired(dir, now)
  {
  }

  // ---------------------------------------------------------------------
  // The /api/process handler
  // ---------------------------------------------------------------------

  /** The part multer stored: its name in `uploads/` and the client's file name. */
  datatype StoredUpload = StoredUpload(path: string, originalName: string)

  datatype Reply =
    | ErrorJson(status: int, error: string)
    | SendFile(name: string, chain: seq<Op>)

  /**
   * The effect of the handler once the options validated: the upload is
   * always unlinked; when the input exists and sharp succeeds, the output
   * is written under its new name and sent, and deleted 60 s later if the
   * send succeeded; otherwise 500 is answered and no output is kept.
   */
  predicate Transformed(uploads0: map<string, int>, outputs0: map<string, int>,
                        uploads: map<string, int>, outputs: map<string, int>,
                        upload: StoredUpload, plan: Plan, token: string, now: int, encodes: bool, sent: bool,
                        reply: Reply, deleteAfter: Option<int>)
  {
    var name := OutputFilename(token, OutputExtension(plan.format, upload.originalName));
    && uploads == uploads0 - {upload.path}
    && (upload.path in uploads0 && encodes ==>
          reply == SendFile(name, Chain(plan)) && outputs == outputs0[name := now]
          && deleteAfter == (if sent then Some(OutputRetentionMs) else None))
    && (!(upload.path in uploads0 && encodes) ==>
          reply == ErrorJson(500, "Image processing failed") && outputs == outputs0 && deleteAfter.None?)
  }

  /** The two managed directories. */
  class Storage {
    var uploads: map<string, int>
    var outputs: map<string, int>

    /**
     * `registerRoutes`: the directories are created when missing but never
     * cleared, so the server starts from whatever they already hold.
     */
    constructor (uploads0: map<string, int>, outputs0: map<string, int>)
      ensures uploads == uploads0 && outputs == outputs0
    {
      uploads := uploads0;
      outputs := outputs0;
    }

    /** multer's disk storage writes an admitted part into `uploads/` at time `now`. */
    method Receive(path: string, now: int)
      modifies this
      ensures uploads == old(uploads)[path := now] && outputs == old(outputs)
    {
      uploads := uploads[path := now];
    }

    /**
     * `cleanupOldFiles`: uploads first, then outputs; a fault in one
     * directory does not keep the other from being swept.
     */
    method Sweep(now: int, uploadsFault: Fault, outputsFault: Fault)
      modifies this
      ensures SweptDirectory(old(uploads), uploads, now, uploadsFault)
      ensures SweptDirectory(old(outputs), outputs, now, outputsFault)
    {
      uploads := SweepDirectory(uploads, now, uploadsFault);
      outputs := SweepDirectory(outputs, now, outputsFault);
    }

    /**
     * The `/api/process` handler. `options` is the result of `JSON.parse`
     * on the options field (`None` when it is missing or does not parse),
     * `token` the timestamp and random suffix of the output name, `encodes`
     * whether sharp succeeds in writing the output and `sent` whether
     * `res.sendFile` reports no error. `deleteAfter` is the delay after
     * which the output is unlinked.
     */
    method Process(file: Option<StoredUpload>, options: Option<Json>, token: string, now: int, encodes: bool, sent: bool)
      returns (reply: Reply, deleteAfter: Option<int>)
      modifies this
      ensures file.None? ==>
        reply == ErrorJson(400, "No image file uploaded") && deleteAfter.None?
        && uploads == old(uploads) && outputs == old(outputs)
      ensures file.Some? && (options.None? || Validate(options.value).None?) ==>
        reply == ErrorJson(400, "Invalid processing options") && deleteAfter.None?
        && uploads == old(uploads) && outputs == old(outputs)
      ensures file.Some? && options.Some? && Validate(options.value).Some? ==>
        Transformed(old(uploads), old(outputs), uploads, outputs, file.value, Validate(options.value).value,
                    token, now, encodes, sent, reply, deleteAfter)
    {
      if file.None? {
        return ErrorJson(400, "No image file uploaded"), None;
      }
      if options.None? {
        return ErrorJson(400, "Invalid processing options"), None;
      }
      var validated := Validate(options.value);
      if validated.None? {
        return ErrorJson(400, "Invalid processing options"), None;
      }
      reply, deleteAfter := Transform(file.value, validated.value, token, now, encodes, sent);
    }

    /**
     * The `try` block after validation: the output is written and the
     * input unlinked, or, when sharp throws, the input is unlinked and 500
     * is answered.
     */
    method Transform(upload: StoredUpload, plan: Plan, token: string, now: int, encodes: bool, sent: bool)
      returns (reply: Reply, deleteAfter: Option<int>)
      modifies this
      ensures Transformed(old(uploads), old(outputs), uploads, outputs, upload, plan, token, now, encodes, sent, reply, deleteAfter)
    {
      var name := OutputFilename(token, OutputExtension(plan.format, upload.originalName));
      var chain := Chain(plan);
      deleteAfter := None;
      if upload.path in uploads && encodes {
        outputs := outputs[name := now];
        uploads := uploads - {upload.path};
        reply := SendFile(name, chain);
        if sent {
          deleteAfter := Some(OutputRetentionMs);
        }
      } else {
        uploads := uploads - {upload.path};
        reply := ErrorJson(500, "Image processing failed");
      }
    }

    /** The `setTimeout` callback: unlink the delivered output (an unlink error is only logged). */
    method DeleteOutput(name: string)
      modifies this
      ensures outputs == old(outputs) - {name} && uploads == old(uploads)
    {
      outputs := outputs - {name};
    }
  }

  /**
   * Files left by an earlier server process are not cleared at start-up;
   * the first fault-free sweep removes exactly the expired ones.
   */
  method RestartLeftoversAreSwept(uploads0: map<string, int>, outputs0: map<string, int>, now: int)
    returns (s: Storage)
    ensures s.uploads == Unexpired(uploads0, now) && s.outputs == Unexpired(outputs0, now)
    ensures forall f :: f in uploads0 && !Expired(now, uploads0[f]) ==> f in s.uploads
  {
    s := new Storage(uploads0, outputs0);
    s.Sweep(now, NoFault, NoFault);
  }

  /**
   * A request whose options are rejected leaves its upload in `uploads/`;
   * the first fault-free sweep more than 30 minutes later removes it.
   */
  method RejectedUploadIsReclaimed(s: Storage, upload: StoredUpload, options: Json, token: string,
                                   received: int, now: int)
    returns (reply: Reply, leftBehind: bool)
    requires Validate(options).None?
    requires Expired(now, received)
    modifies s
    ensures reply == ErrorJson(400, "Invalid processing options")
    ensures leftBehind
    ensures upload.path !in s.uploads
  {
    s.Receive(upload.path, received);
    var deleteAfter;
    reply, deleteAfter := s.Process(Some(upload), Some(options), token, received, true, true);
    leftBehind := upload.path in s.uploads;
    s.Sweep(now, NoFault, NoFault);
  }

  /**
   * A received upload with valid options that sharp encodes is answered with
   * the output file and the chain of its plan; the upload is gone and the
   * output is in `outputs/`, scheduled for deletion after 60 s.
   */
  method AcceptedUploadIsProcessed(s: Storage, upload: StoredUpload, options: Json, token: string, now: int)
    returns (reply: Reply, deleteAfter: Option<int>)
    requires Validate(options).Some?
    modifies s
    ensures reply == SendFile(OutputFilename(token, OutputExtension(Validate(options).value.format, upload.originalName)),
                              Chain(Validate(options).value))
    ensures deleteAfter == Some(OutputRetentionMs)
    ensures upload.path !in s.uploads && reply.name in s.outputs && s.outputs[reply.name] == now
  {
    s.Receive(upload.path, now);
    reply, deleteAfter := s.Process(Some(upload), Some(options), token, now, true, true);
  }
}
