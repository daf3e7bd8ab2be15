/**
 * The client upload gate (client/src/components/image-upload-zone.tsx):
 * the MIME whitelist, the size limit, the order of the two checks, the
 * metadata derived from an accepted file, and which file of a drop or a
 * selection is considered.
 *
 * Loading the image in the browser is an oracle: `Some((width, height))`
 * when the image decodes, `None` when `onerror` fires.
 */
module UploadZone {
  import opened Wrappers
  import opened Web
  import opened Schema

  const AcceptedFormats: seq<string> := ["image/jpeg", "image/png", "image/webp"]

  const MaxFileSize: nat := 10 * 1024 * 1024

  /** What `validateAndProcessFile` ends in: a toast naming the rejection, or a call to `onFileUpload`. */
  datatype Outcome =
    | InvalidFileType
    | FileTooLarge
    | UploadFailed
    | Uploaded(file: File, metadata: ImageMetadata)

  /** The index of the first `c` in `s`, or -1. */
  function IndexOf(s: string, c: char): (i: int)
    ensures -1 <= i < |s|
    ensures i >= 0 ==> s[i] == c
    ensures forall j :: 0 <= j < |s| && (i < 0 || j < i) ==> s[j] != c
  {
    if |s| == 0 then -1
    else if s[0] == c then 0
    else var k := IndexOf(s[1..], c); if k < 0 then -1 else k + 1
  }

  /** `s.split("/")[1]`: the text between the first slash and the next one (or the end). */
  function SecondSegment(s: string): (seg: string)
    requires '/' in s
    ensures '/' !in seg
  {
    var rest := s[IndexOf(s, '/') + 1..];
    var j := IndexOf(rest, '/');
    if j < 0 then rest else rest[..j]
  }

  /** The record `getImageMetadata` resolves with once the image has loaded. */
  function MetadataOf(file: File, width: nat, height: nat): (m: ImageMetadata)
    requires '/' in file.mimeType
    ensures m.filename == file.name && m.size == file.size
    ensures m.width == width && m.height == height
    ensures '/' !in m.format
  {
    ImageMetadata(file.name, width, height, SecondSegment(file.mimeType), file.size)
  }

  /** `validateAndProcessFile`: the type check first, then the size check, then the image load. */
  function ValidateAndProcess(file: File, decoded: Option<(nat, nat)>): (r: Outcome)
    ensures r == InvalidFileType <==> file.mimeType !in AcceptedFormats
    ensures r == FileTooLarge <==> file.mimeType in AcceptedFormats && file.size > MaxFileSize
    ensures r == UploadFailed <==> file.mimeType in AcceptedFormats && file.size <= MaxFileSize && decoded.None?
    ensures r.Uploaded? <==> file.mimeType in AcceptedFormats && file.size <= MaxFileSize && decoded.Some?
    ensures r.Uploaded? ==> r.file == file && r.metadata.filename == file.name && r.metadata.size == file.size
    ensures r.Uploaded? ==> && '/' in file.mimeType && decoded.Some?
                            && r.metadata == MetadataOf(file, decoded.value.0, decoded.value.1)
                            && r.metadata.width == decoded.value.0 && r.metadata.height == decoded.value.1
                            && r.metadata.format == SecondSegment(file.mimeType)
  {
    if file.mimeType !in AcceptedFormats then InvalidFileType
    else if file.size > MaxFileSize then FileTooLarge
    else if decoded.None? then UploadFailed
    else Uploaded(file, MetadataOf(file, decoded.value.0, decoded.value.1))
  }

  /** A file of exactly 10 MiB passes the size check; one byte more does not. */
  lemma SizeLimitInclusive(name: string, mimeType: string, decoded: Option<(nat, nat)>)
    requires mimeType in AcceptedFormats
    ensures ValidateAndProcess(File(name, mimeType, MaxFileSize), decoded) != FileTooLarge
    ensures ValidateAndProcess(File(name, mimeType, MaxFileSize + 1), decoded) == FileTooLarge
  {
  }

  /** A wrong type is reported as such even when the file is also too large. */
  lemma TypeCheckedBeforeSize(file: File, decoded: Option<(nat, nat)>)
    requires file.mimeType !in AcceptedFormats && file.size > MaxFileSize
    ensures ValidateAndProcess(file, decoded) == InvalidFileType
  {
  }

  lemma SecondSegmentOfType(sub: string)
    requires '/' !in sub
    ensures SecondSegment("image/" + sub) == sub
  {
    var s := "image/" + sub;
    assert s[5] == '/';
    assert forall j :: 0 <= j < 5 ==> s[j] != '/';
    assert s[6..] == sub;
  }

  /** The metadata format of an accepted file is its MIME subtype: "jpeg", "png" or "webp". */
  lemma MetadataFormatIsSubtype(file: File, width: nat, height: nat)
    requires file.mimeType in AcceptedFormats
    ensures MetadataOf(file, width, height).format == file.mimeType[6..]
    ensures MetadataOf(file, width, height).format in ["jpeg", "png", "webp"]
  {
    var sub := AcceptedSubtype(file.mimeType);
    SecondSegmentOfType(sub);
  }

  /** Every accepted type is "image/" followed by a plain subtype. */
  lemma AcceptedSubtype(mimeType: string) returns (sub: string)
    requires mimeType in AcceptedFormats
    ensures mimeType == "image/" + sub && sub == mimeType[6..] && '/' !in sub
    ensures sub in ["jpeg", "png", "webp"]
  {
    if mimeType == "image/jpeg" {
      sub := "jpeg";
    } else if mimeType == "image/png" {
      sub := "png";
    } else {
      sub := "webp";
    }
    assert "image/" + sub == mimeType;
  }

  /** `handleDrop`: nothing while disabled or for an empty drop; otherwise only the first file is checked. */
  function HandleDrop(disabled: bool, files: seq<File>, decode: File -> Option<(nat, nat)>): (r: Option<Outcome>)
    ensures r.Some? <==> !disabled && files != []
  {
    if disabled || files == [] then None else Some(ValidateAndProcess(files[0], decode(files[0])))
  }

  /** `handleFileSelect`: only the first selected file is checked. */
  function HandleFileSelect(files: seq<File>, decode: File -> Option<(nat, nat)>): (r: Option<Outcome>)
    ensures r.Some? <==> files != []
  {
    if files == [] then None else Some(ValidateAndProcess(files[0], decode(files[0])))
  }

  /** Files after the first never influence the outcome, and only a first file that passes both checks and loads is uploaded. */
  lemma OnlyFirstFileCounts(disabled: bool, f: File, rest: seq<File>, decode: File -> Option<(nat, nat)>)
    ensures HandleDrop(disabled, [f] + rest, decode) == HandleDrop(disabled, [f], decode)
    ensures HandleFileSelect([f] + rest, decode) == HandleFileSelect([f], decode)
    ensures HandleFileSelect([f] + rest, decode) == Some(ValidateAndProcess(f, decode(f)))
    ensures (exists u :: HandleDrop(disabled, [f] + rest, decode) == Some(u) && u.Uploaded?) <==>
      !disabled && f.mimeType in AcceptedFormats && f.size <= MaxFileSize && decode(f).Some?
  {
    var u := ValidateAndProcess(f, decode(f));
    if !disabled && u.Uploaded? {
      assert HandleDrop(disabled, [f] + rest, decode) == Some(u);
    }
  }
}
