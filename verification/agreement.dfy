/**
 * How the client and the server fit together: the client's upload gate
 * and multer's, the options the form emits and the schema the server
 * checks them against, and the sharp chain those options lead to.
 */
module Agreement {
  import opened Wrappers
  import opened Web
  import opened Schema
  import Routes
  import UploadZone
  import Controls

  /**
   * The client gate and multer use the same whitelist and the same 10 MiB
   * constant, but the client lets a file of exactly 10 MiB through while
   * multer refuses it. Apart from that one size, a file the client uploads
   * is admitted by multer, and a file multer refuses is one the client
   * reports as a wrong type or too large.
   */
  lemma UploadGatesAgree(file: File, decoded: Option<(nat, nat)>)
    ensures UploadZone.AcceptedFormats == Routes.AllowedMimes
    ensures UploadZone.MaxFileSize == Routes.MaxUploadBytes
    ensures UploadZone.ValidateAndProcess(file, decoded).Uploaded? && file.size != UploadZone.MaxFileSize ==>
      Routes.AdmitsUpload(file.mimeType, file.size)
    ensures !Routes.AdmitsUpload(file.mimeType, file.size) <==>
      || UploadZone.ValidateAndProcess(file, decoded) in {UploadZone.InvalidFileType, UploadZone.FileTooLarge}
      || (file.mimeType in UploadZone.AcceptedFormats && file.size == UploadZone.MaxFileSize)
  {
  }

  /** The boundary: an image of exactly 10 MiB passes the client gate and is then refused by multer. */
  lemma GatesDisagreeAtLimit(name: string, mimeType: string, width: nat, height: nat)
    requires mimeType in UploadZone.AcceptedFormats
    ensures UploadZone.ValidateAndProcess(File(name, mimeType, UploadZone.MaxFileSize), Some((width, height))).Uploaded?
    ensures !Routes.AdmitsUpload(mimeType, UploadZone.MaxFileSize)
    ensures Routes.AdmitsUpload(mimeType, UploadZone.MaxFileSize - 1)
  {
  }

  /** The format recorded for an accepted upload is one the schema's format field accepts. */
  lemma UploadFormatIsSupported(file: File, width: nat, height: nat)
    requires file.mimeType in UploadZone.AcceptedFormats
    ensures FormatNamed(UploadZone.MetadataOf(file, width, height).format).Some?
  {
    UploadZone.MetadataFormatIsSubtype(file, width, height);
  }

  /** A dimension the schema accepts: absent, or a positive integer. */
  predicate DimensionAccepted(d: Option<int>) {
    d.None? || d.value > 0
  }

  lemma SerialisedDimension(p: Plan, key: string)
    requires key == "width" || key == "height"
    requires FieldJson(p, key).Some?
    ensures key in ToJson(p).fields && ToJson(p).fields[key] == FieldJson(p, key).value
  {
    assert key in SchemaKeys;
  }

  /**
   * The options the form emits pass the server's validation exactly when
   * each dimension is empty or positive, and then the server reads back
   * exactly the emitted options.
   */
  lemma EmittedOptionsValidate(f: Option<Format>, w: Option<int>, h: Option<int>, lock: bool, rb: bool)
    ensures var p := Controls.EmittedOptions(f, w, h, lock, rb);
      Validate(ToJson(p)).Some? <==> DimensionAccepted(w) && DimensionAccepted(h)
    ensures var p := Controls.EmittedOptions(f, w, h, lock, rb);
      DimensionAccepted(w) && DimensionAccepted(h) ==> Validate(ToJson(p)) == Some(p)
  {
    var p := Controls.EmittedOptions(f, w, h, lock, rb);
    if DimensionAccepted(w) && DimensionAccepted(h) {
      RoundTrip(p);
    } else if !DimensionAccepted(w) {
      SerialisedDimension(p, "width");
      assert Lookup(ToJson(p).fields, "width", ParsePositiveInt).Invalid?;
      assert HasViolation(ToJson(p).fields);
    } else {
      SerialisedDimension(p, "height");
      assert Lookup(ToJson(p).fields, "height", ParsePositiveInt).Invalid?;
      assert HasViolation(ToJson(p).fields);
    }
  }

  /**
   * For accepted options, the server resizes to the form's dimensions
   * whenever one is filled in, with fit "inside" exactly when the lock is
   * on, removes the background exactly when the switch is on, and encodes
   * only when a format is selected.
   */
  lemma EmittedOptionsChain(f: Option<Format>, w: Option<int>, h: Option<int>, lock: bool, rb: bool)
    requires DimensionAccepted(w) && DimensionAccepted(h)
    ensures Routes.Chain(Controls.EmittedOptions(f, w, h, lock, rb)) ==
      (if w.Some? || h.Some? then [Routes.Resize(w, h, if lock then Routes.Inside else Routes.Fill, false)] else [])
      + (if rb then [Routes.RemoveAlpha, Routes.Flatten(Routes.FlattenBackground)] else [])
      + (if f.Some? then [Routes.Encode(Routes.EncoderFor(f.value), Routes.EncoderQuality)] else [])
  {
  }

  /**
   * The form always sends both dimensions: a form that still holds the
   * W x H it was mounted with, where only a format was chosen, makes the
   * server resize to W x H (fit "inside") before encoding. Since the form
   * keeps its dimensions when it is shown another image, this is also what
   * that other image is resized to.
   */
  lemma FormatOnlyStillResizes(f: Format, width: nat, height: nat)
    requires width > 0 && height > 0
    ensures Routes.Chain(Controls.EmittedOptions(Some(f), Some(width as int), Some(height as int), true, false)) ==
      [Routes.Resize(Some(width as int), Some(height as int), Routes.Inside, false),
       Routes.Encode(Routes.EncoderFor(f), Routes.EncoderQuality)]
  {
    EmittedOptionsChain(Some(f), Some(width as int), Some(height as int), true, false);
  }
}
