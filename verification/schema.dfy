/**
 * The options schema shared by client and server (shared/schema.ts): the
 * closed list of output formats, the validation of an already-parsed JSON
 * payload into a processing plan, the serialisation of a plan back into
 * JSON, and the image metadata record.
 *
 * JSON numbers are modelled as exact reals; "integer" means a real whose
 * floor is itself.
 */
module Schema {
  import opened Wrappers

  /** A value produced by `JSON.parse`; an object maps each key to one value. */
  datatype Json =
    | JNull
    | JBool(b: bool)
    | JNumber(n: real)
    | JString(s: string)
    | JArray(elems: seq<Json>)
    | JObject(fields: map<string, Json>)

  /** The supported output formats, `supportedFormats`. */
  datatype Format = Jpg | Jpeg | Png | Webp {
    /** The enum literal as it appears in a payload and in a file extension. */
    function Name(): string {
      match this
      case Jpg => "jpg"
      case Jpeg => "jpeg"
      case Png => "png"
      case Webp => "webp"
    }
  }

  const SupportedFormatNames: set<string> := {"jpg", "jpeg", "png", "webp"}

  /** The format a payload string names, if it names one exactly. */
  function FormatNamed(s: string): (r: Option<Format>)
    ensures r.Some? <==> s in SupportedFormatNames
    ensures r.Some? ==> r.value.Name() == s
  {
    if s == "jpg" then Some(Jpg)
    else if s == "jpeg" then Some(Jpeg)
    else if s == "png" then Some(Png)
    else if s == "webp" then Some(Webp)
    else None
  }

  lemma FormatNameRoundTrip(f: Format)
    ensures f.Name() in SupportedFormatNames
    ensures FormatNamed(f.Name()) == Some(f)
  {
  }

  /** The `crop` object: all four fields are required. */
  datatype Crop = Crop(x: int, y: int, width: int, height: int)

  /** The `filters` object: every field is optional. */
  datatype Filters = Filters(grayscale: Option<bool>, sepia: Option<bool>, blur: Option<real>, sharpen: Option<real>)

  /** `ImageProcessingOptions`: the typed result of a successful validation. */
  datatype Plan = Plan(
    format: Option<Format>,
    width: Option<int>,
    height: Option<int>,
    removeBackground: Option<bool>,
    maintainAspectRatio: Option<bool>,
    quality: Option<int>,
    crop: Option<Crop>,
    rotation: Option<real>,
    filters: Option<Filters>,
    brightness: Option<real>,
    contrast: Option<real>)

  const EmptyPlan: Plan := Plan(None, None, None, None, None, None, None, None, None, None, None)

  /** `ImageMetadata`: what the client learns about an uploaded image. */
  datatype ImageMetadata = ImageMetadata(filename: string, width: nat, height: nat, format: string, size: nat)

  /** The top-level keys the schema knows; every other key is stripped. */
  const SchemaKeys: set<string> := {
    "format", "width", "height", "removeBackground", "maintainAspectRatio", "quality",
    "crop", "rotation", "filters", "brightness", "contrast"
  }

  const CropKeys: set<string> := {"x", "y", "width", "height"}

  const FilterKeys: set<string> := {"grayscale", "sepia", "blur", "sharpen"}

  // ---------------------------------------------------------------------
  // Field checks, one per zod type used by the schema
  // ---------------------------------------------------------------------

  /** `z.number().int()`: the number has no fractional part. */
  predicate IsInteger(n: real) {
    n.Floor as real == n
  }

  function ParseFormat(j: Json): Option<Format> {
    if j.JString? then FormatNamed(j.s) else None
  }

  function ParseBool(j: Json): Option<bool> {
    if j.JBool? then Some(j.b) else None
  }

  /** `z.number()`: any number (used by `rotation`). */
  function ParseNumber(j: Json): Option<real> {
    if j.JNumber? then Some(j.n) else None
  }

  /** `z.number().int().positive()`. */
  function ParsePositiveInt(j: Json): Option<int> {
    if j.JNumber? && IsInteger(j.n) && j.n > 0.0 then Some(j.n.Floor) else None
  }

  /** `z.number().int().min(0)`. */
  function ParseNonNegativeInt(j: Json): Option<int> {
    if j.JNumber? && IsInteger(j.n) && j.n >= 0.0 then Some(j.n.Floor) else None
  }

  /** `z.number().int().min(1).max(100)` (quality). */
  function ParseQuality(j: Json): Option<int> {
    if j.JNumber? && IsInteger(j.n) && 1.0 <= j.n <= 100.0 then Some(j.n.Floor) else None
  }

  /** `z.number().min(lo).max(hi)`: inclusive bounds, fractions allowed. */
  function ParseBounded(j: Json, lo: real, hi: real): Option<real> {
    if j.JNumber? && lo <= j.n <= hi then Some(j.n) else None
  }

  function ParseBlur(j: Json): Option<real> { ParseBounded(j, 0.0, 100.0) }

  function ParseSharpen(j: Json): Option<real> { ParseBounded(j, 0.0, 10.0) }

  /** Brightness and contrast, both in [0, 2]. */
  function ParseLevel(j: Json): Option<real> { ParseBounded(j, 0.0, 2.0) }

  /** The outcome of looking up one optional key. */
  datatype Field<T> = Absent | Present(value: T) | Invalid {
    function ToOption(): Option<T>
      requires !Invalid?
    {
      if Present? then Some(value) else None
    }
  }

  /** `.optional()`: a missing key is fine, a present key must pass `parse`. */
  function Lookup<T>(m: map<string, Json>, key: string, parse: Json -> Option<T>): Field<T> {
    if key !in m then Absent
    else if parse(m[key]).Some? then Present(parse(m[key]).value)
    else Invalid
  }

  function ParseCrop(j: Json): Option<Crop> {
    if !j.JObject? then None
    else
      var x := Lookup(j.fields, "x", ParseNonNegativeInt);
      var y := Lookup(j.fields, "y", ParseNonNegativeInt);
      var w := Lookup(j.fields, "width", ParsePositiveInt);
      var h := Lookup(j.fields, "height", ParsePositiveInt);
      if x.Present? && y.Present? && w.Present? && h.Present? then
        Some(Crop(x.value, y.value, w.value, h.value))
      else
        None
  }

  function ParseFilters(j: Json): Option<Filters> {
    if !j.JObject? then None
    else
      var g := Lookup(j.fields, "grayscale", ParseBool);
      var s := Lookup(j.fields, "sepia", ParseBool);
      var b := Lookup(j.fields, "blur", ParseBlur);
      var sh := Lookup(j.fields, "sharpen", ParseSharpen);
      if g.Invalid? || s.Invalid? || b.Invalid? || sh.Invalid? then None
      else Some(Filters(g.ToOption(), s.ToOption(), b.ToOption(), sh.ToOption()))
  }

  /** Whether the schema accepts value `v` under top-level key `key`; unknown keys are always accepted. */
  predicate Accepts(key: string, v: Json) {
    if key == "format" then ParseFormat(v).Some?
    else if key == "width" || key == "height" then ParsePositiveInt(v).Some?
    else if key == "removeBackground" || key == "maintainAspectRatio" then ParseBool(v).Some?
    else if key == "quality" then ParseQuality(v).Some?
    else if key == "crop" then ParseCrop(v).Some?
    else if key == "rotation" then ParseNumber(v).Some?
    else if key == "filters" then ParseFilters(v).Some?
    else if key == "brightness" || key == "contrast" then ParseLevel(v).Some?
    else true
  }

  // ---------------------------------------------------------------------
  // Well-formed plans and validation
  // ---------------------------------------------------------------------

  predicate CropWellFormed(c: Crop) {
    c.x >= 0 && c.y >= 0 && c.width > 0 && c.height > 0
  }

  predicate FiltersWellFormed(f: Filters) {
    && (f.blur.None? || 0.0 <= f.blur.value <= 100.0)
    && (f.sharpen.None? || 0.0 <= f.sharpen.value <= 10.0)
  }

  /** Every bound of the schema holds of the plan. */
  predicate WellFormed(p: Plan) {
    && (p.width.None? || p.width.value > 0)
    && (p.height.None? || p.height.value > 0)
    && (p.quality.None? || 1 <= p.quality.value <= 100)
    && (p.crop.None? || CropWellFormed(p.crop.value))
    && (p.filters.None? || FiltersWellFormed(p.filters.value))
    && (p.brightness.None? || 0.0 <= p.brightness.value <= 2.0)
    && (p.contrast.None? || 0.0 <= p.contrast.value <= 2.0)
  }

  /** Some schema key of `m` holds a value its field type refuses. */
  predicate HasViolation(m: map<string, Json>) {
    || Lookup(m, "format", ParseFormat).Invalid?
    || Lookup(m, "width", ParsePositiveInt).Invalid?
    || Lookup(m, "height", ParsePositiveInt).Invalid?
    || Lookup(m, "removeBackground", ParseBool).Invalid?
    || Lookup(m, "maintainAspectRatio", ParseBool).Invalid?
    || Lookup(m, "quality", ParseQuality).Invalid?
    || Lookup(m, "crop", ParseCrop).Invalid?
    || Lookup(m, "rotation", ParseNumber).Invalid?
    || Lookup(m, "filters", ParseFilters).Invalid?
    || Lookup(m, "brightness", ParseLevel).Invalid?
    || Lookup(m, "contrast", ParseLevel).Invalid?
  }

  /** The typed plan of an object without violations; keys outside the schema are not copied. */
  function Assemble(m: map<string, Json>): Plan
    requires !HasViolation(m)
  {
    Plan(
      Lookup(m, "format", ParseFormat).ToOption(),
      Lookup(m, "width", ParsePositiveInt).ToOption(),
      Lookup(m, "height", ParsePositiveInt).ToOption(),
      Lookup(m, "removeBackground", ParseBool).ToOption(),
      Lookup(m, "maintainAspectRatio", ParseBool).ToOption(),
      Lookup(m, "quality", ParseQuality).ToOption(),
      Lookup(m, "crop", ParseCrop).ToOption(),
      Lookup(m, "rotation", ParseNumber).ToOption(),
      Lookup(m, "filters", ParseFilters).ToOption(),
      Lookup(m, "brightness", ParseLevel).ToOption(),
      Lookup(m, "contrast", ParseLevel).ToOption())
  }

  /**
   * `imageProcessingOptionsSchema.parse`: `None` stands for the thrown
   * `ZodError`. The payload must be an object and one rejected field
   * rejects the whole payload.
   */
  function Validate(raw: Json): (r: Option<Plan>)
    ensures r.Some? ==> WellFormed(r.value)
  {
    if !raw.JObject? || HasViolation(raw.fields) then None
    else AssembledWellFormed(raw.fields); Some(Assemble(raw.fields))
  }

  /** What `Assemble` copies satisfies every bound of the schema. */
  lemma AssembledWellFormed(m: map<string, Json>)
    requires !HasViolation(m)
    ensures WellFormed(Assemble(m))
  {
    AssembledScalarsInRange(m);
    AssembledCompoundInRange(m);
  }

  lemma AssembledScalarsInRange(m: map<string, Json>)
    requires !HasViolation(m)
    ensures var p := Assemble(m);
      && (p.width.None? || p.width.value > 0)
      && (p.height.None? || p.height.value > 0)
      && (p.quality.None? || 1 <= p.quality.value <= 100)
      && (p.brightness.None? || 0.0 <= p.brightness.value <= 2.0)
      && (p.contrast.None? || 0.0 <= p.contrast.value <= 2.0)
  {
  }

  lemma AssembledCompoundInRange(m: map<string, Json>)
    requires !HasViolation(m)
    ensures var p := Assemble(m);
      && (p.crop.None? || CropWellFormed(p.crop.value))
      && (p.filters.None? || FiltersWellFormed(p.filters.value))
  {
  }

  // ---------------------------------------------------------------------
  // Serialisation (`JSON.stringify`, which drops undefined fields)
  // ---------------------------------------------------------------------

  function IntJson(o: Option<int>): Option<Json> {
    if o.Some? then Some(JNumber(o.value as real)) else None
  }

  function RealJson(o: Option<real>): Option<Json> {
    if o.Some? then Some(JNumber(o.value)) else None
  }

  function BoolJson(o: Option<bool>): Option<Json> {
    if o.Some? then Some(JBool(o.value)) else None
  }

  function CropJson(c: Crop): Json {
    JObject(map["x" := JNumber(c.x as real), "y" := JNumber(c.y as real),
                "width" := JNumber(c.width as real), "height" := JNumber(c.height as real)])
  }

  function FilterFieldJson(f: Filters, key: string): Option<Json> {
    if key == "grayscale" then BoolJson(f.grayscale)
    else if key == "sepia" then BoolJson(f.sepia)
    else if key == "blur" then RealJson(f.blur)
    else if key == "sharpen" then RealJson(f.sharpen)
    else None
  }

  function FiltersJson(f: Filters): Json {
    JObject(map k | k in FilterKeys && FilterFieldJson(f, k).Some? :: FilterFieldJson(f, k).value)
  }

  /** The JSON a present plan field serialises to, `None` when the field is absent. */
  function FieldJson(p: Plan, key: string): Option<Json> {
    if key == "format" then (if p.format.Some? then Some(JString(p.format.value.Name())) else None)
    else if key == "width" then IntJson(p.width)
    else if key == "height" then IntJson(p.height)
    else if key == "removeBackground" then BoolJson(p.removeBackground)
    else if key == "maintainAspectRatio" then BoolJson(p.maintainAspectRatio)
    else if key == "quality" then IntJson(p.quality)
    else if key == "crop" then (if p.crop.Some? then Some(CropJson(p.crop.value)) else None)
    else if key == "rotation" then RealJson(p.rotation)
    else if key == "filters" then (if p.filters.Some? then Some(FiltersJson(p.filters.value)) else None)
    else if key == "brightness" then RealJson(p.brightness)
    else if key == "contrast" then RealJson(p.contrast)
    else None
  }

  /** The payload a plan is sent as. */
  function ToJson(p: Plan): Json {
    JObject(map k | k in SchemaKeys && FieldJson(p, k).Some? :: FieldJson(p, k).value)
  }

  // ---------------------------------------------------------------------
  // Properties of the validator
  // ---------------------------------------------------------------------

  lemma CropRoundTrip(c: Crop)
    requires CropWellFormed(c)
    ensures ParseCrop(CropJson(c)) == Some(c)
  {
    var m := CropJson(c).fields;
    assert Lookup(m, "x", ParseNonNegativeInt) == Present(c.x);
    assert Lookup(m, "y", ParseNonNegativeInt) == Present(c.y);
    assert Lookup(m, "width", ParsePositiveInt) == Present(c.width);
    assert Lookup(m, "height", ParsePositiveInt) == Present(c.height);
  }

  lemma FiltersRoundTrip(f: Filters)
    requires FiltersWellFormed(f)
    ensures ParseFilters(FiltersJson(f)) == Some(f)
  {
    var m := FiltersJson(f).fields;
    assert "grayscale" in FilterKeys && "sepia" in FilterKeys && "blur" in FilterKeys && "sharpen" in FilterKeys;
    assert Lookup(m, "grayscale", ParseBool).ToOption() == f.grayscale;
    assert Lookup(m, "sepia", ParseBool).ToOption() == f.sepia;
    assert Lookup(m, "blur", ParseBlur).ToOption() == f.blur;
    assert Lookup(m, "sharpen", ParseSharpen).ToOption() == f.sharpen;
  }

  /** Looking a schema key up in a serialised plan finds what the plan field serialised to. */
  lemma LookupSerialised<T>(p: Plan, k: string, parse: Json -> Option<T>, want: Option<T>)
    requires k in SchemaKeys
    requires FieldJson(p, k).Some? <==> want.Some?
    requires FieldJson(p, k).Some? ==> parse(FieldJson(p, k).value) == want
    ensures !Lookup(ToJson(p).fields, k, parse).Invalid?
    ensures Lookup(ToJson(p).fields, k, parse).ToOption() == want
  {
  }

  lemma SerialisedScalars(p: Plan)
    requires WellFormed(p)
    ensures !Lookup(ToJson(p).fields, "width", ParsePositiveInt).Invalid?
    ensures Lookup(ToJson(p).fields, "width", ParsePositiveInt).ToOption() == p.width
    ensures !Lookup(ToJson(p).fields, "height", ParsePositiveInt).Invalid?
    ensures Lookup(ToJson(p).fields, "height", ParsePositiveInt).ToOption() == p.height
    ensures !Lookup(ToJson(p).fields, "quality", ParseQuality).Invalid?
    ensures Lookup(ToJson(p).fields, "quality", ParseQuality).ToOption() == p.quality
    ensures !Lookup(ToJson(p).fields, "rotation", ParseNumber).Invalid?
    ensures Lookup(ToJson(p).fields, "rotation", ParseNumber).ToOption() == p.rotation
  {
    LookupSerialised(p, "width", ParsePositiveInt, p.width);
    LookupSerialised(p, "height", ParsePositiveInt, p.height);
    LookupSerialised(p, "quality", ParseQuality, p.quality);
    LookupSerialised(p, "rotation", ParseNumber, p.rotation);
  }

  lemma SerialisedFlags(p: Plan)
    requires WellFormed(p)
    ensures !Lookup(ToJson(p).fields, "format", ParseFormat).Invalid?
    ensures Lookup(ToJson(p).fields, "format", ParseFormat).ToOption() == p.format
    ensures !Lookup(ToJson(p).fields, "removeBackground", ParseBool).Invalid?
    ensures Lookup(ToJson(p).fields, "removeBackground", ParseBool).ToOption() == p.removeBackground
    ensures !Lookup(ToJson(p).fields, "maintainAspectRatio", ParseBool).Invalid?
    ensures Lookup(ToJson(p).fields, "maintainAspectRatio", ParseBool).ToOption() == p.maintainAspectRatio
  {
    if p.format.Some? {
      FormatNameRoundTrip(p.format.value);
    }
    LookupSerialised(p, "format", ParseFormat, p.format);
    LookupSerialised(p, "removeBackground", ParseBool, p.removeBackground);
    LookupSerialised(p, "maintainAspectRatio", ParseBool, p.maintainAspectRatio);
  }

  lemma SerialisedAdjustments(p: Plan)
    requires WellFormed(p)
    ensures !Lookup(ToJson(p).fields, "crop", ParseCrop).Invalid?
    ensures Lookup(ToJson(p).fields, "crop", ParseCrop).ToOption() == p.crop
    ensures !Lookup(ToJson(p).fields, "filters", ParseFilters).Invalid?
    ensures Lookup(ToJson(p).fields, "filters", ParseFilters).ToOption() == p.filters
    ensures !Lookup(ToJson(p).fields, "brightness", ParseLevel).Invalid?
    ensures Lookup(ToJson(p).fields, "brightness", ParseLevel).ToOption() == p.brightness
    ensures !Lookup(ToJson(p).fields, "contrast", ParseLevel).Invalid?
    ensures Lookup(ToJson(p).fields, "contrast", ParseLevel).ToOption() == p.contrast
  {
    if p.crop.Some? {
      CropRoundTrip(p.crop.value);
    }
    if p.filters.Some? {
      FiltersRoundTrip(p.filters.value);
    }
    LookupSerialised(p, "crop", ParseCrop, p.crop);
    LookupSerialised(p, "filters", ParseFilters, p.filters);
    LookupSerialised(p, "brightness", ParseLevel, p.brightness);
    LookupSerialised(p, "contrast", ParseLevel, p.contrast);
  }

  /** Serialising a well-formed plan and validating it again gives the same plan back. */
  lemma RoundTrip(p: Plan)
    requires WellFormed(p)
    ensures Validate(ToJson(p)) == Some(p)
  {
    SerialisedScalars(p);
    SerialisedFlags(p);
    SerialisedAdjustments(p);
    assert Assemble(ToJson(p).fields) == p;
  }

  /** Validation is idempotent: re-validating the payload of a validated plan yields the same plan. */
  lemma ValidateIdempotent(raw: Json)
    requires Validate(raw).Some?
    ensures Validate(ToJson(Validate(raw).value)) == Validate(raw)
  {
    RoundTrip(Validate(raw).value);
  }

  /** Every field is optional: the empty object validates to the empty plan. */
  lemma EmptyObjectValidates()
    ensures Validate(JObject(map[])) == Some(EmptyPlan)
  {
  }

  /** Two objects that hold the same value (or none) under `key` look the same to `Lookup`. */
  lemma LookupAgrees<T>(m: map<string, Json>, n: map<string, Json>, key: string, parse: Json -> Option<T>)
    requires key in m <==> key in n
    requires key in m ==> m[key] == n[key]
    ensures Lookup(m, key, parse) == Lookup(n, key, parse)
  {
  }

  /** `m` and `n` agree on every schema key. */
  predicate AgreeOnSchema(m: map<string, Json>, n: map<string, Json>) {
    forall k :: k in SchemaKeys ==> (k in m <==> k in n) && (k in m ==> m[k] == n[k])
  }

  /** Keys outside the schema are stripped, never rejected: only the schema keys decide the result. */
  lemma StripsUnknownKeys(m: map<string, Json>, n: map<string, Json>)
    requires AgreeOnSchema(m, n)
    ensures Validate(JObject(m)) == Validate(JObject(n))
  {
    AgreeOnScalars(m, n);
    AgreeOnCompound(m, n);
    assert HasViolation(m) == HasViolation(n);
  }

  /** The scalar fields of two objects that agree on the schema keys. */
  lemma AgreeOnScalars(m: map<string, Json>, n: map<string, Json>)
    requires AgreeOnSchema(m, n)
    ensures Lookup(m, "format", ParseFormat) == Lookup(n, "format", ParseFormat)
    ensures Lookup(m, "width", ParsePositiveInt) == Lookup(n, "width", ParsePositiveInt)
    ensures Lookup(m, "height", ParsePositiveInt) == Lookup(n, "height", ParsePositiveInt)
    ensures Lookup(m, "removeBackground", ParseBool) == Lookup(n, "removeBackground", ParseBool)
    ensures Lookup(m, "maintainAspectRatio", ParseBool) == Lookup(n, "maintainAspectRatio", ParseBool)
    ensures Lookup(m, "quality", ParseQuality) == Lookup(n, "quality", ParseQuality)
  {
    assert "format" in SchemaKeys;
    LookupAgrees(m, n, "format", ParseFormat);
    assert "width" in SchemaKeys;
    LookupAgrees(m, n, "width", ParsePositiveInt);
    assert "height" in SchemaKeys;
    LookupAgrees(m, n, "height", ParsePositiveInt);
    assert "removeBackground" in SchemaKeys;
    LookupAgrees(m, n, "removeBackground", ParseBool);
    assert "maintainAspectRatio" in SchemaKeys;
    LookupAgrees(m, n, "maintainAspectRatio", ParseBool);
    assert "quality" in SchemaKeys;
    LookupAgrees(m, n, "quality", ParseQuality);
  }

  /** The compound and fractional fields of two objects that agree on the schema keys. */
  lemma AgreeOnCompound(m: map<string, Json>, n: map<string, Json>)
    requires AgreeOnSchema(m, n)
    ensures Lookup(m, "crop", ParseCrop) == Lookup(n, "crop", ParseCrop)
    ensures Lookup(m, "rotation", ParseNumber) == Lookup(n, "rotation", ParseNumber)
    ensures Lookup(m, "filters", ParseFilters) == Lookup(n, "filters", ParseFilters)
    ensures Lookup(m, "brightness", ParseLevel) == Lookup(n, "brightness", ParseLevel)
    ensures Lookup(m, "contrast", ParseLevel) == Lookup(n, "contrast", ParseLevel)
  {
    assert "crop" in SchemaKeys;
    LookupAgrees(m, n, "crop", ParseCrop);
    assert "rotation" in SchemaKeys;
    LookupAgrees(m, n, "rotation", ParseNumber);
    assert "filters" in SchemaKeys;
    LookupAgrees(m, n, "filters", ParseFilters);
    assert "brightness" in SchemaKeys;
    LookupAgrees(m, n, "brightness", ParseLevel);
    assert "contrast" in SchemaKeys;
    LookupAgrees(m, n, "contrast", ParseLevel);
  }

  /** Without a violation, every key of the object is accepted. */
  lemma AcceptedWithoutViolation(m: map<string, Json>, k: string)
    requires !HasViolation(m) && k in m
    ensures Accepts(k, m[k])
  {
    if k == "format" {
      assert !Lookup(m, "format", ParseFormat).Invalid?;
    } else if k == "width" {
      assert !Lookup(m, "width", ParsePositiveInt).Invalid?;
    } else if k == "height" {
      assert !Lookup(m, "height", ParsePositiveInt).Invalid?;
    } else if k == "removeBackground" {
      assert !Lookup(m, "removeBackground", ParseBool).Invalid?;
    } else if k == "maintainAspectRatio" {
      assert !Lookup(m, "maintainAspectRatio", ParseBool).Invalid?;
    } else if k == "quality" {
      assert !Lookup(m, "quality", ParseQuality).Invalid?;
    } else if k == "crop" {
      assert !Lookup(m, "crop", ParseCrop).Invalid?;
    } else if k == "rotation" {
      assert !Lookup(m, "rotation", ParseNumber).Invalid?;
    } else if k == "filters" {
      assert !Lookup(m, "filters", ParseFilters).Invalid?;
    } else if k == "brightness" {
      assert !Lookup(m, "brightness", ParseLevel).Invalid?;
    } else if k == "contrast" {
      assert !Lookup(m, "contrast", ParseLevel).Invalid?;
    }
  }

  /** A violation names a present key whose value is not accepted. */
  lemma ViolationIsRejectedKey(m: map<string, Json>) returns (k: string)
    requires HasViolation(m)
    ensures k in m && !Accepts(k, m[k])
  {
    if Lookup(m, "format", ParseFormat).Invalid? {
      k := "format";
    } else if Lookup(m, "width", ParsePositiveInt).Invalid? {
      k := "width";
    } else if Lookup(m, "height", ParsePositiveInt).Invalid? {
      k := "height";
    } else if Lookup(m, "removeBackground", ParseBool).Invalid? {
      k := "removeBackground";
    } else if Lookup(m, "maintainAspectRatio", ParseBool).Invalid? {
      k := "maintainAspectRatio";
    } else if Lookup(m, "quality", ParseQuality).Invalid? {
      k := "quality";
    } else if Lookup(m, "crop", ParseCrop).Invalid? {
      k := "crop";
    } else if Lookup(m, "rotation", ParseNumber).Invalid? {
      k := "rotation";
    } else if Lookup(m, "filters", ParseFilters).Invalid? {
      k := "filters";
    } else if Lookup(m, "brightness", ParseLevel).Invalid? {
      k := "brightness";
    } else {
      k := "contrast";
    }
  }

  /**
   * A payload validates exactly when it is an object and every one of its
   * keys holds an accepted value: one violation rejects the whole payload,
   * and keys outside the schema never reject it.
   */
  lemma ValidIffEveryFieldAccepted(raw: Json)
    ensures Validate(raw).Some? <==> raw.JObject? && forall k :: k in raw.fields ==> Accepts(k, raw.fields[k])
  {
    if raw.JObject? {
      var m := raw.fields;
      if HasViolation(m) {
        var k := ViolationIsRejectedKey(m);
      } else {
        forall k | k in m
          ensures Accepts(k, m[k])
        {
          AcceptedWithoutViolation(m, k);
        }
      }
    }
  }

  /**
   * Nothing is clamped or defaulted: a key is present in the plan exactly
   * when it was present in the payload, and scalar fields keep their
   * payload value.
   */
  lemma NothingClampedOrDefaulted(m: map<string, Json>, k: string)
    requires Validate(JObject(m)).Some?
    requires k in SchemaKeys
    ensures k in m <==> FieldJson(Validate(JObject(m)).value, k).Some?
    ensures k in m && k != "crop" && k != "filters" ==> FieldJson(Validate(JObject(m)).value, k) == Some(m[k])
  {
    var p := Validate(JObject(m)).value;
    if k in m {
      assert Accepts(k, m[k]);
    }
  }

  /** `format` is accepted exactly when it is one of the four literal strings. */
  lemma FormatRule(v: Json)
    ensures Accepts("format", v) <==> v.JString? && v.s in SupportedFormatNames
    ensures Validate(JObject(map["format" := v])).Some? <==> Accepts("format", v)
  {
  }

  /** `width` and `height` must be integers greater than zero. */
  lemma DimensionRule(key: string, v: Json)
    requires key == "width" || key == "height"
    ensures Accepts(key, v) <==> v.JNumber? && IsInteger(v.n) && v.n > 0.0
    ensures Validate(JObject(map[key := v])).Some? <==> Accepts(key, v)
  {
  }

  /** `quality` must be an integer in 1..100 inclusive. */
  lemma QualityRule(v: Json)
    ensures Accepts("quality", v) <==> v.JNumber? && IsInteger(v.n) && 1.0 <= v.n <= 100.0
  {
  }

  /** `crop` needs all four fields; no check against the image bounds. */
  lemma CropRule(v: Json)
    ensures Accepts("crop", v) <==>
      && v.JObject?
      && CropKeys <= v.fields.Keys
      && ParseNonNegativeInt(v.fields["x"]).Some?
      && ParseNonNegativeInt(v.fields["y"]).Some?
      && ParsePositiveInt(v.fields["width"]).Some?
      && ParsePositiveInt(v.fields["height"]).Some?
  {
  }

  /** The fractional bounds are inclusive; `rotation` is any number. */
  lemma NumberRangeRule(v: Json)
    ensures Accepts("rotation", v) <==> v.JNumber?
    ensures Accepts("brightness", v) <==> v.JNumber? && 0.0 <= v.n <= 2.0
    ensures Accepts("contrast", v) <==> v.JNumber? && 0.0 <= v.n <= 2.0
    ensures Accepts("filters", JObject(map["blur" := v])) <==> v.JNumber? && 0.0 <= v.n <= 100.0
    ensures Accepts("filters", JObject(map["sharpen" := v])) <==> v.JNumber? && 0.0 <= v.n <= 10.0
  {
  }

  /** The two flags must be booleans when present. */
  lemma BooleanRule(key: string, v: Json)
    requires key == "removeBackground" || key == "maintainAspectRatio"
    ensures Accepts(key, v) <==> v.JBool?
  {
  }

  /** One wrong-typed or out-of-range field rejects the whole payload, whatever the other fields hold. */
  lemma OneViolationRejects(m: map<string, Json>, k: string)
    requires k in m && !Accepts(k, m[k])
    ensures Validate(JObject(m)) == None
  {
    ValidIffEveryFieldAccepted(JObject(m));
  }
}
