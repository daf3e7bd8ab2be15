/**
 * The processing form (client/src/components/processing-controls.tsx):
 * the format toggle, the width and height inputs linked through the
 * original aspect ratio when the lock is on, the "has changes" test that
 * enables the Process button, and the options object the form emits.
 *
 * The aspect ratio is exact rational arithmetic on `real`; `Math.round`
 * is written out. An input field's content is `None` when it is empty and
 * `Some(n)` for the integer `parseInt` reads from it.
 */
module Controls {
  import opened Wrappers
  import opened Schema

  /** `Math.round`: to the nearest integer, halves towards +infinity. */
  function Round(x: real): (n: int)
    ensures n as real - 0.5 <= x < n as real + 0.5
  {
    (x + 0.5).Floor
  }

  /** The height the lock derives from a new width: round(W' / (W / H)). */
  function LinkedHeight(newWidth: int, originalWidth: nat, originalHeight: nat): int
    requires originalWidth > 0 && originalHeight > 0
  {
    Round(newWidth as real / (originalWidth as real / originalHeight as real))
  }

  /** The width the lock derives from a new height: round(H' * (W / H)). */
  function LinkedWidth(newHeight: int, originalWidth: nat, originalHeight: nat): int
    requires originalWidth > 0 && originalHeight > 0
  {
    Round(newHeight as real * (originalWidth as real / originalHeight as real))
  }

  /** Clicking a format button: the selected one is deselected, any other becomes selected. */
  function Toggled(selected: Option<Format>, clicked: Format): (r: Option<Format>)
    ensures r == Some(clicked) <==> selected != Some(clicked)
    ensures r.None? <==> selected == Some(clicked)
  {
    if selected == Some(clicked) then None else Some(clicked)
  }

  /** `hasChanges`: a format is chosen, a dimension differs from the original, or background removal is on. */
  predicate HasChangesOf(selectedFormat: Option<Format>, width: Option<int>, height: Option<int>,
                         removeBackground: bool, original: ImageMetadata)
  {
    selectedFormat.Some? || width != Some(original.width as int) || height != Some(original.height as int) || removeBackground
  }

  /** The object `handleProcess` passes to `onProcess`: the five form fields, the rest absent. */
  function EmittedOptions(selectedFormat: Option<Format>, width: Option<int>, height: Option<int>,
                          maintainAspectRatio: bool, removeBackground: bool): (p: Plan)
    ensures p.format == selectedFormat && p.width == width && p.height == height
    ensures p.maintainAspectRatio == Some(maintainAspectRatio) && p.removeBackground == Some(removeBackground)
    ensures p.quality.None? && p.crop.None? && p.rotation.None? && p.filters.None?
    ensures p.brightness.None? && p.contrast.None?
  {
    EmptyPlan.(format := selectedFormat, width := width, height := height,
               maintainAspectRatio := Some(maintainAspectRatio), removeBackground := Some(removeBackground))
  }

  /**
   * The form state of one mounted `ProcessingControls` instance, with the
   * `imageMetadata` prop it is currently rendered with. The prop can change
   * while the instance stays mounted; the state fields are initialised from
   * it only once.
   */
  class ProcessingControls {
    var original: ImageMetadata
    var selectedFormat: Option<Format>
    var width: Option<int>
    var height: Option<int>
    var maintainAspectRatio: bool
    var removeBackground: bool

    predicate HasChanges()
      reads this
    {
      HasChangesOf(selectedFormat, width, height, removeBackground, original)
    }

    /** The Process button is enabled only when something changed and no request is running. */
    predicate ProcessEnabled(isProcessing: bool)
      reads this
    {
      !isProcessing && HasChanges()
    }

    /** The options `handleProcess` would emit now. */
    function Options(): Plan
      reads this
    {
      EmittedOptions(selectedFormat, width, height, maintainAspectRatio, removeBackground)
    }

    /** The initial state: the original dimensions, lock on, no background removal, no format. */
    constructor (metadata: ImageMetadata)
      ensures original == metadata && selectedFormat.None?
      ensures width == Some(metadata.width as int) && height == Some(metadata.height as int)
      ensures maintainAspectRatio && !removeBackground
      ensures !HasChanges() && !ProcessEnabled(false)
    {
      original := metadata;
      selectedFormat := None;
      width := Some(metadata.width as int);
      height := Some(metadata.height as int);
      maintainAspectRatio := true;
      removeBackground := false;
    }

    method ToggleFormat(clicked: Format)
      modifies this
      ensures selectedFormat == Toggled(old(selectedFormat), clicked) && original == old(original)
      ensures width == old(width) && height == old(height)
      ensures maintainAspectRatio == old(maintainAspectRatio) && removeBackground == old(removeBackground)
    {
      selectedFormat := Toggled(selectedFormat, clicked);
    }

    /**
     * `handleWidthChange`: the width takes the input; with the lock on and
     * a non-zero input, the height follows.
     */
    method HandleWidthChange(value: Option<int>)
      requires original.width > 0 && original.height > 0
      modifies this
      ensures width == value && original == old(original)
      ensures height == (if maintainAspectRatio && value.Some? && value.value != 0
                         then Some(LinkedHeight(value.value, original.width, original.height))
                         else old(height))
      ensures selectedFormat == old(selectedFormat) && maintainAspectRatio == old(maintainAspectRatio)
      ensures removeBackground == old(removeBackground)
    {
      width := value;
      if maintainAspectRatio && value.Some? && value.value != 0 {
        height := Some(LinkedHeight(value.value, original.width, original.height));
      }
    }

    /** `handleHeightChange`: the mirror image of `HandleWidthChange`. */
    method HandleHeightChange(value: Option<int>)
      requires original.width > 0 && original.height > 0
      modifies this
      ensures height == value && original == old(original)
      ensures width == (if maintainAspectRatio && value.Some? && value.value != 0
                        then Some(LinkedWidth(value.value, original.width, original.height))
                        else old(width))
      ensures selectedFormat == old(selectedFormat) && maintainAspectRatio == old(maintainAspectRatio)
      ensures removeBackground == old(removeBackground)
    {
      height := value;
      if maintainAspectRatio && value.Some? && value.value != 0 {
        width := Some(LinkedWidth(value.value, original.width, original.height));
      }
    }

    /** The lock switch: no dimension is recomputed. */
    method SetMaintainAspectRatio(on: bool)
      modifies this
      ensures maintainAspectRatio == on && original == old(original)
      ensures width == old(width) && height == old(height)
      ensures selectedFormat == old(selectedFormat) && removeBackground == old(removeBackground)
    {
      maintainAspectRatio := on;
    }

    method SetRemoveBackground(on: bool)
      modifies this
      ensures removeBackground == on && original == old(original)
      ensures width == old(width) && height == old(height)
      ensures selectedFormat == old(selectedFormat) && maintainAspectRatio == old(maintainAspectRatio)
    {
      removeBackground := on;
    }

    /**
     * A re-render with another `imageMetadata` (a new single-mode upload, or
     * a new first item of the batch queue): the instance is not remounted,
     * so the form keeps its fields and the options it would emit, while the
     * aspect ratio and `hasChanges` read the new metadata.
     */
    method SetMetadata(metadata: ImageMetadata)
      modifies this
      ensures original == metadata
      ensures selectedFormat == old(selectedFormat) && width == old(width) && height == old(height)
      ensures maintainAspectRatio == old(maintainAspectRatio) && removeBackground == old(removeBackground)
      ensures Options() == old(Options())
      ensures HasChanges() == HasChangesOf(selectedFormat, width, height, removeBackground, metadata)
    {
      original := metadata;
    }
  }

  /**
   * Clicking a format replaces any other selection; clicking it twice
   * restores no selection or its own selection, but after another format
   * was selected it ends with nothing selected.
   */
  lemma ToggleTwice(selected: Option<Format>, clicked: Format)
    ensures selected.None? || selected == Some(clicked) ==> Toggled(Toggled(selected, clicked), clicked) == selected
    ensures selected.Some? && selected != Some(clicked) ==>
      Toggled(selected, clicked) == Some(clicked) && Toggled(Toggled(selected, clicked), clicked).None?
  {
  }

  /** `Math.round` sends every half up, negative ones included. */
  lemma RoundHalvesUp(k: int)
    ensures Round(k as real + 0.5) == k + 1
    ensures Round(k as real) == k
  {
  }

  /** The derived dimension is the exact proportional value, off by at most half a pixel. */
  lemma LinkedWithinHalfPixel(newWidth: int, newHeight: int, w: nat, h: nat)
    requires w > 0 && h > 0
    ensures var exact := newWidth as real * h as real / w as real;
      exact - 0.5 < LinkedHeight(newWidth, w, h) as real <= exact + 0.5
    ensures var exact := newHeight as real * w as real / h as real;
      exact - 0.5 < LinkedWidth(newHeight, w, h) as real <= exact + 0.5
  {
    var ar := w as real / h as real;
    assert newWidth as real / ar == newWidth as real * h as real / w as real;
    assert newHeight as real * ar == newHeight as real * w as real / h as real;
  }

  /** Typing back an original dimension with the lock on restores the other original dimension. */
  lemma LinkedOriginalDimensions(w: nat, h: nat)
    requires w > 0 && h > 0
    ensures LinkedHeight(w, w, h) == h
    ensures LinkedWidth(h, w, h) == w
  {
    LinkedWithinHalfPixel(w, h, w, h);
    assert w as real * h as real / w as real == h as real;
    assert h as real * w as real / h as real == w as real;
  }

  /** An 800 x 600 image set to width 400 gets height 300; a 3 x 2 image set to width 1 gets height 1 (0.67 rounds up). */
  lemma LinkingExamples()
    ensures LinkedHeight(400, 800, 600) == 300
    ensures LinkedHeight(1, 3, 2) == 1
    ensures LinkedWidth(1, 1, 2) == 1
  {
    assert 400.0 / (800.0 / 600.0) == 300.0;
    assert 1.0 / (3.0 / 2.0) == 2.0 / 3.0;
    assert 1.0 * (1.0 / 2.0) == 0.5;
  }

  /**
   * With the lock on, typing a new width and then the original width back
   * leaves no change: the height follows back to the original, so the
   * Process button is disabled again.
   */
  lemma EditingBackRestoresNoChanges(m: ImageMetadata, typed: int)
    requires m.width > 0 && m.height > 0
    ensures var h := LinkedHeight(m.width as int, m.width, m.height);
      !HasChangesOf(None, Some(m.width as int), Some(h), false, m)
    ensures typed != m.width as int ==> HasChangesOf(None, Some(typed), Some(LinkedHeight(typed, m.width, m.height)), false, m)
  {
    LinkedOriginalDimensions(m.width, m.height);
  }

  /**
   * A form left untouched on image A and then shown image B of other
   * dimensions reports changes against B, and still holds A's dimensions.
   */
  lemma UntouchedFormIsDirtyForNewImage(a: ImageMetadata, b: ImageMetadata)
    requires a.width != b.width || a.height != b.height
    ensures HasChangesOf(None, Some(a.width as int), Some(a.height as int), false, b)
    ensures !HasChangesOf(None, Some(a.width as int), Some(a.height as int), false, a)
  {
  }
}
