/**
 * The crop tool: a drag anchor and a selection rectangle in display space,
 * driven by mouse events over the displayed image, and the confirmation that
 * maps the selection to the image's native pixels and re-encodes that region.
 */
module ImageCropper {

  import opened Types
  import opened Canvas
  import Strings

  type NonNegReal = r: real | r >= 0.0

  datatype Point = Point(x: real, y: real)

  /**
   * What the mounted `<img>` element reports: its bounding client rectangle
   * (`left`, `top`, `boxWidth`, `boxHeight`), its layout size in CSS pixels
   * (`width`, `height`), the size of the decoded image (`naturalWidth`,
   * `naturalHeight`), and its source URL.
   */
  datatype ImageView = ImageView(
    left: real, top: real, boxWidth: NonNegReal, boxHeight: NonNegReal,
    width: nat, height: nat, naturalWidth: nat, naturalHeight: nat,
    src: string)
  {
    /** The displayed image as a rectangle in its own coordinates. */
    function Bounds(): Rect { Rect(0.0, 0.0, boxWidth, boxHeight) }
  }

  /** The smallest drag, in display pixels, that counts as a selection. */
  const MinDisplaySide: real := 10.0
  /** The smallest crop, in native pixels, that is accepted. */
  const MinNativeSide: int := 50

  const CroppedBaseName: string := "cropped-fabric"
  const FallbackType: string := "image/png"
  const FallbackExtension: string := "png"

  function Abs(a: real): real { if a >= 0.0 then a else -a }

  /** `Math.max(0, Math.min(v, bound))`: pointer outside the image is moved to its edge. */
  function Clamp(v: real, bound: NonNegReal): (r: real)
    ensures 0.0 <= r <= bound
    ensures 0.0 <= v <= bound ==> r == v
    ensures v < 0.0 ==> r == 0.0
    ensures v > bound ==> r == bound
  {
    Max(0.0, Min(v, bound))
  }

  /** The rectangle spanned by the anchor and the pointer, in either drag direction. */
  function BoundingBox(anchor: Point, pointer: Point): (r: Rect)
    ensures r.w >= 0.0 && r.h >= 0.0
    ensures r.x == Min(anchor.x, pointer.x) && r.Right() == Max(anchor.x, pointer.x)
    ensures r.y == Min(anchor.y, pointer.y) && r.Bottom() == Max(anchor.y, pointer.y)
  {
    Rect(Min(pointer.x, anchor.x), Min(pointer.y, anchor.y),
         Abs(pointer.x - anchor.x), Abs(pointer.y - anchor.y))
  }

  /** The pointer's position relative to the image, clamped to the image. */
  function ClampedPointer(img: ImageView, clientX: real, clientY: real): (p: Point)
    ensures p == Point(Clamp(clientX - img.left, img.boxWidth), Clamp(clientY - img.top, img.boxHeight))
    ensures 0.0 <= p.x <= img.boxWidth && 0.0 <= p.y <= img.boxHeight
  {
    Point(Clamp(clientX - img.left, img.boxWidth), Clamp(clientY - img.top, img.boxHeight))
  }

  /** An anchor inside the image yields a selection inside the image. */
  lemma SelectionInsideImage(img: ImageView, anchor: Point, clientX: real, clientY: real)
    requires 0.0 <= anchor.x <= img.boxWidth && 0.0 <= anchor.y <= img.boxHeight
    ensures img.Bounds().Encloses(BoundingBox(anchor, ClampedPointer(img, clientX, clientY)))
  {
  }

  /** The display-to-native mapping of a selection, as `handleCrop` computes it before drawing. */
  datatype CropPlan = CropPlan(source: Rect, width: int, height: int)

  /**
   * Scale by `natural / displayed` on each axis; the output size is the
   * scaled extent rounded down.
   */
  function PlanCrop(sel: Rect, img: ImageView): (p: CropPlan)
    requires img.width > 0 && img.height > 0
    ensures p.width as real <= p.source.w < (p.width + 1) as real
    ensures p.height as real <= p.source.h < (p.height + 1) as real
    ensures p.source.x == sel.x * (img.naturalWidth as real) / (img.width as real)
    ensures p.source.y == sel.y * (img.naturalHeight as real) / (img.height as real)
    ensures p.source.w == sel.w * (img.naturalWidth as real) / (img.width as real)
    ensures p.source.h == sel.h * (img.naturalHeight as real) / (img.height as real)
  {
    var scaleX := img.naturalWidth as real / img.width as real;
    var scaleY := img.naturalHeight as real / img.height as real;
    var source := Rect(sel.x * scaleX, sel.y * scaleY, sel.w * scaleX, sel.h * scaleY);
    CropPlan(source, source.w.Floor, source.h.Floor)
  }

  /** A selection within the displayed image maps into the native image, and so does the output size. */
  lemma {:induction false} PlanWithinNativeImage(sel: Rect, img: ImageView)
    requires img.width > 0 && img.height > 0
    requires sel.w >= 0.0 && sel.h >= 0.0
    requires Rect(0.0, 0.0, img.width as real, img.height as real).Encloses(sel)
    ensures Rect(0.0, 0.0, img.naturalWidth as real, img.naturalHeight as real).Encloses(PlanCrop(sel, img).source)
    ensures 0 <= PlanCrop(sel, img).width <= img.naturalWidth
    ensures 0 <= PlanCrop(sel, img).height <= img.naturalHeight
  {
    var sx := img.naturalWidth as real / img.width as real;
    var sy := img.naturalHeight as real / img.height as real;
    ScaleWithin(sel.x, sel.w, img.width as real, sx, img.naturalWidth as real);
    ScaleWithin(sel.y, sel.h, img.height as real, sy, img.naturalHeight as real);
  }

  /** One axis of the mapping: `[x, x+w] ⊆ [0, d]` scales into `[0, n]` for factor `n/d`. */
  lemma ScaleWithin(x: real, w: real, d: real, s: real, n: real)
    requires d > 0.0 && n >= 0.0 && s == n / d
    requires w >= 0.0 && 0.0 <= x && x + w <= d
    ensures 0.0 <= x * s && 0.0 <= w * s && x * s + w * s <= n
  {
    assert s >= 0.0;
    assert (x + w) * s <= d * s;
    assert d * s == n;
  }

  /**
   * A drag that starts inside the image, on an element whose on-screen box is
   * no larger than its layout size, crops a region of the native image and
   * never asks for more pixels than it has.
   */
  lemma {:induction false} DragMapsIntoNativeImage(img: ImageView, anchor: Point, clientX: real, clientY: real)
    requires img.width > 0 && img.height > 0
    requires img.boxWidth <= img.width as real && img.boxHeight <= img.height as real
    requires 0.0 <= anchor.x <= img.boxWidth && 0.0 <= anchor.y <= img.boxHeight
    ensures var plan := PlanCrop(BoundingBox(anchor, ClampedPointer(img, clientX, clientY)), img);
      && Rect(0.0, 0.0, img.naturalWidth as real, img.naturalHeight as real).Encloses(plan.source)
      && plan.width <= img.naturalWidth && plan.height <= img.naturalHeight
  {
    var sel := BoundingBox(anchor, ClampedPointer(img, clientX, clientY));
    SelectionInsideImage(img, anchor, clientX, clientY);
    PlanWithinNativeImage(sel, img);
  }

  /** The type given to the encoder and to the new file: the source's, else PNG. */
  function CroppedType(sourceType: string): (t: string)
    ensures t != ""
    ensures sourceType != "" ==> t == sourceType
    ensures sourceType == "" ==> t == FallbackType
  {
    OrElse(sourceType, FallbackType)
  }

  /** `type.split('/')[1] || 'png'`. */
  function Extension(mimeType: string): (ext: string)
    ensures ext != "" && '/' !in ext
  {
    var field := Strings.Field(mimeType, '/', 1);
    if Truthy(field) then field.value else FallbackExtension
  }

  /** The subtype of a `type/subtype` MIME string is its extension. */
  lemma ExtensionIsSubtype(top: string, sub: string)
    requires '/' !in top && '/' !in sub && sub != ""
    ensures Extension(top + "/" + sub) == sub
  {
    Strings.SplitAfterPlainPrefix(top, '/', sub);
    Strings.SplitWithoutSeparator(sub, '/');
  }

  /** A MIME string without `/` falls back to the `png` extension. */
  lemma ExtensionWithoutSlash(mimeType: string)
    requires '/' !in mimeType
    ensures Extension(mimeType) == FallbackExtension
  {
    Strings.SplitWithoutSeparator(mimeType, '/');
  }

  /** `cropped-fabric.<ext>`. */
  function CroppedFileName(mimeType: string): string
  {
    CroppedBaseName + "." + Extension(mimeType)
  }

  /** Why confirmation handed back the unchanged source file. */
  datatype Fallback = NoSelection | TinySelection | ZeroDisplaySize | EncodeFailed

  datatype CropOutcome =
    | KeptOriginal(reason: Fallback)
      /** `onConfirm(newFile)`; `width`, `height` and `ops` are the final state of the canvas. */
    | Cropped(file: File, plan: CropPlan, width: nat, height: nat, ops: seq<DrawOp>)
      /** The "selection too small" alert: `onConfirm` is not called. */
    | TooSmall
      /** `getContext('2d')` gave null: nothing further happens. */
    | NoContext

  /** The file `onConfirm` receives, if it is called. */
  function ConfirmedFile(outcome: CropOutcome, original: File): (f: Option<File>)
    ensures f.None? <==> outcome.TooSmall? || outcome.NoContext?
    ensures outcome.KeptOriginal? ==> f == Some(original)
    ensures outcome.Cropped? ==> f == Some(outcome.file)
  {
    match outcome
    case KeptOriginal(_) => Some(original)
    case Cropped(file, _, _, _, _) => Some(file)
    case TooSmall => None
    case NoContext => None
  }

  /** The selection survives the first three checks of `handleCrop`. */
  predicate PassesDisplayChecks(img: Option<ImageView>, sel: Option<Rect>)
  {
    img.Some? && sel.Some? && sel.value.w >= MinDisplaySide && sel.value.h >= MinDisplaySide
    && img.value.width > 0 && img.value.height > 0
  }

  /** The native-pixel output is at least 50 on each side. */
  predicate LargeEnough(img: ImageView, sel: Rect)
    requires img.width > 0 && img.height > 0
  {
    var plan := PlanCrop(sel, img);
    plan.width >= MinNativeSide && plan.height >= MinNativeSide
  }

  class CropEngine {
    /** Where the current drag started, relative to the image; None when no drag is active. */
    var startPos: Option<Point>
    /** The last selection, in display coordinates. */
    var selection: Option<Rect>

    /** Selections never have a negative extent, and a drag always has a selection. */
    ghost predicate Valid()
      reads this
    {
      (selection.Some? ==> selection.value.w >= 0.0 && selection.value.h >= 0.0)
      && (startPos.Some? ==> selection.Some?)
    }

    /** Each time the cropper is opened it starts with no drag and no selection. */
    constructor ()
      ensures Valid() && startPos.None? && selection.None?
    {
      startPos, selection := None, None;
    }

    /** `handleMouseDown`: anchor at the pointer (not clamped), empty selection there. */
    method MouseDown(img: Option<ImageView>, clientX: real, clientY: real)
      requires Valid()
      modifies this
      ensures Valid()
      ensures img.None? ==> startPos == old(startPos) && selection == old(selection)
      ensures img.Some? ==>
        var p := Point(clientX - img.value.left, clientY - img.value.top);
        startPos == Some(p) && selection == Some(Rect(p.x, p.y, 0.0, 0.0))
    {
      if img.None? {
        return;
      }
      var p := Point(clientX - img.value.left, clientY - img.value.top);
      startPos := Some(p);
      selection := Some(Rect(p.x, p.y, 0.0, 0.0));
    }

    /** `handleMouseMove`: while dragging, the selection spans the anchor and the clamped pointer. */
    method MouseMove(img: Option<ImageView>, clientX: real, clientY: real)
      requires Valid()
      modifies this
      ensures Valid() && startPos == old(startPos)
      ensures old(startPos).None? || img.None? ==> selection == old(selection)
      ensures old(startPos).Some? && img.Some? ==>
        selection == Some(BoundingBox(startPos.value, ClampedPointer(img.value, clientX, clientY)))
      ensures old(startPos).Some? && img.Some? ==>
        var a := startPos.value;
        0.0 <= a.x <= img.value.boxWidth && 0.0 <= a.y <= img.value.boxHeight ==>
        img.value.Bounds().Encloses(selection.value)
    {
      if startPos.None? || img.None? {
        return;
      }
      var current := ClampedPointer(img.value, clientX, clientY);
      var anchor := startPos.value;
      var w := Abs(current.x - anchor.x);
      var h := Abs(current.y - anchor.y);
      var left := Min(current.x, anchor.x);
      var top := Min(current.y, anchor.y);
      selection := Some(Rect(left, top, w, h));
      if 0.0 <= anchor.x <= img.value.boxWidth && 0.0 <= anchor.y <= img.value.boxHeight {
        SelectionInsideImage(img.value, anchor, clientX, clientY);
      }
    }

    /** `handleMouseUp`, also bound to mouse-leave: the drag ends, the selection stays. */
    method MouseUp()
      requires Valid()
      modifies this
      ensures Valid()
      ensures startPos.None? && selection == old(selection)
    {
      startPos := None;
    }

    /**
     * `handleCrop`. `img` is the mounted image element, `contextAvailable`
     * whether the canvas gave a 2D context, and `blob` what `toBlob` delivered.
     * The checks run in order: no selection, a selection under 10 display
     * pixels, a zero display size, an output under 50 native pixels, and a
     * failed encoding.
     */
    method HandleCrop(img: Option<ImageView>, imageFile: File, contextAvailable: bool, blob: Option<Bytes>)
      returns (outcome: CropOutcome)
      requires Valid()
      ensures img.None? || selection.None? <==> outcome == KeptOriginal(NoSelection)
      ensures img.Some? && selection.Some? && (selection.value.w < MinDisplaySide || selection.value.h < MinDisplaySide)
        <==> outcome == KeptOriginal(TinySelection)
      ensures outcome == KeptOriginal(ZeroDisplaySize) <==>
        img.Some? && selection.Some? && selection.value.w >= MinDisplaySide && selection.value.h >= MinDisplaySide
        && (img.value.width == 0 || img.value.height == 0)
      ensures outcome.TooSmall? <==> PassesDisplayChecks(img, selection) && !LargeEnough(img.value, selection.value)
      ensures outcome.NoContext? <==>
        PassesDisplayChecks(img, selection) && LargeEnough(img.value, selection.value) && !contextAvailable
      ensures outcome == KeptOriginal(EncodeFailed) <==>
        PassesDisplayChecks(img, selection) && LargeEnough(img.value, selection.value) && contextAvailable && blob.None?
      ensures outcome.Cropped? <==>
        PassesDisplayChecks(img, selection) && LargeEnough(img.value, selection.value) && contextAvailable && blob.Some?
      ensures outcome.Cropped? ==>
        var plan := PlanCrop(selection.value, img.value);
        var mime := CroppedType(imageFile.mimeType);
        && outcome.plan == plan
        && outcome.width == plan.width && outcome.height == plan.height
        && outcome.ops == [DrawImage(ImageRef(img.value.src), Some(plan.source),
                                     Rect(0.0, 0.0, plan.width as real, plan.height as real))]
        && outcome.file == File(CroppedFileName(mime), mime, blob.value)
    {
      if img.None? || selection.None? {
        return KeptOriginal(NoSelection);
      }
      var view, sel := img.value, selection.value;
      if sel.w < MinDisplaySide || sel.h < MinDisplaySide {
        return KeptOriginal(TinySelection);
      }
      var canvas := new Canvas2D();
      if view.width == 0 || view.height == 0 {
        return KeptOriginal(ZeroDisplaySize);
      }
      var plan := PlanCrop(sel, view);
      if plan.width < MinNativeSide || plan.height < MinNativeSide {
        return TooSmall;
      }
      canvas.Resize(plan.width, plan.height);
      if !contextAvailable {
        return NoContext;
      }
      canvas.Issue(DrawImage(ImageRef(view.src), Some(plan.source),
                             Rect(0.0, 0.0, plan.width as real, plan.height as real)));
      if blob.None? {
        return KeptOriginal(EncodeFailed);
      }
      var mime := CroppedType(imageFile.mimeType);
      var file := File(CroppedFileName(mime), mime, blob.value);
      outcome := Cropped(file, plan, canvas.width, canvas.height, canvas.ops);
    }
  }

  /** The image of the scaled-drag example: 1200x1600 native, shown at 300x400. */
  function ExampleView(): ImageView
  {
    ImageView(0.0, 0.0, 300.0, 400.0, 300, 400, 1200, 1600, "blob:pattern")
  }

  /** Over the example image, a pointer at (150, 150) is inside and is not moved. */
  lemma ExamplePointer()
    ensures ClampedPointer(ExampleView(), 150.0, 150.0) == Point(150.0, 150.0)
  {
  }

  /** Dragging from (50, 50) to that pointer selects 100x100 display pixels. */
  lemma ExampleDragSelection()
    ensures BoundingBox(Point(50.0, 50.0), Point(150.0, 150.0)) == Rect(50.0, 50.0, 100.0, 100.0)
  {
  }

  /** At scale 4 that selection crops the native region (200, 200)-(600, 600) into a 400x400 output. */
  lemma ExampleDragPlan()
    ensures PassesDisplayChecks(Some(ExampleView()), Some(Rect(50.0, 50.0, 100.0, 100.0)))
    ensures PlanCrop(Rect(50.0, 50.0, 100.0, 100.0), ExampleView())
            == CropPlan(Rect(200.0, 200.0, 400.0, 400.0), 400, 400)
  {
    assert 1200.0 / 300.0 == 4.0 && 1600.0 / 400.0 == 4.0;
  }

  /** A 5x5 drag is a click, not a selection: confirming it hands back the original file. */
  method ClickScenario(imageFile: File, encoded: Bytes) returns (outcome: CropOutcome)
    ensures outcome == KeptOriginal(TinySelection)
    ensures ConfirmedFile(outcome, imageFile) == Some(imageFile)
  {
    var view := ImageView(0.0, 0.0, 300.0, 400.0, 300, 400, 1200, 1600, "");
    var engine := new CropEngine();
    engine.MouseDown(Some(view), 20.0, 20.0);
    assert ClampedPointer(view, 25.0, 25.0) == Point(25.0, 25.0);
    assert BoundingBox(Point(20.0, 20.0), Point(25.0, 25.0)).w == 5.0;
    engine.MouseMove(Some(view), 25.0, 25.0);
    engine.MouseUp();
    assert engine.selection.value.w < MinDisplaySide;
    outcome := engine.HandleCrop(Some(view), imageFile, true, Some(encoded));
  }
}
