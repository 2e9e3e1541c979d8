/**
 * The part of an HTML canvas and its 2D context that the cropper and the
 * exporter use: a raster size and the sequence of drawing commands issued on
 * it. Pixels are not modelled; a command is recorded with its geometry.
 */
module Canvas {

  import opened Types

  /** `Math.min` and `Math.max` on coordinates. */
  function Min(a: real, b: real): real { if a <= b then a else b }
  function Max(a: real, b: real): real { if a >= b then a else b }

  /** An axis-aligned rectangle: top-left corner and extent. */
  datatype Rect = Rect(x: real, y: real, w: real, h: real)
  {
    function Right(): real { x + w }
    function Bottom(): real { y + h }

    /** `inner` lies inside this rectangle (edges may touch). */
    predicate Encloses(inner: Rect)
    {
      x <= inner.x && inner.Right() <= Right() && y <= inner.y && inner.Bottom() <= Bottom()
    }
  }

  /** An image element, known by its source URL. */
  datatype ImageRef = ImageRef(src: string)

  datatype DrawOp =
    | Save
    | Restore
      /** `drawImage(img, sx, sy, sw, sh, dx, dy, dw, dh)`, or, when `source` is None, the whole
          image drawn into `dest` (`drawImage(img, dx, dy)` at natural size, `drawImage(img, dx, dy, dw, dh)`). */
    | DrawImage(image: ImageRef, source: Option<Rect>, dest: Rect)
    | FillRect(rect: Rect)
    | FillText(text: string, x: real, y: real, fontSize: real)
    | StrokeRect(rect: Rect, lineWidth: real)

  /** The default size of a freshly created canvas element. */
  const DefaultWidth: nat := 300
  const DefaultHeight: nat := 150

  class Canvas2D {
    var width: nat
    var height: nat
    /** The commands issued on the 2D context, oldest first. */
    var ops: seq<DrawOp>

    constructor ()
      ensures width == DefaultWidth && height == DefaultHeight && ops == []
    {
      width, height, ops := DefaultWidth, DefaultHeight, [];
    }

    /** Assigning `canvas.width` and `canvas.height`. */
    method Resize(w: nat, h: nat)
      modifies this
      ensures width == w && height == h && ops == old(ops)
    {
      width, height := w, h;
    }

    method Issue(op: DrawOp)
      modifies this
      ensures ops == old(ops) + [op]
      ensures width == old(width) && height == old(height)
    {
      ops := ops + [op];
    }
  }
}
