/**
 * The result panel: which of its four faces it shows, and the export that
 * flattens the generated image and a "FABRIC USED" swatch card into one PNG.
 */
module ResultDisplay {

  import opened Types
  import opened Canvas

  const DownloadName: string := "fabric-fusion-result.png"
  const ExportType: string := "image/png"
  const CaptionText: string := "FABRIC USED"
  const SwatchBorderWidth: real := 2.0

  /** Where the swatch card goes on an output of a given size. */
  datatype OverlayLayout = OverlayLayout(
    side: real,        // the swatch square's side
    padding: real,     // its distance from the right and bottom edges
    square: Rect,      // the swatch image and its border
    card: Rect,        // the dark background card
    fontSize: real,
    captionX: real,    // the caption's centre
    captionY: real)

  /**
   * The overlay geometry as `handleDownload` computes it from the canvas size:
   * side `max(80, 0.18 w)`, padding `max(20, 0.04 w)`, the square in the
   * bottom-right corner, a card 10% of the side around it with an extra 25%
   * band on top for the caption, font `max(10, 0.15 side)`. The side is never
   * below 80, so the font's floor of 10 never applies.
   */
  function Layout(width: nat, height: nat): (l: OverlayLayout)
    ensures l.side == Max(80.0, 0.18 * width as real) && l.padding == Max(20.0, 0.04 * width as real)
    ensures l.square.w == l.side && l.square.h == l.side
    ensures l.square.Right() + l.padding == width as real && l.square.Bottom() + l.padding == height as real
    ensures l.card == Rect(l.square.x - 0.1 * l.side, l.square.y - 0.35 * l.side, 1.2 * l.side, 1.45 * l.side)
    ensures l.card.Encloses(l.square)
    ensures l.card.Right() <= width as real && l.card.Bottom() <= height as real
    ensures l.card.y <= l.captionY <= l.square.y
    ensures l.captionX == (l.square.x + l.square.Right()) / 2.0
    ensures l.captionY == l.square.y - 0.12 * l.side
    ensures l.fontSize == 0.15 * l.side && l.fontSize >= 12.0
  {
    var w, h := width as real, height as real;
    var side := Max(80.0, w * 0.18);
    var padding := Max(20.0, w * 0.04);
    var x := w - side - padding;
    var y := h - side - padding;
    var cardPadding := side * 0.1;
    var card := Rect(x - cardPadding, y - cardPadding - side * 0.25,
                     side + cardPadding * 2.0, side + cardPadding * 2.0 + side * 0.25);
    OverlayLayout(side, padding, Rect(x, y, side, side), card,
                  Max(10.0, side * 0.15), x + side / 2.0, y - side * 0.12)
  }

  /** A 1000x800 result gets a 180-pixel square, 40 pixels in, at (780, 580). */
  lemma ExampleLayout()
    ensures Layout(1000, 800).side == 180.0 && Layout(1000, 800).padding == 40.0
    ensures Layout(1000, 800).square == Rect(780.0, 580.0, 180.0, 180.0)
  {
  }

  /** The square starts inside the left edge exactly when the output is at least 100 pixels wide. */
  lemma {:induction false} SquareInsideLeftEdge(width: nat, height: nat)
    ensures Layout(width, height).square.x >= 0.0 <==> width >= 100
  {
    var w := width as real;
    if w * 0.18 >= 80.0 {
      assert Layout(width, height).side == 0.18 * w;
      assert w >= 100.0;
    } else if w * 0.04 >= 20.0 {
      assert false;
    }
  }

  /** From 500 pixels of width on, the card scales with the image. */
  lemma ProportionalAboveWidth500(width: nat, height: nat)
    requires width >= 500
    ensures Layout(width, height).side == 0.18 * width as real
    ensures Layout(width, height).padding == 0.04 * width as real
  {
  }

  /** The card, its caption and the swatch border, after a save. */
  function CardOps(l: OverlayLayout): seq<DrawOp>
  {
    [ Save,
      FillRect(l.card),
      FillText(CaptionText, l.captionX, l.captionY, l.fontSize),
      StrokeRect(l.square, SwatchBorderWidth) ]
  }

  /** The whole swatch card: card, caption, border and swatch, between a save and a restore. */
  function OverlayOps(l: OverlayLayout, swatch: ImageRef): seq<DrawOp>
  {
    CardOps(l) + [DrawImage(swatch, None, l.square), Restore]
  }

  /** A decoded image's natural size. */
  datatype Dims = Dims(width: nat, height: nat)

  /**
   * What the browser does during an export: whether the canvas gives a 2D
   * context, the result image's natural size (None: it fired `onerror`),
   * whether the swatch loaded, and what `toDataURL` returns (None: it threw).
   * Drawing a swatch that did not load throws: the HTML Standard's `drawImage`
   * checks the usability of its image argument and throws an
   * "InvalidStateError" for an image in the broken state.
   */
  datatype ExportEnv = ExportEnv(
    contextAvailable: bool,
    mainImage: Option<Dims>,
    swatchLoaded: bool,
    encoded: Option<string>)

  datatype DownloadOutcome =
    | NoDownload
      /** The flattened canvas, encoded as `mimeType`, with the canvas's final state. */
    | CompositeDownload(fileName: string, href: string, mimeType: string, width: nat, height: nat, ops: seq<DrawOp>)
      /** The fallback: a link straight to the result image. */
    | DirectDownload(fileName: string, href: string)

  /** Every command of a composite of a `w` x `h` result, with or without the swatch card. */
  function CompositeOps(result: string, overlay: Option<string>, w: nat, h: nat): seq<DrawOp>
  {
    [DrawImage(ImageRef(result), None, Rect(0.0, 0.0, w as real, h as real))]
    + (if Truthy(overlay) then OverlayOps(Layout(w, h), ImageRef(overlay.value)) else [])
  }

  /** The swatch card's drawing is abandoned by an exception: there is a swatch and it did not load. */
  predicate SwatchThrows(overlay: Option<string>, env: ExportEnv)
  {
    Truthy(overlay) && !env.swatchLoaded
  }

  /** Issues the card, caption and border on `canvas`. */
  method DrawCard(canvas: Canvas2D, l: OverlayLayout)
    modifies canvas
    ensures canvas.ops == old(canvas.ops) + CardOps(l)
    ensures canvas.width == old(canvas.width) && canvas.height == old(canvas.height)
  {
    canvas.Issue(Save);
    canvas.Issue(FillRect(l.card));
    canvas.Issue(FillText(CaptionText, l.captionX, l.captionY, l.fontSize));
    canvas.Issue(StrokeRect(l.square, SwatchBorderWidth));
  }

  /**
   * `handleDownload` as written: flatten `resultImage` and, when present, the
   * swatch card into a canvas of the result's natural size and download it as
   * PNG; any exception, including the one a swatch that did not load raises,
   * falls back to downloading the result image itself.
   */
  method HandleDownload(resultImage: Option<string>, fabricOverlay: Option<string>, env: ExportEnv)
    returns (outcome: DownloadOutcome)
    ensures outcome.NoDownload? <==> !Truthy(resultImage) || !env.contextAvailable
    ensures outcome.CompositeDownload? <==>
      Truthy(resultImage) && env.contextAvailable && env.mainImage.Some? && env.encoded.Some?
      && !SwatchThrows(fabricOverlay, env)
    ensures outcome.DirectDownload? ==> outcome == DirectDownload(DownloadName, resultImage.value)
    ensures outcome.CompositeDownload? ==>
      var dims := env.mainImage.value;
      && outcome.fileName == DownloadName && outcome.mimeType == ExportType
      && outcome.href == env.encoded.value
      && outcome.width == dims.width && outcome.height == dims.height
      && outcome.ops == CompositeOps(resultImage.value, fabricOverlay, dims.width, dims.height)
  {
    if !Truthy(resultImage) {
      return NoDownload;
    }
    var canvas := new Canvas2D();
    if !env.contextAvailable {
      return NoDownload;
    }
    if env.mainImage.None? {
      return DirectDownload(DownloadName, resultImage.value);
    }
    canvas.Resize(env.mainImage.value.width, env.mainImage.value.height);
    canvas.Issue(DrawImage(ImageRef(resultImage.value), None,
                           Rect(0.0, 0.0, canvas.width as real, canvas.height as real)));
    if Truthy(fabricOverlay) {
      var l := Layout(canvas.width, canvas.height);
      DrawCard(canvas, l);
      if !env.swatchLoaded {
        return DirectDownload(DownloadName, resultImage.value);
      }
      canvas.Issue(DrawImage(ImageRef(fabricOverlay.value), None, l.square));
      canvas.Issue(Restore);
    }
    if env.encoded.None? {
      return DirectDownload(DownloadName, resultImage.value);
    }
    outcome := CompositeDownload(DownloadName, env.encoded.value, ExportType,
                                 canvas.width, canvas.height, canvas.ops);
  }

  /**
   * The composite as the swatch's error handler means it: a swatch that did
   * not load is not drawn, and neither is the card that would frame it, so
   * the composite is the result layer alone.
   */
  function IntendedCompositeOps(result: string, overlay: Option<string>, swatchLoaded: bool, w: nat, h: nat): seq<DrawOp>
  {
    CompositeOps(result, if swatchLoaded then overlay else None, w, h)
  }

  /**
   * `handleDownload` corrected: a swatch that did not load, and the card
   * around it, are not drawn, and the composite of the result layer is still
   * downloaded.
   */
  method HandleDownloadSkippingBrokenSwatch(resultImage: Option<string>, fabricOverlay: Option<string>, env: ExportEnv)
    returns (outcome: DownloadOutcome)
    ensures outcome.NoDownload? <==> !Truthy(resultImage) || !env.contextAvailable
    ensures outcome.CompositeDownload? <==>
      Truthy(resultImage) && env.contextAvailable && env.mainImage.Some? && env.encoded.Some?
    ensures outcome.DirectDownload? ==> outcome == DirectDownload(DownloadName, resultImage.value)
    ensures outcome.CompositeDownload? ==>
      var dims := env.mainImage.value;
      && outcome.fileName == DownloadName && outcome.mimeType == ExportType
      && outcome.href == env.encoded.value
      && outcome.width == dims.width && outcome.height == dims.height
      && outcome.ops == IntendedCompositeOps(resultImage.value, fabricOverlay, env.swatchLoaded, dims.width, dims.height)
  {
    if !Truthy(resultImage) {
      return NoDownload;
    }
    var canvas := new Canvas2D();
    if !env.contextAvailable {
      return NoDownload;
    }
    if env.mainImage.None? {
      return DirectDownload(DownloadName, resultImage.value);
    }
    canvas.Resize(env.mainImage.value.width, env.mainImage.value.height);
    canvas.Issue(DrawImage(ImageRef(resultImage.value), None,
                           Rect(0.0, 0.0, canvas.width as real, canvas.height as real)));
    if Truthy(fabricOverlay) && env.swatchLoaded {
      var l := Layout(canvas.width, canvas.height);
      DrawCard(canvas, l);
      canvas.Issue(DrawImage(ImageRef(fabricOverlay.value), None, l.square));
      canvas.Issue(Restore);
    }
    if env.encoded.None? {
      return DirectDownload(DownloadName, resultImage.value);
    }
    outcome := CompositeDownload(DownloadName, env.encoded.value, ExportType,
                                 canvas.width, canvas.height, canvas.ops);
  }

  /**
   * With a loaded swatch, or none, the corrected export draws exactly what the
   * original does; with a swatch that did not load, it draws the result layer alone.
   */
  lemma IntendedAgreesWhenSwatchLoads(result: string, overlay: Option<string>, w: nat, h: nat)
    ensures IntendedCompositeOps(result, overlay, true, w, h) == CompositeOps(result, overlay, w, h)
    ensures IntendedCompositeOps(result, None, false, w, h) == CompositeOps(result, None, w, h)
    ensures IntendedCompositeOps(result, overlay, false, w, h)
            == [DrawImage(ImageRef(result), None, Rect(0.0, 0.0, w as real, h as real))]
  {
  }

  /**
   * A result with a swatch that did not load: the export as written hands
   * over the bare result image by its own URL, while the corrected one
   * downloads the encoded composite of the result layer.
   */
  method BrokenSwatchExample() returns (asWritten: DownloadOutcome, corrected: DownloadOutcome)
    ensures asWritten == DirectDownload(DownloadName, "data:image/png;base64,UkVTVUxU")
    ensures corrected.CompositeDownload? && corrected.width == 1000 && corrected.height == 800
    ensures corrected.href == "data:image/png;base64,Q09NUE9TSVRF"
    ensures corrected.ops == [DrawImage(ImageRef("data:image/png;base64,UkVTVUxU"), None, Rect(0.0, 0.0, 1000.0, 800.0))]
  {
    var env := ExportEnv(true, Some(Dims(1000, 800)), false, Some("data:image/png;base64,Q09NUE9TSVRF"));
    asWritten := HandleDownload(Some("data:image/png;base64,UkVTVUxU"), Some("blob:swatch"), env);
    corrected := HandleDownloadSkippingBrokenSwatch(Some("data:image/png;base64,UkVTVUxU"), Some("blob:swatch"), env);
  }

  /** The composite has the result's size whether or not the swatch card is drawn. */
  lemma CompositeSizeIndependentOfOverlay(result: string, overlay: Option<string>, w: nat, h: nat)
    ensures CompositeOps(result, overlay, w, h)[0] == CompositeOps(result, None, w, h)[0]
    ensures !Truthy(overlay) ==> CompositeOps(result, overlay, w, h) == [DrawImage(ImageRef(result), None, Rect(0.0, 0.0, w as real, h as real))]
    ensures Truthy(overlay) ==> |CompositeOps(result, overlay, w, h)| == 7
  {
  }

  /** The four faces of the panel. */
  datatype Mode = ErrorPanel | LoadingPanel | ResultPanel | Placeholder

  /** An error beats loading, loading beats a result, a result beats the placeholder. */
  function RenderMode(error: Option<string>, isLoading: bool, resultImage: Option<string>): (m: Mode)
    ensures m == ErrorPanel <==> Truthy(error)
    ensures m == LoadingPanel <==> !Truthy(error) && isLoading
    ensures m == ResultPanel <==> !Truthy(error) && !isLoading && Truthy(resultImage)
    ensures m == Placeholder <==> !Truthy(error) && !isLoading && !Truthy(resultImage)
  {
    if Truthy(error) then ErrorPanel
    else if isLoading then LoadingPanel
    else if Truthy(resultImage) then ResultPanel
    else Placeholder
  }
}
