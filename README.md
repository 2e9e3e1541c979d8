# FabricFusion core, modelled in Dafny

FabricFusion is a single-page React app for virtual try-on. The user uploads a photo of a model and a fabric swatch. They may crop the swatch to the part of the pattern they want, choose a scale, a material, a target garment and free-form notes, and ask an image-generation model to re-dress the photo in that fabric. The result can be downloaded as a PNG with a small "FABRIC USED" swatch card burnt into its bottom-right corner.

This project models the logic that decides what happens in that flow:

- `types.dfy` (module `Types`): the session's value types. These are the status enum, the three setting enumerations with their string values, the settings record, files with their bytes and MIME type, and JavaScript truthiness of an optional string.
- `strings.dfy` (module `Strings`): JavaScript's `String.prototype.split` on a single character, with its round trip through `join`, and substring containment.
- `canvas.dfy` (module `Canvas`): an HTML canvas as a raster size plus the list of 2D drawing commands issued on it.
- `image_cropper.dfy` (module `ImageCropper`): the crop modal.
  - The drag state machine `CropEngine` holds the anchor and the selection.
  - The clamping and bounding-box arithmetic, and the display-to-native mapping with flooring.
  - The output file's type and name.
  - `HandleCrop`'s ordered decision chain, which either confirms the original file, confirms a cropped one, rejects the selection or does nothing.
- `result_display.dfy` (module `ResultDisplay`): the result panel's render-mode priority. It also covers the export: canvas sizing, the swatch-card geometry, the drawing commands and the two fallback paths.
- `gemini_service.dfy` (module `GeminiService`):
  - the file-to-inline-data conversion and its validation;
  - the choice of the three instruction variants and the custom-notes line;
  - the response-parsing loop;
  - the API-key check, the request sent, and error wrapping.
- `app.dfy` (module `App`): the session as a class `Session`. Its handlers mutate the fields in the order the page's handlers call the setters. It also has the derived state `IsReady`, `GenerateEnabled`, `CropperShown`, `CropperFile` and `DisplayMode`.

Everything the browser or the SDK decides is a parameter:

- The displayed image's bounding rectangle, its display and natural size and its URL (`ImageCropper.ImageView`).
- Whether a canvas yields a 2D context.
- What `toBlob` hands back.
- Whether the result and swatch images load, and what `toDataURL` returns (`ResultDisplay.ExportEnv`).
- What the file reader produces (`read`).
- What the model call returns or throws (`call`).
- The API key.

## Model

| member | source | states |
|---|---|---|
| Types.DefaultSettings | App.tsx:20-25 | The initial settings are original scale, original fabric, whole outfit and no custom notes, and their string values are `original`, `original`, `whole outfit` |
| Types.NamesInjective | types.ts:18-20 | Distinct enumeration members have distinct string values, so the prompt names them unambiguously |
| Strings.Split | services/geminiService.ts:23 | `split` yields at least one field and no field contains the separator |
| Strings.JoinSplit | services/geminiService.ts:23 | Joining the fields of a split with the separator gives back the original string |
| Strings.SplitHasSecondField | services/geminiService.ts:18-23 | A split has a second field exactly when the string contains the separator |
| ImageCropper.Clamp | components/ImageCropper.tsx:34-35 | The clamped coordinate lies in `[0, bound]` and equals the input when the input is already inside |
| ImageCropper.ClampedPointer | components/ImageCropper.tsx:33-35 | The pointer is the client position minus the image's on-screen corner, each axis clamped to the displayed width or height |
| ImageCropper.BoundingBox | components/ImageCropper.tsx:37-42 | The selection has non-negative width and height, its left and top edges are the minima of anchor and pointer, and its right and bottom edges are the maxima |
| ImageCropper.SelectionInsideImage | components/ImageCropper.tsx:34-42 | With the anchor inside the displayed image, the selection after any move lies inside it too |
| ImageCropper.PlanCrop | components/ImageCropper.tsx:69-92 | The output is `floor(w * natural/displayed)` by `floor(h * natural/displayed)`, and the source rectangle, corner and extent, is the selection scaled by the same factors |
| ImageCropper.PlanWithinNativeImage | components/ImageCropper.tsx:69-97 | A selection inside the displayed image maps to a source rectangle inside the natural-size image, and the floored sizes never exceed its extent |
| ImageCropper.DragMapsIntoNativeImage | components/ImageCropper.tsx:31-97 | A drag the engine records from an anchor inside the image, on an element whose on-screen box is no larger than its layout size, crops a region inside the native image and never asks for more pixels than it has |
| ImageCropper.CroppedType | components/ImageCropper.tsx:102 | The cropped file's type is the original's type, or `image/png` when that is empty |
| ImageCropper.Extension | components/ImageCropper.tsx:103 | The extension is never empty and never contains `/` |
| ImageCropper.ExtensionIsSubtype | components/ImageCropper.tsx:103 | For a `top/sub` type with a non-empty, slash-free subtype, the extension is exactly the subtype |
| ImageCropper.ExtensionWithoutSlash | components/ImageCropper.tsx:103 | A type without `/` gets the extension `png` |
| ImageCropper.ConfirmedFile | components/ImageCropper.tsx:50-110 | The file handed to `onConfirm`: the original file for every fallback, the cropped file for a crop, and nothing for a rejected selection or a missing context |
| ImageCropper.CropEngine.constructor | components/ImageCropper.tsx:13-14 | A fresh modal has no anchor and no selection |
| ImageCropper.CropEngine.MouseDown | components/ImageCropper.tsx:22-29 | Without an image nothing changes; otherwise the unclamped anchor is recorded and the selection is reset to a zero-size rectangle there |
| ImageCropper.CropEngine.MouseMove | components/ImageCropper.tsx:31-43 | Without an anchor or an image nothing changes; otherwise the selection becomes the bounding box of the anchor and the clamped pointer, and the anchor stays |
| ImageCropper.CropEngine.MouseUp | components/ImageCropper.tsx:45-47 | Mouse-up or mouse-leave clears the anchor and keeps the selection |
| ImageCropper.CropEngine.HandleCrop | components/ImageCropper.tsx:49-112 | The checks come in order: no image or selection, a side under 10 display pixels, a zero display size, a native side under 50, no context, no blob. Each outcome holds exactly when its check is the first to fire. A crop is named `cropped-fabric.<ext>` and typed as the original, draws the scaled source into a canvas of exactly the floored size, and carries the blob's bytes |
| ImageCropper.ExamplePointer | components/ImageCropper.tsx:33-35 | On a 300x400 display of a 1200x1600 image, a pointer at (150, 150) is inside and is not moved by the clamp |
| ImageCropper.ExampleDragSelection | components/ImageCropper.tsx:37-42 | A drag from (50, 50) to (150, 150) selects (50, 50, 100, 100) |
| ImageCropper.ExampleDragPlan | components/ImageCropper.tsx:69-74 | That selection passes the display checks and crops the native region (200, 200, 400, 400) into a 400x400 output |
| ImageCropper.ClickScenario | components/ImageCropper.tsx:22-59 | Mouse-down at (20, 20), a move to (25, 25), mouse-up and confirm give a 5x5 selection, which counts as a click: the outcome is the tiny-selection fallback and the original file is handed back |
| ResultDisplay.Layout | components/ResultDisplay.tsx:46-87 | The square's side `s` is `max(80, 0.18w)`, and it sits in the bottom-right corner at `max(20, 0.04w)` from both edges. The card is `(x - 0.1s, y - 0.35s, 1.2s, 1.45s)`, so it encloses the square and stays inside the right and bottom edges. The caption is centred over the square at `y - 0.12s`, within the card's top band. The font is `0.15s`, at least 12, so the floor of 10 never applies |
| ResultDisplay.ExampleLayout | components/ResultDisplay.tsx:47-52 | A 1000x800 result gets a 180-pixel square, 40 pixels in, at (780, 580) |
| ResultDisplay.SquareInsideLeftEdge | components/ResultDisplay.tsx:47-51 | The square starts inside the left edge exactly when the output is at least 100 pixels wide |
| ResultDisplay.ProportionalAboveWidth500 | components/ResultDisplay.tsx:47-48 | From 500 pixels of width on, side and padding are 18% and 4% of the width |
| ResultDisplay.HandleDownload | components/ResultDisplay.tsx:12-110 | As written. Nothing happens without a result image or a 2D context. A composite happens exactly when the result decodes, there is no swatch or it loaded, and `toDataURL` succeeds. It is named `fabric-fusion-result.png`, typed `image/png`, sized to the result's natural size, and drawn as the result followed, when there is an overlay, by the card, caption, border and swatch between save and restore. Every other outcome is a direct link to the result image under the same name |
| ResultDisplay.HandleDownloadSkippingBrokenSwatch | components/ResultDisplay.tsx:37-90 | Corrected: a composite happens exactly when the result decodes and `toDataURL` succeeds, whether or not the swatch loaded. A swatch that did not load is left out together with its card, caption and border, so the composite is the result layer alone; otherwise the commands are as in `HandleDownload` |
| ResultDisplay.IntendedAgreesWhenSwatchLoads | components/ResultDisplay.tsx:37-89 | With a swatch that loads, or no overlay, the corrected export draws exactly what the code as written draws; with a swatch that did not load, it draws only the result at the canvas's full size |
| ResultDisplay.BrokenSwatchExample | components/ResultDisplay.tsx:38-44 | On a 1000x800 result whose swatch does not load, the export as written hands over the bare result image by its own URL, while the corrected one downloads the encoded 1000x800 composite holding only the result layer |
| ResultDisplay.CompositeSizeIndependentOfOverlay | components/ResultDisplay.tsx:30-37 | The result is drawn at the canvas's full size whether or not there is an overlay, and the overlay adds six commands |
| ResultDisplay.RenderMode | components/ResultDisplay.tsx:112-183 | The panel shows the error exactly when there is one, loading exactly when there is no error and a generation is running, the result exactly when neither holds and there is a result, and the placeholder otherwise |
| GeminiService.FileToPart | services/geminiService.ts:7-34 | An empty file is rejected with `File is empty`, a failed read with `File reading failed: ` and the reader's error, and a read result that is empty or has no comma with `Failed to read file data`. Otherwise the data is the second comma-separated field and the type is the file's, or `image/png` when empty |
| GeminiService.PayloadOfDataUrl | services/geminiService.ts:18-28 | Reading back a `data:<type>;base64,<payload>` URL recovers the payload exactly, whenever the payload has no comma |
| GeminiService.MaterialInstruction | services/geminiService.ts:53-55 | The generic material text is used exactly when the fabric is `original`; otherwise the text names the fabric |
| GeminiService.ScaleInstruction | services/geminiService.ts:57-59 | The generic scale text is used exactly when the scale is `original`; otherwise the text names the scale |
| GeminiService.TargetInstruction | services/geminiService.ts:61-63 | The generic targeting text is used exactly when the target is `whole outfit`; otherwise the text names the garment |
| GeminiService.CustomNotesLine | services/geminiService.ts:79 | The custom-notes line is empty exactly when the custom prompt is empty, and otherwise carries it after `4. CUSTOM NOTES: ` |
| GeminiService.MaterialInjective | services/geminiService.ts:53-55 | Different fabrics give different material instructions |
| GeminiService.ScaleInjective | services/geminiService.ts:57-59 | Different scales give different scale instructions |
| GeminiService.TargetInjective | services/geminiService.ts:61-63 | Different targets give different targeting instructions |
| GeminiService.ConfigurationInjective | services/geminiService.ts:75-79 | The configuration block determines the settings: different settings give different prompts |
| GeminiService.LastImageUrlIsLastInlinePart | services/geminiService.ts:109-114 | The image URL is the `data:` URL of the last part with inline data, and is absent exactly when no part has inline data |
| GeminiService.LastTextIsLastTextPart | services/geminiService.ts:109-114 | The text is that of the last part that has non-empty text and no inline data, and is absent exactly when there is none |
| GeminiService.ParseResponse | services/geminiService.ts:101-119 | The loop examines only the first candidate's parts and returns their last image URL and last text; no candidate or no parts gives none and none |
| GeminiService.Wrap | services/geminiService.ts:121-127 | An `Error` is re-thrown with the prefix `Generation failed: `; any other value, `null` and `undefined` included, is re-thrown unchanged |
| GeminiService.GenerateFabricOverlay | services/geminiService.ts:36-129 | A missing API key throws its own unprefixed message before any file is read. Otherwise the model image is read and then the pattern image, and a read failure surfaces prefixed. One request goes to `gemini-2.5-flash-image` with the configuration for the settings and the two parts in order. A response yields exactly what the parsing loop finds, and a throw is wrapped |
| App.ErrorMessage | App.tsx:83-87 | For an `Error`, or any other value with a string `message`, the message shown is that message when non-empty and the default message otherwise; a value without one gets the default. A message is never empty. For `null` or `undefined` there is none, because reading its `message` throws |
| App.Session.constructor | App.tsx:11-25 | A fresh session has no images, no crop, status idle, no result or error, the default settings, and shows the placeholder |
| App.Session.HandleModelSelect | App.tsx:27-31 | The model slot holds the new file; a succeeded status becomes idle and any other status stays; nothing else changes |
| App.Session.HandlePatternSelect | App.tsx:33-40 | The file becomes both the current and the original pattern, and the cropper opens on it; a succeeded status becomes idle; nothing else changes |
| App.Session.HandleCroppedPattern | App.tsx:42-50 | The cropped file becomes the current pattern and the cropper closes; the original pattern and everything else stay |
| App.Session.ApplyCrop | App.tsx:248-253 | The cropper works on the original pattern in preference to the current one. The file it confirms replaces the pattern and closes it; a rejected selection leaves it open and the pattern unchanged |
| App.Session.CancelCrop | App.tsx:252 | Cancelling closes the cropper and changes nothing else |
| App.Session.OnCrop | App.tsx:159-162 | The crop button opens the cropper exactly when there is an original or a current pattern, and then it works on the original |
| App.Session.ClearModel | App.tsx:52-57 | The model slot empties, status becomes idle and the result goes. An error already shown stays on screen, because the message is kept |
| App.Session.ClearPattern | App.tsx:59-65 | The current and the original pattern both go, status becomes idle and the result goes; the cropper cannot be shown; the message is kept |
| App.Session.UpdateSettings | App.tsx:171 | The settings form replaces the settings |
| App.Session.StartGeneration | App.tsx:67-72 | Generation starts exactly when both images are present (`IsReady`). It then clears the error and the result, shows the loading panel and disables the button (`GenerateEnabled` is false). Otherwise nothing changes |
| App.Session.FinishGeneration | App.tsx:74-87 | Success exactly when the service returned a truthy image URL, which becomes the result. A text-only answer is an error with the no-image message; a throw is an error with `ErrorMessage` of it. A thrown `null` or `undefined` sets the error status before the catch block fails, and leaves the message as it was |
| App.Session.HandleGenerate | App.tsx:67-88 | Without both images nothing happens. A missing API key ends in the error panel with its own message. Read failures of the model file, then of the pattern file, come back prefixed. Otherwise the request sent carries the model name, the configuration for the session's settings, and the parts of the session's model file and pattern file in that order. The answer is what the response parses to, or the wrapped throw. The session then shows the result exactly when an image came back. Otherwise it shows the error with no result, except after a thrown `null`, which leaves the placeholder on screen |
| App.Session.Download | components/ResultDisplay.tsx:12-110 | The result panel's download as the page wires it (App.tsx:215-220), given the current result and the current pattern's preview as overlay. When the panel shows a result and a context exists, something is downloaded. It is the composite of `CompositeOps` when the result also decodes and encodes and the swatch does not throw; a swatch that did not load gives the direct link to the result |
| App.Session.DownloadCorrected | components/ResultDisplay.tsx:37-44 | The same button with the corrected export: when the panel shows a result that decodes and encodes, the composite is downloaded whether or not the swatch loaded, with the commands of `IntendedCompositeOps` |

## Left out

- Pixels, image decoding and encoding, `toBlob` and `toDataURL`, and the `<a>` click that starts a download are browser facilities. The model records the drawing commands and takes decoding and encoding outcomes as parameters.
- IEEE-754 arithmetic: coordinates and factors are exact reals and `Math.floor` is `.Floor`.
- `FileReader`, `process.env`, the SDK client and the network are parameters (`read`, `apiKey`, `call`). The base64 encoding a real reader performs is not modelled; the reader's output string is taken as given.
- Promise timing and async interleaving: each handler runs to completion. The code has no reentrancy guard for crop confirmation or export, and none is modelled; only generation is gated, by the disabled button.
- `URL.createObjectURL` and `revokeObjectURL`: preview URLs are parameters and revocation is not modelled. `alert` and `console.error` are not modelled.
- The fixed body of the prompt surrounding the configuration block. `Configuration` models only the four numbered configuration lines.
- `components/UploadZone.tsx` and `components/ControlPanel.tsx` are not part of this model beyond the settings record they pass back.
- JSX, styling, shadows, colours, fonts, text alignment, and the rounded or clipped shapes, which are cosmetic.
- Canvas drawing state (`fillStyle`, `shadowBlur`, `strokeStyle`, `font`) is not recorded; only the geometry of each command is.
- ImageCropper.CropEngine.MouseDown: the anchor is stored unclamped, as in the code. So `SelectionInsideImage` assumes an anchor inside the displayed image; the mouse listeners sit on the cropper frame, so a press on its 2-pixel border lies outside the image.
- ImageCropper.CropEngine.HandleCrop: the blob is recorded with the type the code declares for the file, not the type the browser actually encoded. A browser that does not support the requested type encodes PNG while the file keeps the original type.
- ImageCropper.CropEngine.HandleCrop: the type and the 0.95 quality passed to `toBlob` are not recorded; the blob is a parameter.
- App.ErrorMessage: a `message` property that is truthy but not a string, such as a number, is shown by the page as that value; the model treats it as missing and gives the default message.
- App.Session.HandleGenerate: the intermediate loading state is stated by `StartGeneration`, and the final state by this method; the re-render between them is not modelled.
- `IsReady`, `GenerateEnabled`, `CropperShown`, `CropperFile` and `DisplayMode` are the page's derived state. They are stated through the handlers above rather than as rows of their own.

## Findings

| source | as written | input that shows it | evidently intended | confidence | as-written member | corrected member |
|---|---|---|---|---|---|---|
| components/ResultDisplay.tsx:38-44 | The swatch's `onerror` resolves the wait with the comment "just don't draw it", but line 87 draws it anyway. The HTML Standard makes `drawImage` throw for an image in the broken state, so the catch at lines 100-109 hands over the bare result image | a result image that decodes, with a `fabricOverlay` URL that fails to load (`BrokenSwatchExample`) | the composite is still downloaded, without the swatch; since the card, caption and border only frame the swatch, they are left out with it, and the composite is the result layer alone | medium, not executed | ResultDisplay.HandleDownload | ResultDisplay.HandleDownloadSkippingBrokenSwatch |
