/**
 * The session: the two image slots, the untouched pattern kept for re-cropping,
 * the cropper's visibility, the generation status with its result or error,
 * and the settings; and the handlers that the page wires to its controls.
 */
module App {

  import opened Types
  import ImageCropper
  import ResultDisplay
  import GeminiService

  const NoImageMessage: string := "The model generated text but no image. Please try again with different inputs."
  const DefaultErrorMessage: string := "Something went wrong. Please check your API key and try again."

  /**
   * `err.message || "Something went wrong..."` in the catch block. Reading
   * `message` of `null` or `undefined` throws inside the catch itself, so no
   * message is set: None.
   */
  function ErrorMessage(t: GeminiService.Thrown): (m: Option<string>)
    ensures m.None? <==> t.NullishThrown?
    ensures m.Some? ==> m.value != ""
    ensures t.ErrorThrown? && t.message != "" ==> m == Some(t.message)
    ensures t.ErrorThrown? && t.message == "" ==> m == Some(DefaultErrorMessage)
    ensures t.OtherThrown? && Truthy(t.messageProperty) ==> m == t.messageProperty
    ensures t.OtherThrown? && !Truthy(t.messageProperty) ==> m == Some(DefaultErrorMessage)
  {
    match t
    case ErrorThrown(message) => Some(OrElse(message, DefaultErrorMessage))
    case OtherThrown(property) =>
      Some(if Truthy(property) then property.value else DefaultErrorMessage)
    case NullishThrown => None
  }

  /** The inline part a slot's file becomes, given what the file reader produces. */
  function SlotPart(slot: FileWithPreview, read: File -> GeminiService.ReadOutcome): Result<GeminiService.InlineData, string>
  {
    GeminiService.FileToPart(slot.file, read(slot.file))
  }

  class Session {
    var modelImage: Option<FileWithPreview>
    var patternImage: Option<FileWithPreview>
    /** The pattern as uploaded, before any crop. */
    var originalPatternFile: Option<File>
    var isCropping: bool
    var status: AppStatus
    var resultImage: Option<string>
    var errorMsg: Option<string>
    var settings: GenerationSettings

    /**
     * An original pattern implies a current one; success has an image, and a
     * running generation has neither an image nor a message. An error need
     * not have a message: a thrown `null` leaves none.
     */
    ghost predicate Valid()
      reads this
    {
      && (originalPatternFile.Some? ==> patternImage.Some?)
      && (status == Succeeded ==> Truthy(resultImage))
      && (status == Generating ==> resultImage.None? && errorMsg.None?)
    }

    /** Both images are present. */
    predicate IsReady()
      reads this
    {
      modelImage.Some? && patternImage.Some?
    }

    /** The generate button is enabled. */
    predicate GenerateEnabled()
      reads this
    {
      IsReady() && status != Generating
    }

    /** The crop modal is on screen. */
    predicate CropperShown()
      reads this
    {
      isCropping && (originalPatternFile.Some? || patternImage.Some?)
    }

    /** The file the crop modal works on: the original upload in preference to the current pattern. */
    function CropperFile(): (f: File)
      reads this
      requires CropperShown()
    {
      if originalPatternFile.Some? then originalPatternFile.value else patternImage.value.file
    }

    /** What the result panel shows for this state. */
    function DisplayMode(): ResultDisplay.Mode
      reads this
    {
      ResultDisplay.RenderMode(errorMsg, status == Generating, resultImage)
    }

    constructor ()
      ensures Valid()
      ensures modelImage.None? && patternImage.None? && originalPatternFile.None?
      ensures !isCropping && status == Idle && resultImage.None? && errorMsg.None?
      ensures settings == DefaultSettings()
      ensures DisplayMode() == ResultDisplay.Placeholder
    {
      modelImage, patternImage, originalPatternFile := None, None, None;
      isCropping, status, resultImage, errorMsg := false, Idle, None, None;
      settings := DefaultSettings();
    }

    /** `handleModelSelect`: a finished result goes back to idle; any other status stays. */
    method HandleModelSelect(file: File, previewUrl: string)
      requires Valid()
      modifies this
      ensures Valid()
      ensures modelImage == Some(FileWithPreview(file, previewUrl))
      ensures status == (if old(status) == Succeeded then Idle else old(status))
      ensures patternImage == old(patternImage) && originalPatternFile == old(originalPatternFile)
      ensures isCropping == old(isCropping) && resultImage == old(resultImage)
      ensures errorMsg == old(errorMsg) && settings == old(settings)
    {
      modelImage := Some(FileWithPreview(file, previewUrl));
      if status == Succeeded {
        status := Idle;
      }
    }

    /** `handlePatternSelect`: the upload is both the current and the original pattern, and the cropper opens on it. */
    method HandlePatternSelect(file: File, previewUrl: string)
      requires Valid()
      modifies this
      ensures Valid()
      ensures patternImage == Some(FileWithPreview(file, previewUrl)) && originalPatternFile == Some(file)
      ensures isCropping && CropperShown() && CropperFile() == file
      ensures status == (if old(status) == Succeeded then Idle else old(status))
      ensures modelImage == old(modelImage) && resultImage == old(resultImage)
      ensures errorMsg == old(errorMsg) && settings == old(settings)
    {
      patternImage := Some(FileWithPreview(file, previewUrl));
      originalPatternFile := Some(file);
      isCropping := true;
      if status == Succeeded {
        status := Idle;
      }
    }

    /** `handleCroppedPattern`: the crop becomes the current pattern; the original stays for re-cropping. */
    method HandleCroppedPattern(croppedFile: File, previewUrl: string)
      requires Valid()
      modifies this
      ensures Valid()
      ensures patternImage == Some(FileWithPreview(croppedFile, previewUrl)) && !isCropping && !CropperShown()
      ensures originalPatternFile == old(originalPatternFile)
      ensures modelImage == old(modelImage) && status == old(status) && resultImage == old(resultImage)
      ensures errorMsg == old(errorMsg) && settings == old(settings)
    {
      patternImage := Some(FileWithPreview(croppedFile, previewUrl));
      isCropping := false;
    }

    /**
     * The cropper's `onConfirm` wired to `handleCroppedPattern`: a rejected
     * or abandoned crop calls nothing and leaves the modal open.
     */
    method ApplyCrop(outcome: ImageCropper.CropOutcome, previewUrl: string)
      requires Valid() && CropperShown()
      modifies this
      ensures Valid()
      ensures ImageCropper.ConfirmedFile(outcome, old(CropperFile())).None? ==>
        patternImage == old(patternImage) && isCropping && CropperShown()
      ensures ImageCropper.ConfirmedFile(outcome, old(CropperFile())).Some? ==>
        patternImage == Some(FileWithPreview(ImageCropper.ConfirmedFile(outcome, old(CropperFile())).value, previewUrl))
        && !CropperShown()
      ensures outcome.KeptOriginal? ==> patternImage.value.file == old(CropperFile())
      ensures originalPatternFile == old(originalPatternFile) && modelImage == old(modelImage)
      ensures status == old(status) && resultImage == old(resultImage) && errorMsg == old(errorMsg)
      ensures settings == old(settings)
    {
      var confirmed := ImageCropper.ConfirmedFile(outcome, CropperFile());
      if confirmed.Some? {
        HandleCroppedPattern(confirmed.value, previewUrl);
      }
    }

    /** The cropper's `onCancel`. */
    method CancelCrop()
      requires Valid()
      modifies this`isCropping
      ensures Valid() && !isCropping && !CropperShown()
    {
      isCropping := false;
    }

    /** The pattern slot's crop button: reopens the cropper when there is a pattern to crop. */
    method OnCrop()
      requires Valid()
      modifies this`isCropping
      ensures Valid()
      ensures isCropping == (old(isCropping) || originalPatternFile.Some? || patternImage.Some?)
      ensures CropperShown() <==> originalPatternFile.Some? || patternImage.Some?
      ensures CropperShown() && originalPatternFile.Some? ==> CropperFile() == originalPatternFile.value
    {
      if originalPatternFile.Some? {
        isCropping := true;
      } else if patternImage.Some? {
        isCropping := true;
      }
    }

    /** `clearModel`. The error message is left as it was, so a shown error stays on screen. */
    method ClearModel()
      requires Valid()
      modifies this
      ensures Valid()
      ensures modelImage.None? && status == Idle && resultImage.None? && !IsReady()
      ensures patternImage == old(patternImage) && originalPatternFile == old(originalPatternFile)
      ensures isCropping == old(isCropping) && errorMsg == old(errorMsg) && settings == old(settings)
      ensures DisplayMode() == if Truthy(errorMsg) then ResultDisplay.ErrorPanel else ResultDisplay.Placeholder
    {
      modelImage := None;
      status := Idle;
      resultImage := None;
    }

    /** `clearPattern`: the current and the original pattern both go. */
    method ClearPattern()
      requires Valid()
      modifies this
      ensures Valid()
      ensures patternImage.None? && originalPatternFile.None? && status == Idle && resultImage.None?
      ensures !IsReady() && !CropperShown()
      ensures modelImage == old(modelImage) && isCropping == old(isCropping)
      ensures errorMsg == old(errorMsg) && settings == old(settings)
      ensures DisplayMode() == if Truthy(errorMsg) then ResultDisplay.ErrorPanel else ResultDisplay.Placeholder
    {
      patternImage := None;
      originalPatternFile := None;
      status := Idle;
      resultImage := None;
    }

    /** The settings form's `onUpdate`. */
    method UpdateSettings(newSettings: GenerationSettings)
      requires Valid()
      modifies this`settings
      ensures Valid() && settings == newSettings
    {
      settings := newSettings;
    }

    /** The synchronous part of `handleGenerate`: nothing without both images, else generating with a clean slate. */
    method StartGeneration() returns (started: bool)
      requires Valid()
      modifies this
      ensures Valid()
      ensures started == old(IsReady())
      ensures !started ==> status == old(status) && resultImage == old(resultImage) && errorMsg == old(errorMsg)
      ensures started ==> status == Generating && errorMsg.None? && resultImage.None?
      ensures started ==> DisplayMode() == ResultDisplay.LoadingPanel && !GenerateEnabled()
      ensures modelImage == old(modelImage) && patternImage == old(patternImage)
      ensures originalPatternFile == old(originalPatternFile) && isCropping == old(isCropping)
      ensures settings == old(settings)
    {
      if modelImage.None? || patternImage.None? {
        return false;
      }
      status := Generating;
      errorMsg := None;
      resultImage := None;
      return true;
    }

    /** What happens once the service has answered or thrown. */
    method FinishGeneration(generation: Result<GenerationResult, GeminiService.Thrown>)
      requires Valid()
      modifies this
      ensures Valid()
      ensures status == Succeeded <==> generation.Success? && Truthy(generation.value.imageUrl)
      ensures status == Succeeded ==> resultImage == generation.value.imageUrl && errorMsg == old(errorMsg)
      ensures status != Succeeded ==> status == Errored && resultImage == old(resultImage)
      ensures status == Errored && generation.Success? ==> errorMsg == Some(NoImageMessage)
      ensures generation.Failure? && !generation.error.NullishThrown? ==> errorMsg == ErrorMessage(generation.error)
      ensures generation.Failure? && generation.error.NullishThrown? ==> errorMsg == old(errorMsg)
      ensures modelImage == old(modelImage) && patternImage == old(patternImage)
      ensures originalPatternFile == old(originalPatternFile) && isCropping == old(isCropping)
      ensures settings == old(settings)
    {
      match generation
      case Success(result) =>
        if Truthy(result.imageUrl) {
          resultImage := result.imageUrl;
          status := Succeeded;
        } else {
          status := Errored;
          errorMsg := Some(NoImageMessage);
        }
      case Failure(thrown) =>
        status := Errored;
        var message := ErrorMessage(thrown);
        if message.Some? {
          errorMsg := message;
        }
    }

    /** What the result panel receives as `fabricOverlay`: the current pattern's preview. */
    function Overlay(): Option<string>
      reads this
    {
      if patternImage.Some? then Some(patternImage.value.previewUrl) else None
    }

    /**
     * The result panel's download button, given the current result and the
     * current (possibly cropped) pattern as overlay.
     */
    method Download(env: ResultDisplay.ExportEnv) returns (outcome: ResultDisplay.DownloadOutcome)
      ensures DisplayMode() == ResultDisplay.ResultPanel && env.contextAvailable ==> !outcome.NoDownload?
      ensures DisplayMode() == ResultDisplay.ResultPanel && env.contextAvailable && env.mainImage.Some? && env.encoded.Some?
              && !ResultDisplay.SwatchThrows(Overlay(), env)
              ==> outcome.CompositeDownload?
      ensures DisplayMode() == ResultDisplay.ResultPanel && env.contextAvailable && ResultDisplay.SwatchThrows(Overlay(), env)
              ==> outcome == ResultDisplay.DirectDownload(ResultDisplay.DownloadName, resultImage.value)
      ensures outcome.CompositeDownload? ==>
        resultImage.Some? && outcome.ops == ResultDisplay.CompositeOps(resultImage.value, Overlay(), outcome.width, outcome.height)
      ensures outcome.DirectDownload? ==> resultImage.Some? && outcome.href == resultImage.value
    {
      outcome := ResultDisplay.HandleDownload(resultImage, Overlay(), env);
    }

    /** The same button wired to the corrected export, which leaves out a swatch that did not load. */
    method DownloadCorrected(env: ResultDisplay.ExportEnv) returns (outcome: ResultDisplay.DownloadOutcome)
      ensures DisplayMode() == ResultDisplay.ResultPanel && env.contextAvailable ==> !outcome.NoDownload?
      ensures DisplayMode() == ResultDisplay.ResultPanel && env.contextAvailable && env.mainImage.Some? && env.encoded.Some?
              ==> outcome.CompositeDownload?
      ensures outcome.CompositeDownload? ==>
        resultImage.Some? && outcome.ops == ResultDisplay.IntendedCompositeOps(resultImage.value, Overlay(), env.swatchLoaded, outcome.width, outcome.height)
      ensures outcome.DirectDownload? ==> resultImage.Some? && outcome.href == resultImage.value
    {
      outcome := ResultDisplay.HandleDownloadSkippingBrokenSwatch(resultImage, Overlay(), env);
    }

    /**
     * `handleGenerate` run to completion with the service's environment:
     * `apiKey`, the file reader and the model call. Also returned: the request
     * the service sent, if it got that far.
     */
    method HandleGenerate(
      apiKey: Option<string>,
      read: File -> GeminiService.ReadOutcome,
      call: GeminiService.Request -> GeminiService.CallOutcome)
      returns (generation: Option<Result<GenerationResult, GeminiService.Thrown>>,
               request: Option<GeminiService.Request>)
      requires Valid()
      modifies this
      ensures Valid()
      ensures modelImage == old(modelImage) && patternImage == old(patternImage)
      ensures originalPatternFile == old(originalPatternFile) && isCropping == old(isCropping)
      ensures settings == old(settings)
      ensures generation.None? <==> !IsReady()
      ensures generation.None? ==>
        status == old(status) && resultImage == old(resultImage) && errorMsg == old(errorMsg) && request.None?
      // what was sent: the session's model file, then its pattern file, with its settings
      ensures generation.Some? ==>
        (request.Some? <==>
           Truthy(apiKey) && SlotPart(modelImage.value, read).Success? && SlotPart(patternImage.value, read).Success?)
      ensures request.Some? ==>
        && generation.Some? && IsReady()
        && SlotPart(modelImage.value, read).Success? && SlotPart(patternImage.value, read).Success?
        && request.value == GeminiService.Request(GeminiService.ModelName, GeminiService.Configuration(settings),
             [SlotPart(modelImage.value, read).value, SlotPart(patternImage.value, read).value])
        && match call(request.value)
           case CallThrew(t) => generation.value == Failure(GeminiService.Wrap(t))
           case Responded(resp) =>
             var parts := GeminiService.FirstCandidateParts(resp);
             generation.value == Success(GenerationResult(GeminiService.LastImageUrl(parts), GeminiService.LastText(parts)))
      // what came back before anything was sent
      ensures generation.Some? && !Truthy(apiKey) ==>
        && generation.value == Failure(GeminiService.ErrorThrown(GeminiService.ApiKeyMissingMessage))
        && errorMsg == Some(GeminiService.ApiKeyMissingMessage) && DisplayMode() == ResultDisplay.ErrorPanel
      ensures generation.Some? && Truthy(apiKey) && SlotPart(modelImage.value, read).Failure? ==>
        generation.value == Failure(GeminiService.ErrorThrown(
          GeminiService.GenerationFailedPrefix + SlotPart(modelImage.value, read).error))
      ensures generation.Some? && Truthy(apiKey) && SlotPart(modelImage.value, read).Success?
              && SlotPart(patternImage.value, read).Failure? ==>
        generation.value == Failure(GeminiService.ErrorThrown(
          GeminiService.GenerationFailedPrefix + SlotPart(patternImage.value, read).error))
      // the session afterwards
      ensures generation.Some? ==>
        && (status == Succeeded <==> generation.value.Success? && Truthy(generation.value.value.imageUrl))
        && (status == Succeeded ==> resultImage == generation.value.value.imageUrl
                                    && DisplayMode() == ResultDisplay.ResultPanel)
        && (status != Succeeded ==> status == Errored && resultImage.None?)
        && (generation.value.Success? && status == Errored ==>
              errorMsg == Some(NoImageMessage) && DisplayMode() == ResultDisplay.ErrorPanel)
        && (generation.value.Failure? && !generation.value.error.NullishThrown? ==>
              errorMsg == ErrorMessage(generation.value.error) && DisplayMode() == ResultDisplay.ErrorPanel)
        && (generation.value.Failure? && generation.value.error.NullishThrown? ==>
              errorMsg.None? && DisplayMode() == ResultDisplay.Placeholder)
    {
      var started := StartGeneration();
      if !started {
        return None, None;
      }
      var r, _, sent := GeminiService.GenerateFabricOverlay(
        apiKey, modelImage.value.file, patternImage.value.file, settings, read, call);
      FinishGeneration(r);
      generation, request := Some(r), sent;
    }
  }
}
