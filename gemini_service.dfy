/**
 * The request to the image-generation model and the reading of its answer:
 * turning files into inline image parts, choosing the configuration lines of
 * the prompt from the settings, picking the image and text out of the
 * response, and wrapping errors. The model call itself is a parameter.
 */
module GeminiService {

  import opened Types
  import Strings

  const ModelName: string := "gemini-2.5-flash-image"
  const FallbackMimeType: string := "image/png"

  const ApiKeyMissingMessage: string := "API Key is missing. Please check your environment configuration."
  const EmptyFileMessage: string := "File is empty"
  const ReadDataMessage: string := "Failed to read file data"
  const ReadFailedPrefix: string := "File reading failed: "
  const GenerationFailedPrefix: string := "Generation failed: "

  // ---------------------------------------------------------------- files

  /** An image as the model receives it: base64 payload and MIME type. */
  datatype InlineData = InlineData(data: string, mimeType: string)

  /** How `readAsDataURL` ended: an `error` event, or `loadend` with `reader.result`. */
  datatype ReadOutcome = ReadFailed(error: string) | ReadLoaded(result: Option<string>)

  /**
   * `fileToPart`: an empty file is refused before it is read; a read error,
   * an empty result or one without a comma is refused; otherwise the second
   * comma-separated field is the payload and the file's type, or PNG, the
   * MIME type. Failures carry the message of the `Error` rejected with.
   */
  function FileToPart(file: File, read: ReadOutcome): (r: Result<InlineData, string>)
    ensures file.Size() == 0 ==> r == Failure(EmptyFileMessage)
    ensures r.Failure? <==>
      file.Size() == 0 || read.ReadFailed? || !Truthy(read.result) || ',' !in read.result.value
    ensures file.Size() > 0 && read.ReadFailed? ==> r == Failure(ReadFailedPrefix + read.error)
    ensures file.Size() > 0 && read.ReadLoaded? && (!Truthy(read.result) || ',' !in read.result.value) ==>
      r == Failure(ReadDataMessage)
    ensures r.Success? ==>
      && Strings.Field(read.result.value, ',', 1) == Some(r.value.data)
      && ',' !in r.value.data
      && r.value.mimeType == OrElse(file.mimeType, FallbackMimeType)
  {
    if file.Size() == 0 then Failure(EmptyFileMessage)
    else match read
      case ReadFailed(e) => Failure(ReadFailedPrefix + e)
      case ReadLoaded(result) =>
        if !Truthy(result) || ',' !in result.value then Failure(ReadDataMessage)
        else
          Strings.SplitHasSecondField(result.value, ',');
          var parts := Strings.Split(result.value, ',');
          Success(InlineData(parts[1], OrElse(file.mimeType, FallbackMimeType)))
  }

  /** The `data:` URL a part is sent or received as. */
  function DataUrl(d: InlineData): string
  {
    "data:" + d.mimeType + ";base64," + d.data
  }

  /** Reading back a data URL gives its base64 payload. */
  lemma {:induction false} PayloadOfDataUrl(file: File, d: InlineData)
    requires file.Size() > 0 && ',' !in d.mimeType && ',' !in d.data
    ensures FileToPart(file, ReadLoaded(Some(DataUrl(d)))).Success?
    ensures FileToPart(file, ReadLoaded(Some(DataUrl(d)))).value.data == d.data
  {
    var head := "data:" + d.mimeType + ";base64";
    assert ',' !in "data:" && ',' !in ";base64";
    assert ',' !in head;
    assert DataUrl(d) == head + [','] + d.data;
    Strings.SplitAfterPlainPrefix(head, ',', d.data);
    Strings.SplitWithoutSeparator(d.data, ',');
  }

  // ---------------------------------------------------------------- prompt

  const GenericMaterial: string := "MATERIAL: Maintain the original fabric weight and texture feel, but apply the new pattern."
  const MaterialLead: string := "MATERIAL SIMULATION: Simulate the physical properties of "
  const MaterialMid: string := ". Ensure the light reflection, drape, and texture micro-details match real "
  const MaterialTail: string := " fabric."

  const GenericScale: string := "PATTERN SCALE: Use the pattern scale exactly as it appears in the swatch relative to the garment."
  const ScaleLead: string := "PATTERN SCALE: The pattern from Image 2 must be tiled at a "
  const ScaleMid: string := " scale. Adjust the repeat size to look realistic for a "
  const ScaleTail: string := " print."

  const GenericTarget: string := "TARGETING: Apply the new fabric to the primary outfit worn by the model."
  const TargetLead: string := "TARGETING: Apply the new fabric ONLY to the "
  const TargetTail: string := " of the model. Keep all other garments and accessories unchanged."

  const CustomNotesPrefix: string := "4. CUSTOM NOTES: "

  /** The material line: generic for the original fabric, otherwise naming the fabric twice. */
  function MaterialInstruction(f: FabricType): (r: string)
    ensures r == GenericMaterial <==> FabricName(f) == "original"
    ensures FabricName(f) != "original" ==> Strings.Contains(r, FabricName(f))
  {
    var n := FabricName(f);
    if n != "original" then
      var tail := MaterialMid + n + MaterialTail;
      Strings.ConcatContains(MaterialLead, n, tail);
      assert |MaterialLead + n + tail| > |GenericMaterial|;
      MaterialLead + n + tail
    else GenericMaterial
  }

  /** The scale line: generic for the original scale, otherwise naming the scale twice. */
  function ScaleInstruction(s: PatternScale): (r: string)
    ensures r == GenericScale <==> ScaleName(s) == "original"
    ensures ScaleName(s) != "original" ==> Strings.Contains(r, ScaleName(s))
  {
    var n := ScaleName(s);
    if n != "original" then
      var tail := ScaleMid + n + ScaleTail;
      Strings.ConcatContains(ScaleLead, n, tail);
      assert |ScaleLead + n + tail| > |GenericScale|;
      ScaleLead + n + tail
    else GenericScale
  }

  /** The targeting line: generic for the whole outfit, otherwise naming the area. */
  function TargetInstruction(a: TargetArea): (r: string)
    ensures r == GenericTarget <==> AreaName(a) == "whole outfit"
    ensures AreaName(a) != "whole outfit" ==> Strings.Contains(r, AreaName(a))
  {
    var n := AreaName(a);
    if n != "whole outfit" then
      Strings.ConcatContains(TargetLead, n, TargetTail);
      assert |TargetLead + n + TargetTail| > |GenericTarget|;
      TargetLead + n + TargetTail
    else GenericTarget
  }

  /** The optional fourth line. */
  function CustomNotesLine(customPrompt: string): (r: string)
    ensures r == "" <==> customPrompt == ""
    ensures customPrompt != "" ==> r == CustomNotesPrefix + customPrompt
  {
    if customPrompt != "" then CustomNotesPrefix + customPrompt else ""
  }

  /**
   * The "Configuration" block of the prompt, line by line. The fixed text
   * around it does not depend on the settings and is not modelled.
   */
  function Configuration(settings: GenerationSettings): seq<string>
  {
    [ "1. " + TargetInstruction(settings.targetArea),
      "2. " + MaterialInstruction(settings.fabricType),
      "3. " + ScaleInstruction(settings.scale),
      CustomNotesLine(settings.customPrompt) ]
  }

  /** A template that mentions its argument twice determines the argument. */
  lemma TwiceInterpolatedDetermines(p: string, q: string, t: string, a: string, b: string)
    requires p + a + (q + a + t) == p + b + (q + b + t)
    ensures a == b
  {
    var s := p + a + (q + a + t);
    assert |a| == |b|;
    assert s[|p|..|p| + |a|] == a;
    assert (p + b + (q + b + t))[|p|..|p| + |b|] == b;
  }

  /** Prefixing both sides of an equation with the same text can be undone. */
  lemma PrefixCancels(p: string, a: string, b: string)
    requires p + a == p + b
    ensures a == b
  {
    assert (p + a)[|p|..] == a;
    assert (p + b)[|p|..] == b;
  }

  /** Different settings give different configuration blocks: the prompt loses nothing. */
  lemma ConfigurationInjective(s1: GenerationSettings, s2: GenerationSettings)
    requires Configuration(s1) == Configuration(s2)
    ensures s1 == s2
  {
    NamesInjective();
    PrefixCancels("1. ", TargetInstruction(s1.targetArea), TargetInstruction(s2.targetArea));
    PrefixCancels("2. ", MaterialInstruction(s1.fabricType), MaterialInstruction(s2.fabricType));
    PrefixCancels("3. ", ScaleInstruction(s1.scale), ScaleInstruction(s2.scale));
    MaterialInjective(s1.fabricType, s2.fabricType);
    ScaleInjective(s1.scale, s2.scale);
    TargetInjective(s1.targetArea, s2.targetArea);
    if s1.customPrompt != "" && s2.customPrompt != "" {
      PrefixCancels(CustomNotesPrefix, s1.customPrompt, s2.customPrompt);
    }
  }

  lemma MaterialInjective(a: FabricType, b: FabricType)
    requires MaterialInstruction(a) == MaterialInstruction(b)
    ensures a == b
  {
    NamesInjective();
    if FabricName(a) != "original" && FabricName(b) != "original" {
      TwiceInterpolatedDetermines(MaterialLead, MaterialMid, MaterialTail, FabricName(a), FabricName(b));
    }
  }

  lemma ScaleInjective(a: PatternScale, b: PatternScale)
    requires ScaleInstruction(a) == ScaleInstruction(b)
    ensures a == b
  {
    NamesInjective();
    if ScaleName(a) != "original" && ScaleName(b) != "original" {
      TwiceInterpolatedDetermines(ScaleLead, ScaleMid, ScaleTail, ScaleName(a), ScaleName(b));
    }
  }

  lemma TargetInjective(a: TargetArea, b: TargetArea)
    requires TargetInstruction(a) == TargetInstruction(b)
    ensures a == b
  {
    NamesInjective();
    if AreaName(a) != "whole outfit" && AreaName(b) != "whole outfit" {
      var p, t := TargetLead, TargetTail;
      var sa, sb := p + AreaName(a) + t, p + AreaName(b) + t;
      assert |AreaName(a)| == |AreaName(b)|;
      assert sa[|p|..|p| + |AreaName(a)|] == AreaName(a);
      assert sb[|p|..|p| + |AreaName(b)|] == AreaName(b);
    }
  }

  // ---------------------------------------------------------------- response

  datatype Part = Part(inlineData: Option<InlineData>, text: Option<string>)
  datatype Content = Content(parts: Option<seq<Part>>)
  datatype Candidate = Candidate(content: Option<Content>)
  datatype Response = Response(candidates: Option<seq<Candidate>>)

  /** The parts of the first candidate; none when any level is missing. */
  function FirstCandidateParts(resp: Response): seq<Part>
  {
    if resp.candidates.Some? && |resp.candidates.value| > 0 then
      var content := resp.candidates.value[0].content;
      if content.Some? && content.value.parts.Some? then content.value.parts.value else []
    else []
  }

  /** The image URL of the last part that has inline data. */
  function LastImageUrl(parts: seq<Part>): Option<string>
  {
    if parts == [] then None
    else
      var last := parts[|parts| - 1];
      if last.inlineData.Some? then Some(DataUrl(last.inlineData.value))
      else LastImageUrl(parts[..|parts| - 1])
  }

  /** The text of the last part that has no inline data and non-empty text. */
  function LastText(parts: seq<Part>): Option<string>
  {
    if parts == [] then None
    else
      var last := parts[|parts| - 1];
      if last.inlineData.None? && Truthy(last.text) then last.text
      else LastText(parts[..|parts| - 1])
  }

  /** There is an image URL exactly when some part has inline data, and then it is the last such part's. */
  lemma {:induction false} LastImageUrlIsLastInlinePart(parts: seq<Part>)
    ensures LastImageUrl(parts).Some? <==> exists i :: 0 <= i < |parts| && parts[i].inlineData.Some?
    ensures LastImageUrl(parts).Some? ==>
      exists i :: 0 <= i < |parts| && parts[i].inlineData.Some?
        && LastImageUrl(parts) == Some(DataUrl(parts[i].inlineData.value))
        && forall j :: i < j < |parts| ==> parts[j].inlineData.None?
    ensures LastImageUrl(parts).Some? ==> LastImageUrl(parts).value != ""
  {
    if parts != [] {
      var n := |parts| - 1;
      var init := parts[..n];
      if parts[n].inlineData.None? {
        LastImageUrlIsLastInlinePart(init);
        assert forall i :: 0 <= i < n ==> init[i] == parts[i];
      }
    }
  }

  /** There is a text exactly when some part is a non-empty text without inline data, and then it is the last such part's. */
  lemma {:induction false} LastTextIsLastTextPart(parts: seq<Part>)
    ensures LastText(parts).Some? <==>
      exists i :: 0 <= i < |parts| && parts[i].inlineData.None? && Truthy(parts[i].text)
    ensures LastText(parts).Some? ==>
      exists i :: 0 <= i < |parts| && parts[i].inlineData.None? && Truthy(parts[i].text)
        && LastText(parts) == parts[i].text
        && forall j :: i < j < |parts| ==> !(parts[j].inlineData.None? && Truthy(parts[j].text))
  {
    if parts != [] {
      var n := |parts| - 1;
      var init := parts[..n];
      if !(parts[n].inlineData.None? && Truthy(parts[n].text)) {
        LastTextIsLastTextPart(init);
        assert forall i :: 0 <= i < n ==> init[i] == parts[i];
      }
    }
  }

  /** The loop over the response parts: each inline part overwrites the image URL, each other non-empty text the text. */
  method ParseResponse(resp: Response) returns (r: GenerationResult)
    ensures r.imageUrl == LastImageUrl(FirstCandidateParts(resp))
    ensures r.text == LastText(FirstCandidateParts(resp))
  {
    var imageUrl: Option<string> := None;
    var text: Option<string> := None;
    var parts := FirstCandidateParts(resp);
    for i := 0 to |parts|
      invariant imageUrl == LastImageUrl(parts[..i])
      invariant text == LastText(parts[..i])
    {
      assert parts[..i + 1][..i] == parts[..i];
      var part := parts[i];
      if part.inlineData.Some? {
        imageUrl := Some(DataUrl(part.inlineData.value));
      } else if Truthy(part.text) {
        text := part.text;
      }
    }
    assert parts[..|parts|] == parts;
    r := GenerationResult(imageUrl, text);
  }

  // ---------------------------------------------------------------- the call

  /**
   * A thrown value: an `Error` with its message; any other object or
   * primitive, with its `message` property when that is a string (None when it
   * is missing or not a string); or `null`/`undefined`, which have no
   * properties at all.
   */
  datatype Thrown = ErrorThrown(message: string) | OtherThrown(messageProperty: Option<string>) | NullishThrown

  /** What is sent: the model name, the configuration lines of the prompt, then the two images. */
  datatype Request = Request(model: string, configuration: seq<string>, images: seq<InlineData>)

  datatype CallOutcome = Responded(response: Response) | CallThrew(thrown: Thrown)

  /** The catch block: an `Error` is re-thrown with the "Generation failed: " prefix, anything else as it is. */
  function Wrap(t: Thrown): (w: Thrown)
    ensures t.ErrorThrown? <==> w.ErrorThrown?
    ensures t.ErrorThrown? ==> w.message == GenerationFailedPrefix + t.message
    ensures !t.ErrorThrown? ==> w == t
  {
    match t
    case ErrorThrown(m) => ErrorThrown(GenerationFailedPrefix + m)
    case _ => t
  }

  /**
   * `generateFabricOverlay`. `apiKey` is `process.env.API_KEY`, `read` what
   * the file reader produces for a file, and `call` the model's answer to a
   * request. Also returned: the files read, in order, and the request sent.
   */
  method GenerateFabricOverlay(
    apiKey: Option<string>, modelImage: File, patternImage: File, settings: GenerationSettings,
    read: File -> ReadOutcome, call: Request -> CallOutcome)
    returns (r: Result<GenerationResult, Thrown>, filesRead: seq<File>, request: Option<Request>)
    ensures !Truthy(apiKey) ==> r == Failure(ErrorThrown(ApiKeyMissingMessage)) && filesRead == [] && request.None?
    ensures Truthy(apiKey) ==> |filesRead| >= 1 && filesRead[0] == modelImage
    ensures Truthy(apiKey) && FileToPart(modelImage, read(modelImage)).Failure? ==>
      && r == Failure(ErrorThrown(GenerationFailedPrefix + FileToPart(modelImage, read(modelImage)).error))
      && filesRead == [modelImage] && request.None?
    ensures Truthy(apiKey) && FileToPart(modelImage, read(modelImage)).Success? ==>
      filesRead == [modelImage, patternImage]
    ensures Truthy(apiKey) && FileToPart(modelImage, read(modelImage)).Success?
            && FileToPart(patternImage, read(patternImage)).Failure? ==>
      r == Failure(ErrorThrown(GenerationFailedPrefix + FileToPart(patternImage, read(patternImage)).error))
      && request.None?
    ensures request.Some? <==>
      Truthy(apiKey) && FileToPart(modelImage, read(modelImage)).Success?
      && FileToPart(patternImage, read(patternImage)).Success?
    ensures request.Some? ==>
      && request.value == Request(ModelName, Configuration(settings),
           [FileToPart(modelImage, read(modelImage)).value, FileToPart(patternImage, read(patternImage)).value])
      && match call(request.value)
         case CallThrew(t) => r == Failure(Wrap(t))
         case Responded(resp) =>
           r == Success(GenerationResult(LastImageUrl(FirstCandidateParts(resp)), LastText(FirstCandidateParts(resp))))
  {
    filesRead, request := [], None;
    if !Truthy(apiKey) {
      r := Failure(ErrorThrown(ApiKeyMissingMessage));
      return;
    }
    filesRead := filesRead + [modelImage];
    var modelPart := FileToPart(modelImage, read(modelImage));
    if modelPart.Failure? {
      r := Failure(Wrap(ErrorThrown(modelPart.error)));
      return;
    }
    filesRead := filesRead + [patternImage];
    var patternPart := FileToPart(patternImage, read(patternImage));
    if patternPart.Failure? {
      r := Failure(Wrap(ErrorThrown(patternPart.error)));
      return;
    }
    var req := Request(ModelName, Configuration(settings), [modelPart.value, patternPart.value]);
    request := Some(req);
    match call(req)
    case CallThrew(t) =>
      r := Failure(Wrap(t));
    case Responded(resp) =>
      var result := ParseResponse(resp);
      r := Success(result);
  }
}
