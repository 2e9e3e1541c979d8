/**
 * The value types shared by the whole application: the settings enumerations,
 * the session status, files as the browser hands them over, and the result of
 * one generation.
 */
module Types {

  datatype Option<+T> = None | Some(value: T)

  datatype Result<+R, +E> = Success(value: R) | Failure(error: E)

  /** A string in a boolean position: JavaScript treats null/undefined and "" as false. */
  predicate Truthy(s: Option<string>)
  {
    s.Some? && s.value != ""
  }

  /** `s || fallback` for a string. */
  function OrElse(s: string, fallback: string): (r: string)
    ensures s != "" ==> r == s
    ensures s == "" ==> r == fallback
  {
    if s != "" then s else fallback
  }

  type Bytes = seq<bv8>

  /** A browser File: a name, a declared MIME type (possibly empty) and its bytes. */
  datatype File = File(name: string, mimeType: string, content: Bytes)
  {
    function Size(): nat { |content| }
  }

  /** A selected image together with the object URL used to preview it. */
  datatype FileWithPreview = FileWithPreview(file: File, previewUrl: string)

  datatype GenerationResult = GenerationResult(imageUrl: Option<string>, text: Option<string>)

  datatype AppStatus = Idle | Generating | Succeeded | Errored

  datatype PatternScale = Small | Medium | Large | OriginalScale

  datatype FabricType =
    | OriginalFabric | Cotton | Silk | Denim | Wool | Leather | Linen | Velvet | Chiffon

  datatype TargetArea = WholeOutfit | Top | Bottom | Dress | Outerwear

  datatype GenerationSettings = GenerationSettings(
    scale: PatternScale,
    fabricType: FabricType,
    targetArea: TargetArea,
    customPrompt: string)

  /** The string value each enumeration member has in the program. */
  function ScaleName(s: PatternScale): string
  {
    match s
    case Small => "small"
    case Medium => "medium"
    case Large => "large"
    case OriginalScale => "original"
  }

  function FabricName(f: FabricType): string
  {
    match f
    case OriginalFabric => "original"
    case Cotton => "cotton"
    case Silk => "silk"
    case Denim => "denim"
    case Wool => "wool"
    case Leather => "leather"
    case Linen => "linen"
    case Velvet => "velvet"
    case Chiffon => "chiffon"
  }

  function AreaName(a: TargetArea): string
  {
    match a
    case WholeOutfit => "whole outfit"
    case Top => "top"
    case Bottom => "bottom"
    case Dress => "dress"
    case Outerwear => "outerwear"
  }

  /** The settings the session starts with. */
  function DefaultSettings(): (s: GenerationSettings)
    ensures ScaleName(s.scale) == "original" && FabricName(s.fabricType) == "original"
    ensures AreaName(s.targetArea) == "whole outfit" && s.customPrompt == ""
  {
    GenerationSettings(OriginalScale, OriginalFabric, WholeOutfit, "")
  }

  /** Distinct enumeration members have distinct string values. */
  lemma NamesInjective()
    ensures forall a, b :: ScaleName(a) == ScaleName(b) ==> a == b
    ensures forall a, b :: FabricName(a) == FabricName(b) ==> a == b
    ensures forall a, b :: AreaName(a) == AreaName(b) ==> a == b
  {
  }
}
