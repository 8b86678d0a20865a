/** The model routing table and the option lists of the image form (constants.ts). */
module Constants {
  import opened Types

  const FAST_CHAT_MODEL := "gemini-flash-lite-latest"
  const PRO_CHAT_MODEL := "gemini-3-pro-preview"
  const IMAGE_ANALYSIS_MODEL := "gemini-3-pro-preview"
  const IMAGE_GEN_MODEL := "gemini-3-pro-image-preview"
  const IMAGE_EDIT_MODEL := "gemini-2.5-flash-image"
  const SEARCH_MODEL := "gemini-3-flash-preview"
  const MAPS_MODEL := "gemini-2.5-flash"

  /** `MODELS.chat[mode]`: the model a text-only chat request goes to. */
  function ChatModel(mode: ChatMode): (model: string)
    ensures model == FAST_CHAT_MODEL <==> mode == Fast
    ensures model == PRO_CHAT_MODEL <==> mode != Fast
  {
    match mode
    case Fast => FAST_CHAT_MODEL
    case Pro => PRO_CHAT_MODEL
    case Thinking => PRO_CHAT_MODEL
  }

  /** The aspect ratios offered by the image generation form, in display order. */
  const ASPECT_RATIOS: seq<AspectRatio> := [Ratio1x1, Ratio4x3, Ratio3x4, Ratio16x9, Ratio9x16]

  /** The image sizes offered by the image generation form, in display order. */
  const IMAGE_SIZES: seq<ImageSize> := [Size1K, Size2K, Size4K]

  /** No element of `s` occurs twice. */
  predicate Distinct<T(==)>(s: seq<T>) {
    forall i, j :: 0 <= i < j < |s| ==> s[i] != s[j]
  }

  /** The pro and thinking modes are served by the same model. */
  lemma ProAndThinkingShareModel()
    ensures ChatModel(Pro) == ChatModel(Thinking)
  {
  }

  /** The fast mode is served by a different model from the pro mode. */
  lemma FastDiffersFromPro()
    ensures ChatModel(Fast) != ChatModel(Pro)
  {
    assert |ChatModel(Fast)| != |ChatModel(Pro)|;
  }

  /** Image analysis uses the same model as the pro chat mode. */
  lemma ImageAnalysisIsProModel()
    ensures IMAGE_ANALYSIS_MODEL == ChatModel(Pro)
  {
  }

  /** The aspect-ratio list holds every aspect ratio exactly once, in the declared order. */
  lemma AspectRatiosEnumerated()
    ensures |ASPECT_RATIOS| == 5 && Distinct(ASPECT_RATIOS)
    ensures forall r: AspectRatio :: r in ASPECT_RATIOS
    ensures seq(5, i requires 0 <= i < 5 => AspectRatioText(ASPECT_RATIOS[i]))
         == ["1:1", "4:3", "3:4", "16:9", "9:16"]
  {
    forall r: AspectRatio ensures r in ASPECT_RATIOS {
      match r
      case Ratio1x1 => assert ASPECT_RATIOS[0] == r;
      case Ratio4x3 => assert ASPECT_RATIOS[1] == r;
      case Ratio3x4 => assert ASPECT_RATIOS[2] == r;
      case Ratio16x9 => assert ASPECT_RATIOS[3] == r;
      case Ratio9x16 => assert ASPECT_RATIOS[4] == r;
    }
  }

  /** The image-size list holds every image size exactly once, in the declared order. */
  lemma ImageSizesEnumerated()
    ensures |IMAGE_SIZES| == 3 && Distinct(IMAGE_SIZES)
    ensures forall s: ImageSize :: s in IMAGE_SIZES
    ensures seq(3, i requires 0 <= i < 3 => ImageSizeText(IMAGE_SIZES[i])) == ["1K", "2K", "4K"]
  {
    forall s: ImageSize ensures s in IMAGE_SIZES {
      match s
      case Size1K => assert IMAGE_SIZES[0] == s;
      case Size2K => assert IMAGE_SIZES[1] == s;
      case Size4K => assert IMAGE_SIZES[2] == s;
    }
  }
}
