/** The value types the views and the gateway exchange (types.ts). */
module Types {
  import opened Wrappers

  /** Who authored a chat message. */
  datatype Role = User | Model

  /**
   * A citation attached to a grounded answer. The declared type gives `title` as a
   * string, but the views copy it from an optional response field, so it may be absent.
   */
  datatype GroundingSource = GroundingSource(uri: string, title: Option<string>)

  /** One entry of the conversation; optional fields of the source are `Option`s. */
  datatype ChatMessage = ChatMessage(
    id: string,
    role: Role,
    text: string,
    image: Option<string>,
    isStreaming: Option<bool>,
    groundingSources: Option<seq<GroundingSource>>)

  /** The chat quality/latency tier chosen by the user. */
  datatype ChatMode = Fast | Pro | Thinking

  /** The aspect ratios an image can be generated with. */
  datatype AspectRatio = Ratio1x1 | Ratio4x3 | Ratio3x4 | Ratio16x9 | Ratio9x16

  /** The sizes an image can be generated with. */
  datatype ImageSize = Size1K | Size2K | Size4K

  /** The string literal each aspect ratio stands for. */
  function AspectRatioText(r: AspectRatio): string {
    match r
    case Ratio1x1 => "1:1"
    case Ratio4x3 => "4:3"
    case Ratio3x4 => "3:4"
    case Ratio16x9 => "16:9"
    case Ratio9x16 => "9:16"
  }

  /** The string literal each image size stands for. */
  function ImageSizeText(s: ImageSize): string {
    match s
    case Size1K => "1K"
    case Size2K => "2K"
    case Size4K => "4K"
  }
}
