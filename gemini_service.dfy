/**
 * Request shaping and response scanning around the hosted model API
 * (services/geminiService.ts). The network calls themselves are not modelled: each call's
 * request is returned as a value, and its reply is an input (`Err` when the call throws).
 */
module GeminiService {
  import opened Wrappers
  import opened Types
  import opened Constants

  /** The reasoning budget the thinking mode asks for. */
  const THINKING_BUDGET := 32768

  /** The prefix of every image URL returned by image generation and editing. */
  const PNG_DATA_URL_PREFIX := "data:image/png;base64,"

  /** A file picked in the browser, already read into base64 text with its MIME type. */
  datatype ImageFile = ImageFile(base64: string, mimeType: string)

  /** Binary content inlined into a request or a response. */
  datatype InlineData = InlineData(data: string, mimeType: string)

  /** One part of the contents sent to a model. */
  datatype Part = TextPart(text: string) | InlinePart(inlineData: InlineData)

  /** The config of a chat request: empty, or a thinking budget. */
  datatype ChatConfig = EmptyConfig | ThinkingConfig(thinkingBudget: int)

  /** A caller's position, passed through without arithmetic. */
  datatype LatLng = LatLng(latitude: real, longitude: real)

  /** The grounding tool attached to a grounded request. */
  datatype Tool = GoogleSearch | GoogleMaps(latLng: LatLng)

  datatype ChatRequest = ChatRequest(model: string, parts: seq<Part>, config: ChatConfig)
  datatype ImageGenRequest = ImageGenRequest(model: string, parts: seq<Part>, aspectRatio: AspectRatio, imageSize: ImageSize)
  datatype ImageEditRequest = ImageEditRequest(model: string, parts: seq<Part>)
  datatype GroundedRequest = GroundedRequest(model: string, contents: string, tool: Tool)

  /** The parts of a response candidate; any of them may carry inline data. */
  datatype ResponsePart = ResponsePart(text: Option<string>, inlineData: Option<InlineData>)

  datatype WebChunk = WebChunk(uri: Option<string>, title: Option<string>)
  datatype ReviewSnippet = ReviewSnippet(uri: Option<string>, title: Option<string>)
  datatype PlaceAnswerSources = PlaceAnswerSources(reviewSnippets: Option<seq<ReviewSnippet>>)
  datatype MapsChunk = MapsChunk(uri: Option<string>, title: Option<string>, placeAnswerSources: Option<PlaceAnswerSources>)
  /** A citation chunk of a grounded answer: a web page, a place, or neither. */
  datatype GroundingChunk = GroundingChunk(web: Option<WebChunk>, maps: Option<MapsChunk>)
  datatype GroundingMetadata = GroundingMetadata(groundingChunks: Option<seq<GroundingChunk>>)
  /** A candidate's content; the response may leave out its parts. */
  datatype Content = Content(parts: Option<seq<ResponsePart>>)
  /** One answer of a response; a blocked candidate has no content. */
  datatype Candidate = Candidate(content: Option<Content>, groundingMetadata: Option<GroundingMetadata>)

  /** The fields of a model response the application reads. */
  datatype GenerateContentResponse = GenerateContentResponse(text: Option<string>, candidates: Option<seq<Candidate>>)

  /** The request part `fileToGenerativePart` makes of a picked file. */
  function ImagePart(file: ImageFile): (p: Part)
    ensures p.InlinePart? && p.inlineData.data == file.base64 && p.inlineData.mimeType == file.mimeType
  {
    InlinePart(InlineData(file.base64, file.mimeType))
  }

  /**
   * `generateChatStream`: the streaming request made for a prompt, an optional image and a mode.
   * An image always routes to the image-analysis model; only the thinking mode adds a budget,
   * whichever model is used; the image part, when present, comes before the prompt text.
   */
  function ChatRequestFor(prompt: string, image: Option<ImageFile>, mode: ChatMode): (r: ChatRequest)
    ensures image.Some? ==> r.model == IMAGE_ANALYSIS_MODEL
    ensures image.None? ==> r.model == ChatModel(mode)
    ensures r.config.ThinkingConfig? <==> mode == Thinking
    ensures r.config.ThinkingConfig? ==> r.config.thinkingBudget == 32768
    ensures |r.parts| == (if image.Some? then 2 else 1) && r.parts[|r.parts| - 1] == TextPart(prompt)
    ensures image.Some? ==> r.parts[0] == ImagePart(image.value)
  {
    var modelName := ChatModel(mode);
    var config := if mode == Thinking then ThinkingConfig(THINKING_BUDGET) else EmptyConfig;
    var contents := if image.Some? then [ImagePart(image.value), TextPart(prompt)] else [TextPart(prompt)];
    ChatRequest(if image.Some? then IMAGE_ANALYSIS_MODEL else modelName, contents, config)
  }

  /** An image attachment makes the chat mode irrelevant to routing. */
  lemma ImageOverridesMode(prompt: string, image: ImageFile, m1: ChatMode, m2: ChatMode)
    ensures ChatRequestFor(prompt, Some(image), m1).model == ChatRequestFor(prompt, Some(image), m2).model
  {
  }

  /** The URL under which a PNG payload is handed to the views (RFC 2397, section 3). */
  function DataUrl(data: string): (url: string)
    ensures |url| == |PNG_DATA_URL_PREFIX| + |data|
    ensures url[..|PNG_DATA_URL_PREFIX|] == PNG_DATA_URL_PREFIX
    ensures url[|PNG_DATA_URL_PREFIX|..] == data
  {
    PNG_DATA_URL_PREFIX + data
  }

  /** The payload can be read back from the URL, so distinct payloads give distinct URLs. */
  lemma DataUrlInjective(a: string, b: string)
    ensures DataUrl(a) == DataUrl(b) ==> a == b
  {
    if DataUrl(a) == DataUrl(b) {
      assert a == DataUrl(a)[|PNG_DATA_URL_PREFIX|..];
    }
  }

  /** Part `i` is the first part of `parts` that carries inline data. */
  ghost predicate IsFirstInline(parts: seq<ResponsePart>, i: int) {
    && 0 <= i < |parts|
    && parts[i].inlineData.Some?
    && forall j :: 0 <= j < i ==> parts[j].inlineData.None?
  }

  /** Some part of `parts` carries inline data. */
  ghost predicate HasInline(parts: seq<ResponsePart>) {
    exists i :: 0 <= i < |parts| && parts[i].inlineData.Some?
  }

  /**
   * The loop of `generateImage` and `editImage`: the data URL of the first part with inline
   * data, or the given error when no part has any.
   */
  method FirstInlineImage(parts: seq<ResponsePart>, notFound: string) returns (url: Result<string>)
    ensures url.Ok? <==> HasInline(parts)
    ensures url.Ok? ==> exists i :: IsFirstInline(parts, i) && url.value == DataUrl(parts[i].inlineData.value.data)
    ensures url.Err? ==> url.message == notFound
  {
    var i := 0;
    while i < |parts|
      invariant 0 <= i <= |parts|
      invariant forall j :: 0 <= j < i ==> parts[j].inlineData.None?
    {
      if parts[i].inlineData.Some? {
        assert IsFirstInline(parts, i);
        return Ok(DataUrl(parts[i].inlineData.value.data));
      }
      i := i + 1;
    }
    return Err(notFound);
  }

  /**
   * `response.candidates[0].content.parts`: the parts of the first candidate, or `None` when
   * the call threw or a link of that chain is missing (reading it throws a TypeError).
   */
  function FirstCandidateParts(reply: Result<GenerateContentResponse>): (r: Option<seq<ResponsePart>>)
    ensures r.Some? <==>
      && reply.Ok? && reply.value.candidates.Some? && |reply.value.candidates.value| > 0
      && reply.value.candidates.value[0].content.Some?
      && reply.value.candidates.value[0].content.value.parts.Some?
    ensures r.Some? ==> r.value == reply.value.candidates.value[0].content.value.parts.value
  {
    if reply.Ok? && reply.value.candidates.Some? && |reply.value.candidates.value| > 0 then
      var candidate := reply.value.candidates.value[0];
      if candidate.content.Some? && candidate.content.value.parts.Some?
      then Some(candidate.content.value.parts.value)
      else None
    else None
  }

  /** The reply carries an image: its first candidate has a part with inline data. */
  ghost predicate YieldsImage(reply: Result<GenerateContentResponse>) {
    var parts := FirstCandidateParts(reply);
    parts.Some? && HasInline(parts.value)
  }

  /** `url` is the data URL of the first inline part of the reply's first candidate. */
  ghost predicate IsImageOf(reply: Result<GenerateContentResponse>, url: string) {
    var parts := FirstCandidateParts(reply);
    parts.Some? && exists i :: IsFirstInline(parts.value, i) && url == DataUrl(parts.value[i].inlineData.value.data)
  }

  /** The error `generateImage` throws when no part has inline data. */
  const NO_IMAGE_GENERATED := "No image generated"
  /** The error `editImage` throws when no part has inline data. */
  const NO_IMAGE_FROM_EDIT := "No image generated from edit"
  /** Stands for the TypeError thrown when the first candidate, its content or its parts are missing. */
  const NO_CANDIDATE := "TypeError: no parts in the first candidate"

  /**
   * `generateImage`: the request made for a prompt, aspect ratio and size, and the image URL
   * read from the reply; it fails when the call fails or no part carries an image.
   */
  method GenerateImage(prompt: string, aspectRatio: AspectRatio, size: ImageSize, reply: Result<GenerateContentResponse>)
    returns (request: ImageGenRequest, url: Result<string>)
    ensures request.model == IMAGE_GEN_MODEL && request.parts == [TextPart(prompt)]
    ensures request.aspectRatio == aspectRatio && request.imageSize == size
    ensures url.Ok? <==> YieldsImage(reply)
    ensures url.Ok? ==> IsImageOf(reply, url.value)
    ensures reply.Ok? && FirstCandidateParts(reply).Some? && url.Err? ==> url.message == NO_IMAGE_GENERATED
  {
    request := ImageGenRequest(IMAGE_GEN_MODEL, [TextPart(prompt)], aspectRatio, size);
    var parts := FirstCandidateParts(reply);
    if reply.Err? {
      url := Err(reply.message);
    } else if parts.None? {
      url := Err(NO_CANDIDATE);
    } else {
      url := FirstInlineImage(parts.value, NO_IMAGE_GENERATED);
    }
  }

  /**
   * `editImage`: the request made for a prompt and a source image (image part first), and the
   * image URL read from the reply; it fails when the call fails or no part carries an image.
   */
  method EditImage(prompt: string, image: ImageFile, reply: Result<GenerateContentResponse>)
    returns (request: ImageEditRequest, url: Result<string>)
    ensures request.model == IMAGE_EDIT_MODEL && request.parts == [ImagePart(image), TextPart(prompt)]
    ensures url.Ok? <==> YieldsImage(reply)
    ensures url.Ok? ==> IsImageOf(reply, url.value)
    ensures reply.Ok? && FirstCandidateParts(reply).Some? && url.Err? ==> url.message == NO_IMAGE_FROM_EDIT
  {
    request := ImageEditRequest(IMAGE_EDIT_MODEL, [ImagePart(image), TextPart(prompt)]);
    var parts := FirstCandidateParts(reply);
    if reply.Err? {
      url := Err(reply.message);
    } else if parts.None? {
      url := Err(NO_CANDIDATE);
    } else {
      url := FirstInlineImage(parts.value, NO_IMAGE_FROM_EDIT);
    }
  }

  /** `generateWithSearchGrounding`: the prompt goes to the search model with the search tool. */
  function SearchRequest(prompt: string): (r: GroundedRequest)
    ensures r.model == SEARCH_MODEL && r.contents == prompt && r.tool == GoogleSearch
  {
    GroundedRequest(SEARCH_MODEL, prompt, GoogleSearch)
  }

  /**
   * `generateWithMapsGrounding`: the prompt goes to the maps model with the maps tool, and the
   * caller's location is passed on unchanged.
   */
  function MapsRequest(prompt: string, location: LatLng): (r: GroundedRequest)
    ensures r.model == MAPS_MODEL && r.contents == prompt
    ensures r.tool.GoogleMaps? && r.tool.latLng == location
  {
    GroundedRequest(MAPS_MODEL, prompt, GoogleMaps(location))
  }
}
