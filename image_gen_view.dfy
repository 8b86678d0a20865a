/** The image generation screen (components/ImageGenView.tsx). */
module ImageGenView {
  import opened Wrappers
  import opened Types
  import opened Constants
  import opened JsSemantics
  import opened GeminiService

  /** The error shown when generation fails. */
  const GENERATE_FAILED := "Failed to generate image. Please try again."

  class ImageGenView {
    var prompt: string
    var aspectRatio: AspectRatio
    var size: ImageSize
    var isLoading: bool
    var generatedImage: Option<string>
    var error: Option<string>

    /** An image and an error are never shown together, and neither is while loading. */
    ghost predicate Valid()
      reads this
    {
      && !(generatedImage.Some? && error.Some?)
      && (isLoading ==> generatedImage.None? && error.None?)
    }

    /** The form starts blank, square, at 1K. */
    constructor ()
      ensures Valid()
      ensures prompt == "" && aspectRatio == Ratio1x1 && size == Size1K
      ensures !isLoading && generatedImage == None && error == None
    {
      prompt := "";
      aspectRatio := Ratio1x1;
      size := Size1K;
      isLoading := false;
      generatedImage := None;
      error := None;
    }

    /**
     * The part of `handleSubmit` before the request: a blank prompt does nothing; otherwise
     * loading starts and the previous image and error are cleared.
     */
    method Start() returns (started: bool)
      modifies this
      ensures started <==> !IsBlank(old(prompt))
      ensures !started ==> unchanged(this)
      ensures started ==> isLoading && generatedImage == None && error == None
      ensures started ==> prompt == old(prompt) && aspectRatio == old(aspectRatio) && size == old(size)
    {
      var blank := TrimsToEmpty(prompt);
      if blank {
        return false;
      }
      isLoading := true;
      generatedImage := None;
      error := None;
      return true;
    }

    /**
     * The part of `handleSubmit` after the request: an image URL is shown, a failure becomes
     * the fixed error; loading ends either way.
     */
    method Finish(url: Result<string>)
      modifies this
      ensures prompt == old(prompt) && aspectRatio == old(aspectRatio) && size == old(size)
      ensures !isLoading
      ensures url.Ok? ==> generatedImage == Some(url.value) && error == old(error)
      ensures url.Err? ==> error == Some(GENERATE_FAILED) && generatedImage == old(generatedImage)
    {
      if url.Ok? {
        generatedImage := Some(url.value);
      } else {
        error := Some(GENERATE_FAILED);
      }
      isLoading := false;
    }

    /**
     * `handleSubmit`: for a non-blank prompt, one generation request with the selected aspect
     * ratio and size, after which exactly one of image and error is set and loading has ended;
     * the image is the first inline image of the reply.
     */
    method Submit(reply: Result<GenerateContentResponse>) returns (request: Option<ImageGenRequest>)
      requires Valid()
      modifies this
      ensures Valid()
      ensures IsBlank(old(prompt)) ==> request == None && unchanged(this)
      ensures prompt == old(prompt) && aspectRatio == old(aspectRatio) && size == old(size)
      ensures !IsBlank(old(prompt)) ==>
        && request.Some? && request.value.model == IMAGE_GEN_MODEL && request.value.parts == [TextPart(old(prompt))]
        && request.value.aspectRatio == old(aspectRatio) && request.value.imageSize == old(size)
      ensures !IsBlank(old(prompt)) ==>
        && !isLoading
        && (generatedImage.Some? <==> YieldsImage(reply))
        && (error.Some? <==> !YieldsImage(reply))
      ensures !IsBlank(old(prompt)) && generatedImage.Some? ==> IsImageOf(reply, generatedImage.value)
      ensures !IsBlank(old(prompt)) && error.Some? ==> error.value == GENERATE_FAILED
    {
      var started := Start();
      if !started {
        return None;
      }
      var sent, url := GenerateImage(prompt, aspectRatio, size, reply);
      request := Some(sent);
      Finish(url);
    }
  }
}
