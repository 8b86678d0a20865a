/** The image editing screen (components/ImageEditView.tsx). */
module ImageEditView {
  import opened Wrappers
  import opened Constants
  import opened JsSemantics
  import opened GeminiService

  /** The error shown when editing fails. */
  const EDIT_FAILED := "Failed to edit image. Please try again."

  class ImageEditView {
    var originalImage: Option<ImageFile>
    var originalImagePreview: Option<string>
    var editedImage: Option<string>
    var prompt: string
    var isLoading: bool
    var error: Option<string>

    /** An edited image and an error are never shown together, and neither is while loading. */
    ghost predicate Valid()
      reads this
    {
      && !(editedImage.Some? && error.Some?)
      && (isLoading ==> editedImage.None? && error.None?)
    }

    constructor ()
      ensures Valid()
      ensures originalImage == None && originalImagePreview == None && editedImage == None
      ensures prompt == "" && !isLoading && error == None
    {
      originalImage := None;
      originalImagePreview := None;
      editedImage := None;
      prompt := "";
      isLoading := false;
      error := None;
    }

    /**
     * `handleImageUpload`: when a file was picked, it becomes the original image, `previewUrl`
     * (the object URL made for it) its preview, and the edited image and error are cleared;
     * an empty selection changes nothing.
     */
    method UploadImage(files: seq<ImageFile>, previewUrl: string)
      modifies this
      ensures files == [] ==> unchanged(this)
      ensures files != [] ==> originalImage == Some(files[0]) && originalImagePreview == Some(previewUrl)
      ensures files != [] ==> editedImage == None && error == None
      ensures prompt == old(prompt) && isLoading == old(isLoading)
    {
      if files != [] {
        originalImage := Some(files[0]);
        originalImagePreview := Some(previewUrl);
        editedImage := None;
        error := None;
      }
    }

    /**
     * The part of `handleSubmit` before the request: nothing happens unless the prompt is
     * non-blank and an original image is present; otherwise loading starts, and the edited
     * image and error are cleared.
     */
    method Start() returns (started: bool)
      modifies this
      ensures started <==> !IsBlank(old(prompt)) && old(originalImage).Some?
      ensures !started ==> unchanged(this)
      ensures started ==> isLoading && editedImage == None && error == None
      ensures started ==> prompt == old(prompt) && originalImage == old(originalImage)
      ensures originalImagePreview == old(originalImagePreview)
    {
      var blank := TrimsToEmpty(prompt);
      if blank || originalImage.None? {
        return false;
      }
      isLoading := true;
      editedImage := None;
      error := None;
      return true;
    }

    /**
     * The part of `handleSubmit` after the request: an image URL is shown, a failure becomes
     * the fixed error; loading ends either way.
     */
    method Finish(url: Result<string>)
      modifies this
      ensures prompt == old(prompt) && originalImage == old(originalImage)
      ensures originalImagePreview == old(originalImagePreview)
      ensures !isLoading
      ensures url.Ok? ==> editedImage == Some(url.value) && error == old(error)
      ensures url.Err? ==> error == Some(EDIT_FAILED) && editedImage == old(editedImage)
    {
      if url.Ok? {
        editedImage := Some(url.value);
      } else {
        error := Some(EDIT_FAILED);
      }
      isLoading := false;
    }

    /**
     * `handleSubmit`: with a non-blank prompt and an original image, one edit request for that
     * image and prompt, after which exactly one of edited image and error is set and loading
     * has ended; otherwise nothing changes and no request is made.
     */
    method Submit(reply: Result<GenerateContentResponse>) returns (request: Option<ImageEditRequest>)
      requires Valid()
      modifies this
      ensures Valid()
      ensures IsBlank(old(prompt)) || old(originalImage).None? ==> request == None && unchanged(this)
      ensures prompt == old(prompt) && originalImagePreview == old(originalImagePreview)
      ensures !IsBlank(old(prompt)) && old(originalImage).Some? ==>
        request == Some(ImageEditRequest(IMAGE_EDIT_MODEL, [ImagePart(old(originalImage).value), TextPart(old(prompt))]))
      ensures !IsBlank(old(prompt)) && old(originalImage).Some? ==>
        && !isLoading && originalImage == old(originalImage)
        && (editedImage.Some? <==> YieldsImage(reply))
        && (error.Some? <==> !YieldsImage(reply))
      ensures !IsBlank(old(prompt)) && old(originalImage).Some? && editedImage.Some? ==>
        IsImageOf(reply, editedImage.value)
      ensures !IsBlank(old(prompt)) && old(originalImage).Some? && error.Some? ==> error.value == EDIT_FAILED
    {
      var started := Start();
      if !started {
        return None;
      }
      var sent, url := EditImage(prompt, originalImage.value, reply);
      request := Some(sent);
      Finish(url);
    }
  }
}
